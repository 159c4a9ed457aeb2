/**
 * The ScribeJava client as the popup sees it. Its services talk to the
 * provider over HTTP, so each call is an oracle: a function field that the
 * model does not interpret, returning either a value or the message of the
 * `OAuthException`/`IOException` it raises.
 */
module Scribe {
  import opened Wrappers

  datatype SignatureType = Header | QueryString

  /** The debug `OutputStream`, by identity only. */
  datatype DebugStream = DebugStream(name: string)

  /** A request or access token (`OAuth1RequestToken`, `OAuth1AccessToken`, `OAuth2AccessToken`). */
  datatype Token = Token(token: string, secret: string, rawResponse: string)

  /**
   * What a `ServiceBuilder` (and the older `OAuthConfig`) has been given;
   * `None` is an option never set.
   */
  datatype ServiceOptions = ServiceOptions(
    apiKey: Option<string>,
    apiSecret: Option<string>,
    callback: Option<string>,
    signatureType: Option<SignatureType>,
    scope: Option<string>,
    debugStream: Option<DebugStream>,
    connectTimeout: Option<int>,
    readTimeout: Option<int>,
    userAgent: Option<string>,
    grantType: Option<string>,
    state: Option<string>,
    responseType: Option<string>)

  /** `new ServiceBuilder().apiKey(key).apiSecret(secret)`. */
  function NewBuilder(apiKey: Option<string>, apiSecret: Option<string>): (sb: ServiceOptions)
    ensures sb.apiKey == apiKey && sb.apiSecret == apiSecret
    ensures sb.callback.None? && sb.signatureType.None? && sb.scope.None? && sb.debugStream.None?
    ensures sb.connectTimeout.None? && sb.readTimeout.None? && sb.userAgent.None?
    ensures sb.grantType.None? && sb.state.None? && sb.responseType.None?
  {
    ServiceOptions(apiKey, apiSecret, None, None, None, None, None, None, None, None, None, None)
  }

  /** `OAuth10aService`: request token, access-token exchange and authorization URL. */
  datatype OAuth10aService = OAuth10aService(
    requestToken: Result<Token, string>,
    accessToken: (Option<Token>, string) -> Result<Token, string>,
    authorizationUrl: Option<Token> -> string)

  /** `OAuth20Service`: access-token exchange of a code, authorization URL from extra parameters. */
  datatype OAuth20Service = OAuth20Service(
    accessToken: string -> Result<Token, string>,
    authorizationUrl: map<string, string> -> string)

  datatype Service = Service10a(s10a: OAuth10aService) | Service20(s20: OAuth20Service)

  /**
   * A `DefaultApi10a` or `DefaultApi20`: the simple name of its class (which
   * error messages quote) and how it builds a service from the options.
   */
  datatype Api =
    | Api10a(simpleName: string, build10a: ServiceOptions -> OAuth10aService)
    | Api20(simpleName: string, build20: ServiceOptions -> OAuth20Service)

  /** `builder.build(api)`: a service of the API's own protocol version. */
  function Build(api: Api, options: ServiceOptions): (s: Service)
    ensures api.Api10a? <==> s.Service10a?
  {
    match api
    case Api10a(_, b) => Service10a(b(options))
    case Api20(_, b) => Service20(b(options))
  }
}
