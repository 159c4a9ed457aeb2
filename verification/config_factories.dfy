/**
 * The standard configurations of the current generation
 * (oauth10a/OAuth10aPopupConfigImpl.java, oauth20/OAuth20PopupConfigImpl.java):
 * a fresh configuration and a chain of setters.
 */
module ConfigFactories {
  import opened Wrappers
  import Uris
  import Scribe
  import opened PopupConfig

  /** `OAuth10aPopupConfigImpl.getStandardOAuthConfig`. */
  method StandardOAuth10aConfig(apiKey: Option<string>, apiSecret: Option<string>, location: Uris.Uri)
    returns (c: Config)
    ensures fresh(c)
    ensures c.apiKey == apiKey && c.apiSecret == apiSecret
    ensures c.callbackParameterName == Some("oauth_callback")
    ensures c.verifierParameterName == Some("oauth_verifier")
    ensures c.signatureType == Some(Scribe.QueryString)
    ensures c.callbackInjector == Some(QueryInjector)
    ensures c.errorParameterName.None? && c.responseType.None? && c.scope.None? && c.state.None?
    ensures c.callbackUrl == Some(InitialCallbackUrl(location))
    ensures c.debugStream.None? && c.connectTimeout.None? && c.readTimeout.None? && c.userAgent.None?
    ensures c.additionalParams == map[]
  {
    c := new Config(apiKey, apiSecret, location);
    c := c.SetCallbackParameterName(Some("oauth_callback"));
    c := c.SetVerifierParameterName(Some("oauth_verifier"));
    c := c.SetSignatureType(Some(Scribe.QueryString));
    c := c.SetCallbackInjector(Some(QueryInjector));
  }

  /**
   * `OAuth20PopupConfigImpl.getStandardOAuthConfig`: the injector is a state
   * injector bound to the very configuration it is installed in.
   */
  method StandardOAuth20Config(apiKey: Option<string>, apiSecret: Option<string>, location: Uris.Uri)
    returns (c: Config)
    ensures fresh(c)
    ensures c.apiKey == apiKey && c.apiSecret == apiSecret
    ensures c.callbackParameterName == Some("redirect_uri")
    ensures c.verifierParameterName == Some("code") && c.responseType == Some("code")
    ensures c.signatureType == Some(Scribe.QueryString)
    ensures c.errorParameterName == Some("error")
    ensures c.callbackInjector == Some(StateInjector(c))
    ensures c.scope.None? && c.state.None?
    ensures c.callbackUrl == Some(InitialCallbackUrl(location))
    ensures c.debugStream.None? && c.connectTimeout.None? && c.readTimeout.None? && c.userAgent.None?
    ensures c.additionalParams == map[]
  {
    c := new Config(apiKey, apiSecret, location);
    c := c.SetCallbackParameterName(Some("redirect_uri"));
    c := c.SetVerifierParameterName(Some("code"));
    c := c.SetResponseType(Some("code"));
    c := c.SetSignatureType(Some(Scribe.QueryString));
    c := c.SetErrorParameterName(Some("error"));
    var _ := c.SetCallbackInjector(Some(StateInjector(c)));
  }
}
