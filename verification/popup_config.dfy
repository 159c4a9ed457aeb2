/**
 * The configuration of the current generation (base/OAuthPopupConfig.java)
 * and the injector objects it holds (base/OAuthCallbackInjector.java). They
 * share a module because the OAuth 2.0 state injector holds a configuration
 * and writes its `state` field.
 */
module PopupConfig {
  import opened Wrappers
  import opened Failures
  import Uris
  import Http
  import Scribe
  import JavaStrings
  import CallbackInjector

  /** The name the flows inject their id under. */
  const CallbackIdParameterName: string := "callback_id"

  /** The id's parameter name needs no encoding. */
  lemma CallbackIdNameUnreserved()
    ensures CallbackIdParameterName != [] && CallbackInjector.AllUnreserved(CallbackIdParameterName)
  {
  }

  /** `PATH_INJECTOR`, `QUERY_INJECTOR`, or an `OAuth2StateInjector` bound to a configuration. */
  datatype Injector = PathInjector | QueryInjector | StateInjector(config: Config)

  /** The object an injector may write to: the configuration of a state injector. */
  function StateFrame(inj: Injector): set<Config>
  {
    if inj.StateInjector? then {inj.config} else {}
  }

  /** What the configured injector of `c` may write to. */
  function InjectorFrame(c: Config): set<Config>
    reads c
  {
    if c.callbackInjector.Some? then StateFrame(c.callbackInjector.value) else {}
  }

  /**
   * `u.getScheme() + "://" + u.getAuthority() + u.getPath()` of the page the
   * popup is opened from: the getters return the authority and the path
   * decoded, and they are joined without quoting them again.
   */
  function InitialCallbackUrl(location: Uris.Uri): string
  {
    var authority := if location.authority.None? then None else Some(Uris.Decode(location.authority.value));
    OrNull(location.scheme) + "://" + OrNull(authority) + Uris.Decode(location.path)
  }

  /** An option the service builder receives only when it is set and not empty. */
  function NonEmpty(o: Option<string>): (r: Option<string>)
    ensures r.Some? <==> o.Some? && o.value != []
    ensures r.Some? ==> r == o
  {
    if o.Some? && o.value != [] then o else None
  }

  class Config {
    const apiKey: Option<string>
    const apiSecret: Option<string>
    var scope: Option<string>
    var responseType: Option<string>
    var callbackParameterName: Option<string>
    var callbackUrl: Option<string>
    var verifierParameterName: Option<string>
    var signatureType: Option<Scribe.SignatureType>
    var debugStream: Option<Scribe.DebugStream>
    var connectTimeout: Option<int>
    var readTimeout: Option<int>
    var userAgent: Option<string>
    var callbackInjector: Option<Injector>
    var errorParameterName: Option<string>
    var additionalParams: map<string, string>
    /** Written by the state injector on behalf of the flows. */
    var state: Option<string>

    /**
     * The key and secret are fixed here for good; the callback starts as the
     * page's location without its query and fragment; everything else unset.
     */
    constructor(apiKey: Option<string>, apiSecret: Option<string>, location: Uris.Uri)
      ensures this.apiKey == apiKey && this.apiSecret == apiSecret
      ensures callbackUrl == Some(InitialCallbackUrl(location))
      ensures scope.None? && responseType.None? && callbackParameterName.None?
      ensures verifierParameterName.None? && signatureType.None? && debugStream.None?
      ensures connectTimeout.None? && readTimeout.None? && userAgent.None?
      ensures callbackInjector.None? && errorParameterName.None?
      ensures additionalParams == map[] && state.None?
    {
      this.apiKey := apiKey;
      this.apiSecret := apiSecret;
      scope := None;
      responseType := None;
      callbackParameterName := None;
      callbackUrl := Some(InitialCallbackUrl(location));
      verifierParameterName := None;
      signatureType := None;
      debugStream := None;
      connectTimeout := None;
      readTimeout := None;
      userAgent := None;
      callbackInjector := None;
      errorParameterName := None;
      additionalParams := map[];
      state := None;
    }

    method SetScope(scope: Option<string>) returns (r: Config)
      modifies this`scope
      ensures this.scope == scope && r == this
    {
      this.scope := scope;
      r := this;
    }

    method SetResponseType(responseType: Option<string>) returns (r: Config)
      modifies this`responseType
      ensures this.responseType == responseType && r == this
    {
      this.responseType := responseType;
      r := this;
    }

    method SetCallbackParameterName(name: Option<string>) returns (r: Config)
      modifies this`callbackParameterName
      ensures callbackParameterName == name && r == this
    {
      callbackParameterName := name;
      r := this;
    }

    method SetCallbackUrl(url: Option<string>) returns (r: Config)
      modifies this`callbackUrl
      ensures callbackUrl == url && r == this
    {
      callbackUrl := url;
      r := this;
    }

    method SetVerifierParameterName(name: Option<string>) returns (r: Config)
      modifies this`verifierParameterName
      ensures verifierParameterName == name && r == this
    {
      verifierParameterName := name;
      r := this;
    }

    method SetSignatureType(signatureType: Option<Scribe.SignatureType>) returns (r: Config)
      modifies this`signatureType
      ensures this.signatureType == signatureType && r == this
    {
      this.signatureType := signatureType;
      r := this;
    }

    method SetConnectTimeout(timeout: Option<int>) returns (r: Config)
      modifies this`connectTimeout
      ensures connectTimeout == timeout && r == this
    {
      connectTimeout := timeout;
      r := this;
    }

    method SetReadTimeout(timeout: Option<int>) returns (r: Config)
      modifies this`readTimeout
      ensures readTimeout == timeout && r == this
    {
      readTimeout := timeout;
      r := this;
    }

    method SetUserAgent(userAgent: Option<string>) returns (r: Config)
      modifies this`userAgent
      ensures this.userAgent == userAgent && r == this
    {
      this.userAgent := userAgent;
      r := this;
    }

    method SetCallbackInjector(injector: Option<Injector>) returns (r: Config)
      modifies this`callbackInjector
      ensures callbackInjector == injector && r == this
    {
      callbackInjector := injector;
      r := this;
    }

    /** The protected `setState`, used by the state injector. */
    method SetState(state: Option<string>) returns (r: Config)
      modifies this`state
      ensures this.state == state && r == this
    {
      this.state := state;
      r := this;
    }

    method SetDebugStream(stream: Option<Scribe.DebugStream>) returns (r: Config)
      modifies this`debugStream
      ensures debugStream == stream && r == this
    {
      debugStream := stream;
      r := this;
    }

    method SetErrorParameterName(name: Option<string>) returns (r: Config)
      modifies this`errorParameterName
      ensures errorParameterName == name && r == this
    {
      errorParameterName := name;
      r := this;
    }

    /**
     * `getAdditionalParams().put(name, value)`: the map is handed out by
     * reference, so a caller's `put` changes the configuration.
     */
    method PutAdditionalParam(name: string, value: string)
      modifies this`additionalParams
      ensures additionalParams == old(additionalParams)[name := value]
    {
      additionalParams := additionalParams[name := value];
    }

    /**
     * The options `createScribeServiceBuilder` hands to ScribeJava: key and
     * secret always, the string options only when set and not empty, the
     * others when set.
     */
    function BuilderOptions(): Scribe.ServiceOptions
      reads this
    {
      Scribe.ServiceOptions(apiKey, apiSecret, NonEmpty(callbackUrl), signatureType, NonEmpty(scope),
        debugStream, connectTimeout, readTimeout, NonEmpty(userAgent), None, NonEmpty(state),
        NonEmpty(responseType))
    }

    /** `createScribeServiceBuilder`: one conditional builder call per option, in source order. */
    method CreateScribeServiceBuilder() returns (sb: Scribe.ServiceOptions)
      ensures sb == BuilderOptions()
      ensures sb.apiKey == apiKey && sb.apiSecret == apiSecret
      ensures sb.callback.Some? <==> callbackUrl.Some? && callbackUrl.value != []
      ensures sb.scope.Some? <==> scope.Some? && scope.value != []
      ensures sb.userAgent.Some? <==> userAgent.Some? && userAgent.value != []
      ensures sb.state.Some? <==> state.Some? && state.value != []
      ensures sb.responseType.Some? <==> responseType.Some? && responseType.value != []
      ensures sb.signatureType == signatureType && sb.debugStream == debugStream
      ensures sb.connectTimeout == connectTimeout && sb.readTimeout == readTimeout
      ensures sb.grantType.None?
    {
      var b0 := Scribe.NewBuilder(apiKey, apiSecret);
      sb := b0;
      if callbackUrl.Some? && callbackUrl.value != [] {
        sb := sb.(callback := callbackUrl);
      }
      assert sb == b0.(callback := NonEmpty(callbackUrl));
      if signatureType.Some? {
        sb := sb.(signatureType := signatureType);
      }
      if scope.Some? && scope.value != [] {
        sb := sb.(scope := scope);
      }
      var b1 := b0.(callback := NonEmpty(callbackUrl), signatureType := signatureType, scope := NonEmpty(scope));
      assert sb == b1;
      if debugStream.Some? {
        sb := sb.(debugStream := debugStream);
      }
      if connectTimeout.Some? {
        sb := sb.(connectTimeout := connectTimeout);
      }
      assert sb == b1.(debugStream := debugStream, connectTimeout := connectTimeout);
      if readTimeout.Some? {
        sb := sb.(readTimeout := readTimeout);
      }
      var b2 := b1.(debugStream := debugStream, connectTimeout := connectTimeout, readTimeout := readTimeout);
      assert sb == b2;
      if userAgent.Some? && userAgent.value != [] {
        sb := sb.(userAgent := userAgent);
      }
      assert sb == b2.(userAgent := NonEmpty(userAgent));
      if state.Some? && state.value != [] {
        sb := sb.(state := state);
      }
      assert sb == b2.(userAgent := NonEmpty(userAgent), state := NonEmpty(state));
      if responseType.Some? && responseType.value != [] {
        sb := sb.(responseType := responseType);
      }
      assert sb == BuilderOptions();
    }
  }

  /**
   * The initial callback of a page at a well-formed hierarchical location
   * without escapes in its authority and path is that location with its
   * query and fragment dropped.
   */
  lemma InitialCallbackDropsQueryAndFragment(location: Uris.Uri)
    requires Uris.WellFormed(location)
    requires location.scheme.Some? && location.authority.Some?
    requires '%' !in location.authority.value && '%' !in location.path
    ensures Uris.Parse(InitialCallbackUrl(location)) == Some(location.(query := None, fragment := None))
  {
    var u := location.(query := None, fragment := None);
    Uris.DecodeUnescaped(location.authority.value);
    Uris.DecodeUnescaped(location.path);
    assert InitialCallbackUrl(location) == Uris.Show(u);
    Uris.ParseShow(u);
  }

  /**
   * A page whose path holds an escaped space (`/my%20app/`, say) gets a
   * default callback with a bare space in it, which does not parse: every
   * URI injector then refuses it with a syntax error.
   */
  lemma InitialCallbackWithSpace(location: Uris.Uri)
    requires ' ' in Uris.Decode(location.path)
    ensures Uris.Parse(InitialCallbackUrl(location)).None?
  {
    var url := InitialCallbackUrl(location);
    assert ' ' in url;
    Uris.SpaceRefused(url);
  }

  // ------------------------------------------------------ the injectors

  /**
   * The callback an injector returns. The URI injectors build the new URI
   * (a null key reads "null"; the query value is encoded once, see
   * `CallbackInjector.InjectValue`); the state injector returns the callback as
   * it is, and fails only where decoding the stored state fails.
   */
  function InjectedCallback(inj: Injector, callback: Option<string>, key: Option<string>, value: Option<string>)
    : (r: Result<Option<string>, Failure>)
    reads StateFrame(inj)
    ensures inj.StateInjector? ==> (r.Ok? <==> CallbackInjector.DecodedState(inj.config.state).Ok?)
    ensures inj.StateInjector? && r.Ok? ==> r.value == callback
    ensures !inj.StateInjector? && r.Ok? ==> r.value.Some?
  {
    match inj
    case PathInjector =>
      (match CallbackInjector.InjectValue(CallbackInjector.PathInjector, callback, OrNull(key), value)
       case Err(e) => Err(e)
       case Ok(s) => Ok(Some(s)))
    case QueryInjector =>
      (match CallbackInjector.InjectValue(CallbackInjector.QueryInjector, callback, OrNull(key), value)
       case Err(e) => Err(e)
       case Ok(s) => Ok(Some(s)))
    case StateInjector(c) =>
      match CallbackInjector.StateWithPair(c.state, key, value)
      case Err(e) => Err(e)
      case Ok(_) => Ok(callback)
  }

  /**
   * `injectParameterToCallback` of any injector. The state injector stores
   * the state with the new pair in its configuration; nothing else changes.
   */
  method Inject(inj: Injector, callback: Option<string>, key: Option<string>, value: Option<string>)
    returns (r: Result<Option<string>, Failure>)
    modifies StateFrame(inj)`state
    ensures r == old(InjectedCallback(inj, callback, key, value))
    ensures inj.StateInjector? ==>
      inj.config.state == if r.Ok? then Some(CallbackInjector.StateWithPair(old(inj.config.state), key, value).value)
                          else old(inj.config.state)
  {
    match inj
    case StateInjector(c) =>
      var s := CallbackInjector.StateWithPair(c.state, key, value);
      if s.Err? {
        return Err(s.error);
      }
      var _ := c.SetState(Some(s.value));
      r := Ok(callback);
    case PathInjector =>
      r := InjectedCallback(inj, callback, key, value);
    case QueryInjector =>
      r := InjectedCallback(inj, callback, key, value);
  }

  /**
   * The state injector's extraction loop: decode the state, split it at
   * ',', and return the value of the first pair whose name is the key.
   */
  method StateExtract(state: Option<string>, key: string) returns (r: Result<Option<string>, Failure>)
    ensures r == CallbackInjector.StateLookup(state, key)
  {
    var decoded := CallbackInjector.DecodedState(state);
    if decoded.Err? {
      return Err(decoded.error);
    }
    if decoded.value == [] {
      return Ok(None);
    }
    var pairs := JavaStrings.Split(decoded.value, ',');
    var i := 0;
    while i < |pairs|
      invariant 0 <= i <= |pairs|
      invariant CallbackInjector.FirstValue(pairs[i..], key) == CallbackInjector.FirstValue(pairs, key)
    {
      var kv := JavaStrings.Split(pairs[i], ':');
      if |kv| == 0 {
        return Err(IndexOutOfBounds);
      }
      if kv[0] == key {
        if |kv| < 2 {
          return Err(IndexOutOfBounds);
        }
        return Ok(Some(kv[1]));
      }
      assert pairs[i..][1..] == pairs[i + 1..];
      i := i + 1;
    }
    return Ok(None);
  }

  /**
   * What `extractParameterFromCallbackRequest` returns as written: the state
   * injector consults its configuration's state and never the request.
   */
  function ExtractedAsWritten(inj: Injector, req: Http.Request, key: string): Result<Option<string>, Failure>
    reads StateFrame(inj)
  {
    match inj
    case PathInjector => Ok(CallbackInjector.PathExtract(req, key))
    case QueryInjector => Ok(CallbackInjector.QueryExtract(req, key))
    case StateInjector(c) => CallbackInjector.StateLookup(c.state, key)
  }

  /**
   * The extraction the state injector's design calls for: the provider
   * echoes the state back as the request parameter `state`, and that is
   * where the pairs are looked up.
   */
  function Extracted(inj: Injector, req: Http.Request, key: string): Result<Option<string>, Failure>
  {
    match inj
    case PathInjector => Ok(CallbackInjector.PathExtract(req, key))
    case QueryInjector => Ok(CallbackInjector.QueryExtract(req, key))
    case StateInjector(_) => CallbackInjector.StateLookup(Http.Parameter(req, Some("state")), key)
  }

  method ExtractAsWritten(inj: Injector, req: Http.Request, key: string) returns (r: Result<Option<string>, Failure>)
    ensures r == ExtractedAsWritten(inj, req, key)
  {
    match inj
    case StateInjector(c) =>
      r := StateExtract(c.state, key);
    case PathInjector =>
      r := Ok(CallbackInjector.PathExtract(req, key));
    case QueryInjector =>
      r := Ok(CallbackInjector.QueryExtract(req, key));
  }

  method Extract(inj: Injector, req: Http.Request, key: string) returns (r: Result<Option<string>, Failure>)
    ensures r == Extracted(inj, req, key)
  {
    match inj
    case StateInjector(_) =>
      r := StateExtract(Http.Parameter(req, Some("state")), key);
    case PathInjector =>
      r := Ok(CallbackInjector.PathExtract(req, key));
    case QueryInjector =>
      r := Ok(CallbackInjector.QueryExtract(req, key));
  }
}
