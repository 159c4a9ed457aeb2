/**
 * The configuration of the earlier generation (OAuthPopupConfig.java in the
 * top package): the same kind of fluent record as the current one, with a
 * grant type, the keyed injecters, no user agent, and a callback that
 * starts unset. It becomes the Scribe `OAuthConfig` as it is, without the
 * current generation's filtering of empty strings.
 */
module LegacyConfig {
  import opened Wrappers
  import Scribe
  import LegacyInjector

  class Config {
    const apiKey: Option<string>
    const apiSecret: Option<string>
    var scope: Option<string>
    var grantType: Option<string>
    var responseType: Option<string>
    var callbackParameterName: Option<string>
    var verifierParameterName: Option<string>
    var signatureType: Option<Scribe.SignatureType>
    var outputStream: Option<Scribe.DebugStream>
    var connectTimeout: Option<int>
    var readTimeout: Option<int>
    var callbackInjector: Option<LegacyInjector.Injecter>
    var errorParameterName: Option<string>
    /** Written on behalf of the flow. */
    var callback: Option<string>
    var state: Option<string>

    /** The key and secret are fixed for good; everything else starts unset. */
    constructor(apiKey: Option<string>, apiSecret: Option<string>)
      ensures this.apiKey == apiKey && this.apiSecret == apiSecret
      ensures scope.None? && grantType.None? && responseType.None? && callbackParameterName.None?
      ensures verifierParameterName.None? && signatureType.None? && outputStream.None?
      ensures connectTimeout.None? && readTimeout.None? && callbackInjector.None?
      ensures errorParameterName.None? && callback.None? && state.None?
    {
      this.apiKey := apiKey;
      this.apiSecret := apiSecret;
      scope := None;
      grantType := None;
      responseType := None;
      callbackParameterName := None;
      verifierParameterName := None;
      signatureType := None;
      outputStream := None;
      connectTimeout := None;
      readTimeout := None;
      callbackInjector := None;
      errorParameterName := None;
      callback := None;
      state := None;
    }

    /**
     * `asScribeConfig`: every option goes to Scribe as it is, an empty
     * string included; there is no user agent.
     */
    function AsScribeConfig(): (o: Scribe.ServiceOptions)
      reads this
      ensures o.apiKey == apiKey && o.apiSecret == apiSecret && o.callback == callback
      ensures o.signatureType == signatureType && o.scope == scope && o.debugStream == outputStream
      ensures o.connectTimeout == connectTimeout && o.readTimeout == readTimeout
      ensures o.grantType == grantType && o.state == state && o.responseType == responseType
      ensures o.userAgent.None?
    {
      Scribe.ServiceOptions(apiKey, apiSecret, callback, signatureType, scope, outputStream,
        connectTimeout, readTimeout, None, grantType, state, responseType)
    }

    method SetScope(scope: Option<string>) returns (r: Config)
      modifies this`scope
      ensures this.scope == scope && r == this
    {
      this.scope := scope;
      r := this;
    }

    method SetGrantType(grantType: Option<string>) returns (r: Config)
      modifies this`grantType
      ensures this.grantType == grantType && r == this
    {
      this.grantType := grantType;
      r := this;
    }

    method SetResponseType(responseType: Option<string>) returns (r: Config)
      modifies this`responseType
      ensures this.responseType == responseType && r == this
    {
      this.responseType := responseType;
      r := this;
    }

    method SetCallbackParameterName(name: Option<string>) returns (r: Config)
      modifies this`callbackParameterName
      ensures callbackParameterName == name && r == this
    {
      callbackParameterName := name;
      r := this;
    }

    method SetVerifierParameterName(name: Option<string>) returns (r: Config)
      modifies this`verifierParameterName
      ensures verifierParameterName == name && r == this
    {
      verifierParameterName := name;
      r := this;
    }

    method SetSignatureType(signatureType: Option<Scribe.SignatureType>) returns (r: Config)
      modifies this`signatureType
      ensures this.signatureType == signatureType && r == this
    {
      this.signatureType := signatureType;
      r := this;
    }

    method SetConnectTimeout(timeout: Option<int>) returns (r: Config)
      modifies this`connectTimeout
      ensures connectTimeout == timeout && r == this
    {
      connectTimeout := timeout;
      r := this;
    }

    method SetReadTimeout(timeout: Option<int>) returns (r: Config)
      modifies this`readTimeout
      ensures readTimeout == timeout && r == this
    {
      readTimeout := timeout;
      r := this;
    }

    method SetCallbackInjector(injector: Option<LegacyInjector.Injecter>) returns (r: Config)
      modifies this`callbackInjector
      ensures callbackInjector == injector && r == this
    {
      callbackInjector := injector;
      r := this;
    }

    method SetCallback(callback: Option<string>) returns (r: Config)
      modifies this`callback
      ensures this.callback == callback && r == this
    {
      this.callback := callback;
      r := this;
    }

    method SetState(state: Option<string>) returns (r: Config)
      modifies this`state
      ensures this.state == state && r == this
    {
      this.state := state;
      r := this;
    }

    method SetOutputStream(stream: Option<Scribe.DebugStream>) returns (r: Config)
      modifies this`outputStream
      ensures outputStream == stream && r == this
    {
      outputStream := stream;
      r := this;
    }

    method SetErrorParameterName(name: Option<string>) returns (r: Config)
      modifies this`errorParameterName
      ensures errorParameterName == name && r == this
    {
      errorParameterName := name;
      r := this;
    }
  }

  /** `getStandardOAuth10aConfig`: no error parameter, grant type or response type. */
  method StandardOAuth10aConfig(apiKey: Option<string>, apiSecret: Option<string>) returns (c: Config)
    ensures fresh(c)
    ensures c.apiKey == apiKey && c.apiSecret == apiSecret
    ensures c.callbackParameterName == Some("oauth_callback")
    ensures c.verifierParameterName == Some("oauth_verifier")
    ensures c.signatureType == Some(Scribe.QueryString)
    ensures c.callbackInjector == Some(LegacyInjector.QueryInjecter)
    ensures c.errorParameterName.None? && c.grantType.None? && c.responseType.None?
    ensures c.scope.None? && c.callback.None? && c.state.None?
    ensures c.outputStream.None? && c.connectTimeout.None? && c.readTimeout.None?
  {
    c := new Config(apiKey, apiSecret);
    c := c.SetCallbackParameterName(Some("oauth_callback"));
    c := c.SetVerifierParameterName(Some("oauth_verifier"));
    c := c.SetSignatureType(Some(Scribe.QueryString));
    c := c.SetCallbackInjector(Some(LegacyInjector.QueryInjecter));
  }

  /** `getStandardOAuth20Config`. */
  method StandardOAuth20Config(apiKey: Option<string>, apiSecret: Option<string>) returns (c: Config)
    ensures fresh(c)
    ensures c.apiKey == apiKey && c.apiSecret == apiSecret
    ensures c.callbackParameterName == Some("redirect_uri")
    ensures c.verifierParameterName == Some("code") && c.responseType == Some("code")
    ensures c.grantType == Some("authorization_code")
    ensures c.signatureType == Some(Scribe.QueryString)
    ensures c.callbackInjector == Some(LegacyInjector.QueryInjecter)
    ensures c.errorParameterName == Some("error")
    ensures c.scope.None? && c.callback.None? && c.state.None?
    ensures c.outputStream.None? && c.connectTimeout.None? && c.readTimeout.None?
  {
    c := new Config(apiKey, apiSecret);
    c := c.SetCallbackParameterName(Some("redirect_uri"));
    c := c.SetVerifierParameterName(Some("code"));
    c := c.SetResponseType(Some("code"));
    c := c.SetGrantType(Some("authorization_code"));
    c := c.SetSignatureType(Some(Scribe.QueryString));
    c := c.SetCallbackInjector(Some(LegacyInjector.QueryInjecter));
    c := c.SetErrorParameterName(Some("error"));
  }
}
