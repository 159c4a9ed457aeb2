/**
 * One authorization flow of the earlier generation (OAuthData.java): a
 * single class for both protocol versions, holding either a 1.0a or a 2.0
 * API. It has its own id counter, injects `callback_id=<id>` into its
 * configuration's callback with the keyed injecters, tells its listeners
 * whether the token came from OAuth 2.0, and keeps the access token of a
 * 1.0a exchange only.
 */
module LegacyFlow {
  import opened Wrappers
  import opened Failures
  import JavaStrings
  import Uris
  import Http
  import Scribe
  import Events
  import Seqs
  import CallbackInjector
  import LegacyInjector
  import OAuthFlow
  import opened LegacyConfig

  const CallbackIdParameterName: string := "callback_id"

  /** The id's parameter name needs no encoding. */
  lemma CallbackIdNameUnreserved()
    ensures CallbackIdParameterName != [] && CallbackInjector.AllUnreserved(CallbackIdParameterName)
  {
  }

  /** Canonical name of the flow class, the prefix of its session attributes. */
  const DataClassName: string := "org.vaadin.addon.oauthpopup.OAuthData"

  function SessionAttributeName(id: string): string
  {
    OAuthFlow.AttributeName(DataClassName, id)
  }

  /** What a listener of this generation is told: a success says which protocol version it came from. */
  datatype Event = AuthSuccessful(token: Scribe.Token, isOAuth20: bool) | AuthDenied(reason: string)

  /**
   * `injectParameterToCallback` of the keyed injecters, the value encoded
   * once (see `CallbackInjector.InjectValue`).
   */
  function Injected(inj: LegacyInjector.Injecter, callback: Option<string>, key: string, value: Option<string>)
    : (r: Result<string, Failure>)
    ensures r == CallbackInjector.InjectValue(LegacyInjector.Counterpart(inj), callback, key, value)
    ensures inj.PathInjecter? ==> r == LegacyInjector.Inject(inj, callback, key, value)
  {
    CallbackInjector.InjectValue(LegacyInjector.Counterpart(inj), callback, key, value)
  }

  /** `isCallbackForMe`: the extracted `callback_id` must be the id; a null injecter throws. */
  function CallbackForMe(injector: Option<LegacyInjector.Injecter>, id: string, req: Http.Request)
    : (r: Result<bool, Failure>)
    ensures injector.None? ==> r == Err(NullPointer)
    ensures injector.Some? ==>
      (r == Ok(true) <==> LegacyInjector.Extract(injector.value, req, CallbackIdParameterName) == Some(id))
    ensures injector.Some? ==> r.Ok?
  {
    match injector
    case None => Err(NullPointer)
    case Some(inj) => Ok(LegacyInjector.Extract(inj, req, CallbackIdParameterName) == Some(id))
  }

  class Flow {
    const id: string
    const api: Scribe.Api
    const config: Config
    var listeners: seq<Events.Listener>
    var accessToken: Option<Scribe.Token>
    var service: Option<Scribe.Service>

    predicate Valid()
      reads this
    {
      service.Some? ==> (service.value.Service10a? <==> api.Api10a?)
    }

    constructor Init(id: string, api: Scribe.Api, config: Config)
      ensures this.id == id && this.api == api && this.config == config
      ensures listeners == [] && accessToken.None? && service.None?
    {
      this.id := id;
      this.api := api;
      this.config := config;
      listeners := [];
      accessToken := None;
      service := None;
    }

    /**
     * Either constructor: draw the next id and inject it into the
     * configuration's callback. A missing injecter or callback throws
     * NullPointerException, an unparsable callback the injecter's
     * exception; the callback is then left as it was.
     */
    static method Create(counter: OAuthFlow.IdCounter, api: Scribe.Api, config: Config) returns (r: Result<Flow, Failure>)
      modifies counter, config`callback
      ensures counter.latestId == old(counter.latestId) + 1
      ensures old(config.callbackInjector).None? ==> r == Err(NullPointer) && config.callback == old(config.callback)
      ensures old(config.callbackInjector).Some? ==>
        var fid := JavaStrings.Decimal(counter.latestId);
        var injected := Injected(old(config.callbackInjector).value, old(config.callback),
                                 CallbackIdParameterName, Some(fid));
        (r.Ok? <==> injected.Ok?)
        && (r.Err? ==> r.error == injected.error && config.callback == old(config.callback))
        && (r.Ok? ==> config.callback == Some(injected.value) && fresh(r.value) && r.value.Valid()
                      && r.value.id == fid && r.value.api == api && r.value.config == config
                      && r.value.listeners == [] && r.value.accessToken.None? && r.value.service.None?)
    {
      var fid := counter.NextId();
      if config.callbackInjector.None? {
        return Err(NullPointer);
      }
      var injected := Injected(config.callbackInjector.value, config.callback, CallbackIdParameterName, Some(fid));
      if injected.Err? {
        return Err(injected.error);
      }
      var _ := config.SetCallback(Some(injected.value));
      var flow := new Flow.Init(fid, api, config);
      r := Ok(flow);
    }

    /** `isOAuth10a`: exactly one of the two version predicates holds. */
    function IsOAuth10a(): (r: bool)
      ensures r <==> !IsOAuth20()
    {
      api.Api10a?
    }

    function IsOAuth20(): bool
    {
      api.Api20?
    }

    method AddListener(l: Events.Listener)
      modifies this`listeners
      ensures listeners == old(listeners) + [l]
    {
      listeners := listeners + [l];
    }

    method RemoveListener(l: Events.Listener)
      modifies this`listeners
      ensures listeners == Seqs.RemoveFirst(old(listeners), l)
    {
      listeners := Seqs.RemoveFirst(listeners, l);
    }

    /** The cached service, or the one the Scribe configuration builds. */
    function CurrentService(): (s: Scribe.Service)
      requires Valid()
      reads this, config
      ensures api.Api10a? <==> s.Service10a?
    {
      if service.Some? then service.value else Scribe.Build(api, config.AsScribeConfig())
    }

    /** `getService`: built on first use, then cached. */
    method GetService() returns (s: Scribe.Service)
      requires Valid()
      modifies this`service
      ensures Valid()
      ensures s == old(CurrentService()) && service == Some(s)
    {
      if service.None? {
        service := Some(Scribe.Build(api, config.AsScribeConfig()));
      }
      s := service.value;
    }

    /**
     * `createNewRequestToken`: null for OAuth 2.0, where the service is not
     * even built; the 1.0a request token otherwise, a failure rethrown as
     * "Getting request token failed.".
     */
    method CreateNewRequestToken() returns (r: Result<Option<Scribe.Token>, Failure>)
      requires Valid()
      modifies this`service
      ensures Valid() && r == old(NewRequestToken())
      ensures IsOAuth20() ==> r == Ok(None) && service == old(service)
      ensures IsOAuth10a() ==> service == Some(old(CurrentService()))
      ensures IsOAuth10a() ==>
        (match old(CurrentService()).s10a.requestToken
         case Ok(t) => r == Ok(Some(t))
         case Err(_) => r == Err(OAuthFlow.Enriched(api, "Getting request token failed.")))
    {
      if IsOAuth20() {
        return Ok(None);
      }
      var s := GetService();
      match s.s10a.requestToken
      case Ok(t) =>
        r := Ok(Some(t));
      case Err(_) =>
        r := Err(OAuthFlow.Enriched(api, "Getting request token failed."));
    }

    /** What `createNewRequestToken` answers in the current state. */
    function NewRequestToken(): (r: Result<Option<Scribe.Token>, Failure>)
      requires Valid()
      reads this, config
      ensures IsOAuth20() ==> r == Ok(None)
      ensures r.Err? ==> r == Err(OAuthFlow.Enriched(api, "Getting request token failed."))
    {
      match CurrentService()
      case Service20(_) => Ok(None)
      case Service10a(s10a) =>
        (match s10a.requestToken
         case Ok(t) => Ok(Some(t))
         case Err(_) => Err(OAuthFlow.Enriched(api, "Getting request token failed.")))
    }

    /**
     * `setVerifier`: exchange the verifier for an access token with the
     * service of the flow's version, keep the token for 1.0a only, and tell
     * every listener the token and whether it came from OAuth 2.0. A failed
     * exchange is rethrown as "Getting access token failed." and nobody is
     * told.
     */
    method SetVerifier(requestToken: Option<Scribe.Token>, verifier: string)
      returns (r: Result<seq<Events.Delivery<Event>>, Failure>)
      requires Valid()
      modifies this`accessToken, this`service
      ensures Valid() && service == Some(old(CurrentService()))
      ensures var ex := OAuthFlow.Exchange(old(CurrentService()), requestToken, verifier);
        (ex.Ok? ==> accessToken == (if IsOAuth10a() then Some(ex.value) else old(accessToken))
                    && r == Ok(Events.Broadcast(listeners, AuthSuccessful(ex.value, IsOAuth20()))))
        && (ex.Err? ==> accessToken == old(accessToken)
                        && r == Err(OAuthFlow.Enriched(api, "Getting access token failed.")))
    {
      var s := GetService();
      var ex := OAuthFlow.Exchange(s, requestToken, verifier);
      if ex.Err? {
        return Err(OAuthFlow.Enriched(api, "Getting access token failed."));
      }
      if !IsOAuth20() {
        accessToken := Some(ex.value);
      }
      var ds := Events.Fire(listeners, AuthSuccessful(ex.value, IsOAuth20()));
      r := Ok(ds);
    }

    /** `setDenied`: every listener is told the reason, in order. */
    method SetDenied(reason: string) returns (ds: seq<Events.Delivery<Event>>)
      ensures ds == Events.Broadcast(listeners, AuthDenied(reason))
    {
      ds := Events.Fire(listeners, AuthDenied(reason));
    }

    method IsCallbackForMe(req: Http.Request) returns (r: Result<bool, Failure>)
      ensures r == CallbackForMe(config.callbackInjector, id, req)
    {
      if config.callbackInjector.None? {
        return Err(NullPointer);
      }
      var x := LegacyInjector.Extract(config.callbackInjector.value, req, CallbackIdParameterName);
      r := Ok(x == Some(id));
    }

    /**
     * The URL the popup sends the user to: the 2.0 service's URL as it is;
     * the 1.0a service's URL for the request token with the callback
     * injected under the callback parameter name (a null name reads "null").
     */
    function AuthorizationUrlFor(requestToken: Option<Scribe.Token>): (r: Result<string, Failure>)
      requires Valid()
      reads this, config
      ensures IsOAuth20() ==> r == Ok(CurrentService().s20.authorizationUrl(map[]))
      ensures IsOAuth10a() && config.callbackInjector.None? ==> r == Err(NullPointer)
      ensures IsOAuth10a() && config.callbackInjector.Some? ==>
        r == Injected(config.callbackInjector.value, Some(CurrentService().s10a.authorizationUrl(requestToken)),
                      OrNull(config.callbackParameterName), config.callback)
    {
      match CurrentService()
      case Service20(s20) => Ok(s20.authorizationUrl(map[]))
      case Service10a(s10a) =>
        (match config.callbackInjector
         case None => Err(NullPointer)
         case Some(inj) =>
           Injected(inj, Some(s10a.authorizationUrl(requestToken)), OrNull(config.callbackParameterName), config.callback))
    }

    /**
     * Building and caching the service changes nothing the authorization
     * URL depends on.
     */
    twostate lemma AuthorizationUrlForKept(requestToken: Option<Scribe.Token>)
      requires old(Valid()) && Valid()
      requires service == old(service) || service == Some(old(CurrentService()))
      requires unchanged(config)
      ensures AuthorizationUrlFor(requestToken) == old(AuthorizationUrlFor(requestToken))
    {
      assert CurrentService() == old(CurrentService());
    }

    /** `getAuthorizationUrl`. */
    method AuthorizationUrl(requestToken: Option<Scribe.Token>) returns (r: Result<string, Failure>)
      requires Valid()
      modifies this`service
      ensures Valid() && service == Some(old(CurrentService()))
      ensures r == old(AuthorizationUrlFor(requestToken))
    {
      var s := GetService();
      match s
      case Service20(s20) =>
        r := Ok(s20.authorizationUrl(map[]));
      case Service10a(s10a) =>
        if config.callbackInjector.None? {
          return Err(NullPointer);
        }
        r := Injected(config.callbackInjector.value, Some(s10a.authorizationUrl(requestToken)),
                      OrNull(config.callbackParameterName), config.callback);
    }
  }

  /**
   * A flow recognises the redirect to the callback it injected its id into,
   * and a flow with any other id refuses it (for the query injecter, given
   * a callback without a `callback_id` of its own).
   */
  lemma CallbackReachesItsFlow(inj: LegacyInjector.Injecter, callback: string, n: nat, m: nat)
    requires Uris.Rebuildable(callback)
    requires inj.QueryInjecter?
             ==> Http.Lookup(Http.QueryParameters(Uris.Requoted(Uris.Parse(callback).value).query), CallbackIdParameterName).None?
    ensures var r := Injected(inj, Some(callback), CallbackIdParameterName, Some(JavaStrings.Decimal(n)));
      r.Ok? && Uris.Parse(r.value).Some?
      && CallbackForMe(Some(inj), JavaStrings.Decimal(m), Http.Arrival(Uris.Parse(r.value).value)) == Ok(m == n)
  {
    var id := JavaStrings.Decimal(n);
    CallbackInjector.DecimalUnreserved(n);
    IdRoundTrip(inj, callback, id);
    var r := Injected(inj, Some(callback), CallbackIdParameterName, Some(id));
    ClaimsOnlyItsId(inj, Http.Arrival(Uris.Parse(r.value).value), id, JavaStrings.Decimal(m));
    if m != n {
      JavaStrings.DecimalInjective(m, n);
    }
  }

  /** A flow whose injecter extracts `found` claims the request exactly when `found` is its id. */
  lemma ClaimsOnlyItsId(inj: LegacyInjector.Injecter, req: Http.Request, found: string, id: string)
    requires LegacyInjector.Extract(inj, req, CallbackIdParameterName) == Some(found)
    ensures CallbackForMe(Some(inj), id, req) == Ok(found == id)
  {
  }

  /** A non-empty unreserved id injected into the callback is extracted again from the arrival. */
  lemma IdRoundTrip(inj: LegacyInjector.Injecter, callback: string, id: string)
    requires Uris.Rebuildable(callback)
    requires id != [] && CallbackInjector.AllUnreserved(id)
    requires inj.QueryInjecter?
             ==> Http.Lookup(Http.QueryParameters(Uris.Requoted(Uris.Parse(callback).value).query), CallbackIdParameterName).None?
    ensures var r := Injected(inj, Some(callback), CallbackIdParameterName, Some(id));
      r.Ok? && Uris.Parse(r.value).Some?
      && LegacyInjector.Extract(inj, Http.Arrival(Uris.Parse(r.value).value), CallbackIdParameterName) == Some(id)
  {
    CallbackIdNameUnreserved();
    CallbackInjector.InjectValueRoundTrip(LegacyInjector.Counterpart(inj), callback, CallbackIdParameterName, id);
  }

  /** Distinct flows never share a session attribute. */
  lemma SessionAttributeNameInjective(a: string, b: string)
    requires SessionAttributeName(a) == SessionAttributeName(b)
    ensures a == b
  {
    OAuthFlow.AttributeNameInjective(DataClassName, a, b);
  }
}
