/**
 * One authorization flow of the current generation: base/OAuthDataAbstract.java
 * with its two protocol versions, oauth10a/OAuth10aDataImpl.java and
 * oauth20/OAuth20DataImpl.java. A flow gets a process-wide id when it is
 * created, injects that id into its configuration's callback, and later
 * recognises the provider's redirect by extracting the id again. The
 * version is the version of the flow's Scribe API; operations that exist
 * on one version only dispatch on it.
 */
module OAuthFlow {
  import opened Wrappers
  import opened Failures
  import JavaStrings
  import UrlCodec
  import Uris
  import Http
  import Scribe
  import Events
  import Seqs
  import CallbackInjector
  import opened PopupConfig

  /** The static `latestId` every flow draws its id from. */
  class IdCounter {
    var latestId: nat

    constructor()
      ensures latestId == 0
    {
      latestId := 0;
    }

    /** `nextId`: the counter is incremented first, then rendered in decimal. */
    method NextId() returns (id: string)
      modifies this
      ensures latestId == old(latestId) + 1
      ensures id == JavaStrings.Decimal(latestId)
    {
      latestId := latestId + 1;
      id := JavaStrings.Decimal(latestId);
    }
  }

  /** Canonical name of the base flow class, the prefix of every session attribute. */
  const DataClassName: string := "org.vaadin.addon.oauthpopup.base.OAuthDataAbstract"

  /** `getSessionAttributeName` of a flow class: its canonical name, ".DATA." and the id. */
  function AttributeName(className: string, id: string): (r: string)
    ensures |r| == |className| + 6 + |id|
    ensures r[..|className|] == className && r[|className| + 6..] == id
  {
    className + ".DATA." + id
  }

  /** Distinct flows of one class never share a session attribute. */
  lemma AttributeNameInjective(className: string, a: string, b: string)
    requires AttributeName(className, a) == AttributeName(className, b)
    ensures a == b
  {
    var n := |className| + 6;
    assert a == AttributeName(className, a)[n..];
    assert b == AttributeName(className, b)[n..];
  }

  /** Where a flow is stored in the Vaadin session. */
  function SessionAttributeName(id: string): string
  {
    AttributeName(DataClassName, id)
  }

  /** What an `OAuthListener` of a flow is told. */
  datatype Event = AuthSuccessful(token: Scribe.Token) | AuthDenied(reason: string)

  /** `createException`: the message enriched with the simple name of the API class. */
  function Enriched(api: Scribe.Api, msg: string): (f: Failure)
    ensures f.OAuthException?
    ensures f.message == msg + "\nUsing Scribe API: " + api.simpleName + "\n"
  {
    OAuthException(msg + "\nUsing Scribe API: " + api.simpleName + "\n")
  }

  /** `getServiceAccessToken`: the exchange of the service's own protocol version. */
  function Exchange(s: Scribe.Service, requestToken: Option<Scribe.Token>, verifier: string): Result<Scribe.Token, string>
  {
    match s
    case Service10a(s10a) => s10a.accessToken(requestToken, verifier)
    case Service20(s20) => s20.accessToken(verifier)
  }

  /**
   * `isCallbackForMe`, with the injector's extraction as its design means
   * it (see `PopupConfig.Extracted`): the extracted value must be the id; a
   * null injector throws.
   */
  function CallbackForMe(injector: Option<Injector>, id: string, req: Http.Request): (r: Result<bool, Failure>)
    ensures injector.None? ==> r == Err(NullPointer)
    ensures injector.Some? ==> var x := Extracted(injector.value, req, CallbackIdParameterName);
      (r.Err? <==> x.Err?) && (r == Ok(true) <==> x == Ok(Some(id)))
  {
    match injector
    case None => Err(NullPointer)
    case Some(inj) =>
      match Extracted(inj, req, CallbackIdParameterName)
      case Err(e) => Err(e)
      case Ok(v) => Ok(v == Some(id))
  }

  /** `isCallbackForMe` exactly as written, the state injector reading its configuration. */
  function CallbackForMeAsWritten(injector: Option<Injector>, id: string, req: Http.Request): (r: Result<bool, Failure>)
    reads if injector.Some? then StateFrame(injector.value) else {}
    ensures injector.None? ==> r == Err(NullPointer)
    ensures injector.Some? ==> var x := ExtractedAsWritten(injector.value, req, CallbackIdParameterName);
      (r.Err? <==> x.Err?) && (r == Ok(true) <==> x == Ok(Some(id)))
  {
    match injector
    case None => Err(NullPointer)
    case Some(inj) =>
      match ExtractedAsWritten(inj, req, CallbackIdParameterName)
      case Err(e) => Err(e)
      case Ok(v) => Ok(v == Some(id))
  }

  class Flow {
    const id: string
    const api: Scribe.Api
    const config: Config
    var listeners: seq<Events.Listener>
    var accessToken: Option<Scribe.Token>
    var service: Option<Scribe.Service>

    /** The cached service speaks the protocol version of the API. */
    predicate Valid()
      reads this
    {
      service.Some? ==> (service.value.Service10a? <==> api.Api10a?)
    }

    constructor Init(id: string, api: Scribe.Api, config: Config)
      ensures this.id == id && this.api == api && this.config == config
      ensures listeners == [] && accessToken.None? && service.None?
    {
      this.id := id;
      this.api := api;
      this.config := config;
      listeners := [];
      accessToken := None;
      service := None;
    }

    /**
     * The constructor: draw the next id, then inject it into the
     * configuration's callback under `callback_id` and store the result as
     * the new callback. A missing injector throws NullPointerException; a
     * failed injection throws and leaves the callback as it was. The id is
     * used up either way.
     */
    static method Create(counter: IdCounter, api: Scribe.Api, config: Config) returns (r: Result<Flow, Failure>)
      modifies counter, config`callbackUrl, InjectorFrame(config)`state
      ensures counter.latestId == old(counter.latestId) + 1
      ensures old(config.callbackInjector).None?
              ==> r == Err(NullPointer) && config.callbackUrl == old(config.callbackUrl)
      ensures old(config.callbackInjector).Some? ==>
        var fid := JavaStrings.Decimal(counter.latestId);
        var injected := old(InjectedCallback(config.callbackInjector.value, config.callbackUrl,
                                             Some(CallbackIdParameterName), Some(fid)));
        (r.Ok? <==> injected.Ok?)
        && (r.Err? ==> r.error == injected.error && config.callbackUrl == old(config.callbackUrl))
        && (r.Ok? ==> config.callbackUrl == injected.value && fresh(r.value) && r.value.Valid()
                      && r.value.id == fid && r.value.api == api && r.value.config == config
                      && r.value.listeners == [] && r.value.accessToken.None? && r.value.service.None?)
      ensures old(config.callbackInjector).Some? && old(config.callbackInjector).value.StateInjector? ==>
        var c := old(config.callbackInjector).value.config;
        c.state == if r.Ok? then Some(CallbackInjector.StateWithPair(old(c.state), Some(CallbackIdParameterName),
                                                                     Some(JavaStrings.Decimal(counter.latestId))).value)
                   else old(c.state)
    {
      var fid := counter.NextId();
      if config.callbackInjector.None? {
        return Err(NullPointer);
      }
      var injected := Inject(config.callbackInjector.value, config.callbackUrl, Some(CallbackIdParameterName), Some(fid));
      if injected.Err? {
        return Err(injected.error);
      }
      var _ := config.SetCallbackUrl(injected.value);
      var flow := new Flow.Init(fid, api, config);
      r := Ok(flow);
    }

    method AddListener(l: Events.Listener)
      modifies this`listeners
      ensures listeners == old(listeners) + [l]
    {
      listeners := listeners + [l];
    }

    method RemoveListener(l: Events.Listener)
      modifies this`listeners
      ensures listeners == Seqs.RemoveFirst(old(listeners), l)
    {
      listeners := Seqs.RemoveFirst(listeners, l);
    }

    /** The service `getService` returns: the cached one, or one built from the configuration. */
    function CurrentService(): (s: Scribe.Service)
      requires Valid()
      reads this, config
      ensures api.Api10a? <==> s.Service10a?
    {
      if service.Some? then service.value else Scribe.Build(api, config.BuilderOptions())
    }

    /** `getService`: built on first use, then cached. */
    method GetService() returns (s: Scribe.Service)
      requires Valid()
      modifies this`service
      ensures Valid()
      ensures s == old(CurrentService()) && service == Some(s)
    {
      if service.None? {
        var sb := config.CreateScribeServiceBuilder();
        service := Some(Scribe.Build(api, sb));
      }
      s := service.value;
    }

    /**
     * `setVerifier`: exchange the verifier (and, for 1.0a, the request
     * token) for an access token, store it and tell every listener. A
     * failed exchange is rethrown as "Getting access token failed." and the
     * stored token stays as it was.
     */
    method SetVerifier(requestToken: Option<Scribe.Token>, verifier: string)
      returns (r: Result<seq<Events.Delivery<Event>>, Failure>)
      requires Valid()
      modifies this`accessToken, this`service
      ensures Valid() && service == Some(old(CurrentService()))
      ensures var ex := Exchange(old(CurrentService()), requestToken, verifier);
        (ex.Ok? ==> accessToken == Some(ex.value)
                    && r == Ok(Events.Broadcast(listeners, AuthSuccessful(ex.value))))
        && (ex.Err? ==> accessToken == old(accessToken)
                        && r == Err(Enriched(api, "Getting access token failed.")))
    {
      var s := GetService();
      var ex := Exchange(s, requestToken, verifier);
      if ex.Err? {
        return Err(Enriched(api, "Getting access token failed."));
      }
      accessToken := Some(ex.value);
      var ds := Events.Fire(listeners, AuthSuccessful(ex.value));
      r := Ok(ds);
    }

    /** `setDenied`: every listener is told the reason, in order. */
    method SetDenied(reason: string) returns (ds: seq<Events.Delivery<Event>>)
      ensures ds == Events.Broadcast(listeners, AuthDenied(reason))
    {
      ds := Events.Fire(listeners, AuthDenied(reason));
    }

    /** `isCallbackForMe`. */
    method IsCallbackForMe(req: Http.Request) returns (r: Result<bool, Failure>)
      ensures r == CallbackForMe(config.callbackInjector, id, req)
    {
      if config.callbackInjector.None? {
        return Err(NullPointer);
      }
      var x := Extract(config.callbackInjector.value, req, CallbackIdParameterName);
      if x.Err? {
        return Err(x.error);
      }
      r := Ok(x.value == Some(id));
    }

    /**
     * `createNewRequestToken`: a 1.0a flow asks its service; a failure is
     * rethrown as "Getting request token failed.". OAuth 2.0 has no request
     * token: the answer is null and the service is not touched.
     */
    method CreateNewRequestToken() returns (r: Result<Option<Scribe.Token>, Failure>)
      requires Valid()
      modifies this`service
      ensures Valid() && r == old(NewRequestToken())
      ensures api.Api20? ==> r == Ok(None) && service == old(service)
      ensures api.Api10a? ==> service == Some(old(CurrentService()))
      ensures api.Api10a? ==>
        (match old(CurrentService()).s10a.requestToken
         case Ok(t) => r == Ok(Some(t))
         case Err(_) => r == Err(Enriched(api, "Getting request token failed.")))
    {
      if api.Api20? {
        return Ok(None);
      }
      var s := GetService();
      match s.s10a.requestToken
      case Ok(t) =>
        r := Ok(Some(t));
      case Err(_) =>
        r := Err(Enriched(api, "Getting request token failed."));
    }

    /** What `createNewRequestToken` answers in the current state. */
    function NewRequestToken(): (r: Result<Option<Scribe.Token>, Failure>)
      requires Valid()
      reads this, config
      ensures api.Api20? ==> r == Ok(None)
      ensures r.Err? ==> r == Err(Enriched(api, "Getting request token failed."))
    {
      match CurrentService()
      case Service20(_) => Ok(None)
      case Service10a(s10a) =>
        (match s10a.requestToken
         case Ok(t) => Ok(Some(t))
         case Err(_) => Err(Enriched(api, "Getting request token failed.")))
    }

    /**
     * The URL the popup sends the user to. For 1.0a: the service's URL for
     * the request token, with the configured callback injected under the
     * callback parameter name. For 2.0: the service's URL with the
     * configuration's additional parameters.
     */
    function AuthorizationUrlFor(requestToken: Option<Scribe.Token>): (r: Result<Option<string>, Failure>)
      requires Valid()
      reads this, config, InjectorFrame(config)
      ensures api.Api20? ==> CurrentService().Service20?
                             && r == Ok(Some(CurrentService().s20.authorizationUrl(config.additionalParams)))
      ensures api.Api10a? && config.callbackInjector.None? ==> r == Err(NullPointer)
      ensures api.Api10a? && config.callbackInjector.Some? ==>
        CurrentService().Service10a?
        && r == InjectedCallback(config.callbackInjector.value,
                                 Some(CurrentService().s10a.authorizationUrl(requestToken)),
                                 config.callbackParameterName, config.callbackUrl)
    {
      match CurrentService()
      case Service10a(s10a) =>
        (match config.callbackInjector
         case None => Err(NullPointer)
         case Some(inj) =>
           InjectedCallback(inj, Some(s10a.authorizationUrl(requestToken)), config.callbackParameterName, config.callbackUrl))
      case Service20(s20) => Ok(Some(s20.authorizationUrl(config.additionalParams)))
    }

    /**
     * Building and caching the service changes nothing the authorization
     * URL depends on.
     */
    twostate lemma AuthorizationUrlForKept(requestToken: Option<Scribe.Token>)
      requires old(Valid()) && Valid()
      requires service == old(service) || service == Some(old(CurrentService()))
      requires unchanged(config) && unchanged(InjectorFrame(config))
      ensures AuthorizationUrlFor(requestToken) == old(AuthorizationUrlFor(requestToken))
    {
      assert CurrentService() == old(CurrentService());
    }

    /**
     * `getAuthorizationUrl` of either version. A 1.0a flow with a state
     * injector records the callback in that injector's state; a 2.0 flow
     * leaves every state as it was.
     */
    method AuthorizationUrl(requestToken: Option<Scribe.Token>) returns (r: Result<Option<string>, Failure>)
      requires Valid()
      modifies this`service, InjectorFrame(config)`state
      ensures Valid() && service == Some(old(CurrentService()))
      ensures r == old(AuthorizationUrlFor(requestToken))
      ensures old(config.callbackInjector).Some? && old(config.callbackInjector).value.StateInjector? ==>
        var c := old(config.callbackInjector).value.config;
        c.state == if api.Api10a? && r.Ok?
                   then Some(CallbackInjector.StateWithPair(old(c.state), old(config.callbackParameterName),
                                                            old(config.callbackUrl)).value)
                   else old(c.state)
    {
      var s := GetService();
      match s
      case Service10a(s10a) =>
        if config.callbackInjector.None? {
          return Err(NullPointer);
        }
        r := Inject(config.callbackInjector.value, Some(s10a.authorizationUrl(requestToken)),
                    config.callbackParameterName, config.callbackUrl);
      case Service20(s20) =>
        r := Ok(Some(s20.authorizationUrl(config.additionalParams)));
    }
  }

  // ------------------------------------------------------- correlation

  /**
   * A flow with a URI injector recognises the redirect to the callback it
   * injected its id into, and a flow with any other id refuses it. For the
   * query injector the callback must not carry a `callback_id` of its own.
   */
  lemma UriCallbackReachesItsFlow(inj: Injector, callback: string, n: nat, m: nat)
    requires inj.PathInjector? || inj.QueryInjector?
    requires Uris.Rebuildable(callback)
    requires inj.QueryInjector?
             ==> Http.Lookup(Http.QueryParameters(Uris.Requoted(Uris.Parse(callback).value).query), CallbackIdParameterName).None?
    ensures var r := InjectedCallback(inj, Some(callback), Some(CallbackIdParameterName), Some(JavaStrings.Decimal(n)));
      r.Ok? && r.value.Some? && Uris.Parse(r.value.value).Some?
      && CallbackForMe(Some(inj), JavaStrings.Decimal(m), Http.Arrival(Uris.Parse(r.value.value).value)) == Ok(m == n)
  {
    var id := JavaStrings.Decimal(n);
    CallbackInjector.DecimalUnreserved(n);
    UriIdRoundTrip(inj, callback, id);
    var r := InjectedCallback(inj, Some(callback), Some(CallbackIdParameterName), Some(id));
    var req := Http.Arrival(Uris.Parse(r.value.value).value);
    ClaimsOnlyItsId(inj, req, id, JavaStrings.Decimal(m));
    if m != n {
      JavaStrings.DecimalInjective(m, n);
    }
  }

  /** A non-empty unreserved id injected by a URI injector is extracted again from the arrival. */
  lemma UriIdRoundTrip(inj: Injector, callback: string, id: string)
    requires inj.PathInjector? || inj.QueryInjector?
    requires Uris.Rebuildable(callback)
    requires inj.PathInjector? ==> id != [] && CallbackInjector.AllUnreserved(id)
    requires inj.QueryInjector?
             ==> Http.Lookup(Http.QueryParameters(Uris.Requoted(Uris.Parse(callback).value).query), CallbackIdParameterName).None?
    ensures var r := InjectedCallback(inj, Some(callback), Some(CallbackIdParameterName), Some(id));
      r.Ok? && r.value.Some? && Uris.Parse(r.value.value).Some?
      && Extracted(inj, Http.Arrival(Uris.Parse(r.value.value).value), CallbackIdParameterName) == Ok(Some(id))
  {
    var ui := if inj.PathInjector? then CallbackInjector.PathInjector else CallbackInjector.QueryInjector;
    CallbackIdNameUnreserved();
    CallbackInjector.InjectValueRoundTrip(ui, callback, CallbackIdParameterName, id);
    var s := CallbackInjector.InjectValue(ui, Some(callback), CallbackIdParameterName, Some(id));
    var req := Http.Arrival(Uris.Parse(s.value).value);
    UriInjectorAgrees(inj, ui, Some(callback), CallbackIdParameterName, Some(id), req);
  }

  /** A flow whose injector extracts `found` claims the request exactly when `found` is its id. */
  lemma ClaimsOnlyItsId(inj: Injector, req: Http.Request, found: string, id: string)
    requires Extracted(inj, req, CallbackIdParameterName) == Ok(Some(found))
    ensures CallbackForMe(Some(inj), id, req) == Ok(found == id)
  {
  }

  /** A URI injector of the flow does what the matching `CallbackInjector` injector does. */
  lemma UriInjectorAgrees(inj: Injector, ui: CallbackInjector.UriInjector, callback: Option<string>, key: string,
                          value: Option<string>, req: Http.Request)
    requires inj.PathInjector? || inj.QueryInjector?
    requires ui == if inj.PathInjector? then CallbackInjector.PathInjector else CallbackInjector.QueryInjector
    ensures var s := CallbackInjector.InjectValue(ui, callback, key, value);
      InjectedCallback(inj, callback, Some(key), value) == if s.Ok? then Ok(Some(s.value)) else Err(s.error)
    ensures Extracted(inj, req, key) == Ok(CallbackInjector.UriExtract(ui, req, key))
  {
    assert OrNull(Some(key)) == key;
  }

  /** Decimal ids hold neither of the state list's separators. */
  lemma DecimalHasNoSeparator(n: nat)
    ensures ',' !in JavaStrings.Decimal(n) && ':' !in JavaStrings.Decimal(n)
  {
    var id := JavaStrings.Decimal(n);
    forall i | 0 <= i < |id|
      ensures id[i] != ',' && id[i] != ':'
    {
      assert '0' <= id[i] <= '9';
    }
  }

  /**
   * A flow with the state injector recognises the provider's redirect: the
   * request's `state` parameter is the state its id was added to (the
   * provider echoes it and the container decodes it once). A flow with any
   * other id refuses it. The state must not have held a `callback_id`.
   */
  lemma StateCallbackReachesItsFlow(c: Config, n: nat, m: nat, req: Http.Request)
    requires CallbackInjector.DecodedState(c.state).Ok?
    requires CallbackInjector.StateLookup(c.state, CallbackIdParameterName) == Ok(None)
    requires CallbackInjector.StateWithPair(c.state, Some(CallbackIdParameterName), Some(JavaStrings.Decimal(n))).Ok?
    requires Http.Lookup(req.parameters, "state")
             == Some(CallbackInjector.StateWithPair(c.state, Some(CallbackIdParameterName), Some(JavaStrings.Decimal(n))).value)
    ensures CallbackForMe(Some(StateInjector(c)), JavaStrings.Decimal(m), req) == Ok(m == n)
  {
    var id := JavaStrings.Decimal(n);
    DecimalHasNoSeparator(n);
    StateIdRoundTrip(c, id, req);
    ClaimsOnlyItsId(StateInjector(c), req, id, JavaStrings.Decimal(m));
    if m != n {
      JavaStrings.DecimalInjective(m, n);
    }
  }

  /** An id added to a state that held none is extracted again from the echoed `state` parameter. */
  lemma StateIdRoundTrip(c: Config, id: string, req: Http.Request)
    requires id != [] && ',' !in id && ':' !in id
    requires CallbackInjector.DecodedState(c.state).Ok?
    requires CallbackInjector.StateLookup(c.state, CallbackIdParameterName) == Ok(None)
    requires CallbackInjector.StateWithPair(c.state, Some(CallbackIdParameterName), Some(id)).Ok?
    requires Http.Lookup(req.parameters, "state")
             == Some(CallbackInjector.StateWithPair(c.state, Some(CallbackIdParameterName), Some(id)).value)
    ensures Extracted(StateInjector(c), req, CallbackIdParameterName) == Ok(Some(id))
  {
    StateLookupFindsId(c.state, id);
    var echoed := Http.Parameter(req, Some("state"));
    assert echoed == Some(CallbackInjector.StateWithPair(c.state, Some(CallbackIdParameterName), Some(id)).value);
    assert Extracted(StateInjector(c), req, CallbackIdParameterName)
           == CallbackInjector.StateLookup(echoed, CallbackIdParameterName);
  }

  /**
   * As written, a state-injector flow never looks at the request: once its
   * id has been added to the configuration's state, it claims every
   * request, one without any parameter included.
   */
  lemma AsWrittenStateClaimsEveryRequest(c: Config, prior: Option<string>, n: nat, req: Http.Request)
    requires CallbackInjector.DecodedState(prior).Ok?
    requires CallbackInjector.StateLookup(prior, CallbackIdParameterName) == Ok(None)
    requires CallbackInjector.StateWithPair(prior, Some(CallbackIdParameterName), Some(JavaStrings.Decimal(n))).Ok?
    requires c.state
             == Some(CallbackInjector.StateWithPair(prior, Some(CallbackIdParameterName), Some(JavaStrings.Decimal(n))).value)
    ensures CallbackForMeAsWritten(Some(StateInjector(c)), JavaStrings.Decimal(n), req) == Ok(true)
  {
    var id := JavaStrings.Decimal(n);
    DecimalHasNoSeparator(n);
    StateLookupFindsId(prior, id);
    assert ExtractedAsWritten(StateInjector(c), req, CallbackIdParameterName) == Ok(Some(id));
  }

  /** A state that held no `callback_id`, with the id added, yields that id. */
  lemma StateLookupFindsId(prior: Option<string>, id: string)
    requires id != [] && ',' !in id && ':' !in id
    requires CallbackInjector.DecodedState(prior).Ok?
    requires CallbackInjector.StateLookup(prior, CallbackIdParameterName) == Ok(None)
    ensures var s := CallbackInjector.StateWithPair(prior, Some(CallbackIdParameterName), Some(id));
      s.Ok? && CallbackInjector.StateLookup(Some(s.value), CallbackIdParameterName) == Ok(Some(id))
  {
    CallbackInjector.StateRoundTrip(prior, CallbackIdParameterName, id);
  }

  /** With the request consulted, a request without a `state` parameter is refused. */
  lemma StateRefusesRequestWithoutState(c: Config, id: string, req: Http.Request)
    requires Http.Lookup(req.parameters, "state").None?
    ensures CallbackForMe(Some(StateInjector(c)), id, req) == Ok(false)
  {
  }

  /**
   * The 1.0a authorization URL carries the flow's callback: the provider
   * reads the callback parameter back as the callback itself, for any
   * callback, when the provider's URL has no parameter of that name.
   */
  lemma AuthorizationUrlCarriesCallback(providerUrl: string, name: string, callback: string)
    requires Uris.Rebuildable(providerUrl)
    requires CallbackInjector.AllUnreserved(name)
    requires Http.Lookup(Http.QueryParameters(Uris.Requoted(Uris.Parse(providerUrl).value).query), name).None?
    ensures var r := InjectedCallback(QueryInjector, Some(providerUrl), Some(name), Some(callback));
      r.Ok? && r.value.Some? && Uris.Parse(r.value.value).Some?
      && Http.Lookup(Http.QueryParameters(Uris.Parse(r.value.value).value.query), name) == Some(callback)
  {
    CallbackInjector.QueryRoundTripEncoded(providerUrl, name, callback);
    var s := CallbackInjector.InjectValue(CallbackInjector.QueryInjector, Some(providerUrl), name, Some(callback));
    UriInjectorAgrees(QueryInjector, CallbackInjector.QueryInjector, Some(providerUrl), name, Some(callback),
                      Http.Arrival(Uris.Parse(s.value).value));
  }
}
