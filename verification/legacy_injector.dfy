/**
 * The keyed callback injecters of the earlier generation
 * (OAuthCallbackInjector.java in the top package). Their code is the same,
 * step for step, as the path and query injectors of the base package; the
 * contracts below say so, and the round trip carries over.
 */
module LegacyInjector {
  import opened Wrappers
  import opened Failures
  import JavaStrings
  import Uris
  import Http
  import CallbackInjector

  /** `PATH_INJECTOR` and `QUERY_INJECTOR`. */
  datatype Injecter = PathInjecter | QueryInjecter

  /** The base-package injector with the same code. */
  function Counterpart(inj: Injecter): CallbackInjector.UriInjector
  {
    match inj
    case PathInjecter => CallbackInjector.PathInjector
    case QueryInjecter => CallbackInjector.QueryInjector
  }

  /** `PathInjecter.injectParameterToCallback` and `QueryInjecter.injectParameterToCallback`. */
  function Inject(inj: Injecter, callback: Option<string>, key: string, value: Option<string>): (r: Result<string, Failure>)
    ensures r == CallbackInjector.UriInject(Counterpart(inj), callback, key, value)
    ensures callback.Some? && Uris.Parse(callback.value).None?
            ==> r == Err(CallbackInjector.SyntaxError(callback.value))
  {
    if callback.None? then Err(NullPointer)
    else if Uris.Parse(callback.value).None? then Err(CallbackInjector.SyntaxError(callback.value))
    else if value.None? then Err(NullPointer)
    else
      match inj
      case PathInjecter => CallbackInjector.PathInject(callback.value, key, value.value)
      case QueryInjecter => CallbackInjector.QueryInject(callback.value, key, value.value)
  }

  /** `PathInjecter.extractParameterFromCallbackRequest` and `QueryInjecter.extractParameterFromCallbackRequest`. */
  function Extract(inj: Injecter, req: Http.Request, key: string): (r: Option<string>)
    ensures r == CallbackInjector.UriExtract(Counterpart(inj), req, key)
    ensures inj.QueryInjecter? ==> r == Http.Lookup(req.parameters, key)
  {
    match inj
    case PathInjecter =>
      if req.pathInfo.None? then None
      else
        var parts := JavaStrings.Split(req.pathInfo.value, '/');
        if |parts| < 2 then None
        else if key != parts[|parts| - 2] then None
        else Some(parts[|parts| - 1])
    case QueryInjecter => Http.Parameter(req, Some(key))
  }

  /**
   * Round trip: the request arriving at the injected URL carries the value
   * under the key, for a key and a non-empty value of unreserved characters
   * and, for the query injecter, a callback whose rebuilt query has no
   * parameter of that name.
   */
  lemma RoundTrip(inj: Injecter, callback: string, key: string, value: string)
    requires Uris.Rebuildable(callback)
    requires key != [] && CallbackInjector.AllUnreserved(key)
    requires value != [] && CallbackInjector.AllUnreserved(value)
    requires inj.QueryInjecter?
             ==> Http.Lookup(Http.QueryParameters(Uris.Requoted(Uris.Parse(callback).value).query), key).None?
    ensures var r := Inject(inj, Some(callback), key, Some(value));
      r.Ok? && Uris.Parse(r.value).Some?
      && Extract(inj, Http.Arrival(Uris.Parse(r.value).value), key) == Some(value)
  {
    CallbackInjector.UriRoundTrip(Counterpart(inj), callback, key, value);
  }
}
