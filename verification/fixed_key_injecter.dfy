/**
 * The oldest injecters (OAuthCallbackInjecter.java): the key is the fixed
 * name `oauthpopupcallback` and the id is put into the URI as it is, without
 * form-encoding.
 */
module FixedKeyInjecter {
  import opened Wrappers
  import opened Failures
  import JavaStrings
  import UrlCodec
  import Uris
  import Http
  import CallbackInjector

  /** `CALLBACK_ID_NAME`. */
  const CallbackIdName: string := "oauthpopupcallback"

  /** `PATH_INJECTER` and `QUERY_INJECTER`. */
  datatype Injecter = PathInjecter | QueryInjecter

  /** The callback record after `oauthpopupcallback` and the id are added (a null id reads "null"). */
  function Changed(inj: Injecter, cb: Uris.Uri, id: Option<string>): Uris.Uri
  {
    match inj
    case PathInjecter => CallbackInjector.PathChanged(cb, CallbackIdName + "/" + OrNull(id))
    case QueryInjecter => CallbackInjector.QueryChanged(cb, CallbackIdName + "=" + OrNull(id))
  }

  /**
   * `injectIdToCallback`: every rebuildable callback is accepted, whatever
   * the id, and only the path (respectively the query) of the rebuilt
   * callback changes; the id is not encoded, only quoted where the URI
   * constructor must.
   */
  function InjectId(inj: Injecter, callback: Option<string>, id: Option<string>): (r: Result<string, Failure>)
    ensures callback.None? ==> r == Err(NullPointer)
    ensures callback.Some? && Uris.Parse(callback.value).None?
            ==> r == Err(CallbackInjector.SyntaxError(callback.value))
    ensures callback.Some? && Uris.Rebuildable(callback.value)
            ==> r.Ok? && Uris.Parse(r.value) == Some(Changed(inj, Uris.Parse(callback.value).value, id))
    ensures r.Ok? ==> Uris.Parse(r.value).Some?
  {
    if callback.None? then Err(NullPointer)
    else if Uris.Parse(callback.value).None? then Err(CallbackInjector.SyntaxError(callback.value))
    else
      var cb := Uris.Parse(callback.value).value;
      match inj
      case PathInjecter =>
        if Uris.Rebuildable(callback.value) then
          CallbackInjector.PathChangedWellFormed(cb, CallbackIdName + "/" + OrNull(id));
          CallbackInjector.InjectPath(callback.value, CallbackIdName + "/" + OrNull(id))
        else CallbackInjector.InjectPath(callback.value, CallbackIdName + "/" + OrNull(id))
      case QueryInjecter =>
        if Uris.Rebuildable(callback.value) then
          CallbackInjector.QueryChangedWellFormed(cb, CallbackIdName + "=" + OrNull(id));
          CallbackInjector.InjectQuery(callback.value, CallbackIdName + "=" + OrNull(id))
        else CallbackInjector.InjectQuery(callback.value, CallbackIdName + "=" + OrNull(id))
  }

  /**
   * `extractIdFromCallback`: the path injecter reads the segment after a
   * second-to-last segment `oauthpopupcallback`, the query injecter the
   * parameter `oauthpopupcallback`.
   */
  function ExtractId(inj: Injecter, req: Http.Request): (r: Option<string>)
    ensures inj.PathInjecter? ==>
      (r.Some? <==> req.pathInfo.Some?
                    && var parts := JavaStrings.Split(req.pathInfo.value, '/');
                    |parts| >= 2 && parts[|parts| - 2] == CallbackIdName)
    ensures inj.PathInjecter? && r.Some? ==>
      var parts := JavaStrings.Split(req.pathInfo.value, '/'); r.value == parts[|parts| - 1]
    ensures inj.QueryInjecter? ==> r == Http.Lookup(req.parameters, CallbackIdName)
  {
    match inj
    case PathInjecter => CallbackInjector.PathExtract(req, CallbackIdName)
    case QueryInjecter => CallbackInjector.QueryExtract(req, CallbackIdName)
  }

  lemma NameUnreserved()
    ensures CallbackInjector.AllUnreserved(CallbackIdName)
  {
  }

  /**
   * Round trip for the decimal ids: the request arriving at the injected URL
   * yields the id again (through the query, provided the rebuilt callback
   * has no `oauthpopupcallback` parameter of its own).
   */
  lemma IdRoundTrip(inj: Injecter, callback: string, n: nat)
    requires Uris.Rebuildable(callback)
    requires inj.QueryInjecter?
             ==> Http.Lookup(Http.QueryParameters(Uris.Requoted(Uris.Parse(callback).value).query), CallbackIdName).None?
    ensures var id := JavaStrings.Decimal(n);
      var r := InjectId(inj, Some(callback), Some(id));
      r.Ok? && ExtractId(inj, Http.Arrival(Uris.Parse(r.value).value)) == Some(id)
  {
    var id := JavaStrings.Decimal(n);
    CallbackInjector.DecimalUnreserved(n);
    NameUnreserved();
    UrlCodec.EncodeUnreserved(id);
    var r := InjectId(inj, Some(callback), Some(id));
    match inj
    case PathInjecter =>
      CallbackInjector.PathRoundTrip(callback, CallbackIdName, id, Http.QueryParameters(Uris.Parse(r.value).value.query));
    case QueryInjecter =>
      CallbackInjector.QueryRoundTrip(callback, CallbackIdName, id);
  }

  /** The injected path `prefix/oauthpopupcallback/a/b`, read as a path ending in `/a/b`. */
  lemma SlashedPath(prefix: string, a: string, b: string)
    ensures prefix + "/" + CallbackIdName + "/" + (a + "/" + b)
            == (prefix + "/" + CallbackIdName) + ['/'] + a + ['/'] + b
  {
  }

  /**
   * An id `a/b` holding '/' is cut apart by the path injecter: the segment
   * before the last is `a`, no longer the key, and nothing is found.
   */
  lemma SlashInIdIsCut(prefix: string, a: string, b: string, parameters: seq<(string, string)>)
    requires '/' !in a && '/' !in b && b != [] && a != CallbackIdName
    ensures ExtractId(PathInjecter, Http.Request(Some(prefix + "/" + CallbackIdName + "/" + (a + "/" + b)), parameters)) == None
  {
    SlashedPath(prefix, a, b);
    JavaStrings.SplitEndsWithPair(prefix + "/" + CallbackIdName, a, b, '/');
  }
}
