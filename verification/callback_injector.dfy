/**
 * The URI-based callback injectors and the `state` list of the OAuth 2.0
 * state injector (base/OAuthCallbackInjector.java). The path injector adds
 * two segments `key/value` to the callback's path, the query injector a
 * parameter `key=value` to its query; the value is form-encoded first. The
 * state injector keeps the pairs in the configuration's `state` as the
 * form-encoded text `k1:v1,k2:v2`; its object side, which updates the
 * configuration in place, is in the PopupConfig module.
 */
module CallbackInjector {
  import opened Wrappers
  import opened Failures
  import JavaStrings
  import UrlCodec
  import Uris
  import Http

  /** The OAuthException an unparsable callback raises. */
  function SyntaxError(callback: string): Failure
  {
    OAuthException("Invalid callback URI syntax: " + callback)
  }

  /** `oldPath + idPath`, with one '/' between them unless `oldPath` already ends in one. */
  function AppendedPath(oldPath: string, idPath: string): string
  {
    if JavaStrings.EndsWith(oldPath, "/") then oldPath + idPath else oldPath + "/" + idPath
  }

  /**
   * `new URI(old.getScheme(), old.getAuthority(), newPath, old.getQuery(),
   * old.getFragment())`, `newPath` being the decoded path with `idPath`
   * appended: every component is decoded by its getter and quoted again by
   * the constructor.
   */
  function PathChanged(cb: Uris.Uri, idPath: string): Uris.Uri
  {
    Uris.Requoted(cb).(path := Uris.Quote(AppendedPath(Uris.Decode(cb.path), idPath), Uris.PathPart))
  }

  /**
   * The same with `newQuery` the decoded query followed by '&' and
   * `idQuery`, or `idQuery` alone when there is no query.
   */
  function QueryChanged(cb: Uris.Uri, idQuery: string): Uris.Uri
  {
    var newQuery := if cb.query.None? then idQuery else Uris.Decode(cb.query.value) + "&" + idQuery;
    Uris.Requoted(cb).(query := Some(Uris.Quote(newQuery, Uris.QueryPart)))
  }

  /** Appends a path segment to a callback URI; shared by every path injector. */
  function InjectPath(callback: string, idPath: string): (r: Result<string, Failure>)
    ensures Uris.Parse(callback).None? ==> r == Err(SyntaxError(callback))
    ensures r.Ok? ==> Uris.Parse(callback).Some?
                      && r.value == Uris.Show(PathChanged(Uris.Parse(callback).value, idPath))
    ensures r.Err? ==> r == Err(SyntaxError(callback))
    ensures r.Ok? ==> Uris.Parse(r.value).Some?
  {
    match Uris.Parse(callback)
    case None => Err(SyntaxError(callback))
    case Some(cb) =>
      match Uris.Construct(PathChanged(cb, idPath))
      case None => Err(SyntaxError(callback))
      case Some(s) => Ok(s)
  }

  /** Adds a query parameter to a callback URI; shared by every query injector. */
  function InjectQuery(callback: string, idQuery: string): (r: Result<string, Failure>)
    ensures Uris.Parse(callback).None? ==> r == Err(SyntaxError(callback))
    ensures r.Ok? ==> Uris.Parse(callback).Some?
                      && r.value == Uris.Show(QueryChanged(Uris.Parse(callback).value, idQuery))
    ensures r.Err? ==> r == Err(SyntaxError(callback))
    ensures r.Ok? ==> Uris.Parse(r.value).Some?
  {
    match Uris.Parse(callback)
    case None => Err(SyntaxError(callback))
    case Some(cb) =>
      match Uris.Construct(QueryChanged(cb, idQuery))
      case None => Err(SyntaxError(callback))
      case Some(s) => Ok(s)
  }

  /** `PathInjector.injectParameterToCallback`: appends `key/enc(value)`. */
  function PathInject(callback: string, key: string, value: string): Result<string, Failure>
  {
    InjectPath(callback, key + "/" + UrlCodec.Encode(value))
  }

  /** `QueryInjector.injectParameterToCallback`: adds `key=enc(value)`. */
  function QueryInject(callback: string, key: string, value: string): Result<string, Failure>
  {
    InjectQuery(callback, key + "=" + UrlCodec.Encode(value))
  }

  /**
   * `PathInjector.extractParameterFromCallbackRequest`: the last path
   * segment, provided the one before it is the key; not decoded.
   */
  function PathExtract(req: Http.Request, key: string): (r: Option<string>)
    ensures req.pathInfo.None? ==> r.None?
    ensures r.Some? <==> req.pathInfo.Some?
                         && var parts := JavaStrings.Split(req.pathInfo.value, '/');
                         |parts| >= 2 && parts[|parts| - 2] == key
    ensures r.Some? ==> var parts := JavaStrings.Split(req.pathInfo.value, '/');
                        r.value == parts[|parts| - 1]
  {
    if req.pathInfo.None? then None
    else
      var parts := JavaStrings.Split(req.pathInfo.value, '/');
      if |parts| < 2 then None
      else if key != parts[|parts| - 2] then None
      else Some(parts[|parts| - 1])
  }

  /** `QueryInjector.extractParameterFromCallbackRequest`: the request parameter named by the key. */
  function QueryExtract(req: Http.Request, key: string): (r: Option<string>)
    ensures r == Http.Lookup(req.parameters, key)
  {
    Http.Parameter(req, Some(key))
  }

  // ------------------------------------------------ the path injector

  lemma {:induction false} FindSchemeEndPrefix(p: string, x: string)
    requires Uris.FindSchemeEnd(p) < |p|
    ensures Uris.FindSchemeEnd(p + x) == Uris.FindSchemeEnd(p)
  {
    if p[0] != ':' && p[0] != '/' {
      assert (p + x)[1..] == p[1..] + x;
      FindSchemeEndPrefix(p[1..], x);
    }
  }

  lemma SlashLegal()
    ensures Uris.Legal("/", Uris.PathPart)
  {
    assert Uris.LegalAt("/", 0, Uris.PathPart);
  }

  /** Appending a segment that does not start with '/' keeps a path fit to stand where it stood. */
  lemma AppendedPathFits(p: string, q: string, hasScheme: bool, hasAuthority: bool)
    requires Uris.PathFits(p, hasScheme, hasAuthority)
    requires Uris.Legal(q, Uris.PathPart) && q != [] && q[0] != '/'
    ensures Uris.PathFits(AppendedPath(p, q), hasScheme, hasAuthority)
  {
    var np := AppendedPath(p, q);
    SlashLegal();
    if JavaStrings.EndsWith(p, "/") {
      assert p[|p| - 1] == '/';
      Uris.LegalAppend(p, q, Uris.PathPart);
      assert np == p + q;
      if |p| == 1 {
        assert np == "/" + q;
      } else {
        assert np[..2] == p[..2];
      }
      FindSchemeEndPrefix(p, q);
    } else {
      Uris.LegalAppend(p, "/", Uris.PathPart);
      Uris.LegalAppend(p + "/", q, Uris.PathPart);
      assert np == p + ("/" + q);
      if |p| >= 2 {
        assert np[..2] == p[..2];
      }
      if Uris.FindSchemeEnd(p) < |p| {
        FindSchemeEndPrefix(p, "/" + q);
      } else {
        Uris.FindSchemeEndAppend(p, "/" + q);
        assert np[|p|] == '/';
      }
    }
  }

  lemma EndsInSlash(s: string)
    ensures JavaStrings.EndsWith(s, "/") <==> s != [] && s[|s| - 1] == '/'
  {
    if s != [] && s[|s| - 1] == '/' {
      assert s == s[..|s| - 1] + "/";
    }
  }

  /**
   * Appending to the decoded path and quoting the whole is appending the
   * quoted segment to the rebuilt path: the changed record is the rebuilt
   * callback with `idPath` appended to its path.
   */
  lemma PathChangedRequoted(cb: Uris.Uri, idPath: string)
    ensures var r := Uris.Requoted(cb);
      PathChanged(cb, idPath) == r.(path := AppendedPath(r.path, Uris.Quote(idPath, Uris.PathPart)))
  {
    var d := Uris.Decode(cb.path);
    var p := Uris.PathPart;
    Uris.QuoteEndsInSlash(d);
    EndsInSlash(d);
    EndsInSlash(Uris.Quote(d, p));
    if JavaStrings.EndsWith(d, "/") {
      Uris.QuoteAppend(d, idPath, p);
    } else {
      Uris.QuoteAppend(d + "/", idPath, p);
      Uris.QuoteAppend(d, "/", p);
      assert Uris.Quote("/", p) == "/" by {
        Uris.QuoteKeeps("/", p);
      }
    }
  }

  /**
   * Appending a segment that does not start with '/' keeps the rebuilt
   * callback well-formed, so the URI constructor accepts the new path.
   */
  lemma PathChangedWellFormed(cb: Uris.Uri, idPath: string)
    requires Uris.WellFormed(Uris.Requoted(cb))
    requires idPath != [] && idPath[0] != '/'
    ensures Uris.WellFormed(PathChanged(cb, idPath))
  {
    var r := Uris.Requoted(cb);
    var q := Uris.Quote(idPath, Uris.PathPart);
    Uris.QuoteLegal(idPath, Uris.PathPart);
    PathChangedRequoted(cb, idPath);
    AppendedPathFits(r.path, q, r.scheme.Some?, r.authority.Some?);
  }

  /**
   * The path injector accepts every rebuildable callback when the key is
   * not empty and does not start with '/', and the result differs from the
   * rebuilt callback in the path alone: the scheme is carried over, and
   * authority, query and fragment are those the getters and the constructor
   * give back; the path gains the quoted `key/enc(value)`.
   */
  lemma PathInjectOnlyChangesPath(callback: string, key: string, value: string)
    requires Uris.Rebuildable(callback)
    requires key != [] && key[0] != '/'
    ensures var cb := Uris.Parse(callback).value;
      var rb := Uris.Requoted(cb);
      var idPath := key + "/" + UrlCodec.Encode(value);
      var r := PathInject(callback, key, value);
      r.Ok? && Uris.Parse(r.value) == Some(PathChanged(cb, idPath))
      && var u := Uris.Parse(r.value).value;
      u.scheme == cb.scheme && u.authority == rb.authority
      && u.query == rb.query && u.fragment == rb.fragment
      && u.path == AppendedPath(rb.path, Uris.Quote(idPath, Uris.PathPart))
  {
    var cb := Uris.Parse(callback).value;
    PathChangedWellFormed(cb, key + "/" + UrlCodec.Encode(value));
    PathChangedRequoted(cb, key + "/" + UrlCodec.Encode(value));
  }

  predicate AllUnreserved(s: string)
  {
    forall i :: 0 <= i < |s| ==> UrlCodec.Unreserved(s[i])
  }

  /** Decimal ids are made of digits, which the encoder leaves alone. */
  lemma DecimalUnreserved(n: nat)
    ensures AllUnreserved(JavaStrings.Decimal(n))
  {
    var s := JavaStrings.Decimal(n);
    assert forall i :: 0 <= i < |s| ==> '0' <= s[i] <= '9';
  }

  lemma UnreservedUnquoted(s: string, part: Uris.Part)
    requires forall i :: 0 <= i < |s| ==> UrlCodec.Unreserved(s[i]) || s[i] == '/' || s[i] == '='
    requires part == Uris.PathPart || part == Uris.QueryPart
    ensures Uris.Quote(s, part) == s
  {
    Uris.QuoteKeeps(s, part);
  }

  /**
   * For a key and a value of unreserved characters (the decimal ids, for
   * one) the new path is exactly the rebuilt path, a '/' unless it already
   * ends in one, the key, '/' and the value.
   */
  lemma PathInjectPlain(callback: string, key: string, value: string)
    requires Uris.Rebuildable(callback)
    requires key != [] && AllUnreserved(key) && AllUnreserved(value)
    ensures var rb := Uris.Requoted(Uris.Parse(callback).value);
      var r := PathInject(callback, key, value);
      r.Ok? && Uris.Parse(r.value).Some?
      && Uris.Parse(r.value).value.path == AppendedPath(rb.path, key + "/" + value)
  {
    UrlCodec.EncodeUnreserved(value);
    PathInjectOnlyChangesPath(callback, key, value);
    JoinedUnquoted(key, '/', value, Uris.PathPart);
    assert key + "/" + value == key + ['/'] + value;
  }

  /** `key/value` or `key=value` of unreserved characters stands in a path or a query as it is. */
  lemma JoinedUnquoted(key: string, sep: char, value: string, part: Uris.Part)
    requires AllUnreserved(key) && AllUnreserved(value)
    requires sep == '/' || sep == '='
    requires part == Uris.PathPart || part == Uris.QueryPart
    ensures Uris.Quote(key + [sep] + value, part) == key + [sep] + value
  {
    var s := key + [sep] + value;
    forall i | 0 <= i < |s|
      ensures UrlCodec.Unreserved(s[i]) || s[i] == '/' || s[i] == '='
    {
      if i < |key| {
        assert s[i] == key[i];
      } else if i > |key| {
        assert s[i] == value[i - |key| - 1];
      }
    }
    UnreservedUnquoted(s, part);
  }

  /** Any path info ending in `/key/v`, with no '/' in key or v and v not empty, yields v. */
  lemma PathExtractFinds(prefix: string, key: string, v: string, parameters: seq<(string, string)>)
    requires '/' !in key && '/' !in v && v != []
    ensures PathExtract(Http.Request(Some(prefix + "/" + key + "/" + v), parameters), key) == Some(v)
  {
    JavaStrings.SplitEndsWithPair(prefix, key, v, '/');
    assert prefix + "/" + key + "/" + v == prefix + ['/'] + key + ['/'] + v;
  }

  lemma NoSlash(s: string)
    requires AllUnreserved(s)
    ensures '/' !in s
  {
    assert forall i :: 0 <= i < |s| ==> s[i] != '/';
  }

  /** Whatever the old path, the appended `key/value` is what the extractor finds. */
  lemma AppendedPathExtract(p: string, key: string, value: string, parameters: seq<(string, string)>)
    requires '/' !in key && '/' !in value && value != []
    ensures PathExtract(Http.Request(Some(AppendedPath(p, key + "/" + value)), parameters), key) == Some(value)
  {
    if JavaStrings.EndsWith(p, "/") {
      var prefix := p[..|p| - 1];
      assert p == prefix + "/";
      assert AppendedPath(p, key + "/" + value) == prefix + "/" + key + "/" + value;
      PathExtractFinds(prefix, key, value, parameters);
    } else {
      assert AppendedPath(p, key + "/" + value) == p + "/" + key + "/" + value;
      PathExtractFinds(p, key, value, parameters);
    }
  }

  /**
   * Path round trip: a request whose path info is the injected callback's
   * path yields the injected value again, for a key and a non-empty value of
   * unreserved characters.
   */
  lemma PathRoundTrip(callback: string, key: string, value: string, parameters: seq<(string, string)>)
    requires Uris.Rebuildable(callback)
    requires key != [] && AllUnreserved(key)
    requires value != [] && AllUnreserved(value)
    ensures var r := PathInject(callback, key, value);
      r.Ok? && Uris.Parse(r.value).Some?
      && PathExtract(Http.Request(Some(Uris.Parse(r.value).value.path), parameters), key) == Some(value)
  {
    PathInjectPlain(callback, key, value);
    NoSlash(key);
    NoSlash(value);
    AppendedPathExtract(Uris.Requoted(Uris.Parse(callback).value).path, key, value, parameters);
  }

  // ----------------------------------------------- the query injector

  /**
   * Adding to the decoded query and quoting the whole is adding the quoted
   * piece to the rebuilt query: the changed record is the rebuilt callback
   * with `idQuery` added to its query.
   */
  lemma QueryChangedRequoted(cb: Uris.Uri, idQuery: string)
    ensures var r := Uris.Requoted(cb);
      var quoted := Uris.Quote(idQuery, Uris.QueryPart);
      QueryChanged(cb, idQuery) == r.(query := Some(if r.query.None? then quoted else r.query.value + "&" + quoted))
  {
    var p := Uris.QueryPart;
    if cb.query.Some? {
      var d := Uris.Decode(cb.query.value);
      Uris.QuoteAppend(d + "&", idQuery, p);
      Uris.QuoteAppend(d, "&", p);
      assert Uris.Quote("&", p) == "&" by {
        Uris.QuoteKeeps("&", p);
      }
    }
  }

  /** Adding to the query keeps the rebuilt callback well-formed. */
  lemma QueryChangedWellFormed(cb: Uris.Uri, idQuery: string)
    requires Uris.WellFormed(Uris.Requoted(cb))
    ensures Uris.WellFormed(QueryChanged(cb, idQuery))
  {
    var newQuery := if cb.query.None? then idQuery else Uris.Decode(cb.query.value) + "&" + idQuery;
    Uris.QuoteLegal(newQuery, Uris.QueryPart);
  }

  /**
   * The query injector accepts every rebuildable callback and changes the
   * query of the rebuilt callback alone: the scheme is carried over, and
   * authority, path and fragment are those the getters and the constructor
   * give back; the query gains the quoted `key=enc(value)`.
   */
  lemma QueryInjectOnlyChangesQuery(callback: string, key: string, value: string)
    requires Uris.Rebuildable(callback)
    ensures var cb := Uris.Parse(callback).value;
      var rb := Uris.Requoted(cb);
      var quoted := Uris.Quote(key + "=" + UrlCodec.Encode(value), Uris.QueryPart);
      var r := QueryInject(callback, key, value);
      r.Ok? && Uris.Parse(r.value) == Some(QueryChanged(cb, key + "=" + UrlCodec.Encode(value)))
      && var u := Uris.Parse(r.value).value;
      u.scheme == cb.scheme && u.authority == rb.authority
      && u.path == rb.path && u.fragment == rb.fragment
      && u.query == Some(if rb.query.None? then quoted else rb.query.value + "&" + quoted)
  {
    var cb := Uris.Parse(callback).value;
    QueryChangedWellFormed(cb, key + "=" + UrlCodec.Encode(value));
    QueryChangedRequoted(cb, key + "=" + UrlCodec.Encode(value));
  }

  lemma UnreservedExcludes(s: string, c: char)
    requires AllUnreserved(s) && !UrlCodec.Unreserved(c)
    ensures c !in s
  {
    assert forall i :: 0 <= i < |s| ==> s[i] != c;
  }

  /** `key=value` of unreserved characters is added to the rebuilt query as it is. */
  lemma QueryChangedPlain(cb: Uris.Uri, key: string, value: string)
    requires AllUnreserved(key) && AllUnreserved(value)
    ensures var rq := Uris.Requoted(cb).query;
      QueryChanged(cb, key + "=" + value).query
      == Some(if rq.Some? then rq.value + "&" + key + "=" + value else key + "=" + value)
  {
    var rq := Uris.Requoted(cb).query;
    QueryChangedRequoted(cb, key + "=" + value);
    JoinedUnquoted(key, '=', value, Uris.QueryPart);
    assert key + "=" + value == key + ['='] + value;
    if rq.Some? {
      assert rq.value + "&" + (key + "=" + value) == rq.value + "&" + key + "=" + value;
    }
  }

  /** The parameters of the changed query: those of the rebuilt query, then `(key, value)`. */
  lemma QueryChangedParameters(cb: Uris.Uri, key: string, value: string)
    requires AllUnreserved(key) && AllUnreserved(value)
    ensures Http.QueryParameters(QueryChanged(cb, key + "=" + value).query)
            == Http.QueryParameters(Uris.Requoted(cb).query) + [(key, value)]
  {
    QueryChangedPlain(cb, key, value);
    UnreservedExcludes(key, '=');
    UnreservedExcludes(key, '%');
    UnreservedExcludes(key, '+');
    UnreservedExcludes(key, '&');
    UnreservedExcludes(value, '%');
    UnreservedExcludes(value, '+');
    UnreservedExcludes(value, '&');
    Http.QueryAppend(Uris.Requoted(cb).query, key, value);
  }

  /**
   * Query round trip: the injected parameter is what a container reads back
   * from the new query under the key, unless the rebuilt query already had
   * a parameter of that name (which then comes first). The rebuilt query is
   * the decoded one quoted again, so an escaped '&' or '=' in the
   * callback's query now separates parameters.
   */
  lemma QueryRoundTrip(callback: string, key: string, value: string)
    requires Uris.Rebuildable(callback)
    requires AllUnreserved(key) && AllUnreserved(value)
    ensures var cb := Uris.Parse(callback).value;
      var r := QueryInject(callback, key, value);
      var earlier := Http.Lookup(Http.QueryParameters(Uris.Requoted(cb).query), key);
      r.Ok? && Uris.Parse(r.value).Some?
      && Http.Lookup(Http.QueryParameters(Uris.Parse(r.value).value.query), key)
         == if earlier.Some? then earlier else Some(value)
  {
    var cb := Uris.Parse(callback).value;
    QueryInjectOnlyChangesQuery(callback, key, value);
    UrlCodec.EncodeUnreserved(value);
    QueryChangedParameters(cb, key, value);
    Http.LookupAppend(Http.QueryParameters(Uris.Requoted(cb).query), key, value);
  }

  // ------------------------------------- both URI injectors, null-safe

  /** The two URI-based injectors, `PATH_INJECTOR` and `QUERY_INJECTOR`. */
  datatype UriInjector = PathInjector | QueryInjector

  /** The callback record after `key` and the encoded `value` are added. */
  function UriChanged(inj: UriInjector, cb: Uris.Uri, key: string, value: string): Uris.Uri
  {
    match inj
    case PathInjector => PathChanged(cb, key + "/" + UrlCodec.Encode(value))
    case QueryInjector => QueryChanged(cb, key + "=" + UrlCodec.Encode(value))
  }

  /**
   * When injection is sure to succeed: a rebuildable callback and a value,
   * and for the path injector a key that is not empty and does not start
   * with '/' (otherwise the new path could be read back as an authority).
   */
  predicate Accepts(inj: UriInjector, callback: Option<string>, key: string, value: Option<string>)
  {
    callback.Some? && value.Some? && Uris.Rebuildable(callback.value)
    && (inj.PathInjector? ==> key != [] && key[0] != '/')
  }

  /**
   * `injectParameterToCallback`. `new URI(null)` and `URLEncoder.encode(null)`
   * throw NullPointerException, in that order.
   */
  function UriInject(inj: UriInjector, callback: Option<string>, key: string, value: Option<string>): (r: Result<string, Failure>)
    ensures callback.None? ==> r == Err(NullPointer)
    ensures callback.Some? && Uris.Parse(callback.value).None?
            ==> r == Err(SyntaxError(callback.value))
    ensures callback.Some? && Uris.Parse(callback.value).Some? && value.None? ==> r == Err(NullPointer)
    ensures r.Ok? ==> Uris.Parse(r.value).Some?
    ensures Accepts(inj, callback, key, value)
            ==> r.Ok? && Uris.Parse(r.value) == Some(UriChanged(inj, Uris.Parse(callback.value).value, key, value.value))
  {
    if callback.None? then Err(NullPointer)
    else if Uris.Parse(callback.value).None? then Err(SyntaxError(callback.value))
    else if value.None? then Err(NullPointer)
    else
      match inj
      case PathInjector =>
        if Uris.Rebuildable(callback.value) && key != [] && key[0] != '/' then
          PathChangedWellFormed(Uris.Parse(callback.value).value, key + "/" + UrlCodec.Encode(value.value));
          PathInject(callback.value, key, value.value)
        else PathInject(callback.value, key, value.value)
      case QueryInjector =>
        if Uris.Rebuildable(callback.value) then
          QueryChangedWellFormed(Uris.Parse(callback.value).value, key + "=" + UrlCodec.Encode(value.value));
          QueryInject(callback.value, key, value.value)
        else QueryInject(callback.value, key, value.value)
  }

  /**
   * `extractParameterFromCallbackRequest`: the path injector reads the last
   * path segment after the key, undecoded; the query injector reads the
   * request parameter named by the key.
   */
  function UriExtract(inj: UriInjector, req: Http.Request, key: string): (r: Option<string>)
    ensures inj.PathInjector? ==> r == PathExtract(req, key)
    ensures inj.QueryInjector? ==> r == Http.Lookup(req.parameters, key)
  {
    match inj
    case PathInjector => PathExtract(req, key)
    case QueryInjector => QueryExtract(req, key)
  }

  /**
   * Round trip for either injector: the request that arrives at the injected
   * URL carries the value again under the key, for a key and a non-empty
   * value of characters the encoder leaves alone and, for the query
   * injector, a callback whose rebuilt query has no parameter of that name.
   */
  lemma UriRoundTrip(inj: UriInjector, callback: string, key: string, value: string)
    requires Uris.Rebuildable(callback)
    requires key != [] && AllUnreserved(key)
    requires value != [] && AllUnreserved(value)
    requires inj.QueryInjector?
             ==> Http.Lookup(Http.QueryParameters(Uris.Requoted(Uris.Parse(callback).value).query), key).None?
    ensures var r := UriInject(inj, Some(callback), key, Some(value));
      r.Ok? && Uris.Parse(r.value).Some?
      && UriExtract(inj, Http.Arrival(Uris.Parse(r.value).value), key) == Some(value)
  {
    var r := UriInject(inj, Some(callback), key, Some(value));
    match inj
    case PathInjector =>
      PathRoundTrip(callback, key, value, Http.QueryParameters(Uris.Parse(r.value).value.query));
    case QueryInjector =>
      QueryRoundTrip(callback, key, value);
  }

  // ------------------------------ the query value, encoded once only

  /**
   * The query injector form-encodes the value and then hands it to the
   * five-argument URI constructor, which quotes every '%' once more: the
   * container decodes the query once and reads the encoded text back
   * instead of the value. Here: the value ":" under "k" reads as "%3A".
   */
  lemma QueryInjectEncodesTwice(callback: string)
    requires Uris.Rebuildable(callback) && Uris.Parse(callback).value.query.None?
    ensures var r := QueryInject(callback, "k", ":");
      r.Ok? && Uris.Parse(r.value).Some?
      && Http.QueryParameters(Uris.Parse(r.value).value.query) == [("k", "%3A")]
  {
    var cb := Uris.Parse(callback).value;
    QueryInjectOnlyChangesQuery(callback, "k", ":");
    EncodeColon();
    TwiceEncodedQuery(cb);
  }

  lemma TwiceEncodedQuery(cb: Uris.Uri)
    requires cb.query.None?
    ensures Http.QueryParameters(QueryChanged(cb, "k=%3A").query) == [("k", "%3A")]
  {
    QuotedQuery(cb);
    EscapedParameters();
  }

  lemma QuotedQuery(cb: Uris.Uri)
    requires cb.query.None?
    ensures QueryChanged(cb, "k=%3A").query == Some("k=%253A")
  {
    QuoteEscape();
  }

  lemma EscapedParameters()
    ensures Http.QueryParameters(Some("k=%253A")) == [("k", "%3A")]
  {
    QuotedEscapePiece();
    Http.OnePiece("k=%253A");
  }

  lemma EncodeColon()
    ensures UrlCodec.Encode(":") == "%3A"
    ensures "k" + "=" + UrlCodec.Encode(":") == "k=%3A"
  {
    assert UrlCodec.Utf8(':') == [58];
    assert UrlCodec.Percent([58]) == ['%', UrlCodec.HexDigit(3), UrlCodec.HexDigit(10)] + UrlCodec.Percent([]);
    assert UrlCodec.EncodeChar(':') == "%3A";
    assert UrlCodec.Encode(":") == UrlCodec.EncodeChar(':') + UrlCodec.Encode([]);
  }

  lemma QuoteEscape()
    ensures Uris.Quote("k=%3A", Uris.QueryPart) == "k=%253A"
  {
    var p := Uris.QueryPart;
    Uris.QuoteKeeps("3A", p);
    PercentSign(p);
    assert "%3A"[1..] == "3A";
    assert Uris.Quote("%3A", p) == "%25" + "3A";
    assert "=%3A"[1..] == "%3A";
    assert Uris.Quote("=%3A", p) == "=" + "%253A";
    assert "k=%3A"[1..] == "=%3A";
  }

  /** '%' is escaped as `%25`. */
  lemma PercentSign(part: Uris.Part)
    ensures Uris.QuotedChar('%', part) == "%25"
  {
    assert UrlCodec.Utf8('%') == [37];
    assert UrlCodec.Percent([37]) == ['%', UrlCodec.HexDigit(2), UrlCodec.HexDigit(5)] + UrlCodec.Percent([]);
  }

  lemma DecodeEscapedPercent()
    ensures UrlCodec.Decode("%253A") == Some("%3A")
  {
    assert UrlCodec.EscapeValue('2', '5') == Some(37);
    assert UrlCodec.Utf8('%') == [37] && "%"[1..] == [];
    assert UrlCodec.Utf8Encode([]) == [];
    assert UrlCodec.Utf8Encode("%") == [37] + UrlCodec.Utf8Encode([]);
    assert UrlCodec.DecodeFrom([], []) == Some([]);
    assert UrlCodec.EncodeChar('A') == "A" && UrlCodec.EncodeChar('3') == "3";
    UrlCodec.DecodeKeptChar('A', [], [], []);
    assert UrlCodec.EncodeChar('A') + [] == "A" && [] + ['A'] + [] == "A";
    UrlCodec.DecodeKeptChar('3', "A", "A", "%");
    calc {
      UrlCodec.Decode("%253A");
      UrlCodec.DecodeFrom(['%', '2', '5'] + "3A", []);
      { UrlCodec.DecodeEscape('2', '5', "3A", [], 37); }
      UrlCodec.DecodeFrom("3A", [] + [37]);
      { assert [] + [37] == UrlCodec.Utf8Encode("%") && "3A" == UrlCodec.EncodeChar('3') + "A"; }
      UrlCodec.DecodeFrom(UrlCodec.EncodeChar('3') + "A", UrlCodec.Utf8Encode("%"));
      Some("%" + ['3'] + "A");
      { assert "%" + ['3'] + "A" == "%3A"; }
      Some("%3A");
    }
  }

  lemma QuotedEscapePiece()
    ensures Http.PieceParameter("k=%253A") == [("k", "%3A")]
  {
    DecodeEscapedPercent();
    UrlCodec.DecodePlain("k");
    Http.SplitPiece("k", "%253A");
    assert "k" + "=" + "%253A" == "k=%253A";
  }

  /** The encoder's output may stand in a path or a query as it is. */
  lemma {:induction false} EncodeLegal(s: string, part: Uris.Part)
    requires part == Uris.PathPart || part == Uris.QueryPart
    ensures Uris.Legal(UrlCodec.Encode(s), part)
  {
    if s != [] {
      var c := s[0];
      var head := UrlCodec.EncodeChar(c);
      assert Uris.Legal(head, part) by {
        if UrlCodec.Unreserved(c) || c == ' ' {
          assert Uris.LegalAt(head, 0, part);
        } else {
          Uris.PercentIsLegal(UrlCodec.Utf8(c), part);
        }
      }
      EncodeLegal(s[1..], part);
      Uris.LegalAppend(head, UrlCodec.Encode(s[1..]), part);
    }
  }

  /**
   * The callback rebuilt from its decoded components, as the code rebuilds
   * it, with `key=enc(value)` added to its query: the key quoted as the
   * constructor quotes it, and the encoded value left as it is.
   */
  function EncodedQueryChanged(cb: Uris.Uri, key: string, value: string): Uris.Uri
  {
    var piece := Uris.Quote(key, Uris.QueryPart) + "=" + UrlCodec.Encode(value);
    var rb := Uris.Requoted(cb);
    rb.(query := Some(if rb.query.None? then piece else rb.query.value + "&" + piece))
  }

  lemma EncodedQueryChangedWellFormed(cb: Uris.Uri, key: string, value: string)
    requires Uris.WellFormed(Uris.Requoted(cb))
    ensures Uris.WellFormed(EncodedQueryChanged(cb, key, value))
  {
    var rb := Uris.Requoted(cb);
    var quoted := Uris.Quote(key, Uris.QueryPart);
    Uris.QuoteLegal(key, Uris.QueryPart);
    var encoded := UrlCodec.Encode(value);
    assert Uris.Legal("&", Uris.QueryPart) by {
      assert Uris.LegalAt("&", 0, Uris.QueryPart);
    }
    assert Uris.Legal("=", Uris.QueryPart) by {
      assert Uris.LegalAt("=", 0, Uris.QueryPart);
    }
    EncodeLegal(value, Uris.QueryPart);
    Uris.LegalAppend(quoted, "=", Uris.QueryPart);
    Uris.LegalAppend(quoted + "=", encoded, Uris.QueryPart);
    if rb.query.Some? {
      Uris.LegalAppend(rb.query.value, "&", Uris.QueryPart);
      Uris.LegalAppend(rb.query.value + "&", quoted + "=" + encoded, Uris.QueryPart);
      assert rb.query.value + "&" + (quoted + "=" + encoded) == rb.query.value + "&" + quoted + "=" + encoded;
    }
  }

  /**
   * The query injection the extractor evidently expects: the callback is
   * read through its getters and rebuilt by the constructor as the code
   * does, and only the encoded value escapes the second quoting.
   */
  function QueryInjectEncoded(callback: string, key: string, value: string): (r: Result<string, Failure>)
    ensures Uris.Parse(callback).None? ==> r == Err(SyntaxError(callback))
    ensures r.Ok? ==> Uris.Parse(callback).Some?
                      && r.value == Uris.Show(EncodedQueryChanged(Uris.Parse(callback).value, key, value))
    ensures r.Err? ==> r == Err(SyntaxError(callback))
    ensures r.Ok? ==> Uris.Parse(r.value).Some?
    ensures Uris.Rebuildable(callback)
            ==> r.Ok? && Uris.Parse(r.value) == Some(EncodedQueryChanged(Uris.Parse(callback).value, key, value))
  {
    match Uris.Parse(callback)
    case None => Err(SyntaxError(callback))
    case Some(cb) =>
      assert Uris.WellFormed(Uris.Requoted(cb)) ==> Uris.WellFormed(EncodedQueryChanged(cb, key, value)) by {
        if Uris.WellFormed(Uris.Requoted(cb)) {
          EncodedQueryChangedWellFormed(cb, key, value);
        }
      }
      match Uris.Construct(EncodedQueryChanged(cb, key, value))
      case None => Err(SyntaxError(callback))
      case Some(s) => Ok(s)
  }

  /**
   * The code quotes the whole new piece, the encoded value included; the
   * corrected injection quotes the key alone.
   */
  lemma QueryChangedPiece(cb: Uris.Uri, key: string, encoded: string)
    ensures var rb := Uris.Requoted(cb);
      var piece := Uris.Quote(key, Uris.QueryPart) + "=" + Uris.Quote(encoded, Uris.QueryPart);
      QueryChanged(cb, key + "=" + encoded) == rb.(query := Some(if rb.query.None? then piece else rb.query.value + "&" + piece))
  {
    QueryChangedRequoted(cb, key + "=" + encoded);
    QuotePiece(key, encoded);
  }

  /** The constructor quotes `key=value` as the quoted key, '=' and the quoted value. */
  lemma QuotePiece(key: string, encoded: string)
    ensures Uris.Quote(key + "=" + encoded, Uris.QueryPart)
            == Uris.Quote(key, Uris.QueryPart) + "=" + Uris.Quote(encoded, Uris.QueryPart)
  {
    var p := Uris.QueryPart;
    assert key + "=" + encoded == key + ("=" + encoded);
    Uris.QuoteAppend(key, "=" + encoded, p);
    Uris.QuoteAppend("=", encoded, p);
    assert Uris.Quote("=", p) == "=" by {
      Uris.QuoteKeeps("=", p);
    }
  }

  /**
   * For a value the encoder leaves alone, such as a decimal flow id, the
   * corrected injection and the code agree on every callback.
   */
  lemma QueryInjectAgrees(callback: string, key: string, value: string)
    requires AllUnreserved(value)
    ensures QueryInject(callback, key, value) == QueryInjectEncoded(callback, key, value)
  {
    if Uris.Parse(callback).Some? {
      var cb := Uris.Parse(callback).value;
      UrlCodec.EncodeUnreserved(value);
      QueryChangedPiece(cb, key, value);
      UnreservedUnquoted(value, Uris.QueryPart);
      assert QueryChanged(cb, key + "=" + UrlCodec.Encode(value)) == EncodedQueryChanged(cb, key, value);
    }
  }

  /**
   * Query round trip for every value: the container reads back exactly the
   * injected value under the key, unless the rebuilt query already had a
   * parameter of that name.
   */
  lemma QueryRoundTripEncoded(callback: string, key: string, value: string)
    requires Uris.Rebuildable(callback)
    requires AllUnreserved(key)
    ensures var cb := Uris.Parse(callback).value;
      var r := QueryInjectEncoded(callback, key, value);
      var earlier := Http.Lookup(Http.QueryParameters(Uris.Requoted(cb).query), key);
      r.Ok? && Http.Lookup(Http.QueryParameters(Uris.Parse(r.value).value.query), key)
               == if earlier.Some? then earlier else Some(value)
  {
    var cb := Uris.Parse(callback).value;
    var ps := Http.QueryParameters(Uris.Requoted(cb).query);
    EncodedQueryParameters(cb, key, value);
    Http.LookupAppend(ps, key, value);
  }

  /** The parameters of the corrected query: the rebuilt ones, then `(key, value)`. */
  lemma EncodedQueryParameters(cb: Uris.Uri, key: string, value: string)
    requires AllUnreserved(key)
    ensures Http.QueryParameters(EncodedQueryChanged(cb, key, value).query)
            == Http.QueryParameters(Uris.Requoted(cb).query) + [(key, value)]
  {
    var rb := Uris.Requoted(cb);
    var encoded := UrlCodec.Encode(value);
    var piece := key + "=" + encoded;
    UnreservedUnquoted(key, Uris.QueryPart);
    UnreservedExcludes(key, '=');
    UnreservedExcludes(key, '%');
    UnreservedExcludes(key, '+');
    UnreservedExcludes(key, '&');
    Http.EncodedPiece(key, value);
    EncodedPieceAlone(key, value);
    assert Http.PiecesParameters([piece]) == Http.PieceParameter(piece) + Http.PiecesParameters([]);
    if rb.query.Some? {
      Http.QueryAppendSome(rb.query.value, piece);
    } else {
      JavaStrings.SplitAllNoSeparator(piece, '&');
    }
  }

  lemma EncodedPieceAlone(key: string, value: string)
    requires '&' !in key
    ensures '&' !in key + "=" + UrlCodec.Encode(value)
  {
    var encoded := UrlCodec.Encode(value);
    UrlCodec.EncodedChars(value);
    assert '&' !in encoded by {
      forall i | 0 <= i < |encoded| ensures encoded[i] != '&' {
        assert UrlCodec.EncodedChar(encoded[i]);
      }
    }
  }

  /** The callback record after `key` and `value` are added, the query value encoded once. */
  function ValueChanged(inj: UriInjector, cb: Uris.Uri, key: string, value: string): Uris.Uri
  {
    match inj
    case PathInjector => PathChanged(cb, key + "/" + UrlCodec.Encode(value))
    case QueryInjector => EncodedQueryChanged(cb, key, value)
  }

  /**
   * `injectParameterToCallback` with the query injector's value encoded
   * once; the path injector is as written. The null and syntax failures are
   * those of `UriInject`.
   */
  function InjectValue(inj: UriInjector, callback: Option<string>, key: string, value: Option<string>): (r: Result<string, Failure>)
    ensures callback.None? ==> r == Err(NullPointer)
    ensures callback.Some? && Uris.Parse(callback.value).None?
            ==> r == Err(SyntaxError(callback.value))
    ensures callback.Some? && Uris.Parse(callback.value).Some? && value.None? ==> r == Err(NullPointer)
    ensures r.Ok? ==> Uris.Parse(r.value).Some?
    ensures Accepts(inj, callback, key, value)
            ==> r.Ok? && Uris.Parse(r.value) == Some(ValueChanged(inj, Uris.Parse(callback.value).value, key, value.value))
    ensures inj.PathInjector? ==> r == UriInject(inj, callback, key, value)
  {
    if callback.None? then Err(NullPointer)
    else if Uris.Parse(callback.value).None? then Err(SyntaxError(callback.value))
    else if value.None? then Err(NullPointer)
    else
      match inj
      case PathInjector => UriInject(inj, callback, key, value)
      case QueryInjector => QueryInjectEncoded(callback.value, key, value.value)
  }

  /** For values the encoder leaves alone the corrected injection is the code's. */
  lemma InjectValueAgrees(inj: UriInjector, callback: Option<string>, key: string, value: Option<string>)
    requires value.Some? ==> AllUnreserved(value.value)
    ensures InjectValue(inj, callback, key, value) == UriInject(inj, callback, key, value)
  {
    if callback.Some? && value.Some? {
      QueryInjectAgrees(callback.value, key, value.value);
    }
  }

  /**
   * Round trip of the corrected injection: the request that arrives at the
   * injected URL of a rebuildable callback carries the value under the key.
   * The query injector does so for every value, given a rebuilt query
   * without a parameter of that name; the path injector, which does not
   * decode, for a non-empty value of characters the encoder leaves alone.
   */
  lemma InjectValueRoundTrip(inj: UriInjector, callback: string, key: string, value: string)
    requires Uris.Rebuildable(callback)
    requires key != [] && AllUnreserved(key)
    requires inj.PathInjector? ==> value != [] && AllUnreserved(value)
    requires inj.QueryInjector?
             ==> Http.Lookup(Http.QueryParameters(Uris.Requoted(Uris.Parse(callback).value).query), key).None?
    ensures var r := InjectValue(inj, Some(callback), key, Some(value));
      r.Ok? && UriExtract(inj, Http.Arrival(Uris.Parse(r.value).value), key) == Some(value)
  {
    match inj
    case PathInjector =>
      UriRoundTrip(inj, callback, key, value);
    case QueryInjector =>
      QueryRoundTripEncoded(callback, key, value);
  }

  // ------------------------------------------------ the state list

  /** The form-decoded state, `""` for a null state; an undecodable state throws. */
  function DecodedState(state: Option<string>): (r: Result<string, Failure>)
    ensures state.None? ==> r == Ok("")
    ensures state.Some? ==> (r.Ok? <==> UrlCodec.Decode(state.value).Some?)
  {
    if state.None? then Ok("")
    else match UrlCodec.Decode(state.value)
      case None => Err(IllegalArgument("URLDecoder: malformed escape (%) pattern"))
      case Some(s) => Ok(s)
  }

  /**
   * `OAuth2StateInjector.injectParameterToCallback`'s update of the state:
   * the decoded state, a ',' if it is not empty, then `key:value`, all
   * form-encoded again.
   */
  function StateWithPair(state: Option<string>, key: Option<string>, value: Option<string>): (r: Result<string, Failure>)
    ensures r.Ok? <==> DecodedState(state).Ok?
    ensures r.Ok? ==> var prior := DecodedState(state).value;
      UrlCodec.Decode(r.value)
      == Some(prior + (if prior == [] then "" else ",") + Wrappers.OrNull(key) + ":" + Wrappers.OrNull(value))
  {
    match DecodedState(state)
    case Err(e) => Err(e)
    case Ok(prior) =>
      var s := prior + (if prior == [] then "" else ",") + Wrappers.OrNull(key) + ":" + Wrappers.OrNull(value);
      UrlCodec.DecodeEncode(s);
      Ok(UrlCodec.Encode(s))
  }

  /**
   * The value of the first `k:v` pair whose `k` is the key. `kvSplit[0]` and
   * `kvSplit[1]` throw when the split of a pair has fewer pieces.
   */
  function FirstValue(pairs: seq<string>, key: string): (r: Result<Option<string>, Failure>)
  {
    if pairs == [] then Ok(None)
    else
      var kv := JavaStrings.Split(pairs[0], ':');
      if |kv| == 0 then Err(IndexOutOfBounds)
      else if kv[0] == key then (if |kv| < 2 then Err(IndexOutOfBounds) else Ok(Some(kv[1])))
      else FirstValue(pairs[1..], key)
  }

  /**
   * What `OAuth2StateInjector.extractParameterFromCallbackRequest` returns
   * for a state: nothing for an empty state, otherwise the first pair's value.
   */
  function StateLookup(state: Option<string>, key: string): Result<Option<string>, Failure>
  {
    match DecodedState(state)
    case Err(e) => Err(e)
    case Ok(s) => if s == [] then Ok(None) else FirstValue(JavaStrings.Split(s, ','), key)
  }

  lemma {:induction false} FirstValueAppend(ps: seq<string>, qs: seq<string>, key: string)
    ensures FirstValue(ps + qs, key) == if FirstValue(ps, key) == Ok(None) then FirstValue(qs, key) else FirstValue(ps, key)
  {
    if ps == [] {
      assert ps + qs == qs;
    } else {
      assert (ps + qs)[1..] == ps[1..] + qs;
      assert (ps + qs)[0] == ps[0];
      FirstValueAppend(ps[1..], qs, key);
    }
  }

  lemma {:induction false} FirstValueEmpties(ps: seq<string>, key: string)
    requires key != []
    requires forall i :: 0 <= i < |ps| ==> ps[i] == []
    ensures FirstValue(ps, key) == Ok(None)
  {
    if ps != [] {
      assert JavaStrings.Split(ps[0], ':') == [[]];
      FirstValueEmpties(ps[1..], key);
    }
  }

  /** Trailing empty pieces, which `split` drops, never match a non-empty key. */
  lemma FirstValueSplit(s: string, key: string)
    requires key != []
    ensures FirstValue(JavaStrings.Split(s, ','), key) == FirstValue(JavaStrings.SplitAll(s, ','), key)
  {
    var all := JavaStrings.SplitAll(s, ',');
    if ',' in s {
      var kept := JavaStrings.Split(s, ',');
      assert all == kept + all[|kept|..];
      FirstValueAppend(kept, all[|kept|..], key);
      FirstValueEmpties(all[|kept|..], key);
    } else {
      JavaStrings.SplitAllNoSeparator(s, ',');
    }
  }

  lemma PairValue(key: string, value: string)
    requires ':' !in key && ':' !in value && value != []
    ensures JavaStrings.Split(key + ":" + value, ':') == [key, value]
  {
    JavaStrings.SplitAllAppend(key, value, ':');
    JavaStrings.SplitAllNoSeparator(key, ':');
    JavaStrings.SplitAllNoSeparator(value, ':');
    assert key + ":" + value == key + [':'] + value;
    assert (key + ":" + value)[|key|] == ':';
  }

  lemma PairNoComma(key: string, value: string)
    requires ',' !in key && ',' !in value
    ensures ',' !in key + ":" + value
  {
    var pair := key + ":" + value;
    forall i | 0 <= i < |pair| ensures pair[i] != ',' {
      if i < |key| {
        assert pair[i] == key[i] && key[i] in key;
      } else if i > |key| {
        assert pair[i] == value[i - |key| - 1] && value[i - |key| - 1] in value;
      }
    }
  }

  /** A pair appended after a ',' is consulted only when no earlier pair matched. */
  lemma AppendedPairLookup(prior: string, pair: string, key: string)
    requires key != [] && ',' !in pair
    ensures var before := FirstValue(JavaStrings.Split(prior, ','), key);
      FirstValue(JavaStrings.Split(prior + "," + pair, ','), key)
      == if before == Ok(None) then FirstValue([pair], key) else before
  {
    var s := prior + "," + pair;
    assert s == prior + [','] + pair;
    JavaStrings.SplitAllAppend(prior, pair, ',');
    JavaStrings.SplitAllNoSeparator(pair, ',');
    var all := JavaStrings.SplitAll(prior, ',');
    assert all[..|all| - 1] + [all[|all| - 1]] == all;
    FirstValueSplit(s, key);
    FirstValueSplit(prior, key);
    FirstValueAppend(all, [pair], key);
  }

  lemma StateLookupDecoded(state: Option<string>, key: string)
    requires DecodedState(state).Ok?
    ensures var d := DecodedState(state).value;
      StateLookup(state, key) == if d == [] then Ok(None) else FirstValue(JavaStrings.Split(d, ','), key)
  {
  }

  /** A lone pair `key:value` yields its value. */
  lemma LonePair(key: string, value: string)
    requires key != [] && value != []
    requires ',' !in key && ':' !in key && ',' !in value && ':' !in value
    ensures FirstValue([key + ":" + value], key) == Ok(Some(value))
    ensures JavaStrings.Split(key + ":" + value, ',') == [key + ":" + value]
    ensures ',' !in key + ":" + value
  {
    PairValue(key, value);
    PairNoComma(key, value);
  }

  /** The extended state is the prior one, a comma, then the pair. */
  lemma PriorThenPair(prior: string, key: string, value: string)
    ensures prior + "," + key + ":" + value == prior + "," + (key + ":" + value)
  {
  }

  lemma ExtendedNonEmpty(prior: string, key: string, value: string)
    requires prior != [] && key != [] && value != []
    requires ',' !in key && ':' !in key && ',' !in value && ':' !in value
    ensures var before := FirstValue(JavaStrings.Split(prior, ','), key);
      FirstValue(JavaStrings.Split(prior + "," + key + ":" + value, ','), key)
      == if before == Ok(None) then Ok(Some(value)) else before
  {
    LonePair(key, value);
    PriorThenPair(prior, key, value);
    AppendedPairLookup(prior, key + ":" + value, key);
  }

  /** An empty prior state adds nothing in front of the pair. */
  lemma EmptyPriorAddsNothing(key: string, value: string)
    ensures [] + "" + key + ":" + value == key + ":" + value
  {
    assert [] + "" + key == key;
  }

  lemma ExtendedEmpty(key: string, value: string)
    requires key != [] && value != []
    requires ',' !in key && ':' !in key && ',' !in value && ':' !in value
    ensures FirstValue(JavaStrings.Split([] + "" + key + ":" + value, ','), key) == Ok(Some(value))
  {
    LonePair(key, value);
    EmptyPriorAddsNothing(key, value);
  }

  /** The lookup in a freshly extended state, in terms of the state it extends. */
  lemma ExtendedLookup(prior: string, key: string, value: string)
    requires key != [] && value != []
    requires ',' !in key && ':' !in key && ',' !in value && ':' !in value
    ensures var s := prior + (if prior == [] then "" else ",") + key + ":" + value;
      var before := if prior == [] then Ok(None) else FirstValue(JavaStrings.Split(prior, ','), key);
      s != [] && FirstValue(JavaStrings.Split(s, ','), key) == if before == Ok(None) then Ok(Some(value)) else before
  {
    if prior == [] {
      ExtendedEmpty(key, value);
    } else {
      ExtendedNonEmpty(prior, key, value);
    }
  }

  /**
   * State round trip, with first-match-wins: after a pair is added, looking
   * the key up finds what was found before, and the new value when nothing
   * was (a key or value holding ',' or ':' would be cut apart, and an empty
   * value is refused by `kvSplit[1]`).
   */
  lemma StateRoundTrip(state: Option<string>, key: string, value: string)
    requires key != [] && value != []
    requires ',' !in key && ':' !in key && ',' !in value && ':' !in value
    requires DecodedState(state).Ok?
    ensures var r := StateWithPair(state, Some(key), Some(value));
      r.Ok? && StateLookup(Some(r.value), key)
               == if StateLookup(state, key) == Ok(None) then Ok(Some(value)) else StateLookup(state, key)
  {
    var prior := DecodedState(state).value;
    var r := StateWithPair(state, Some(key), Some(value));
    StateLookupDecoded(state, key);
    StateLookupDecoded(Some(r.value), key);
    ExtendedLookup(prior, key, value);
  }
}
