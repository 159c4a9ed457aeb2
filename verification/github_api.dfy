/**
 * The GitHub OAuth 2.0 endpoints (buttons/GitHubApi.java): a fixed
 * access-token endpoint, and an authorization URL built by plain string
 * concatenation from the key, callback and scope of the older Scribe
 * `OAuthConfig`. Nothing is encoded on the way.
 */
module GitHub {
  import opened Wrappers
  import Scribe
  import Http

  const AccessTokenUrl: string := "https://github.com/login/oauth/access_token"
  const AuthorizeEndpoint: string := "https://github.com/login/oauth/authorize"

  /** `AUTHORIZE_URL_FORMAT` up to its `%s`. */
  const AuthorizePrefix: string := AuthorizeEndpoint + "?client_id="

  /** `getAccessTokenEndpoint`: a different address from the authorization endpoint. */
  function AccessTokenEndpoint(): (r: string)
    ensures r == AccessTokenUrl
    ensures !(AuthorizeEndpoint <= r)
  {
    assert AccessTokenUrl[32] == 'c' && AuthorizeEndpoint[32] == 'u';
    AccessTokenUrl
  }

  /**
   * `getAuthorizationUrl(config)`: the key (a null key prints as "null"),
   * then `&redirect_uri=` and the callback when there is one, then
   * `&scope=` and the scope when there is one.
   */
  function AuthorizationUrl(o: Scribe.ServiceOptions): (url: string)
    ensures AuthorizePrefix + OrNull(o.apiKey) <= url
    ensures o.callback.None? && o.scope.None? ==> url == AuthorizePrefix + OrNull(o.apiKey)
    ensures |url| == |AuthorizePrefix + OrNull(o.apiKey)|
                     + (if o.callback.Some? then |"&redirect_uri="| + |o.callback.value| else 0)
                     + (if o.scope.Some? then |"&scope="| + |o.scope.value| else 0)
  {
    var url := AuthorizePrefix + OrNull(o.apiKey);
    var url := if o.callback.Some? then url + "&redirect_uri=" + o.callback.value else url;
    if o.scope.Some? then url + "&scope=" + o.scope.value else url
  }

  /** The parameters GitHub is meant to read from the authorization URL. */
  function Intended(o: Scribe.ServiceOptions): seq<(string, string)>
  {
    [("client_id", OrNull(o.apiKey))]
    + (if o.callback.Some? then [("redirect_uri", o.callback.value)] else [])
    + (if o.scope.Some? then [("scope", o.scope.value)] else [])
  }

  /** A value that reads back as itself when put into a query string unencoded. */
  predicate Plain(s: string)
  {
    '%' !in s && '+' !in s && '&' !in s
  }

  /** The query of the authorization URL, piece by piece. */
  function Query(o: Scribe.ServiceOptions): string
  {
    var q := "client_id" + "=" + OrNull(o.apiKey);
    var q := if o.callback.Some? then q + "&" + "redirect_uri" + "=" + o.callback.value else q;
    if o.scope.Some? then q + "&" + "scope" + "=" + o.scope.value else q
  }

  lemma PrefixShape(key: string)
    ensures AuthorizePrefix + key == AuthorizeEndpoint + "?" + ("client_id" + "=" + key)
  {
    assert "?client_id=" == "?" + "client_id" + "=";
    var e := AuthorizeEndpoint;
    assert e + "?client_id=" + key == e + "?" + ("client_id" + "=" + key);
  }

  /** The two separators of the format, read as `&`, the name and `=`. */
  lemma PieceShapes()
    ensures "&redirect_uri=" == "&" + "redirect_uri" + "="
    ensures "&scope=" == "&" + "scope" + "="
  {
  }

  /** Appending `piece + v` to the URL appends `&name=v` to its query. */
  lemma AppendStep(h: string, q: string, u: string, piece: string, name: string, v: string)
    requires u == h + q && piece == "&" + name + "="
    ensures u + piece + v == h + (q + "&" + name + "=" + v)
  {
  }

  lemma UrlShape(o: Scribe.ServiceOptions)
    ensures AuthorizationUrl(o) == AuthorizeEndpoint + "?" + Query(o)
  {
    var key := OrNull(o.apiKey);
    PrefixShape(key);
    PieceShapes();
    var h := AuthorizeEndpoint + "?";
    var q0 := "client_id" + "=" + key;
    var u0 := AuthorizePrefix + key;
    var q1 := if o.callback.Some? then q0 + "&" + "redirect_uri" + "=" + o.callback.value else q0;
    var u1 := if o.callback.Some? then u0 + "&redirect_uri=" + o.callback.value else u0;
    if o.callback.Some? {
      AppendStep(h, q0, u0, "&redirect_uri=", "redirect_uri", o.callback.value);
    }
    if o.scope.Some? {
      AppendStep(h, q1, u1, "&scope=", "scope", o.scope.value);
    }
  }

  lemma NamesPlain()
    ensures '=' !in "client_id" && '%' !in "client_id" && '+' !in "client_id" && '&' !in "client_id"
    ensures '=' !in "redirect_uri" && '%' !in "redirect_uri" && '+' !in "redirect_uri" && '&' !in "redirect_uri"
    ensures '=' !in "scope" && '%' !in "scope" && '+' !in "scope" && '&' !in "scope"
  {
  }

  lemma QueryReads(o: Scribe.ServiceOptions)
    requires Plain(OrNull(o.apiKey))
    requires o.callback.Some? ==> Plain(o.callback.value)
    requires o.scope.Some? ==> Plain(o.scope.value)
    ensures Http.QueryParameters(Some(Query(o))) == Intended(o)
  {
    NamesPlain();
    var key := OrNull(o.apiKey);
    var q0 := "client_id" + "=" + key;
    Http.QueryAppend(None, "client_id", key);
    var q1 := if o.callback.Some? then q0 + "&" + "redirect_uri" + "=" + o.callback.value else q0;
    if o.callback.Some? {
      Http.QueryAppend(Some(q0), "redirect_uri", o.callback.value);
    }
    if o.scope.Some? {
      Http.QueryAppend(Some(q1), "scope", o.scope.value);
    }
  }

  /**
   * The authorization URL is the endpoint with a query that reads as the
   * client id, then the redirect URI if any, then the scope if any, as long
   * as none of them holds a character that needs encoding.
   */
  lemma AuthorizationUrlParameters(o: Scribe.ServiceOptions)
    requires Plain(OrNull(o.apiKey))
    requires o.callback.Some? ==> Plain(o.callback.value)
    requires o.scope.Some? ==> Plain(o.scope.value)
    ensures AuthorizeEndpoint + "?" <= AuthorizationUrl(o)
    ensures Http.QueryParameters(Some(AuthorizationUrl(o)[|AuthorizeEndpoint| + 1..])) == Intended(o)
  {
    UrlShape(o);
    var head := AuthorizeEndpoint + "?";
    assert |head| == |AuthorizeEndpoint| + 1;
    assert (head + Query(o))[|head|..] == Query(o);
    QueryReads(o);
  }

  /**
   * Because the callback goes in unencoded, a callback `c1&y=v` that has a
   * query of its own with two parameters (`cb?x=1&y=2`, say) loses its
   * second one to GitHub's query, where it reads as a parameter `y` of its own.
   */
  lemma CallbackQueryIsCut(o: Scribe.ServiceOptions, c1: string, y: string, v: string)
    requires Plain(OrNull(o.apiKey)) && o.scope.None?
    requires o.callback == Some(c1 + "&" + y + "=" + v)
    requires Plain(c1) && Plain(y) && '=' !in y && Plain(v)
    ensures Http.QueryParameters(Some(AuthorizationUrl(o)[|AuthorizeEndpoint| + 1..]))
            == [("client_id", OrNull(o.apiKey)), ("redirect_uri", c1), (y, v)]
  {
    UrlShape(o);
    var head := AuthorizeEndpoint + "?";
    assert (head + Query(o))[|head|..] == Query(o);
    NamesPlain();
    var key := OrNull(o.apiKey);
    var q0 := "client_id" + "=" + key;
    var q1 := q0 + "&" + "redirect_uri" + "=" + c1;
    assert Query(o) == q1 + "&" + y + "=" + v;
    Http.QueryAppend(None, "client_id", key);
    Http.QueryAppend(Some(q0), "redirect_uri", c1);
    Http.QueryAppend(Some(q1), y, v);
  }
}
