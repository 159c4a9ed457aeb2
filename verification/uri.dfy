/**
 * A java.net.URI reduced to the hierarchical form the callbacks use: a
 * record of scheme, authority, path, query and fragment, a parser that
 * refuses what `new URI(String)` refuses, and the string form the
 * five-argument constructor builds. The record keeps each component in its
 * raw (escaped) form, as `getRawPath` and its siblings return it; `Decode`
 * is what `getPath` and its siblings return.
 */
module Uris {
  import opened Wrappers
  import UrlCodec

  datatype Uri = Uri(
    scheme: Option<string>,
    authority: Option<string>,
    path: string,
    query: Option<string>,
    fragment: Option<string>)

  /** Where a character stands decides which characters it may be. */
  datatype Part = SchemePart | AuthorityPart | PathPart | QueryPart

  predicate Alpha(c: char) { ('a' <= c <= 'z') || ('A' <= c <= 'Z') }

  predicate AlphaNum(c: char) { Alpha(c) || ('0' <= c <= '9') }

  /** The unreserved characters of RFC 2396. */
  predicate Mark(c: char)
  {
    AlphaNum(c) || c == '-' || c == '_' || c == '.' || c == '!' || c == '~' || c == '*'
    || c == '\'' || c == '(' || c == ')'
  }

  /** The characters a part may hold other than in a `%XX` escape. */
  predicate Allowed(c: char, part: Part)
  {
    match part
    case SchemePart => AlphaNum(c) || c == '+' || c == '-' || c == '.'
    case AuthorityPart =>
      Mark(c) || c == ';' || c == ':' || c == '@' || c == '&' || c == '=' || c == '+' || c == '$' || c == ','
    case PathPart =>
      Mark(c) || c == ';' || c == ':' || c == '@' || c == '&' || c == '=' || c == '+' || c == '$' || c == ','
      || c == '/'
    case QueryPart =>
      Mark(c) || c == ';' || c == '/' || c == '?' || c == ':' || c == '@' || c == '&' || c == '=' || c == '+'
      || c == '$' || c == ',' || c == '[' || c == ']'
  }

  /** The character at `i` is allowed in the part, or it is a '%' starting a two-hex-digit escape. */
  predicate LegalAt(s: string, i: nat, part: Part)
    requires i < |s|
  {
    if s[i] == '%' then i + 2 < |s| && UrlCodec.IsHex(s[i + 1]) && UrlCodec.IsHex(s[i + 2])
    else Allowed(s[i], part)
  }

  predicate Legal(s: string, part: Part)
  {
    forall i :: 0 <= i < |s| ==> LegalAt(s, i, part)
  }

  predicate ValidScheme(s: string)
  {
    s != [] && Alpha(s[0]) && forall i :: 0 <= i < |s| ==> Allowed(s[i], SchemePart)
  }

  /** The index of the first `c` in `s`, or `|s|` when there is none. */
  function Find(s: string, c: char): (i: nat)
    ensures i <= |s| && (i < |s| ==> s[i] == c)
    ensures forall j :: 0 <= j < i ==> s[j] != c
    ensures i == |s| <==> c !in s
  {
    if s == [] || s[0] == c then 0 else 1 + Find(s[1..], c)
  }

  /** The index of the first ':' or '/', or `|s|`. */
  function FindSchemeEnd(s: string): (i: nat)
    ensures i <= |s| && (i < |s| ==> s[i] == ':' || s[i] == '/')
    ensures forall j :: 0 <= j < i ==> s[j] != ':' && s[j] != '/'
    ensures i == |s| <==> ':' !in s && '/' !in s
  {
    if s == [] || s[0] == ':' || s[0] == '/' then 0 else 1 + FindSchemeEnd(s[1..])
  }

  predicate StartsWithSlash(s: string) { |s| >= 1 && s[0] == '/' }

  predicate StartsWithTwoSlashes(s: string) { |s| >= 2 && s[0] == '/' && s[1] == '/' }

  /** A record whose string form reads back as the same record. */
  predicate WellFormed(u: Uri)
  {
    && (u.scheme.Some? ==> ValidScheme(u.scheme.value))
    && (u.authority.Some? ==> u.authority.value != [] && Legal(u.authority.value, AuthorityPart))
    && (u.query.Some? ==> Legal(u.query.value, QueryPart))
    && (u.fragment.Some? ==> Legal(u.fragment.value, QueryPart))
    && PathFits(u.path, u.scheme.Some?, u.authority.Some?)
  }

  /** A path that may stand after the given scheme and authority. */
  predicate PathFits(p: string, hasScheme: bool, hasAuthority: bool)
  {
    && Legal(p, PathPart)
    // an absolute URI is hierarchical: its scheme-specific part starts with '/'
    && (hasScheme && !hasAuthority ==> StartsWithSlash(p))
    && (hasAuthority ==> p == [] || StartsWithSlash(p))
    // a path that could be read as an authority or a scheme is not allowed
    && (!hasAuthority ==> !StartsWithTwoSlashes(p))
    && (!hasScheme && !hasAuthority ==> FindSchemeEnd(p) == |p| || p[FindSchemeEnd(p)] == '/')
  }

  // The string form is built, and taken apart, one layer at a time.

  /** `w`, followed by `c` and the tail when there is one. */
  function Attach(w: string, c: char, tail: Option<string>): string
  {
    if tail.Some? then w + [c] + tail.value else w
  }

  /** Splits at the first `c`: what precedes it, and what follows it if it occurs. */
  function SplitOff(s: string, c: char): (string, Option<string>)
  {
    var i := Find(s, c);
    (s[..i], if i < |s| then Some(s[i + 1..]) else None)
  }

  function JoinScheme(scheme: Option<string>, hier: string): string
  {
    if scheme.Some? then scheme.value + ":" + hier else hier
  }

  /** A scheme is what precedes a ':' that comes before any '/'. */
  function SplitScheme(s: string): (Option<string>, string)
  {
    var k := FindSchemeEnd(s);
    if k < |s| && s[k] == ':' then (Some(s[..k]), s[k + 1..]) else (None, s)
  }

  function JoinAuthority(authority: Option<string>, path: string): string
  {
    if authority.Some? then "//" + authority.value + path else path
  }

  /** An authority follows "//" and runs up to the next '/'. */
  function SplitAuthority(s: string): (Option<string>, string)
  {
    if StartsWithTwoSlashes(s) then
      var a := Find(s[2..], '/');
      (Some(s[2..][..a]), s[2..][a..])
    else (None, s)
  }

  /** The string form: `scheme:` `//authority` path `?query` `#fragment`. */
  function Show(u: Uri): string
  {
    Attach(Attach(JoinScheme(u.scheme, JoinAuthority(u.authority, u.path)), '?', u.query), '#', u.fragment)
  }

  /** The components `s` decomposes into, before any validity check. */
  function Decompose(s: string): Uri
  {
    var (beforeFragment, fragment) := SplitOff(s, '#');
    var (beforeQuery, query) := SplitOff(beforeFragment, '?');
    var (scheme, hier) := SplitScheme(beforeQuery);
    var (authority, path) := SplitAuthority(hier);
    Uri(scheme, authority, path, query, fragment)
  }

  /** `new URI(s)`: `None` is the URISyntaxException. */
  function Parse(s: string): (r: Option<Uri>)
    ensures r.Some? ==> WellFormed(r.value)
  {
    var u := Decompose(s);
    if WellFormed(u) then Some(u) else None
  }

  // ------------------------------------------------------------ proofs

  lemma {:induction false} FindAppend(a: string, b: string, c: char)
    requires c !in a
    ensures Find(a + b, c) == |a| + Find(b, c)
  {
    if a == [] {
      assert a + b == b;
    } else {
      assert (a + b)[1..] == a[1..] + b;
      assert a[0] in a;
      FindAppend(a[1..], b, c);
    }
  }

  lemma {:induction false} FindSchemeEndAppend(a: string, b: string)
    requires ':' !in a && '/' !in a
    ensures FindSchemeEnd(a + b) == |a| + FindSchemeEnd(b)
  {
    if a == [] {
      assert a + b == b;
    } else {
      assert (a + b)[1..] == a[1..] + b;
      assert a[0] in a;
      FindSchemeEndAppend(a[1..], b);
    }
  }

  lemma SplitOffAttach(w: string, c: char, tail: Option<string>)
    requires c !in w
    ensures SplitOff(Attach(w, c, tail), c) == (w, tail)
  {
    if tail.Some? {
      var s := w + [c] + tail.value;
      assert s == w + ([c] + tail.value);
      FindAppend(w, [c] + tail.value, c);
      assert s[..|w|] == w && s[|w| + 1..] == tail.value;
    } else {
      assert w[..|w|] == w;
    }
  }

  lemma AttachSplitOff(s: string, c: char)
    ensures var (w, tail) := SplitOff(s, c); Attach(w, c, tail) == s && c !in w
  {
    var i := Find(s, c);
    if i < |s| {
      assert s == s[..i] + [c] + s[i + 1..];
    }
  }

  lemma SchemeExcludes(sc: string)
    requires ValidScheme(sc)
    ensures ':' !in sc && '/' !in sc && '?' !in sc && '#' !in sc
  {
    assert forall i :: 0 <= i < |sc| ==> Allowed(sc[i], SchemePart);
  }

  lemma SplitSchemeAt(sc: string, hier: string)
    requires ':' !in sc && '/' !in sc
    ensures SplitScheme(sc + ":" + hier) == (Some(sc), hier)
  {
    var s := sc + ":" + hier;
    assert s == sc + (":" + hier);
    FindSchemeEndAppend(sc, ":" + hier);
    assert s[..|sc|] == sc && s[|sc| + 1..] == hier;
  }

  lemma SplitSchemeJoin(scheme: Option<string>, hier: string)
    requires scheme.Some? ==> ValidScheme(scheme.value)
    requires scheme.None? ==> FindSchemeEnd(hier) == |hier| || hier[FindSchemeEnd(hier)] == '/'
    ensures SplitScheme(JoinScheme(scheme, hier)) == (scheme, hier)
  {
    if scheme.Some? {
      SchemeExcludes(scheme.value);
      SplitSchemeAt(scheme.value, hier);
    }
  }

  lemma JoinSplitScheme(s: string)
    ensures var (scheme, hier) := SplitScheme(s); JoinScheme(scheme, hier) == s
  {
    var k := FindSchemeEnd(s);
    if k < |s| && s[k] == ':' {
      assert s == s[..k] + ":" + s[k + 1..];
    }
  }

  lemma SplitAuthorityJoin(authority: Option<string>, path: string)
    requires authority.Some? ==> '/' !in authority.value && (path == [] || StartsWithSlash(path))
    requires authority.None? ==> !StartsWithTwoSlashes(path)
    ensures SplitAuthority(JoinAuthority(authority, path)) == (authority, path)
  {
    if authority.Some? {
      var au := authority.value;
      var s := "//" + au + path;
      assert s[2..] == au + path;
      if path == [] {
        assert s[2..] == au;
        assert Find(au, '/') == |au| by {
          assert forall j :: 0 <= j < |au| ==> au[j] in au;
        }
      } else {
        assert (au + path)[|au|] == '/';
        assert forall j :: 0 <= j < |au| ==> (au + path)[j] == au[j] && au[j] in au;
        assert (au + path)[..|au|] == au && (au + path)[|au|..] == path;
      }
    }
  }

  lemma JoinSplitAuthority(s: string)
    ensures var (authority, path) := SplitAuthority(s); JoinAuthority(authority, path) == s
  {
    if StartsWithTwoSlashes(s) {
      var a := Find(s[2..], '/');
      assert s == "//" + s[2..][..a] + s[2..][a..];
    }
  }

  lemma LegalExcludes(s: string, part: Part, c: char)
    requires Legal(s, part)
    requires c != '%' && !Allowed(c, part)
    ensures c !in s
  {
    forall i | 0 <= i < |s|
      ensures s[i] != c
    {
      assert LegalAt(s, i, part);
    }
  }

  /** A character no part may hold, and no separator, appears nowhere in a well-formed URI's string form. */
  lemma ShowExcludes(u: Uri, c: char)
    requires WellFormed(u)
    requires c != '%' && c != ':' && c != '/' && c != '?' && c != '#'
    requires !Allowed(c, SchemePart) && !Allowed(c, AuthorityPart)
    requires !Allowed(c, PathPart) && !Allowed(c, QueryPart)
    ensures c !in Show(u)
  {
    if u.scheme.Some? {
      var sc := u.scheme.value;
      assert forall i :: 0 <= i < |sc| ==> sc[i] != c;
    }
    if u.authority.Some? {
      LegalExcludes(u.authority.value, AuthorityPart, c);
    }
    LegalExcludes(u.path, PathPart, c);
    if u.query.Some? {
      LegalExcludes(u.query.value, QueryPart, c);
    }
    if u.fragment.Some? {
      LegalExcludes(u.fragment.value, QueryPart, c);
    }
  }

  /** A string holding a bare space is no URI. */
  lemma SpaceRefused(s: string)
    requires ' ' in s
    ensures Parse(s).None?
  {
    if Parse(s).Some? {
      ShowParse(s);
      ShowExcludes(Parse(s).value, ' ');
    }
  }

  /** The part before the query: it holds no `?` or `#` and splits back into scheme, authority and path. */
  lemma HeadRoundTrip(u: Uri)
    requires WellFormed(u)
    ensures var hier := JoinAuthority(u.authority, u.path);
      var head := JoinScheme(u.scheme, hier);
      '?' !in head && '#' !in head
      && SplitScheme(head) == (u.scheme, hier) && SplitAuthority(hier) == (u.authority, u.path)
  {
    var hier := JoinAuthority(u.authority, u.path);
    if u.authority.Some? {
      LegalExcludes(u.authority.value, AuthorityPart, '/');
      LegalExcludes(u.authority.value, AuthorityPart, '?');
      LegalExcludes(u.authority.value, AuthorityPart, '#');
    }
    LegalExcludes(u.path, PathPart, '?');
    LegalExcludes(u.path, PathPart, '#');
    if u.scheme.Some? {
      SchemeExcludes(u.scheme.value);
    }
    SplitAuthorityJoin(u.authority, u.path);
    if u.scheme.Some? && u.authority.None? {
      assert FindSchemeEnd(hier) == 0;
    }
    if u.authority.Some? {
      assert hier[0] == '/';
      assert FindSchemeEnd(hier) == 0;
    }
    SplitSchemeJoin(u.scheme, hier);
  }

  /** Every well-formed record is read back from its string form. */
  lemma ParseShow(u: Uri)
    requires WellFormed(u)
    ensures Parse(Show(u)) == Some(u)
  {
    var head := JoinScheme(u.scheme, JoinAuthority(u.authority, u.path));
    var withQuery := Attach(head, '?', u.query);
    HeadRoundTrip(u);
    if u.query.Some? {
      LegalExcludes(u.query.value, QueryPart, '#');
    }
    SplitOffAttach(head, '?', u.query);
    assert '#' !in withQuery;
    SplitOffAttach(withQuery, '#', u.fragment);
  }

  /** A string that parses is the string form of its parse. */
  lemma ShowParse(s: string)
    requires Parse(s).Some?
    ensures Show(Parse(s).value) == s
  {
    var (beforeFragment, fragment) := SplitOff(s, '#');
    var (beforeQuery, query) := SplitOff(beforeFragment, '?');
    var (scheme, hier) := SplitScheme(beforeQuery);
    AttachSplitOff(s, '#');
    AttachSplitOff(beforeFragment, '?');
    JoinSplitScheme(beforeQuery);
    JoinSplitAuthority(hier);
  }

  // --------------------------------------------------- the constructor

  /**
   * How the five-argument constructor quotes a component it is given: each
   * character that may not stand in the part, '%' included, becomes the
   * `%XX` escapes of its UTF-8 bytes (what `toASCIIString` shows).
   */
  function Quote(s: string, part: Part): (r: string)
    ensures s != [] ==> r != [] && (r[0] == s[0] || r[0] == '%')
  {
    if s == [] then [] else QuotedChar(s[0], part) + Quote(s[1..], part)
  }

  /** One character as the constructor writes it: itself, or the escapes of its UTF-8 bytes. */
  function QuotedChar(c: char, part: Part): (r: string)
    ensures r != [] && (r[0] == c || r[0] == '%')
  {
    if c != '%' && Allowed(c, part) then [c] else UrlCodec.Percent(UrlCodec.Utf8(c))
  }

  /** What the constructor writes into a component is legal there. */
  lemma {:induction false} QuoteLegal(s: string, part: Part)
    ensures Legal(Quote(s, part), part)
  {
    if s != [] {
      QuoteLegal(s[1..], part);
      QuotedCharLegal(s[0], part);
      LegalAppend(QuotedChar(s[0], part), Quote(s[1..], part), part);
    }
  }

  lemma QuotedCharLegal(c: char, part: Part)
    ensures Legal(QuotedChar(c, part), part)
  {
    if c != '%' && Allowed(c, part) {
      assert LegalAt([c], 0, part);
    } else {
      PercentIsLegal(UrlCodec.Utf8(c), part);
    }
  }

  /** A component that needs no quoting is left as it is. */
  lemma {:induction false} QuoteKeeps(s: string, part: Part)
    requires forall i :: 0 <= i < |s| ==> s[i] != '%' && Allowed(s[i], part)
    ensures Quote(s, part) == s
  {
    if s != [] {
      QuoteKeeps(s[1..], part);
      assert s == [s[0]] + s[1..];
    }
  }

  lemma {:induction false} PercentIsLegal(bs: seq<UrlCodec.Byte>, part: Part)
    ensures Legal(UrlCodec.Percent(bs), part)
  {
    if bs != [] {
      PercentIsLegal(bs[1..], part);
      var r := UrlCodec.Percent(bs);
      var t := UrlCodec.Percent(bs[1..]);
      var hi, lo := UrlCodec.HexDigit(bs[0] / 16), UrlCodec.HexDigit(bs[0] % 16);
      assert r == ['%', hi, lo] + t;
      assert LegalAt(r, 0, part);
      assert LegalAt(r, 1, part) && LegalAt(r, 2, part);
      forall i | 3 <= i < |r|
        ensures LegalAt(r, i, part)
      {
        assert LegalAt(t, i - 3, part);
        assert r[i] == t[i - 3];
        if r[i] == '%' {
          assert r[i + 1] == t[i - 2] && r[i + 2] == t[i - 1];
        }
      }
    }
  }

  lemma LegalAppend(a: string, b: string, part: Part)
    requires Legal(a, part) && Legal(b, part)
    ensures Legal(a + b, part)
  {
    var s := a + b;
    forall i | 0 <= i < |s|
      ensures LegalAt(s, i, part)
    {
      if i >= |a| {
        assert LegalAt(b, i - |a|, part);
        assert s[i] == b[i - |a|];
        if s[i] == '%' {
          assert s[i + 1] == b[i - |a| + 1] && s[i + 2] == b[i - |a| + 2];
        }
      } else {
        assert LegalAt(a, i, part);
        assert s[i] == a[i];
        if s[i] == '%' {
          assert s[i + 1] == a[i + 1] && s[i + 2] == a[i + 2];
        }
      }
    }
  }

  // ----------------------------------------------------------- the getters

  /**
   * What `getAuthority`, `getPath`, `getQuery` and `getFragment` return: the
   * raw component with each run of `%XX` escapes replaced by the characters
   * its UTF-8 bytes spell (U+FFFD for an ill-formed sequence).
   */
  function Decode(s: string): string
  {
    DecodeFrom(s, [])
  }

  /** `s` starts with a '%' and two hex digits. */
  predicate StartsEscape(s: string)
  {
    |s| >= 3 && s[0] == '%' && UrlCodec.IsHex(s[1]) && UrlCodec.IsHex(s[2])
  }

  /** Decodes `s`, where `pending` holds the bytes of the escape run just before it. */
  function DecodeFrom(s: string, pending: seq<UrlCodec.Byte>): string
    decreases |s|
  {
    if s == [] then UrlCodec.Utf8Decode(pending)
    else if StartsEscape(s) then
      DecodeFrom(s[3..], pending + [16 * UrlCodec.HexValue(s[1]) + UrlCodec.HexValue(s[2])])
    else UrlCodec.Utf8Decode(pending) + [s[0]] + DecodeFrom(s[1..], [])
  }

  /** A component as the constructor writes it back after its getter decoded it. */
  function Requote(c: Option<string>, part: Part): Option<string>
  {
    if c.None? then None else Some(Quote(Decode(c.value), part))
  }

  /**
   * The record `new URI(u.getScheme(), u.getAuthority(), u.getPath(),
   * u.getQuery(), u.getFragment())` builds: every component but the scheme
   * decoded by its getter and quoted again by the constructor.
   */
  function Requoted(u: Uri): Uri
  {
    Uri(u.scheme, Requote(u.authority, AuthorityPart), Quote(Decode(u.path), PathPart),
        Requote(u.query, QueryPart), Requote(u.fragment, QueryPart))
  }

  /**
   * `s` parses, and the five-argument constructor accepts the components
   * its getters return: what the URI injectors need not to throw.
   */
  predicate Rebuildable(s: string)
  {
    Parse(s).Some? && WellFormed(Requoted(Parse(s).value))
  }

  /** One escape adds its byte to the pending ones. */
  lemma DecodeByte(b: UrlCodec.Byte, rest: string, pending: seq<UrlCodec.Byte>)
    ensures DecodeFrom(['%', UrlCodec.HexDigit(b / 16), UrlCodec.HexDigit(b % 16)] + rest, pending)
            == DecodeFrom(rest, pending + [b])
  {
    var s := ['%', UrlCodec.HexDigit(b / 16), UrlCodec.HexDigit(b % 16)] + rest;
    assert s[0] == '%' && s[1] == UrlCodec.HexDigit(b / 16) && s[2] == UrlCodec.HexDigit(b % 16);
    assert StartsEscape(s) && s[3..] == rest;
    assert 16 * UrlCodec.HexValue(s[1]) + UrlCodec.HexValue(s[2]) == b;
  }

  /** A run of escapes is gathered into the pending bytes. */
  lemma {:induction false} DecodeRun(bs: seq<UrlCodec.Byte>, t: string, pending: seq<UrlCodec.Byte>)
    ensures DecodeFrom(UrlCodec.Percent(bs) + t, pending) == DecodeFrom(t, pending + bs)
  {
    if bs == [] {
      assert UrlCodec.Percent(bs) + t == t && pending + bs == pending;
    } else {
      var b, rest := bs[0], UrlCodec.Percent(bs[1..]) + t;
      calc {
        DecodeFrom(UrlCodec.Percent(bs) + t, pending);
        { UrlCodec.PercentCons(bs, t); }
        DecodeFrom(['%', UrlCodec.HexDigit(b / 16), UrlCodec.HexDigit(b % 16)] + rest, pending);
        { DecodeByte(b, rest, pending); }
        DecodeFrom(rest, pending + [b]);
        { DecodeRun(bs[1..], t, pending + [b]); }
        DecodeFrom(t, pending + [b] + bs[1..]);
        { assert bs == [b] + bs[1..]; assert pending + [b] + bs[1..] == pending + bs; }
        DecodeFrom(t, pending + bs);
      }
    }
  }

  /** A character the constructor kept is read back ahead of the decoded rest. */
  lemma DecodeKept(c: char, part: Part, t: string, done: string)
    requires c != '%' && Allowed(c, part)
    requires DecodeFrom(Quote(t, part), UrlCodec.Utf8Encode([])) == [] + t
    ensures DecodeFrom(QuotedChar(c, part) + Quote(t, part), UrlCodec.Utf8Encode(done)) == done + [c] + t
  {
    var s := [c] + Quote(t, part);
    assert QuotedChar(c, part) == [c];
    assert !StartsEscape(s) && s[1..] == Quote(t, part);
    assert UrlCodec.Utf8Encode([]) == [] && [] + t == t;
    UrlCodec.Utf8RoundTrip(done);
  }

  /** A character the constructor escaped joins the pending bytes, to be decoded with what follows. */
  lemma DecodeEscaped(c: char, part: Part, rest: string, done: string)
    requires !(c != '%' && Allowed(c, part))
    ensures DecodeFrom(QuotedChar(c, part) + rest, UrlCodec.Utf8Encode(done))
            == DecodeFrom(rest, UrlCodec.Utf8Encode(done + [c]))
  {
    DecodeRun(UrlCodec.Utf8(c), rest, UrlCodec.Utf8Encode(done));
    UrlCodec.Utf8EncodeAppend(done, c);
  }

  /** Quoting works character by character. */
  lemma QuoteCons(s: string, part: Part)
    requires s != []
    ensures Quote(s, part) == QuotedChar(s[0], part) + Quote(s[1..], part)
  {
  }

  lemma {:induction false} DecodeQuoteFrom(s: string, part: Part, done: string)
    ensures DecodeFrom(Quote(s, part), UrlCodec.Utf8Encode(done)) == done + s
    decreases |s|
  {
    if s == [] {
      UrlCodec.Utf8RoundTrip(done);
      assert done + s == done;
    } else {
      QuoteCons(s, part);
      UrlCodec.MoveFirst(done, s);
      if s[0] != '%' && Allowed(s[0], part) {
        DecodeQuoteFrom(s[1..], part, []);
        DecodeKept(s[0], part, s[1..], done);
      } else {
        DecodeQuoteFrom(s[1..], part, done + [s[0]]);
        DecodeEscaped(s[0], part, Quote(s[1..], part), done);
      }
    }
  }

  /** The getter gives back what the constructor was given. */
  lemma DecodeQuote(s: string, part: Part)
    ensures Decode(Quote(s, part)) == s
  {
    DecodeQuoteFrom(s, part, []);
    assert UrlCodec.Utf8Encode([]) == [] && [] + s == s;
  }

  /** A component without escapes is returned by its getter as it is. */
  lemma {:induction false} DecodeUnescaped(s: string)
    requires '%' !in s
    ensures Decode(s) == s
  {
    if s != [] {
      assert s[0] in s && s[1..] == s[1..];
      assert '%' !in s[1..] by {
        assert forall i :: 0 <= i < |s| - 1 ==> s[1..][i] == s[i + 1];
      }
      DecodeUnescaped(s[1..]);
      assert !StartsEscape(s);
      assert UrlCodec.Utf8Decode([]) == [];
      assert s == [s[0]] + s[1..];
    }
  }

  /** Decoding a non-empty component gives a non-empty one. */
  lemma {:induction false} DecodeNonEmpty(s: string, pending: seq<UrlCodec.Byte>)
    requires s != [] || pending != []
    ensures DecodeFrom(s, pending) != []
    decreases |s|
  {
    if s != [] && StartsEscape(s) {
      DecodeNonEmpty(s[3..], pending + [16 * UrlCodec.HexValue(s[1]) + UrlCodec.HexValue(s[2])]);
    }
  }

  /** Quoting works piece by piece. */
  lemma {:induction false} QuoteAppend(a: string, b: string, part: Part)
    ensures Quote(a + b, part) == Quote(a, part) + Quote(b, part)
  {
    if a == [] {
      assert a + b == b;
    } else {
      assert (a + b)[0] == a[0] && (a + b)[1..] == a[1..] + b;
      QuoteAppend(a[1..], b, part);
    }
  }

  /** A character as the constructor writes it into a path ends in '/' exactly when it is '/'. */
  lemma QuotedCharEndsInSlash(c: char)
    ensures var q := QuotedChar(c, PathPart); q[|q| - 1] == '/' <==> c == '/'
  {
    var q := QuotedChar(c, PathPart);
    if !(c != '%' && Allowed(c, PathPart)) {
      UrlCodec.PercentEncoded(UrlCodec.Utf8(c));
      assert UrlCodec.EncodedChar(q[|q| - 1]);
    }
  }

  /** A quoted path ends in '/' exactly when the path did. */
  lemma QuoteEndsInSlash(p: string)
    ensures (Quote(p, PathPart) != [] && Quote(p, PathPart)[|Quote(p, PathPart)| - 1] == '/')
            <==> (p != [] && p[|p| - 1] == '/')
  {
    if p != [] {
      var init, last := p[..|p| - 1], p[|p| - 1];
      assert p == init + [last];
      QuoteAppend(init, [last], PathPart);
      var q := QuotedChar(last, PathPart);
      assert Quote([last], PathPart) == q + [];
      QuotedCharEndsInSlash(last);
      var r := Quote(init, PathPart) + q;
      assert r[|r| - 1] == q[|q| - 1];
    }
  }

  /** A component that is legal and holds no escape survives the getter and the constructor unchanged. */
  lemma RequoteKeeps(c: string, part: Part)
    requires Legal(c, part) && '%' !in c
    ensures Quote(Decode(c), part) == c
  {
    DecodeUnescaped(c);
    forall i | 0 <= i < |c|
      ensures c[i] != '%' && Allowed(c[i], part)
    {
      assert LegalAt(c, i, part);
    }
    QuoteKeeps(c, part);
  }

  /**
   * A well-formed URI without escapes is rebuilt exactly as it was: the
   * getters and the constructor undo each other.
   */
  lemma RequotedUnescaped(u: Uri)
    requires WellFormed(u)
    requires u.authority.Some? ==> '%' !in u.authority.value
    requires '%' !in u.path
    requires u.query.Some? ==> '%' !in u.query.value
    requires u.fragment.Some? ==> '%' !in u.fragment.value
    ensures Requoted(u) == u
  {
    if u.authority.Some? {
      RequoteKeeps(u.authority.value, AuthorityPart);
    }
    RequoteKeeps(u.path, PathPart);
    if u.query.Some? {
      RequoteKeeps(u.query.value, QueryPart);
    }
    if u.fragment.Some? {
      RequoteKeeps(u.fragment.value, QueryPart);
    }
  }

  /** Rebuilding twice is rebuilding once. */
  lemma RequotedIdempotent(u: Uri)
    ensures Requoted(Requoted(u)) == Requoted(u)
  {
    DecodeQuote(Decode(u.path), PathPart);
    if u.authority.Some? {
      DecodeQuote(Decode(u.authority.value), AuthorityPart);
    }
    if u.query.Some? {
      DecodeQuote(Decode(u.query.value), QueryPart);
    }
    if u.fragment.Some? {
      DecodeQuote(Decode(u.fragment.value), QueryPart);
    }
  }

  /**
   * The rebuilt authority, query and fragment are legal, and the authority
   * stays non-empty: only the decoded path can keep the rebuilt record from
   * being well-formed.
   */
  lemma RequotedWellFormed(u: Uri)
    requires WellFormed(u)
    ensures var r := Requoted(u);
      WellFormed(r) <==> PathFits(r.path, r.scheme.Some?, r.authority.Some?)
  {
    QuoteLegal(Decode(u.path), PathPart);
    if u.authority.Some? {
      QuoteLegal(Decode(u.authority.value), AuthorityPart);
      DecodeNonEmpty(u.authority.value, []);
    }
    if u.query.Some? {
      QuoteLegal(Decode(u.query.value), QueryPart);
    }
    if u.fragment.Some? {
      QuoteLegal(Decode(u.fragment.value), QueryPart);
    }
  }

  /**
   * `new URI(scheme, authority, path, query, fragment)`: the string form of
   * the components, refused (`None`) when that string does not parse.
   */
  function Construct(u: Uri): (r: Option<string>)
    ensures WellFormed(u) ==> r == Some(Show(u)) && Parse(r.value) == Some(u)
    ensures r.Some? ==> Parse(r.value).Some?
  {
    assert WellFormed(u) ==> Parse(Show(u)) == Some(u) by {
      if WellFormed(u) {
        ParseShow(u);
      }
    }
    if Parse(Show(u)).Some? then Some(Show(u)) else None
  }
}
