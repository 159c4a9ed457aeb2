/**
 * The few pieces of java.lang.String behaviour the injectors depend on:
 * `split` with a one-character separator, `endsWith`, and the decimal
 * rendering of a counter value (`"" + n`).
 */
module JavaStrings {

  /** Every piece between separators, empty ones included (the raw split). */
  function SplitAll(s: string, d: char): (r: seq<string>)
    ensures |r| >= 1
  {
    if s == [] then [[]]
    else
      var rest := SplitAll(s[1..], d);
      if s[0] == d then [[]] + rest
      else [[s[0]] + rest[0]] + rest[1..]
  }

  /** Drops the empty strings at the end of a list of pieces. */
  function DropTrailingEmpty(ps: seq<string>): (r: seq<string>)
    ensures |r| <= |ps| && r == ps[..|r|]
    ensures r != [] ==> r[|r| - 1] != []
    ensures forall i :: |r| <= i < |ps| ==> ps[i] == []
  {
    if ps == [] then []
    else if ps[|ps| - 1] == [] then DropTrailingEmpty(ps[..|ps| - 1])
    else ps
  }

  /**
   * `s.split(d)` for a separator that is one non-special character: the whole
   * string when the separator does not occur (so `"".split("/")` is `[""]`),
   * otherwise the pieces with the trailing empty ones dropped; a leading
   * empty piece is kept.
   */
  function Split(s: string, d: char): seq<string>
  {
    if d !in s then [s] else DropTrailingEmpty(SplitAll(s, d))
  }

  /** Glues pieces back together with the separator between them. */
  function Join(ps: seq<string>, d: char): string
  {
    if ps == [] then []
    else if |ps| == 1 then ps[0]
    else ps[0] + [d] + Join(ps[1..], d)
  }

  /** No piece holds the separator. */
  lemma {:induction false} SplitAllPieces(s: string, d: char)
    ensures forall i :: 0 <= i < |SplitAll(s, d)| ==> d !in SplitAll(s, d)[i]
  {
    if s != [] {
      SplitAllPieces(s[1..], d);
      var rest := SplitAll(s[1..], d);
      if s[0] != d {
        assert d !in [s[0]] + rest[0];
      }
    }
  }

  /** A piece without the separator splits into itself alone. */
  lemma {:induction false} SplitAllNoSeparator(s: string, d: char)
    requires d !in s
    ensures SplitAll(s, d) == [s]
  {
    if s != [] {
      SplitAllNoSeparator(s[1..], d);
      assert s == [s[0]] + s[1..];
    }
  }

  /** Splitting distributes over one occurrence of the separator. */
  lemma {:induction false} SplitAllAppend(a: string, b: string, d: char)
    ensures SplitAll(a + [d] + b, d) == SplitAll(a, d) + SplitAll(b, d)
    decreases |a|, 1
  {
    if a == [] {
      assert a + [d] + b == [d] + b;
      SplitAllSeparator(b, d);
    } else {
      SplitAllAppendCons(a, b, d);
    }
  }

  lemma {:induction false} SplitAllAppendCons(a: string, b: string, d: char)
    requires a != []
    ensures SplitAll(a + [d] + b, d) == SplitAll(a, d) + SplitAll(b, d)
    decreases |a|, 0
  {
    var t := a[1..] + [d] + b;
    assert a + [d] + b == [a[0]] + t;
    assert a == [a[0]] + a[1..];
    SplitAllAppend(a[1..], b, d);
    if a[0] == d {
      SplitAllSeparator(t, d);
      SplitAllSeparator(a[1..], d);
    } else {
      SplitAllOther(a[0], t, d);
      SplitAllOther(a[0], a[1..], d);
      var ra := SplitAll(a[1..], d);
      ConsFirst(a[0], ra, SplitAll(b, d));
    }
  }

  /** Adding to the first piece commutes with appending further pieces. */
  lemma ConsFirst(c: char, ra: seq<string>, rb: seq<string>)
    requires ra != []
    ensures [[c] + (ra + rb)[0]] + (ra + rb)[1..] == ([[c] + ra[0]] + ra[1..]) + rb
  {
    assert (ra + rb)[0] == ra[0] && (ra + rb)[1..] == ra[1..] + rb;
  }

  lemma SplitAllSeparator(t: string, d: char)
    ensures SplitAll([d] + t, d) == [[]] + SplitAll(t, d)
  {
    assert ([d] + t)[1..] == t;
  }

  lemma SplitAllOther(c: char, t: string, d: char)
    requires c != d
    ensures SplitAll([c] + t, d) == [[c] + SplitAll(t, d)[0]] + SplitAll(t, d)[1..]
  {
    assert ([c] + t)[1..] == t;
  }

  /** The raw split is undone by joining: no character is lost or invented. */
  lemma {:induction false} JoinSplitAll(s: string, d: char)
    ensures Join(SplitAll(s, d), d) == s
  {
    if s != [] {
      JoinSplitAll(s[1..], d);
      var rest := SplitAll(s[1..], d);
      if s[0] == d {
        assert s == [d] + s[1..];
      } else if |rest| == 1 {
        assert s == [s[0]] + s[1..];
      } else {
        assert Join(rest, d) == rest[0] + [d] + Join(rest[1..], d);
        assert s == [s[0]] + s[1..];
      }
    }
  }

  /**
   * The property the path extractors rely on: a string ending with
   * `"/" + k + "/" + v`, where neither `k` nor `v` holds the separator and `v`
   * is not empty, splits into pieces whose last two are `k` and `v`.
   */
  lemma SplitEndsWithPair(p: string, k: string, v: string, d: char)
    requires d !in k && d !in v && v != []
    ensures var r := Split(p + [d] + k + [d] + v, d);
      |r| >= 2 && r[|r| - 2] == k && r[|r| - 1] == v
  {
    var s := p + [d] + k + [d] + v;
    assert s == (p + [d] + k) + [d] + v;
    assert s[|p|] == d;
    SplitAllAppend(p + [d] + k, v, d);
    SplitAllAppend(p, k, d);
    SplitAllNoSeparator(k, d);
    SplitAllNoSeparator(v, d);
  }

  function EndsWith(s: string, suffix: string): (r: bool)
    ensures r <==> exists p :: s == p + suffix
  {
    if |suffix| <= |s| then
      assert s == s[..|s| - |suffix|] + s[|s| - |suffix|..];
      s[|s| - |suffix|..] == suffix
    else
      assert forall p :: |p + suffix| > |s|;
      false
  }

  /** The decimal digit character for 0..9. */
  function Digit(n: nat): char
    requires n < 10
  {
    "0123456789"[n]
  }

  /** The value of a decimal digit character. */
  function DigitValue(c: char): nat
  {
    if '0' <= c <= '9' then (c as int - '0' as int) as nat else 0
  }

  predicate IsDigits(s: string)
  {
    forall i :: 0 <= i < |s| ==> '0' <= s[i] <= '9'
  }

  /** `"" + n` for a non-negative long: the shortest decimal rendering. */
  function Decimal(n: nat): (r: string)
    ensures r != [] && IsDigits(r)
    ensures |r| > 1 ==> r[0] != '0'
  {
    if n < 10 then [Digit(n)] else Decimal(n / 10) + [Digit(n % 10)]
  }

  /** Reading a string of digits as a number (the partner of Decimal). */
  function DecimalValue(s: string): nat
  {
    if s == [] then 0 else 10 * DecimalValue(s[..|s| - 1]) + DigitValue(s[|s| - 1])
  }

  /** Decimal rendering is undone by reading the digits back. */
  lemma {:induction false} DecimalRoundTrip(n: nat)
    ensures DecimalValue(Decimal(n)) == n
  {
    if n >= 10 {
      DecimalRoundTrip(n / 10);
      var s := Decimal(n / 10) + [Digit(n % 10)];
      assert s[..|s| - 1] == Decimal(n / 10);
    }
  }

  /** Distinct counter values render as distinct ids. */
  lemma DecimalInjective(m: nat, n: nat)
    requires m != n
    ensures Decimal(m) != Decimal(n)
  {
    DecimalRoundTrip(m);
    DecimalRoundTrip(n);
  }
}
