/** Sequence helpers shared by the listener lists and the session's handler list. */
module Seqs {

  /** `List.remove(Object)`: drops the first element equal to `x`, if any. */
  function RemoveFirst<T(==)>(s: seq<T>, x: T): (r: seq<T>)
    ensures x !in s ==> r == s
    ensures x in s ==> |r| == |s| - 1
  {
    if s == [] then []
    else if s[0] == x then s[1..]
    else [s[0]] + RemoveFirst(s[1..], x)
  }

  /** Removal takes away exactly one occurrence of `x` when there is one, and nothing else. */
  lemma {:induction false} RemoveFirstMultiset<T>(s: seq<T>, x: T)
    ensures x in s ==> multiset(RemoveFirst(s, x)) == multiset(s) - multiset{x}
    ensures x !in s ==> RemoveFirst(s, x) == s
  {
    if s != [] && s[0] != x {
      RemoveFirstMultiset(s[1..], x);
      assert s == [s[0]] + s[1..];
    } else if s != [] {
      assert s == [s[0]] + s[1..];
    }
  }

  /** An element added once and then removed is gone again. */
  lemma {:induction false} RemoveFirstOfAppended<T>(s: seq<T>, x: T)
    requires x !in s
    ensures RemoveFirst(s + [x], x) == s
  {
    if s != [] {
      assert (s + [x])[1..] == s[1..] + [x];
      RemoveFirstOfAppended(s[1..], x);
    }
  }

  /**
   * Removing an element that occurs at most once a second time changes
   * nothing: a second clean-up of a handler is harmless.
   */
  lemma RemoveFirstTwice<T>(s: seq<T>, x: T)
    requires multiset(s)[x] <= 1
    ensures RemoveFirst(RemoveFirst(s, x), x) == RemoveFirst(s, x)
  {
    RemoveFirstMultiset(s, x);
    var r := RemoveFirst(s, x);
    assert multiset(r)[x] == 0;
    RemoveFirstMultiset(r, x);
  }
}
