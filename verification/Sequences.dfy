/** Facts about sequences, for any elements. */
module Sequences {

  predicate Distinct<T(==)>(s: seq<T>) {
    forall i, j | 0 <= i < j < |s| :: s[i] != s[j]
  }

  lemma SameWithout<T>(front: seq<T>, x: seq<T>, e: T, y: seq<T>)
    requires multiset(front + [e]) == multiset(x + [e] + y)
    ensures multiset(front) == multiset(x + y)
  {
    assert multiset(front + [e]) == multiset(front) + multiset{e};
    assert multiset(x + [e] + y) == multiset(x + y) + multiset{e};
    assert multiset(front) == multiset(front) + multiset{e} - multiset{e};
    assert multiset(x + y) == multiset(x + y) + multiset{e} - multiset{e};
  }

  /** Taking out an element that is not the last leaves the last in its place. */
  lemma TakeOutEarlier<T>(s: seq<T>, k: nat)
    requires k < |s| - 1
    ensures var n := |s| - 1; s[..n][..k] + s[..n][k + 1..] + [s[n]] == s[..k] + s[k + 1..]
  {
  }
}
