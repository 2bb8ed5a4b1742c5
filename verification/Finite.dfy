/** Counting: lists without repetition and finite sets. */
module Finite {
  ghost predicate NoRepeat<T(!new)>(s: seq<T>) {
    forall i, j :: 0 <= i < j < |s| ==> s[i] != s[j]
  }

  lemma {:induction false} RepeatFree<T(!new)>(s: seq<T>, pool: set<T>)
    requires NoRepeat(s) && forall i :: 0 <= i < |s| ==> s[i] in pool
    ensures |s| <= |pool|
  {
    if s != [] {
      var last := s[|s| - 1];
      RepeatFree(s[..|s| - 1], pool - {last});
    }
  }

  lemma {:induction false} SubsetCount<T(!new)>(a: set<T>, b: set<T>)
    requires a <= b
    ensures |a| <= |b|
  {
    if a != {} {
      var x :| x in a;
      SubsetCount(a - {x}, b - {x});
    }
  }

  /** Taking one element away from both of two permuted lists. */
  lemma PermutedAt<T(!new)>(front: seq<T>, last: T, other: seq<T>) returns (i: nat)
    requires multiset(front + [last]) == multiset(other)
    ensures i < |other| && other[i] == last && multiset(front) == multiset(other[..i] + other[i + 1..])
  {
    assert multiset(front + [last]) == multiset(front) + multiset{last};
    assert last in multiset(other);
    i :| 0 <= i < |other| && other[i] == last;
    var before, after := other[..i], other[i + 1..];
    assert other == before + ([last] + after);
    assert multiset(other) == multiset(before) + (multiset{last} + multiset(after));
    var rest := multiset(before) + multiset(after);
    assert multiset(before + after) == rest;
    forall x
      ensures multiset(front)[x] == rest[x]
    {
      assert multiset(front + [last])[x] == multiset(other)[x];
    }
  }
}
