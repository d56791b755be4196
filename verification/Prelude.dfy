/** Vocabulary shared by the other modules. */
module Prelude {
  datatype Option<+T> = None | Some(value: T)

  /** No two positions of `s` hold the same value. */
  ghost predicate Distinct<T>(s: seq<T>) {
    forall i, j :: 0 <= i < j < |s| ==> s[i] != s[j]
  }

  /** A repetition-free sequence has as many members as positions. */
  lemma {:induction false} DistinctCardinality<T>(s: seq<T>)
    requires Distinct(s)
    ensures |set x | x in s| == |s|
  {
    if s == [] {
      assert (set x | x in s) == {};
    } else {
      DistinctCardinality(s[1..]);
      assert (set x | x in s) == {s[0]} + set x | x in s[1..];
    }
  }

  /** A sequence never has more members than positions, and has as many only when repetition-free. */
  lemma {:induction false} CardinalityBound<T>(s: seq<T>)
    ensures |set x | x in s| <= |s|
    ensures |set x | x in s| == |s| ==> Distinct(s)
  {
    if s == [] {
      assert (set x | x in s) == {};
    } else {
      CardinalityBound(s[1..]);
      var rest := set x | x in s[1..];
      assert (set x | x in s) == {s[0]} + rest;
      if |set x | x in s| == |s| {
        assert s[0] !in rest;
        assert forall i :: 1 <= i < |s| ==> s[i] == s[1..][i - 1];
      }
    }
  }

  /** Distinct sequences of one length, one inside the other, hold the same elements. */
  lemma ContainedPermutes<T>(s: seq<T>, t: seq<T>)
    requires Distinct(s) && Distinct(t) && |s| == |t|
    requires forall i :: 0 <= i < |s| ==> s[i] in t
    ensures multiset(s) == multiset(t)
  {
    DistinctCardinality(s);
    DistinctCardinality(t);
    var a, b := set x | x in s, set x | x in t;
    assert a <= b;
    SubsetFull(a, b);
    assert forall x :: x in s <==> x in a;
    assert forall x :: x in t <==> x in b;
    forall x ensures multiset(s)[x] == multiset(t)[x] {
      DistinctCounts(s, x);
      DistinctCounts(t, x);
      assert x in s <==> x in t;
    }
  }

  lemma SubsetFull<T>(a: set<T>, b: set<T>)
    requires a <= b && |a| == |b|
    ensures a == b
  {
    assert b == a + (b - a);
    assert |b| == |a| + |b - a|;
  }

  lemma {:induction false} DistinctCounts<T>(s: seq<T>, x: T)
    requires Distinct(s)
    ensures multiset(s)[x] == if x in s then 1 else 0
  {
    if s != [] {
      assert s == [s[0]] + s[1..];
      DistinctCounts(s[1..], x);
    }
  }
}
