/** Distinct sequences, and what a permutation keeps. */
module Sequences {

  ghost predicate Distinct<T>(s: seq<T>) {
    forall i, j :: 0 <= i < j < |s| ==> s[i] != s[j]
  }

  ghost function Elements<T>(s: seq<T>): set<T> {
    set x | x in s
  }

  lemma {:induction false} DistinctSize<T>(s: seq<T>)
    requires Distinct(s)
    ensures |Elements(s)| == |s|
  {
    if s == [] {
    } else {
      var last := s[|s| - 1];
      DistinctSize(s[..|s| - 1]);
      assert Elements(s) == Elements(s[..|s| - 1]) + {last};
      assert last !in Elements(s[..|s| - 1]);
    }
  }

  lemma SubsetSize<T>(a: set<T>, b: set<T>)
    requires a <= b
    ensures |a| <= |b|
  {
    assert |b - a| == |b| - |a|;
  }

  /** A permutation of distinct elements is distinct and has the same elements. */
  lemma PermutationElements<T>(a: seq<T>, b: seq<T>)
    requires multiset(a) == multiset(b) && Distinct(a)
    ensures Distinct(b) && Elements(b) == Elements(a) && |b| == |a|
  {
    assert forall x :: x in a <==> x in multiset(a);
    assert forall x :: x in b <==> x in multiset(b);
    assert |multiset(a)| == |a| && |multiset(b)| == |b|;
    forall i, j | 0 <= i < j < |b|
      ensures b[i] != b[j]
    {
      if b[i] == b[j] {
        TwiceCountsTwo(b, i, j);
        DistinctCountsOne(a, b[i]);
      }
    }
  }

  lemma TwiceCountsTwo<T>(s: seq<T>, i: nat, j: nat)
    requires i < j < |s| && s[i] == s[j]
    ensures multiset(s)[s[i]] >= 2
  {
    assert s == s[..j] + [s[j]] + s[j + 1..];
    assert s[i] in s[..j];
  }

  lemma {:induction false} DistinctCountsOne<T>(s: seq<T>, x: T)
    requires Distinct(s)
    ensures multiset(s)[x] <= 1
  {
    if s == [] {
    } else {
      assert s == s[..|s| - 1] + [s[|s| - 1]];
      DistinctCountsOne(s[..|s| - 1], x);
      if s[|s| - 1] == x {
        assert x !in s[..|s| - 1];
      }
    }
  }

  /** The indices of `s` in `indices`, read through a distinct sequence, are as many elements. */
  ghost function At<T>(s: seq<T>, indices: set<nat>): set<T>
    requires forall i :: i in indices ==> i < |s|
  {
    set i | i in indices :: s[i]
  }

  lemma {:induction false} AtSize<T>(s: seq<T>, indices: set<nat>)
    requires forall i :: i in indices ==> i < |s|
    requires Distinct(s)
    ensures |At(s, indices)| == |indices|
    decreases |indices|
  {
    if indices != {} {
      var i :| i in indices;
      AtSize(s, indices - {i});
      assert At(s, indices) == At(s, indices - {i}) + {s[i]};
      assert s[i] !in At(s, indices - {i});
    } else {
      assert At(s, indices) == {};
    }
  }

  /** The indices from `lo` up to but not including `hi`. */
  ghost function Interval(lo: nat, hi: nat): (r: set<nat>)
    requires lo <= hi
    ensures forall i :: i in r <==> lo <= i < hi
    ensures |r| == hi - lo
  {
    if lo == hi then {} else Interval(lo, hi - 1) + {hi - 1}
  }

  function Total(s: seq<nat>): nat {
    if s == [] then 0 else Total(s[..|s| - 1]) + s[|s| - 1]
  }

  lemma {:induction false} TotalWithOneMore(s: seq<nat>, i: nat)
    requires i < |s|
    ensures Total(s[i := s[i] + 1]) == Total(s) + 1
  {
    var n := |s| - 1;
    if i < n {
      TotalWithOneMore(s[..n], i);
      assert s[i := s[i] + 1][..n] == s[..n][i := s[i] + 1];
    } else {
      assert s[i := s[i] + 1][..n] == s[..n];
    }
  }

  function SumOf<T>(s: seq<T>, part: T -> int): int {
    if s == [] then 0 else SumOf(s[..|s| - 1], part) + part(s[|s| - 1])
  }

  lemma {:induction false} SumUpdate<T>(s: seq<T>, i: nat, x: T, part: T -> int)
    requires i < |s|
    ensures SumOf(s[i := x], part) == SumOf(s, part) - part(s[i]) + part(x)
  {
    var n := |s| - 1;
    if i < n {
      SumUpdate(s[..n], i, x, part);
      assert s[i := x][..n] == s[..n][i := x];
    } else {
      assert s[i := x][..n] == s[..n];
    }
  }

  lemma SumAppend<T>(s: seq<T>, x: T, part: T -> int)
    ensures SumOf(s + [x], part) == SumOf(s, part) + part(x)
  {
    assert (s + [x])[..|s|] == s;
  }

  lemma {:induction false} SumNotNegative<T>(s: seq<T>, part: T -> int)
    requires forall x :: x in s ==> part(x) >= 0
    ensures SumOf(s, part) >= 0
  {
    if s != [] {
      assert s[|s| - 1] in s;
      SumNotNegative(s[..|s| - 1], part);
    }
  }

  lemma {:induction false} SumAtMost<T>(s: seq<T>, part: T -> int, other: T -> int)
    requires forall x :: x in s ==> part(x) <= other(x)
    ensures SumOf(s, part) <= SumOf(s, other)
  {
    if s != [] {
      assert s[|s| - 1] in s;
      SumAtMost(s[..|s| - 1], part, other);
    }
  }

  /** Where `x` stands in `s`. */
  ghost function Places<T>(s: seq<T>, x: T): set<nat> {
    set i: nat | i < |s| && s[i] == x
  }

  lemma {:induction false} PlacesCount<T>(s: seq<T>, x: T)
    ensures |Places(s, x)| == multiset(s)[x]
  {
    if s == [] {
      assert Places(s, x) == {};
    } else {
      var n := |s| - 1;
      assert s == s[..n] + [s[n]];
      PlacesCount(s[..n], x);
      if s[n] == x {
        assert Places(s, x) == Places(s[..n], x) + {n};
      } else {
        assert Places(s, x) == Places(s[..n], x);
      }
    }
  }
}
