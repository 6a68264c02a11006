/** JavaScript's `filter`, for predicates that may read the objects they test. */
module Filters {
  import opened Sequences

  function Filter<T>(s: seq<T>, p: T ~> bool): (r: seq<T>)
    requires forall x :: x in s ==> p.requires(x)
    reads set x, o | x in s && o in p.reads(x) :: o
    ensures forall x | x in r :: x in s && p(x)
    ensures forall x | x in s :: p(x) ==> x in r
    ensures Distinct(s) ==> Distinct(r)
  {
    if s == [] then []
    else
      var rest := Filter(s[..|s| - 1], p);
      assert s == s[..|s| - 1] + [s[|s| - 1]];
      if p(s[|s| - 1]) then rest + [s[|s| - 1]] else rest
  }

  lemma {:induction false} FilterAll<T>(s: seq<T>, p: T ~> bool)
    requires forall x :: x in s ==> p.requires(x)
    requires forall x :: x in s ==> p(x)
    ensures Filter(s, p) == s
  {
    if s != [] {
      var n := |s| - 1;
      assert s == s[..n] + [s[n]] && s[n] in s;
      FilterAll(s[..n], p);
    }
  }

  lemma {:induction false} FilterNone<T>(s: seq<T>, p: T ~> bool)
    requires forall x :: x in s ==> p.requires(x)
    requires forall x :: x in s ==> !p(x)
    ensures Filter(s, p) == []
  {
    if s != [] {
      var n := |s| - 1;
      assert s == s[..n] + [s[n]] && s[n] in s;
      FilterNone(s[..n], p);
    }
  }

  lemma {:induction false} FilterBoth<T>(s: seq<T>, t: seq<T>, p: T -> bool)
    ensures Filter(s + t, p) == Filter(s, p) + Filter(t, p)
  {
    if t == [] {
      assert s + t == s;
    } else {
      var n := |t| - 1;
      FilterBoth(s, t[..n], p);
      assert (s + t)[..|s + t| - 1] == s + t[..n];
    }
  }
}
