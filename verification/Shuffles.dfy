/** The Fisher-Yates shuffle: a permutation whatever the draws, and every permutation once. */
module Shuffles {
  import opened Sequences
  import opened Mulberry

  /** `js[k]` is the k-th draw, made for the last of the `n - k` slots still open. */
  ghost predicate Choices(n: nat, js: seq<nat>) {
    |js| == (if n == 0 then 0 else n - 1) && forall k :: 0 <= k < |js| ==> js[k] < n - k
  }

  /** What the draws `js` make of `s`: the chosen item goes last, the last takes its place. */
  ghost function Shuffled<T>(s: seq<T>, js: seq<nat>): (r: seq<T>)
    requires Choices(|s|, js)
    ensures |r| == |s|
    decreases |s|
  {
    if |s| <= 1 then s
    else
      var i := |s| - 1;
      Shuffled(s[js[0] := s[i]][..i], js[1..]) + [s[js[0]]]
  }

  /** Taking out item `j` by moving the last item into its place. */
  lemma MoveLastInto<T>(s: seq<T>, j: nat)
    requires j < |s|
    ensures multiset(s[j := s[|s| - 1]][..|s| - 1]) == multiset(s) - multiset{s[j]}
  {
    var i := |s| - 1;
    if j == i {
      assert s[j := s[i]] == s && s == s[..i] + [s[i]];
    } else {
      assert s[j := s[i]][..i] == s[..j] + [s[i]] + s[j + 1..i];
      assert s == s[..j] + [s[j]] + s[j + 1..i] + [s[i]];
    }
  }

  lemma {:induction false} ShuffledIsPermutation<T>(s: seq<T>, js: seq<nat>)
    requires Choices(|s|, js)
    ensures multiset(Shuffled(s, js)) == multiset(s)
    decreases |s|
  {
    if |s| > 1 {
      ShuffledIsPermutation(s[js[0] := s[|s| - 1]][..|s| - 1], js[1..]);
      MoveLastInto(s, js[0]);
    }
  }

  /** Different draws make different orders of distinct items. */
  lemma {:induction false} ShuffledInjective<T>(s: seq<T>, js: seq<nat>, ks: seq<nat>)
    requires Distinct(s) && Choices(|s|, js) && Choices(|s|, ks)
    requires Shuffled(s, js) == Shuffled(s, ks)
    ensures js == ks
    decreases |s|
  {
    if |s| > 1 {
      var i := |s| - 1;
      assert Shuffled(s, js)[i] == s[js[0]] && Shuffled(s, ks)[i] == s[ks[0]];
      assert js[0] == ks[0];
      assert Shuffled(s, js)[..i] == Shuffled(s, ks)[..i];
      ShuffledInjective(s[js[0] := s[i]][..i], js[1..], ks[1..]);
      assert js == [js[0]] + js[1..] && ks == [ks[0]] + ks[1..];
    }
  }

  lemma PlaceOf<T>(s: seq<T>, order: seq<T>, i: nat) returns (j: nat)
    requires multiset(s) == multiset(order) && i < |order|
    ensures j < |s| && s[j] == order[i]
  {
    assert order[i] in multiset(s);
    j :| j < |s| && s[j] == order[i];
  }

  lemma RestIsPermutation<T>(s: seq<T>, order: seq<T>, j: nat)
    requires multiset(s) == multiset(order) && j < |s| == |order| && s[j] == order[|s| - 1]
    ensures multiset(s[j := s[|s| - 1]][..|s| - 1]) == multiset(order[..|s| - 1])
  {
    MoveLastInto(s, j);
    assert order == order[..|s| - 1] + [s[j]];
  }

  /** Every order is made by some draws. With ShuffledInjective: by exactly one, so a fair draw
    * favours none. */
  lemma {:induction false} EveryOrderIsDrawn<T>(s: seq<T>, order: seq<T>) returns (js: seq<nat>)
    requires multiset(s) == multiset(order)
    ensures Choices(|s|, js) && Shuffled(s, js) == order
    decreases |s|
  {
    assert |multiset(s)| == |s| && |multiset(order)| == |order|;
    if |s| <= 1 {
      js := [];
      if |s| == 1 {
        assert s[0] in multiset(order);
      }
    } else {
      var i := |s| - 1;
      var j := PlaceOf(s, order, i);
      RestIsPermutation(s, order, j);
      var rest := EveryOrderIsDrawn(s[j := s[i]][..i], order[..i]);
      js := [j] + rest;
      assert js[1..] == rest && order == order[..i] + [s[j]];
    }
  }

  /** After the draws `js`, slots above `i` of `now` are final: whatever is drawn next, the whole
    * shuffle of `items` is the shuffle of what is still open, then those. */
  ghost predicate SettledAbove<T>(items: seq<T>, now: seq<T>, i: nat, js: seq<nat>) {
    i < |now| == |items| &&
    forall rest | Choices(i + 1, rest) ::
      Choices(|items|, js + rest) && Shuffled(items, js + rest) == Shuffled(now[..i + 1], rest) + now[i + 1..]
  }

  function Swapped<T>(s: seq<T>, i: nat, j: nat): seq<T>
    requires i < |s| && j < |s|
  {
    s[i := s[j]][j := s[i]]
  }

  lemma SwapSettles<T>(items: seq<T>, now: seq<T>, i: nat, js: seq<nat>, j: nat)
    requires SettledAbove(items, now, i, js) && j <= i && i > 0
    ensures SettledAbove(items, Swapped(now, i, j), i - 1, js + [j])
  {
    var next := Swapped(now, i, j);
    forall rest | Choices(i, rest)
      ensures Choices(|items|, js + [j] + rest)
      ensures Shuffled(items, js + [j] + rest) == Shuffled(next[..i], rest) + next[i..]
    {
      var longer := [j] + rest;
      assert longer[1..] == rest && js + [j] + rest == js + longer;
      assert Choices(i + 1, longer);
      assert now[..i + 1][j := now[i]][..i] == next[..i];
      assert [now[j]] + now[i + 1..] == next[i..];
    }
  }

  lemma AllSettled<T>(items: seq<T>, now: seq<T>, js: seq<nat>)
    requires SettledAbove(items, now, 0, js)
    ensures Choices(|items|, js) && Shuffled(items, js) == now
  {
    assert Choices(1, []) && js + [] == js;
    assert now == now[..1] + now[1..];
  }

  /** The choices the generator's draws from `start` come to: the k-th among the `n - k` slots still open. */
  ghost function ChoicesFrom(start: Word, n: nat): (js: seq<nat>)
    ensures Choices(n, js)
  {
    seq(DrawsUsed(n), k requires 0 <= k < DrawsUsed(n) => Scale(Draw(start, k), n - k))
  }

  function DrawsUsed(n: nat): nat { if n == 0 then 0 else n - 1 }

  method Shuffle<T>(rng: Rng, items: seq<T>) returns (out: seq<T>)
    modifies rng
    ensures out == Shuffled(items, ChoicesFrom(old(rng.a), |items|))
    ensures rng.a == After(old(rng.a), DrawsUsed(|items|))
    ensures multiset(out) == multiset(items)
  {
    hide Shuffled, Choices, ChoicesFrom, Scale, Output, Advance, SettledAbove;
    ghost var start, js := rng.a, [];
    NothingShuffled(items, start);
    if |items| == 0 {
      return items;
    }
    var a := new T[|items|](i requires 0 <= i < |items| => items[i]);
    var i := a.Length - 1;
    assert a[..] == items;
    NoneDrawn(items);
    while i > 0
      invariant 0 <= i < a.Length == |items|
      invariant SettledAbove(items, a[..], i, js)
      invariant js == ChoicesFrom(start, |items|)[..|items| - 1 - i]
      invariant rng.a == After(start, |items| - 1 - i)
    {
      var j := rng.Below(i + 1);
      OneMoreChoice(start, |items|, js, j);
      SwapSettles(items, a[..], i, js, j);
      ghost var next := Swapped(a[..], i, j);
      a[i], a[j] := a[j], a[i];
      assert a[..] == next;
      js := js + [j];
      i := i - 1;
    }
    out := a[..];
    AllSettled(items, out, js);
    assert js == ChoicesFrom(start, |items|);
    ShuffledIsPermutation(items, js);
  }

  lemma NothingShuffled<T>(items: seq<T>, start: Word)
    ensures |ChoicesFrom(start, |items|)| == DrawsUsed(|items|)
    ensures items == [] ==> Shuffled(items, ChoicesFrom(start, |items|)) == items
  {
  }

  lemma OneMoreChoice(start: Word, n: nat, js: seq<nat>, j: nat)
    requires |js| < DrawsUsed(n) && js == ChoicesFrom(start, n)[..|js|]
    requires j == Scale(Output(Advance(After(start, |js|))), n - |js|)
    ensures js + [j] == ChoicesFrom(start, n)[..|js| + 1]
    ensures After(start, |js| + 1) == Advance(After(start, |js|))
  {
    hide Scale, Output, Advance;
  }

  lemma NoneDrawn<T>(items: seq<T>)
    requires |items| > 0
    ensures SettledAbove(items, items, |items| - 1, [])
  {
    assert items[..|items|] == items && items[|items|..] == [];
    assert forall rest: seq<nat> :: [] + rest == rest;
  }
}
