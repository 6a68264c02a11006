/** Giving each lawyer practice areas: weighted sampling without replacement. */
module AreaChoice {
  import opened Arithmetic
  import opened Options
  import opened Sequences
  import opened Mulberry
  import opened TestLawyers

  const COMMON_CASE_AREAS: set<string> := {"FAMILY", "EMPLOYMENT", "PROPERTY", "CRIMINAL", "IMMIGRATION"}

  /** An area's weight: 3 for the common case types, 1 for any other. */
  function Weight(a: Area): (w: nat)
    ensures w > 0
  {
    if a.caseArea.Some? && a.caseArea.value in COMMON_CASE_AREAS then 3 else 1
  }

  function TotalWeight(pool: seq<Area>): (t: nat)
    ensures |pool| <= t
  {
    if pool == [] then 0 else TotalWeight(pool[..|pool| - 1]) + Weight(pool[|pool| - 1])
  }

  /** The weight of everything before index `i`. */
  function Before(pool: seq<Area>, i: nat): nat
    requires i <= |pool|
  {
    TotalWeight(pool[..i])
  }

  lemma BeforeNext(pool: seq<Area>, i: nat)
    requires i < |pool|
    ensures Before(pool, i + 1) == Before(pool, i) + Weight(pool[i])
  {
    assert pool[..i + 1][..i] == pool[..i];
  }

  lemma {:induction false} BeforeGrows(pool: seq<Area>, i: nat, k: nat)
    requires i < k <= |pool|
    ensures Before(pool, i) + Weight(pool[i]) <= Before(pool, k)
  {
    BeforeNext(pool, k - 1);
    if i < k - 1 {
      BeforeGrows(pool, i, k - 1);
    }
  }

  /** `x / unit` falls in the stretch of the pool's total weight that belongs to area `i`. */
  ghost predicate FallsOn(pool: seq<Area>, i: nat, x: nat, unit: nat)
    requires i < |pool|
  {
    Before(pool, i) * unit <= x < Before(pool, i + 1) * unit
  }

  lemma FallsOnOne(pool: seq<Area>, i: nat, k: nat, x: nat, unit: nat)
    requires i < |pool| && k < |pool| && FallsOn(pool, i, x, unit) && FallsOn(pool, k, x, unit)
    ensures i == k
  {
    if i < k {
      StretchesApart(pool, i, k, x, unit);
    } else if k < i {
      StretchesApart(pool, k, i, x, unit);
    }
  }

  lemma StretchesApart(pool: seq<Area>, i: nat, k: nat, x: nat, unit: nat)
    requires i < k < |pool| && FallsOn(pool, i, x, unit)
    ensures !FallsOn(pool, k, x, unit)
  {
    BeforeGrows(pool, i, k);
    BeforeNext(pool, i);
    ScaledOrder(Before(pool, i + 1), Before(pool, k), unit);
  }

  lemma ScaledOrder(a: nat, b: nat, unit: nat)
    requires a <= b
    ensures a * unit <= b * unit
  {
  }

  /** Of the pool's total weight in whole draws, an area gets exactly its weight. */
  lemma EachItsWeight(pool: seq<Area>, i: nat)
    requires i < |pool|
    ensures |set t: nat | t < TotalWeight(pool) && FallsOn(pool, i, t, 1)| ==
      if pool[i].caseArea in
        {Some("FAMILY"), Some("EMPLOYMENT"), Some("PROPERTY"), Some("CRIMINAL"), Some("IMMIGRATION")}
      then 3 else 1
  {
    hide FallsOn, Before, TotalWeight, Weight;
    BeforeNext(pool, i);
    AllBefore(pool, i);
    CommonThrice(pool[i]);
    forall t: nat
      ensures FallsOn(pool, i, t, 1) <==> Before(pool, i) <= t < Before(pool, i + 1)
    {
      WholeDraws(pool, i, t);
    }
    assert (set t: nat | t < TotalWeight(pool) && FallsOn(pool, i, t, 1)) ==
      Interval(Before(pool, i), Before(pool, i + 1));
  }

  lemma CommonThrice(a: Area)
    ensures Weight(a) ==
      if a.caseArea in {Some("FAMILY"), Some("EMPLOYMENT"), Some("PROPERTY"), Some("CRIMINAL"), Some("IMMIGRATION")}
      then 3 else 1
  {
  }

  lemma WholeDraws(pool: seq<Area>, i: nat, t: nat)
    requires i < |pool|
    ensures FallsOn(pool, i, t, 1) <==> Before(pool, i) <= t < Before(pool, i + 1)
  {
  }

  lemma AllBefore(pool: seq<Area>, i: nat)
    requires i < |pool|
    ensures Before(pool, i + 1) <= TotalWeight(pool)
  {
    hide Before, TotalWeight, Weight;
    BeforeEnd(pool);
    if i + 1 < |pool| {
      BeforeGrows(pool, i + 1, |pool|);
    }
  }

  lemma BeforeEnd(pool: seq<Area>)
    ensures Before(pool, |pool|) == TotalWeight(pool)
  {
    assert pool[..|pool|] == pool;
    hide TotalWeight;
  }

  /** The draw `v / RANGE` of the pool's total weight falls on area `i`. */
  ghost predicate Hits(pool: seq<Area>, i: nat, v: Word)
    requires i < |pool|
  {
    FallsOn(pool, i, v * TotalWeight(pool), RANGE)
  }

  /**
   * The scan that turns a draw `v / RANGE` into an area: it starts `at` the draw's share of the total
   * weight and takes off one area's weight at a time until it goes below zero. In exact arithmetic
   * (kept here over RANGE) it always does, so the scan never runs off the end.
   */
  method FindIndex(pool: seq<Area>, v: Word) returns (index: nat)
    requires pool != []
    ensures index < |pool| && Hits(pool, index, v)
  {
    var total := TotalWeight(pool);
    BelowProduct(v, total);
    assert pool[..|pool|] == pool;
    index := 0;
    BeforeNext(pool, 0);
    var at: int := v * total - Weight(pool[0]) * RANGE;
    while at >= 0
      invariant index < |pool|
      invariant Before(pool, index) * RANGE <= v * total
      invariant at == v * total - Before(pool, index + 1) * RANGE
      decreases |pool| - index
    {
      index := index + 1;
      BeforeNext(pool, index);
      at := at - Weight(pool[index]) * RANGE;
    }
  }

  ghost function Ids(areas: seq<Area>): set<string> {
    set a | a in areas :: a.id
  }

  /** Ids are the table's primary key. */
  ghost predicate DistinctIds(areas: seq<Area>) {
    forall i, k :: 0 <= i < k < |areas| ==> areas[i].id != areas[k].id
  }

  lemma {:induction false} IdsSize(areas: seq<Area>)
    requires DistinctIds(areas)
    ensures |Ids(areas)| == |areas|
  {
    if areas == [] {
      assert Ids(areas) == {};
    } else {
      var n := |areas| - 1;
      IdsSize(areas[..n]);
      assert Ids(areas) == Ids(areas[..n]) + {areas[n].id};
    }
  }

  /** `pool.splice(index, 1)`. */
  function Without(pool: seq<Area>, index: nat): seq<Area>
    requires index < |pool|
  {
    pool[..index] + pool[index + 1..]
  }

  lemma WithoutIds(pool: seq<Area>, index: nat)
    requires DistinctIds(pool) && index < |pool|
    ensures DistinctIds(Without(pool, index))
    ensures Ids(Without(pool, index)) == Ids(pool) - {pool[index].id}
  {
    var rest, all := Without(pool, index), Ids(pool) - {pool[index].id};
    forall x | x in all
      ensures x in Ids(rest)
    {
      var i: nat :| i < |pool| && pool[i].id == x;
      assert pool[i] == rest[if i < index then i else i - 1];
    }
  }

  // ── The picks the draws come to ─────────────────────────────────────────────────────────────

  /** Each pick is of an area still in the pool. */
  ghost predicate CanPick(areas: seq<Area>, picks: seq<nat>)
    ensures CanPick(areas, picks) ==> |picks| <= |areas|
    decreases |picks|, 0
  {
    picks == [] ||
      (CanPick(areas, picks[..|picks| - 1]) && picks[|picks| - 1] < |Pool(areas, picks[..|picks| - 1])|)
  }

  /** What the picks leave in the pool. */
  ghost function Pool(areas: seq<Area>, picks: seq<nat>): (pool: seq<Area>)
    requires CanPick(areas, picks)
    ensures |pool| == |areas| - |picks|
    decreases |picks|, 1
  {
    if picks == [] then areas else Without(Pool(areas, picks[..|picks| - 1]), picks[|picks| - 1])
  }

  /** The areas picked. */
  ghost function Picked(areas: seq<Area>, picks: seq<nat>): set<string>
    requires CanPick(areas, picks)
  {
    if picks == [] then {}
    else
      var rest, last := picks[..|picks| - 1], picks[|picks| - 1];
      Picked(areas, rest) + {Pool(areas, rest)[last].id}
  }

  /** The k-th pick is the area whose stretch of what is left holds the generator's k-th draw from `start`. */
  ghost predicate PickedFrom(areas: seq<Area>, picks: seq<nat>, start: Word)
    requires CanPick(areas, picks)
  {
    picks == [] ||
      var rest := picks[..|picks| - 1];
      var pool := Pool(areas, rest);
      PickedFrom(areas, rest, start)
      && Hits(pool, picks[|picks| - 1], Draw(start, |rest|))
  }

  lemma {:induction false} PickedIds(areas: seq<Area>, picks: seq<nat>)
    requires DistinctIds(areas) && CanPick(areas, picks)
    ensures DistinctIds(Pool(areas, picks)) && Picked(areas, picks) == Ids(areas) - Ids(Pool(areas, picks))
    ensures Ids(Pool(areas, picks)) <= Ids(areas) && |Picked(areas, picks)| == |picks|
  {
    if picks != [] {
      var rest := picks[..|picks| - 1];
      PickedIds(areas, rest);
      WithoutIds(Pool(areas, rest), picks[|picks| - 1]);
      assert Pool(areas, rest)[picks[|picks| - 1]].id in Ids(Pool(areas, rest));
    }
  }

  lemma HitsOne(pool: seq<Area>, i: nat, k: nat, v: Word)
    requires i < |pool| && k < |pool| && Hits(pool, i, v) && Hits(pool, k, v)
    ensures i == k
  {
    FallsOnOne(pool, i, k, v * TotalWeight(pool), RANGE);
  }

  /** The draws decide the picks. */
  lemma {:induction false} PickedOneWay(areas: seq<Area>, picks: seq<nat>, others: seq<nat>, start: Word)
    requires CanPick(areas, picks) && CanPick(areas, others) && |picks| == |others|
    requires PickedFrom(areas, picks, start) && PickedFrom(areas, others, start)
    ensures picks == others
  {
    hide Hits, Draw;
    if picks != [] {
      var n := |picks| - 1;
      PickedOneWay(areas, picks[..n], others[..n], start);
      var pool := Pool(areas, picks[..n]);
      HitsOne(pool, picks[n], others[n], Draw(start, n));
      assert picks == picks[..n] + [picks[n]] && others == others[..n] + [others[n]];
    }
  }

  lemma OneMorePick(areas: seq<Area>, picks: seq<nat>, index: nat)
    requires CanPick(areas, picks) && index < |Pool(areas, picks)|
    ensures CanPick(areas, picks + [index])
    ensures Pool(areas, picks + [index]) == Without(Pool(areas, picks), index)
    ensures Picked(areas, picks + [index]) == Picked(areas, picks) + {Pool(areas, picks)[index].id}
  {
    assert (picks + [index])[..|picks|] == picks;
  }

  lemma OneMoreDrawn(areas: seq<Area>, picks: seq<nat>, index: nat, start: Word)
    requires CanPick(areas, picks) && index < |Pool(areas, picks)| && PickedFrom(areas, picks, start)
    requires Hits(Pool(areas, picks), index, Draw(start, |picks|))
    ensures CanPick(areas, picks + [index]) && PickedFrom(areas, picks + [index], start)
  {
    hide Hits, Draw;
    OneMorePick(areas, picks, index);
    assert (picks + [index])[..|picks|] == picks;
  }

  /** Gives `l`, who has none, the first `count` areas the draws come to, or all there are. */
  method SampleAreas(l: Lawyer, areas: seq<Area>, count: nat, rng: Rng) returns (ghost picks: seq<nat>)
    requires DistinctIds(areas) && l.areaIds == {}
    modifies rng, l`areaIds
    ensures CanPick(areas, picks) && PickedFrom(areas, picks, old(rng.a)) && |picks| == Min(count, |areas|)
    ensures l.areaIds == Picked(areas, picks) && rng.a == After(old(rng.a), |picks|)
    ensures l.areaIds <= Ids(areas) && |l.areaIds| == Min(count, |areas|)
  {
    hide Hits, Picked, Pool, PickedFrom, Without, After, Output, Advance, TotalWeight, DistinctIds;
    ghost var start := rng.a;
    picks := [];
    NothingPicked(areas, start);
    var pool := areas;
    while |l.areaIds| < count && pool != []
      invariant CanPick(areas, picks) && PickedFrom(areas, picks, start) && pool == Pool(areas, picks)
      invariant l.areaIds == Picked(areas, picks) && rng.a == After(start, |picks|)
      invariant |l.areaIds| == |picks| <= count
      decreases |pool|
    {
      var v := rng.Next();
      NextDraw(start, |picks|);
      var index := FindIndex(pool, v);
      OneMorePick(areas, picks, index);
      OneMoreDrawn(areas, picks, index, start);
      PickedIds(areas, picks + [index]);
      l.areaIds := l.areaIds + {pool[index].id};
      pool := Without(pool, index);
      picks := picks + [index];
    }
    PickedIds(areas, picks);
  }

  lemma NothingPicked(areas: seq<Area>, start: Word)
    ensures CanPick(areas, []) && PickedFrom(areas, [], start) && Pool(areas, []) == areas
    ensures Picked(areas, []) == {} && After(start, 0) == start
  {
  }

  lemma NextDraw(start: Word, k: nat)
    ensures Advance(After(start, k)) == After(start, k + 1) && Draw(start, k) == Output(After(start, k + 1))
  {
  }

  /** How many areas a lawyer who is not heavy gets, from a draw `v / RANGE`. */
  function LightCount(v: Word): (count: nat)
    ensures 1 <= count <= 4
  {
    if v * 100 < 30 * RANGE then 1
    else if v * 100 < 65 * RANGE then 2
    else if v * 100 < 85 * RANGE then 3
    else 4
  }

  /** The draws in `lo..hi`, and no others, give `count` areas. */
  lemma DrawsGiving(count: nat, lo: nat, hi: nat)
    requires lo <= hi <= RANGE && forall v: Word :: LightCount(v) == count <==> lo <= v < hi
    ensures |set v: Word | v < RANGE && LightCount(v) == count| == hi - lo
  {
    assert (set v: Word | v < RANGE && LightCount(v) == count) == Interval(lo, hi);
  }

  /** Of the 2^32 draws, 30%, 35%, 20% and 15% of them to the nearest draw give 1, 2, 3 and 4 areas. */
  lemma LightShares()
    ensures |set v: Word | v < RANGE && LightCount(v) == 1| == 1288490189
    ensures |set v: Word | v < RANGE && LightCount(v) == 2| == 1503238554
    ensures |set v: Word | v < RANGE && LightCount(v) == 3| == 858993459
    ensures |set v: Word | v < RANGE && LightCount(v) == 4| == 644245094
  {
    DrawsGiving(1, 0, 1288490189);
    DrawsGiving(2, 1288490189, 2791728743);
    DrawsGiving(3, 2791728743, 3650722202);
    DrawsGiving(4, 3650722202, RANGE);
  }

  /** What a lawyer holds after the draw: nothing if their areas are among what they are missing, else
    * 1 to 4 areas (12 to 16 if heavy), or every area if there are fewer. */
  ghost predicate GivenAreas(l: Lawyer, areas: seq<Area>)
    reads l`areaIds
  {
    if PRACTICE_AREAS in l.missing then l.areaIds == {}
    else
      && l.areaIds <= Ids(areas)
      && exists count: nat ::
           (if l.heavy then 12 <= count <= 16 else 1 <= count <= 4) && |l.areaIds| == Min(count, |areas|)
  }

  /** How many areas a lawyer is to have, from the draws at `start`: one draw decides it, or for a heavy lawyer
    * the one after. */
  ghost function CountFrom(heavy: bool, start: Word): nat {
    if heavy then 12 + Scale(Draw(start, 1), 5) else LightCount(Draw(start, 0))
  }

  /** Where the picks' draws start. */
  ghost function PicksStart(heavy: bool, start: Word): Word { After(start, if heavy then 2 else 1) }

  /** The picks of one lawyer's turn at `start`. */
  ghost predicate TurnFrom(l: Lawyer, areas: seq<Area>, start: Word, picks: seq<nat>)
    reads l`areaIds
  {
    if PRACTICE_AREAS in l.missing then picks == [] && l.areaIds == {}
    else
      && CanPick(areas, picks) && PickedFrom(areas, picks, PicksStart(l.heavy, start))
      && |picks| == Min(CountFrom(l.heavy, start), |areas|) && l.areaIds == Picked(areas, picks)
  }

  /** The generator's state after that turn. */
  ghost function TurnEnds(l: Lawyer, start: Word, picks: seq<nat>): Word {
    if PRACTICE_AREAS in l.missing then start else After(PicksStart(l.heavy, start), |picks|)
  }

  lemma TurnGives(l: Lawyer, areas: seq<Area>, start: Word, picks: seq<nat>)
    requires DistinctIds(areas) && TurnFrom(l, areas, start, picks)
    ensures GivenAreas(l, areas)
  {
    hide Output, Scale, PickedFrom, Picked, Pool, CanPick;
    if PRACTICE_AREAS !in l.missing {
      PickedIds(areas, picks);
      var count := CountFrom(l.heavy, start);
      assert |l.areaIds| == Min(count, |areas|);
    }
  }

  /** One lawyer's turn. */
  method GiveAreas(l: Lawyer, areas: seq<Area>, rng: Rng) returns (ghost picks: seq<nat>)
    requires DistinctIds(areas) && l.areaIds == {}
    modifies rng, l`areaIds
    ensures TurnFrom(l, areas, old(rng.a), picks) && rng.a == TurnEnds(l, old(rng.a), picks)
    ensures GivenAreas(l, areas)
  {
    hide Output, Scale, PickedFrom, Picked, Pool, CanPick, GivenAreas, Advance, LightCount, DistinctIds;
    ghost var start := rng.a;
    picks := [];
    if PRACTICE_AREAS !in l.missing {
      NextDraw(start, 0);
      NextDraw(start, 1);
      var r := rng.Next();
      if l.heavy {
        var many := rng.Between(12, 16);
        picks := SampleAreas(l, areas, Min(|areas|, many), rng);
      } else {
        picks := SampleAreas(l, areas, LightCount(r), rng);
      }
    }
    TurnGives(l, areas, start, picks);
  }

  /** The turns of all lawyers, one after another, each where the one before left the generator. */
  ghost predicate TurnsFrom(lawyers: seq<Lawyer>, areas: seq<Area>, starts: seq<Word>, picks: seq<seq<nat>>)
    requires |starts| == |picks| + 1 && |picks| <= |lawyers|
    reads lawyers`areaIds
  {
    forall k :: 0 <= k < |picks| ==>
      TurnFrom(lawyers[k], areas, starts[k], picks[k]) && starts[k + 1] == TurnEnds(lawyers[k], starts[k], picks[k])
  }

  method AssignAreas(lawyers: seq<Lawyer>, areas: seq<Area>, rng: Rng)
    returns (ghost starts: seq<Word>, ghost picks: seq<seq<nat>>)
    requires Distinct(lawyers) && DistinctIds(areas)
    requires forall l :: l in lawyers ==> l.areaIds == {}
    modifies rng, lawyers`areaIds
    ensures |picks| == |lawyers| && |starts| == |picks| + 1 && starts[0] == old(rng.a)
    ensures TurnsFrom(lawyers, areas, starts, picks)
    ensures forall l :: l in lawyers ==> GivenAreas(l, areas)
  {
    hide TurnFrom, TurnEnds, GivenAreas;
    starts, picks := [rng.a], [];
    for i := 0 to |lawyers|
      invariant |picks| == i && |starts| == i + 1 && starts[0] == old(rng.a) && starts[i] == rng.a
      invariant TurnsFrom(lawyers, areas, starts, picks)
      invariant forall k :: 0 <= k < i ==> GivenAreas(lawyers[k], areas)
      invariant forall k :: i <= k < |lawyers| ==> lawyers[k].areaIds == {}
    {
      assert lawyers[i] in lawyers;
      ghost var turn := GiveAreas(lawyers[i], areas, rng);
      starts, picks := starts + [rng.a], picks + [turn];
    }
  }
}
