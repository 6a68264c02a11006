/** The two repair passes: every jurisdiction and case type, then every practice area. */
module Coverage {
  import opened Options
  import opened Sequences
  import opened Filters
  import opened Mulberry
  import opened Shuffles
  import opened TestLawyers
  import opened Registration
  import opened AreaChoice

  /** What covers a pair of a jurisdiction and a case type. */
  const MIN_PER_PAIR: nat := 2
  /** What holds an area well enough. */
  const MIN_HOLDERS: nat := 3

  /** Whether an area the lawyer holds maps to `caseType`. */
  predicate Covers(l: Lawyer, areas: seq<Area>, caseType: string)
    reads l`areaIds
  {
    exists a | a in areas :: a.caseArea == Some(caseType) && a.id in l.areaIds
  }

  ghost function Covering(lawyers: seq<Lawyer>, areas: seq<Area>, j: Jurisdiction, caseType: string): set<Lawyer>
    reads lawyers`areaIds, lawyers`jurisdictions
  {
    set l | l in lawyers && IsAccepting(l) && j in l.jurisdictions && Covers(l, areas, caseType)
  }

  ghost predicate PairCovered(lawyers: seq<Lawyer>, areas: seq<Area>, j: Jurisdiction, caseType: string)
    reads lawyers`areaIds, lawyers`jurisdictions
  {
    |Covering(lawyers, areas, j, caseType)| >= MIN_PER_PAIR
  }

  ghost function Holders(lawyers: seq<Lawyer>, id: string): set<Lawyer>
    reads lawyers`areaIds
  {
    set l | l in lawyers && IsVerified(l) && id in l.areaIds
  }

  ghost predicate AreaHeld(lawyers: seq<Lawyer>, id: string)
    reads lawyers`areaIds
  {
    |Holders(lawyers, id)| >= MIN_HOLDERS
  }

  // ── Repairs only add ────────────────────────────────────────────────────────────────────────

  twostate predicate OnlyGrew(lawyers: seq<Lawyer>)
    reads lawyers`areaIds
  {
    forall l :: l in lawyers ==> old(l.areaIds) <= l.areaIds
  }

  /** How many areas each lawyer holds. */
  ghost function Sizes(lawyers: seq<Lawyer>): (r: seq<nat>)
    reads lawyers`areaIds
    ensures |r| == |lawyers| && forall i :: 0 <= i < |r| ==> r[i] == |lawyers[i].areaIds|
  {
    if lawyers == [] then [] else Sizes(lawyers[..|lawyers| - 1]) + [|lawyers[|lawyers| - 1].areaIds|]
  }

  /** How many (lawyer, area) holdings there are. */
  ghost function Holdings(lawyers: seq<Lawyer>): nat
    reads lawyers`areaIds
  {
    Total(Sizes(lawyers))
  }

  // ── Choosing whom to repair and with what ───────────────────────────────────────────────────

  /** `order[i]` comes first in a stable sort by number of areas. */
  ghost predicate SortsFirst(order: seq<Lawyer>, i: nat)
    reads order`areaIds
  {
    && i < |order|
    && (forall k :: 0 <= k < |order| ==> |order[i].areaIds| <= |order[k].areaIds|)
    && forall k :: 0 <= k < i ==> |order[i].areaIds| < |order[k].areaIds|
  }

  /** Nobody holds fewer areas than the candidate chosen, and among those who hold as few it is the first in the
    * shuffled order, which the generator's draws decide. */
  method Lightest(candidates: seq<Lawyer>, rng: Rng) returns (lightest: Option<Lawyer>, ghost at: nat)
    modifies rng
    ensures lightest.None? <==> candidates == []
    ensures lightest.Some? ==> lightest.value in candidates
    ensures lightest.Some? ==> forall c :: c in candidates ==> |lightest.value.areaIds| <= |c.areaIds|
    ensures var order := Shuffled(candidates, ChoicesFrom(old(rng.a), |candidates|));
      lightest.Some? ==> SortsFirst(order, at) && lightest.value == order[at]
    ensures rng.a == After(old(rng.a), DrawsUsed(|candidates|))
  {
    hide Shuffled, Choices, ChoicesFrom, After;
    var shuffled := Shuffle(rng, candidates);
    SameMembers(shuffled, candidates);
    at := 0;
    if shuffled == [] {
      return None, at;
    }
    var best := 0;
    for i := 1 to |shuffled|
      invariant best < i && SortsFirst(shuffled[..i], best)
    {
      if |shuffled[i].areaIds| < |shuffled[best].areaIds| {
        best := i;
      }
    }
    assert shuffled[..|shuffled|] == shuffled;
    at := best;
    lightest := Some(shuffled[best]);
  }

  lemma SameMembers<T>(s: seq<T>, t: seq<T>)
    requires multiset(s) == multiset(t)
    ensures |s| == |t| && forall x :: x in s <==> x in t
  {
    assert |multiset(s)| == |s| && |multiset(t)| == |t|;
    assert forall x :: x in s <==> x in multiset(s);
    assert forall x :: x in t <==> x in multiset(t);
  }

  /** How many lawyers hold the area. */
  function Held(lawyers: seq<Lawyer>, id: string): nat
    reads lawyers
  {
    |Filter(lawyers, (l: Lawyer) reads l => id in l.areaIds)|
  }

  /** The first of `mapped` in a stable sort by how many lawyers hold it. */
  method LeastHeld(lawyers: seq<Lawyer>, mapped: seq<Area>) returns (least: Area, ghost at: nat)
    requires mapped != []
    ensures at < |mapped| && least == mapped[at]
    ensures forall a :: a in mapped ==> Held(lawyers, least.id) <= Held(lawyers, a.id)
    ensures forall k :: 0 <= k < at ==> Held(lawyers, least.id) < Held(lawyers, mapped[k].id)
  {
    hide Held;
    least, at := mapped[0], 0;
    for i := 1 to |mapped|
      invariant at < i && least == mapped[at]
      invariant forall k :: 0 <= k < i ==> Held(lawyers, least.id) <= Held(lawyers, mapped[k].id)
      invariant forall k :: 0 <= k < at ==> Held(lawyers, least.id) < Held(lawyers, mapped[k].id)
    {
      if Held(lawyers, mapped[i].id) < Held(lawyers, least.id) {
        least, at := mapped[i], i;
      }
    }
  }

  // ── The repair passes ───────────────────────────────────────────────────────────────────────

  /** What a repair pass changes: areas are only added, only to lawyers in `touchable`, and only ones
    * from the list; each repair adds one holding. */
  twostate predicate Repaired(lawyers: seq<Lawyer>, areas: seq<Area>, touchable: set<Lawyer>, repairs: nat)
    reads lawyers`areaIds
  {
    && OnlyGrew(lawyers)
    && (forall l :: l in lawyers && l !in touchable ==> l.areaIds == old(l.areaIds))
    && (forall l, id :: l in lawyers && id in l.areaIds ==> id in old(l.areaIds) || id in Ids(areas))
    && Holdings(lawyers) == old(Holdings(lawyers)) + repairs
  }

  /** No repair undoes another. */
  twostate predicate CoverageKept(lawyers: seq<Lawyer>, areas: seq<Area>)
    reads lawyers`areaIds, lawyers`jurisdictions
  {
    && (forall j, c :: old(PairCovered(lawyers, areas, j, c)) ==> PairCovered(lawyers, areas, j, c))
    && (forall id :: old(AreaHeld(lawyers, id)) ==> AreaHeld(lawyers, id))
  }

  ghost function Accepting(lawyers: seq<Lawyer>): set<Lawyer> {
    set l | l in lawyers && IsAccepting(l)
  }

  method AddHolding(lawyers: seq<Lawyer>, l: Lawyer, id: string)
    requires Distinct(lawyers) && l in lawyers && id !in l.areaIds
    modifies l`areaIds
    ensures l.areaIds == old(l.areaIds) + {id}
    ensures Holdings(lawyers) == old(Holdings(lawyers)) + 1
  {
    ghost var i: nat :| i < |lawyers| && lawyers[i] == l;
    ghost var before := Sizes(lawyers);
    l.areaIds := l.areaIds + {id};
    assert Sizes(lawyers) == before[i := before[i] + 1];
    TotalWithOneMore(before, i);
  }

  /** One repair: `l`, who does not hold the area, gets it. */
  method AddArea(lawyers: seq<Lawyer>, l: Lawyer, area: Area, ghost areas: seq<Area>, ghost touchable: set<Lawyer>)
    requires Distinct(lawyers) && l in lawyers && l in touchable && area in areas && area.id !in l.areaIds
    modifies l`areaIds
    ensures l.areaIds == old(l.areaIds) + {area.id}
    ensures forall x :: x in lawyers && x != l ==> x.areaIds == old(x.areaIds)
    ensures Repaired(lawyers, areas, touchable, 1) && CoverageKept(lawyers, areas)
  {
    hide Holdings;
    AddHolding(lawyers, l, area.id);
    forall j, c
      ensures |Covering(lawyers, areas, j, c)| >= old(|Covering(lawyers, areas, j, c)|)
    {
      SubsetSize(old(Covering(lawyers, areas, j, c)), Covering(lawyers, areas, j, c));
    }
    forall id
      ensures |Holders(lawyers, id)| >= old(|Holders(lawyers, id)|)
    {
      SubsetSize(old(Holders(lawyers, id)), Holders(lawyers, id));
    }
  }

  /** The accepting lawyers qualified in `j` who do, or do not yet, cover the case type. */
  function QualifiedIn(accepting: seq<Lawyer>, areas: seq<Area>, j: Jurisdiction, caseType: string,
      covering: bool): (r: seq<Lawyer>)
    reads accepting
    ensures forall l | l in r :: l in accepting && j in l.jurisdictions && Covers(l, areas, caseType) == covering
    ensures forall l | l in accepting :: j in l.jurisdictions && Covers(l, areas, caseType) == covering ==> l in r
    ensures Distinct(accepting) ==> Distinct(r)
  {
    Filter(accepting, (l: Lawyer) reads l => j in l.jurisdictions && Covers(l, areas, caseType) == covering)
  }

  lemma QualifiedInSize(lawyers: seq<Lawyer>, accepting: seq<Lawyer>, areas: seq<Area>, j: Jurisdiction,
      caseType: string)
    requires Distinct(accepting) && Elements(accepting) == Accepting(lawyers)
    ensures |QualifiedIn(accepting, areas, j, caseType, true)| == |Covering(lawyers, areas, j, caseType)|
    ensures |Covering(lawyers, areas, j, caseType)| <= |AcceptingIn(lawyers, j)|
    ensures |Uncovering(lawyers, areas, j, caseType)| ==
      |AcceptingIn(lawyers, j)| - |Covering(lawyers, areas, j, caseType)|
  {
    var yes := QualifiedIn(accepting, areas, j, caseType, true);
    forall l
      ensures l in accepting <==> l in Accepting(lawyers)
    {
      assert l in accepting <==> l in Elements(accepting);
    }
    assert Elements(yes) == Covering(lawyers, areas, j, caseType);
    DistinctSize(yes);
    assert Covering(lawyers, areas, j, caseType) <= AcceptingIn(lawyers, j);
    SubsetSize(Covering(lawyers, areas, j, caseType), AcceptingIn(lawyers, j));
  }

  ghost function Uncovering(lawyers: seq<Lawyer>, areas: seq<Area>, j: Jurisdiction, caseType: string): set<Lawyer>
    reads lawyers`areaIds, lawyers`jurisdictions
  {
    AcceptingIn(lawyers, j) - Covering(lawyers, areas, j, caseType)
  }

  /** The lightest accepting lawyer qualified in `j` who does not cover the type yet, and the least-held
    * area mapped to it. */
  method PickRepair(lawyers: seq<Lawyer>, accepting: seq<Lawyer>, areas: seq<Area>, mapped: seq<Area>,
      j: Jurisdiction, caseType: string, rng: Rng)
      returns (lightest: Option<Lawyer>, area: Area)
    requires Distinct(accepting) && Elements(accepting) == Accepting(lawyers)
    requires mapped != []
    modifies rng
    ensures lightest.None? <==> Uncovering(lawyers, areas, j, caseType) == {}
    ensures lightest.Some? ==> lightest.value in lawyers && lightest.value in Uncovering(lawyers, areas, j, caseType)
    ensures lightest.Some? ==>
      forall l :: l in Uncovering(lawyers, areas, j, caseType) ==> |lightest.value.areaIds| <= |l.areaIds|
    ensures area in mapped && forall a :: a in mapped ==> Held(lawyers, area.id) <= Held(lawyers, a.id)
  {
    hide Held, Shuffled, ChoicesFrom, After;
    var candidates := QualifiedIn(accepting, areas, j, caseType, false);
    forall l
      ensures l in candidates <==> l in Uncovering(lawyers, areas, j, caseType)
    {
      assert l in accepting <==> l in Elements(accepting);
    }
    ghost var at;
    lightest, at := Lightest(candidates, rng);
    area, at := LeastHeld(lawyers, mapped);
  }

  /** Adding an area mapped to the type makes the lawyer, and nobody else, newly cover it. */
  method AddCover(lawyers: seq<Lawyer>, l: Lawyer, area: Area, areas: seq<Area>, ghost j: Jurisdiction,
      ghost caseType: string)
    requires Distinct(lawyers) && l in Uncovering(lawyers, areas, j, caseType)
    requires area in areas && area.caseArea == Some(caseType)
    modifies l`areaIds
    ensures Repaired(lawyers, areas, Accepting(lawyers), 1) && CoverageKept(lawyers, areas)
    ensures |Covering(lawyers, areas, j, caseType)| == old(|Covering(lawyers, areas, j, caseType)|) + 1
    ensures l.areaIds == old(l.areaIds) + {area.id}
  {
    hide Holdings;
    ghost var before := Covering(lawyers, areas, j, caseType);
    AddArea(lawyers, l, area, areas, Accepting(lawyers));
    assert Covering(lawyers, areas, j, caseType) == before + {l};
  }

  /** One turn of the pair loop. False, with nothing changed, when there is nobody to repair. */
  method TopUp(lawyers: seq<Lawyer>, accepting: seq<Lawyer>, areas: seq<Area>, mapped: seq<Area>, j: Jurisdiction,
      caseType: string, rng: Rng)
      returns (ok: bool, ghost l: Option<Lawyer>, ghost area: Area)
    requires Distinct(lawyers) && Distinct(accepting) && Elements(accepting) == Accepting(lawyers)
    requires mapped != [] && forall a :: a in mapped ==> a in areas && a.caseArea == Some(caseType)
    modifies rng, lawyers`areaIds
    ensures Repaired(lawyers, areas, Accepting(lawyers), if ok then 1 else 0) && CoverageKept(lawyers, areas)
    ensures ok <==> old(|Covering(lawyers, areas, j, caseType)|) < |AcceptingIn(lawyers, j)|
    ensures |Covering(lawyers, areas, j, caseType)| ==
      old(|Covering(lawyers, areas, j, caseType)|) + if ok then 1 else 0
    ensures ok <==> l.Some?
    ensures ok ==> l.value in lawyers && l.value in old(Uncovering(lawyers, areas, j, caseType))
    ensures ok ==> area in mapped && l.value.areaIds == old(l.value.areaIds) + {area.id}
    ensures ok ==> forall x :: x in lawyers && x in old(Uncovering(lawyers, areas, j, caseType)) ==>
      old(|l.value.areaIds|) <= old(|x.areaIds|)
    ensures ok ==> forall a :: a in mapped ==> old(Held(lawyers, area.id)) <= old(Held(lawyers, a.id))
    ensures forall x :: x in lawyers && Some(x) != l ==> x.areaIds == old(x.areaIds)
  {
    hide Holdings, Held, Covers, Covering, Uncovering, AcceptingIn, QualifiedIn, PairCovered, AreaHeld;
    QualifiedInSize(lawyers, accepting, areas, j, caseType);
    ghost var without := Uncovering(lawyers, areas, j, caseType);
    var lightest, least := PickRepair(lawyers, accepting, areas, mapped, j, caseType, rng);
    ok, l, area := lightest.Some?, lightest, least;
    assert without == Uncovering(lawyers, areas, j, caseType);
    if ok {
      assert forall x :: x in lawyers && x in without ==> |l.value.areaIds| <= |x.areaIds|;
      AddCover(lawyers, lightest.value, least, areas, j, caseType);
    }
  }

  /**
   * Tops up one jurisdiction and case type. False is the source's throw: no accepting lawyer qualified
   * there is left to add the type to.
   */
  method CoverPair(lawyers: seq<Lawyer>, accepting: seq<Lawyer>, areas: seq<Area>, j: Jurisdiction, caseType: string,
      rng: Rng)
      returns (ok: bool, ghost repairs: nat)
    requires Distinct(lawyers) && Distinct(accepting) && Elements(accepting) == Accepting(lawyers)
    requires exists a :: a in areas && a.caseArea == Some(caseType)
    modifies rng, lawyers`areaIds
    ensures Repaired(lawyers, areas, Accepting(lawyers), repairs) && repairs <= MIN_PER_PAIR
    ensures CoverageKept(lawyers, areas)
    ensures ok <==> |AcceptingIn(lawyers, j)| >= MIN_PER_PAIR
    ensures ok <==> PairCovered(lawyers, areas, j, caseType)
  {
    hide Holdings, Covering, Uncovering, Covers, AcceptingIn, QualifiedIn, Ids, Accepting, AreaHeld, Held;
    var mapped := Filter(areas, (a: Area) => a.caseArea == Some(caseType));
    repairs := 0;
    QualifiedInSize(lawyers, accepting, areas, j, caseType);
    while |QualifiedIn(accepting, areas, j, caseType, true)| < MIN_PER_PAIR
      invariant Repaired(lawyers, areas, Accepting(lawyers), repairs) && CoverageKept(lawyers, areas)
      invariant |QualifiedIn(accepting, areas, j, caseType, true)| == |Covering(lawyers, areas, j, caseType)|
      invariant |Covering(lawyers, areas, j, caseType)| <= |AcceptingIn(lawyers, j)|
      invariant repairs == 0 || repairs <= |Covering(lawyers, areas, j, caseType)| <= MIN_PER_PAIR
      decreases MIN_PER_PAIR - |Covering(lawyers, areas, j, caseType)|
    {
      ghost var l, area;
      ok, l, area := TopUp(lawyers, accepting, areas, mapped, j, caseType, rng);
      if !ok {
        return;
      }
      repairs := repairs + 1;
      QualifiedInSize(lawyers, accepting, areas, j, caseType);
    }
    ok := true;
  }

  /** Every case type in one jurisdiction. */
  method CoverJurisdiction(lawyers: seq<Lawyer>, accepting: seq<Lawyer>, areas: seq<Area>, j: Jurisdiction,
      caseTypes: seq<string>, rng: Rng)
      returns (ok: bool, ghost repairs: nat)
    requires Distinct(lawyers) && Distinct(accepting) && Elements(accepting) == Accepting(lawyers)
    requires forall c :: c in caseTypes ==> exists a :: a in areas && a.caseArea == Some(c)
    modifies rng, lawyers`areaIds
    ensures Repaired(lawyers, areas, Accepting(lawyers), repairs) && repairs <= MIN_PER_PAIR * |caseTypes|
    ensures CoverageKept(lawyers, areas)
    ensures ok <==> caseTypes == [] || |AcceptingIn(lawyers, j)| >= MIN_PER_PAIR
    ensures ok ==> forall c :: c in caseTypes ==> PairCovered(lawyers, areas, j, c)
  {
    hide Holdings, PairCovered, AcceptingIn, AreaHeld, Ids, Accepting, Distinct, Elements;
    repairs := 0;
    for i := 0 to |caseTypes|
      invariant Repaired(lawyers, areas, Accepting(lawyers), repairs) && CoverageKept(lawyers, areas)
      invariant repairs <= MIN_PER_PAIR * i
      invariant i > 0 ==> |AcceptingIn(lawyers, j)| >= MIN_PER_PAIR
      invariant forall k :: 0 <= k < i ==> PairCovered(lawyers, areas, j, caseTypes[k])
    {
      ghost var n;
      assert caseTypes[i] in caseTypes;
      ok, n := CoverPair(lawyers, accepting, areas, j, caseTypes[i], rng);
      repairs := repairs + n;
      if !ok {
        return;
      }
    }
    ok := true;
  }

  method AllAccepting(lawyers: seq<Lawyer>) returns (accepting: seq<Lawyer>)
    requires Distinct(lawyers)
    ensures Distinct(accepting) && Elements(accepting) == Accepting(lawyers)
  {
    accepting := Filter(lawyers, IsAccepting);
  }

  /**
   * The first repair pass, over all pairs. False is the source's throw: it happens exactly when there is a
   * case type and some jurisdiction has too few accepting lawyers qualified in it.
   */
  method CoverPairs(lawyers: seq<Lawyer>, areas: seq<Area>, caseTypes: seq<string>, rng: Rng) returns (ok: bool,
      ghost repairs: nat)
    requires Distinct(lawyers)
    requires forall c :: c in caseTypes ==> exists a :: a in areas && a.caseArea == Some(c)
    modifies rng, lawyers`areaIds
    ensures Repaired(lawyers, areas, Accepting(lawyers), repairs)
    ensures repairs <= 3 * (MIN_PER_PAIR * |caseTypes|)
    ensures ok <==> caseTypes == [] || forall j :: j in UK_JURISDICTIONS ==> |AcceptingIn(lawyers, j)| >= MIN_PER_PAIR
    ensures ok ==> forall j, c :: j in UK_JURISDICTIONS && c in caseTypes ==> PairCovered(lawyers, areas, j, c)
  {
    hide Holdings, PairCovered, AcceptingIn, Covers, Covering, AreaHeld, Ids, Accepting, Distinct, Elements;
    var accepting := AllAccepting(lawyers);
    repairs := 0;
    ghost var cap := MIN_PER_PAIR * |caseTypes|;
    for i := 0 to |UK_JURISDICTIONS|
      invariant Repaired(lawyers, areas, Accepting(lawyers), repairs)
      invariant repairs <= if i == 0 then 0 else if i == 1 then cap else if i == 2 then 2 * cap else 3 * cap
      invariant caseTypes == [] || forall k :: 0 <= k < i ==>
        |AcceptingIn(lawyers, UK_JURISDICTIONS[k])| >= MIN_PER_PAIR
      invariant forall k, c :: 0 <= k < i && c in caseTypes ==> PairCovered(lawyers, areas, UK_JURISDICTIONS[k], c)
    {
      ghost var n;
      ok, n := CoverJurisdiction(lawyers, accepting, areas, UK_JURISDICTIONS[i], caseTypes, rng);
      repairs := repairs + n;
      if !ok {
        assert UK_JURISDICTIONS[i] in UK_JURISDICTIONS;
        return;
      }
    }
    ok := true;
  }

  // ── Every practice area ─────────────────────────────────────────────────────────────────────

  /** One area: the lightest verified lawyers without it get it until MIN_HOLDERS hold it. */
  method CoverArea(lawyers: seq<Lawyer>, verified: seq<Lawyer>, areas: seq<Area>, area: Area,
      rng: Rng) returns (ghost repairs: nat)
    requires Distinct(lawyers) && Distinct(verified) && Elements(verified) == Verified(lawyers)
    requires |Verified(lawyers)| >= MIN_HOLDERS && area in areas
    modifies rng, lawyers`areaIds
    ensures Repaired(lawyers, areas, Verified(lawyers), repairs) && repairs <= MIN_HOLDERS
    ensures CoverageKept(lawyers, areas) && AreaHeld(lawyers, area.id)
  {
    repairs := 0;
    HoldersSize(lawyers, verified, area.id);
    while |WithArea(verified, area.id, true)| < MIN_HOLDERS
      invariant Repaired(lawyers, areas, Verified(lawyers), repairs) && CoverageKept(lawyers, areas)
      invariant |WithArea(verified, area.id, true)| == |Holders(lawyers, area.id)|
      invariant repairs == 0 || repairs <= |Holders(lawyers, area.id)| <= MIN_HOLDERS
      decreases MIN_HOLDERS - |Holders(lawyers, area.id)|
    {
      ghost var _ := GiveArea(lawyers, verified, areas, area, rng);
      repairs := repairs + 1;
      HoldersSize(lawyers, verified, area.id);
    }
  }

  /** The verified lawyers with, or without, the area. */
  function WithArea(verified: seq<Lawyer>, id: string, held: bool): (r: seq<Lawyer>)
    reads verified
    ensures forall l | l in r :: l in verified && (id in l.areaIds) == held
    ensures forall l | l in verified :: (id in l.areaIds) == held ==> l in r
    ensures Distinct(verified) ==> Distinct(r)
  {
    Filter(verified, (l: Lawyer) reads l => (id in l.areaIds) == held)
  }

  lemma HoldersSize(lawyers: seq<Lawyer>, verified: seq<Lawyer>, id: string)
    requires Distinct(verified) && Elements(verified) == Verified(lawyers)
    ensures |WithArea(verified, id, true)| == |Holders(lawyers, id)|
    ensures |Verified(lawyers) - Holders(lawyers, id)| == |Verified(lawyers)| - |Holders(lawyers, id)|
  {
    forall l
      ensures l in verified <==> l in Verified(lawyers)
    {
      assert l in verified <==> l in Elements(verified);
    }
    assert Elements(WithArea(verified, id, true)) == Holders(lawyers, id);
    DistinctSize(WithArea(verified, id, true));
    assert Holders(lawyers, id) <= Verified(lawyers);
  }

  /** One turn of the area loop. */
  method GiveArea(lawyers: seq<Lawyer>, verified: seq<Lawyer>, areas: seq<Area>, area: Area, rng: Rng)
    returns (ghost l: Lawyer)
    requires Distinct(lawyers) && Distinct(verified) && Elements(verified) == Verified(lawyers)
    requires area in areas && |Holders(lawyers, area.id)| < |Verified(lawyers)|
    modifies rng, lawyers`areaIds
    ensures Repaired(lawyers, areas, Verified(lawyers), 1) && CoverageKept(lawyers, areas)
    ensures |Holders(lawyers, area.id)| == old(|Holders(lawyers, area.id)|) + 1
    ensures l in lawyers && l in Verified(lawyers) && area.id !in old(l.areaIds)
    ensures l.areaIds == old(l.areaIds) + {area.id}
    ensures forall x :: x in Verified(lawyers) && area.id !in old(x.areaIds) ==> old(|l.areaIds|) <= old(|x.areaIds|)
    ensures forall x :: x in lawyers && x != l ==> x.areaIds == old(x.areaIds)
  {
    hide Holdings, Holders, PairCovered, AreaHeld;
    var holder := PickHolder(lawyers, verified, area.id, rng);
    l := holder;
    AddHolder(lawyers, holder, area, areas);
  }

  method AddHolder(lawyers: seq<Lawyer>, l: Lawyer, area: Area, ghost areas: seq<Area>)
    requires Distinct(lawyers) && l in lawyers && l in Verified(lawyers) && area in areas && area.id !in l.areaIds
    modifies l`areaIds
    ensures Repaired(lawyers, areas, Verified(lawyers), 1) && CoverageKept(lawyers, areas)
    ensures |Holders(lawyers, area.id)| == old(|Holders(lawyers, area.id)|) + 1
    ensures l.areaIds == old(l.areaIds) + {area.id}
  {
    hide Holdings, PairCovered, AreaHeld;
    ghost var before := Holders(lawyers, area.id);
    AddArea(lawyers, l, area, areas, Verified(lawyers));
    assert Holders(lawyers, area.id) == before + {l};
  }

  method PickHolder(lawyers: seq<Lawyer>, verified: seq<Lawyer>, id: string, rng: Rng) returns (l: Lawyer)
    requires Distinct(verified) && Elements(verified) == Verified(lawyers)
    requires |Holders(lawyers, id)| < |Verified(lawyers)|
    modifies rng
    ensures l in lawyers && l in Verified(lawyers) && id !in l.areaIds
    ensures forall x :: x in Verified(lawyers) && id !in x.areaIds ==> |l.areaIds| <= |x.areaIds|
  {
    hide Shuffled, ChoicesFrom, After;
    var candidates := WithArea(verified, id, false);
    HoldersSize(lawyers, verified, id);
    forall x
      ensures x in candidates <==> x in Verified(lawyers) - Holders(lawyers, id)
    {
      assert x in verified <==> x in Elements(verified);
    }
    var lightest, _ := Lightest(candidates, rng);
    assert Verified(lawyers) - Holders(lawyers, id) != {};
    l := lightest.value;
  }

  method AllVerified(lawyers: seq<Lawyer>) returns (verified: seq<Lawyer>)
    requires Distinct(lawyers)
    ensures Distinct(verified) && Elements(verified) == Verified(lawyers)
  {
    verified := Filter(lawyers, IsVerified);
  }

  /** The second repair pass, which undoes nothing of the first. */
  method CoverAreas(lawyers: seq<Lawyer>, areas: seq<Area>, rng: Rng) returns (ghost repairs: nat)
    requires Distinct(lawyers) && |Verified(lawyers)| >= MIN_HOLDERS
    modifies rng, lawyers`areaIds
    ensures Repaired(lawyers, areas, Verified(lawyers), repairs) && repairs <= MIN_HOLDERS * |areas|
    ensures CoverageKept(lawyers, areas)
    ensures forall a :: a in areas ==> AreaHeld(lawyers, a.id)
  {
    hide Holdings, AreaHeld, PairCovered, Verified, Ids, Distinct, Elements;
    var verified := AllVerified(lawyers);
    repairs := 0;
    for i := 0 to |areas|
      invariant Repaired(lawyers, areas, Verified(lawyers), repairs) && repairs <= MIN_HOLDERS * i
      invariant CoverageKept(lawyers, areas)
      invariant forall k :: 0 <= k < i ==> AreaHeld(lawyers, areas[k].id)
    {
      ghost var n := CoverArea(lawyers, verified, areas, areas[i], rng);
      repairs := repairs + n;
    }
  }
}
