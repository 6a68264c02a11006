/** The whole plan: the passes in order, and what holds of every plan whatever the draws. */
module Planner {
  import opened Options
  import opened Sequences
  import opened Filters
  import opened Mulberry
  import opened RegistrationNumbers
  import opened TestLawyers
  import opened Registration
  import opened AreaChoice
  import opened Coverage
  import opened ProTier

  // ── What the summary checks ─────────────────────────────────────────────────────────────────

  datatype Shortfall = Shortfall(jurisdiction: Jurisdiction, caseType: string, count: nat)

  ghost predicate JurisdictionCovered(lawyers: seq<Lawyer>, areas: seq<Area>, j: Jurisdiction, caseTypes: seq<string>)
    reads lawyers`areaIds, lawyers`jurisdictions
  {
    forall c :: c in caseTypes ==> PairCovered(lawyers, areas, j, c)
  }

  /** Every jurisdiction and case type has enough accepting lawyers. */
  ghost predicate Covered(lawyers: seq<Lawyer>, areas: seq<Area>, caseTypes: seq<string>)
    reads lawyers`areaIds, lawyers`jurisdictions
  {
    forall i :: 0 <= i < |UK_JURISDICTIONS| ==> JurisdictionCovered(lawyers, areas, UK_JURISDICTIONS[i], caseTypes)
  }

  /** The pair has that many accepting lawyers, fewer than two. */
  ghost predicate IsShort(lawyers: seq<Lawyer>, areas: seq<Area>, s: Shortfall)
    reads lawyers`areaIds, lawyers`jurisdictions
  {
    s.count == |Covering(lawyers, areas, s.jurisdiction, s.caseType)| < 2
  }

  method ShortIn(lawyers: seq<Lawyer>, accepting: seq<Lawyer>, areas: seq<Area>, j: Jurisdiction,
      caseTypes: seq<string>)
      returns (short: seq<Shortfall>)
    requires Distinct(accepting) && Elements(accepting) == Accepting(lawyers)
    ensures short == [] <==> JurisdictionCovered(lawyers, areas, j, caseTypes)
    ensures forall s :: s in short <==> s.jurisdiction == j && s.caseType in caseTypes && IsShort(lawyers, areas, s)
  {
    hide Covers, Covering;
    short := [];
    for k := 0 to |caseTypes|
      invariant short == [] <==> forall m :: 0 <= m < k ==> PairCovered(lawyers, areas, j, caseTypes[m])
      invariant forall s :: s in short <==>
        s.jurisdiction == j && s.caseType in caseTypes[..k] && IsShort(lawyers, areas, s)
    {
      QualifiedInSize(lawyers, accepting, areas, j, caseTypes[k]);
      var n := |QualifiedIn(accepting, areas, j, caseTypes[k], true)|;
      if n < MIN_PER_PAIR {
        short := short + [Shortfall(j, caseTypes[k], n)];
      }
    }
  }

  /** The pairs with too few accepting lawyers: the summary fails when there is one. */
  method Shortfalls(lawyers: seq<Lawyer>, areas: seq<Area>, caseTypes: seq<string>) returns (short: seq<Shortfall>)
    requires Roster(lawyers)
    ensures short == [] <==> Covered(lawyers, areas, caseTypes)
    ensures forall s :: s in short <==>
      s.jurisdiction in UK_JURISDICTIONS && s.caseType in caseTypes && IsShort(lawyers, areas, s)
  {
    hide JurisdictionCovered, IsShort;
    RosterDistinct(lawyers);
    var accepting := Filter(lawyers, (l: Lawyer) => IsVerified(l) && IsAccepting(l));
    assert Elements(accepting) == Accepting(lawyers);
    short := [];
    for i := 0 to |UK_JURISDICTIONS|
      invariant short == [] <==>
        forall k :: 0 <= k < i ==> JurisdictionCovered(lawyers, areas, UK_JURISDICTIONS[k], caseTypes)
      invariant forall s :: s in short <==>
        s.jurisdiction in UK_JURISDICTIONS[..i] && s.caseType in caseTypes && IsShort(lawyers, areas, s)
    {
      var more := ShortIn(lawyers, accepting, areas, UK_JURISDICTIONS[i], caseTypes);
      short := short + more;
    }
  }

  // ── The plan ────────────────────────────────────────────────────────────────────────────────

  /** A field is empty exactly when the lawyer's missing list names it. */
  ghost predicate FieldsFollowMissing(l: Lawyer)
    reads l
  {
    && (l.regulator.None? <==> REGULATOR in l.missing)
    && (l.registrationNumber.None? <==> REGISTRATION_NUMBER in l.missing)
    && (l.jurisdictions == [] <==> QUALIFIED_JURISDICTIONS in l.missing)
    && (l.areaIds == {} <==> PRACTICE_AREAS in l.missing)
  }

  /** Registration numbers are six digits, and no two lawyers share one. */
  ghost predicate NumbersDistinct(lawyers: seq<Lawyer>)
    reads lawyers`registrationNumber
  {
    && (forall l :: l in lawyers && l.registrationNumber.Some? ==> IsNumber(l.registrationNumber.value, 6))
    && forall i, k :: 0 <= i < k < |lawyers| && lawyers[i].registrationNumber.Some? ==>
         lawyers[i].registrationNumber != lawyers[k].registrationNumber
  }

  /** Each combination has its count of lawyers, three of them verified. */
  ghost predicate CombosDealt(lawyers: seq<Lawyer>)
    reads lawyers`combo
  {
    forall k :: 0 <= k < COMBO_COUNT ==>
      && |WithCombo(lawyers, ComboAt(k))| == ComboAt(k).count
      && |set l | l in WithCombo(lawyers, ComboAt(k)) && IsVerified(l)| >= MIN_PER_COMBO
  }

  ghost predicate GoodPlan(lawyers: seq<Lawyer>, areas: seq<Area>, caseTypes: seq<string>)
    reads lawyers
  {
    && Roster(lawyers)
    && Covered(lawyers, areas, caseTypes)
    && (forall a :: a in areas ==> AreaHeld(lawyers, a.id))
    && (forall l :: l in lawyers ==> l.areaIds <= Ids(areas) && FieldsFollowMissing(l))
    && NumbersDistinct(lawyers)
    && CombosDealt(lawyers)
    && TiersGiven(lawyers)
  }

  /** In numbers: two accepting lawyers qualified in each jurisdiction for each case type, and three verified
    * holders of each area. */
  lemma GoodPlanCovers(lawyers: seq<Lawyer>, areas: seq<Area>, caseTypes: seq<string>, j: Jurisdiction, a: Area)
    requires GoodPlan(lawyers, areas, caseTypes) && j in UK_JURISDICTIONS && a in areas
    ensures forall c :: c in caseTypes ==> |Covering(lawyers, areas, j, c)| >= 2
    ensures |Holders(lawyers, a.id)| >= 3
  {
    hide Covering, Holders, TiersGiven, Roster, NumbersDistinct, CombosDealt;
    var i :| 0 <= i < |UK_JURISDICTIONS| && UK_JURISDICTIONS[i] == j;
    assert JurisdictionCovered(lawyers, areas, UK_JURISDICTIONS[i], caseTypes);
    forall c | c in caseTypes
      ensures |Covering(lawyers, areas, j, c)| >= 2
    {
      assert PairCovered(lawyers, areas, j, c);
    }
    assert AreaHeld(lawyers, a.id);
  }

  lemma {:induction false} SlotsHaveJurisdictions(k: nat, guaranteed: bool, c: Combo)
    requires k <= COMBO_COUNT && c in Slots(k, guaranteed)
    ensures c.jurisdictions != []
  {
    if c !in Copies(ComboAt(k - 1), Quota(k - 1, guaranteed)) {
      SlotsHaveJurisdictions(k - 1, guaranteed, c);
    }
  }

  /** One lawyer's registration fields after a fair deal. */
  lemma DealtFields(lawyers: seq<Lawyer>, d: Deal, l: Lawyer)
    requires FairDeal(lawyers, d) && DealtTo(d, COUNT) && l in lawyers
    ensures l.regulator.None? <==> REGULATOR in l.missing
    ensures l.registrationNumber.None? <==> REGISTRATION_NUMBER in l.missing
    ensures l.jurisdictions == [] <==> QUALIFIED_JURISDICTIONS in l.missing
    ensures l.registrationNumber.Some? ==> IsNumber(l.registrationNumber.value, 6)
  {
    hide ComboAt, Slots;
    var i := DealtPlace(lawyers, d, l);
    assert d.combos[i] in multiset(d.combos);
    assert d.combos[i] in Slots(COMBO_COUNT, true) || d.combos[i] in Slots(COMBO_COUNT, false);
    SlotsHaveJurisdictions(COMBO_COUNT, d.combos[i] in Slots(COMBO_COUNT, true), d.combos[i]);
    assert d.numbers[i] in d.numbers;
  }

  lemma DealtNumbers(lawyers: seq<Lawyer>, d: Deal)
    requires Roster(lawyers) && FairDeal(lawyers, d) && DealtTo(d, COUNT)
    ensures NumbersDistinct(lawyers)
  {
    hide ComboAt, Slots;
    forall l | l in lawyers && l.registrationNumber.Some?
      ensures IsNumber(l.registrationNumber.value, 6)
    {
      DealtFields(lawyers, d, l);
    }
    forall i, k | 0 <= i < k < |lawyers| && lawyers[i].registrationNumber.Some?
      ensures lawyers[i].registrationNumber != lawyers[k].registrationNumber
    {
      var m := DealtPlace(lawyers, d, lawyers[i]);
      var p := DealtPlace(lawyers, d, lawyers[k]);
      assert lawyers[i].n != lawyers[k].n;
      assert d.numbers[m] != d.numbers[p];
    }
  }

  lemma DealtCombos(lawyers: seq<Lawyer>, d: Deal)
    requires Roster(lawyers) && FairDeal(lawyers, d) && DealtTo(d, COUNT)
    ensures CombosDealt(lawyers)
  {
    hide Slots, WithCombo;
    forall k | 0 <= k < COMBO_COUNT
      ensures |WithCombo(lawyers, ComboAt(k))| == ComboAt(k).count
      ensures |set l | l in WithCombo(lawyers, ComboAt(k)) && IsVerified(l)| >= MIN_PER_COMBO
    {
      EachComboItsCount(lawyers, d, k);
      ThreeVerifiedPerCombo(lawyers, d, k);
    }
  }

  /** What the registration pass leaves behind, whatever the draws. */
  ghost predicate Registered(lawyers: seq<Lawyer>)
    reads lawyers`combo, lawyers`regulator, lawyers`registrationNumber, lawyers`jurisdictions
  {
    && NumbersDistinct(lawyers) && CombosDealt(lawyers)
    && (forall l :: l in lawyers ==>
         && (l.regulator.None? <==> REGULATOR in l.missing)
         && (l.registrationNumber.None? <==> REGISTRATION_NUMBER in l.missing)
         && (l.jurisdictions == [] <==> QUALIFIED_JURISDICTIONS in l.missing))
    && (forall j :: j in UK_JURISDICTIONS ==> |AcceptingIn(lawyers, j)| >= 12)
    && |SraEligible(lawyers)| >= 10
  }

  lemma DealRegisters(lawyers: seq<Lawyer>, d: Deal)
    requires Roster(lawyers) && FairDeal(lawyers, d) && DealtTo(d, COUNT)
    ensures Registered(lawyers)
  {
    hide Slots, ComboAt, FairDeal, DealtTo, AcceptingIn, SraEligible;
    DealtNumbers(lawyers, d);
    DealtCombos(lawyers, d);
    forall l | l in lawyers
      ensures && (l.regulator.None? <==> REGULATOR in l.missing)
              && (l.registrationNumber.None? <==> REGISTRATION_NUMBER in l.missing)
              && (l.jurisdictions == [] <==> QUALIFIED_JURISDICTIONS in l.missing)
    {
      DealtFields(lawyers, d, l);
    }
    forall j | j in UK_JURISDICTIONS
      ensures |AcceptingIn(lawyers, j)| >= 12
    {
      TwelveAcceptingIn(lawyers, d, j);
    }
    TenSraEligible(lawyers, d);
  }

  // ── The plan ────────────────────────────────────────────────────────────────────────────────

  /** Whether some area maps to the case type. */
  predicate Routed(areas: seq<Area>, c: string) {
    exists a :: a in areas && a.caseArea == Some(c)
  }

  /** What the sampling pass leaves behind: areas from the list, none exactly for who is missing them. */
  ghost predicate AreasGiven(lawyers: seq<Lawyer>, areas: seq<Area>)
    reads lawyers`areaIds
  {
    forall l :: l in lawyers ==> l.areaIds <= Ids(areas) && (l.areaIds == {} <==> PRACTICE_AREAS in l.missing)
  }

  lemma GivenToAll(lawyers: seq<Lawyer>, areas: seq<Area>)
    requires areas != [] && forall l :: l in lawyers ==> GivenAreas(l, areas)
    ensures AreasGiven(lawyers, areas)
  {
    forall l | l in lawyers
      ensures l.areaIds <= Ids(areas) && (l.areaIds == {} <==> PRACTICE_AREAS in l.missing)
    {
      assert GivenAreas(l, areas);
    }
  }

  /** The passes before the repairs. */
  method Draw(lawyers: seq<Lawyer>, areas: seq<Area>, rng: Rng)
    requires Roster(lawyers) && DistinctIds(areas) && areas != []
    requires forall l :: l in lawyers ==> l.areaIds == {}
    modifies rng, lawyers`areaIds, lawyers`combo, lawyers`regulator, lawyers`registrationNumber, lawyers`jurisdictions
    ensures Registered(lawyers) && AreasGiven(lawyers, areas)
  {
    hide Registered, FairDeal, DealtTo, DealtFrom, GivenAreas, AreasGiven, TurnsFrom, Roster, DistinctIds, Distinct;
    RosterDistinct(lawyers);
    ghost var d, _ := AssignRegistration(lawyers, rng);
    DealRegisters(lawyers, d);
    ghost var _, _ := AssignAreas(lawyers, areas, rng);
    GivenToAll(lawyers, areas);
  }

  /** Repairs that only add, and only to verified lawyers, leave every missing field missing. */
  method Repair(lawyers: seq<Lawyer>, areas: seq<Area>, caseTypes: seq<string>, rng: Rng)
    requires Roster(lawyers) && AreasGiven(lawyers, areas)
    requires Registered(lawyers) && forall c :: c in caseTypes ==> Routed(areas, c)
    modifies rng, lawyers`areaIds
    ensures AreasGiven(lawyers, areas) && Covered(lawyers, areas, caseTypes)
    ensures forall a :: a in areas ==> AreaHeld(lawyers, a.id)
    ensures forall l :: l in lawyers && !IsVerified(l) ==> l.areaIds == old(l.areaIds)
  {
    hide Holdings, PairCovered, AreaHeld, AcceptingIn, Registered, Roster, Accepting, Verified, Ids;
    ReadyToRepair(lawyers);
    var ok, _ := CoverPairs(lawyers, areas, caseTypes, rng);
    assert ok;
    var _ := CoverAreas(lawyers, areas, rng);
    forall i, c | 0 <= i < |UK_JURISDICTIONS| && c in caseTypes
      ensures PairCovered(lawyers, areas, UK_JURISDICTIONS[i], c)
    {
      assert UK_JURISDICTIONS[i] in UK_JURISDICTIONS;
    }
  }

  lemma ReadyToRepair(lawyers: seq<Lawyer>)
    requires Roster(lawyers) && Registered(lawyers)
    ensures Distinct(lawyers) && |Verified(lawyers)| >= MIN_HOLDERS
    ensures forall j :: j in UK_JURISDICTIONS ==> |AcceptingIn(lawyers, j)| >= MIN_PER_PAIR
    ensures forall l :: l in Verified(lawyers) <==> l in lawyers && IsVerified(l)
    ensures Accepting(lawyers) <= Verified(lawyers)
    ensures forall l :: l in lawyers && IsVerified(l) ==> PRACTICE_AREAS !in l.missing
  {
    hide AcceptingIn, NumbersDistinct, CombosDealt, SraEligible;
    RosterDistinct(lawyers);
    SeventyVerified(lawyers);
    forall l | l in lawyers && IsVerified(l)
      ensures PRACTICE_AREAS !in l.missing
    {
      VerifiedMissNothing(l);
    }
  }

  datatype Outcome =
    | NoAreas
    | Unrouted(caseTypes: seq<string>)
    | Planned(lawyers: seq<Lawyer>)

  lemma AllGood(lawyers: seq<Lawyer>, areas: seq<Area>, caseTypes: seq<string>)
    requires Roster(lawyers) && Registered(lawyers) && AreasGiven(lawyers, areas)
    requires Covered(lawyers, areas, caseTypes) && forall a :: a in areas ==> AreaHeld(lawyers, a.id)
    requires TiersGiven(lawyers)
    ensures GoodPlan(lawyers, areas, caseTypes)
  {
    hide TiersGiven, SraEligible, Covered, AreaHeld, NumbersDistinct, CombosDealt, AcceptingIn, Ids;
  }

  /** The last pass finds an SRA lawyer for its first slot. */
  method Promote(lawyers: seq<Lawyer>)
    requires Roster(lawyers) && Registered(lawyers) && BaseTiers(lawyers)
    modifies lawyers`tier
    ensures TiersGiven(lawyers)
  {
    hide NumbersDistinct, CombosDealt, AcceptingIn;
    AssignTiers(lawyers);
  }

  /** The passes after the draws. */
  method Finish(lawyers: seq<Lawyer>, areas: seq<Area>, caseTypes: seq<string>, rng: Rng)
    requires Roster(lawyers) && Registered(lawyers) && AreasGiven(lawyers, areas) && BaseTiers(lawyers)
    requires forall c :: c in caseTypes ==> Routed(areas, c)
    modifies rng, lawyers`areaIds, lawyers`tier
    ensures GoodPlan(lawyers, areas, caseTypes)
  {
    hide GoodPlan, Registered, AreasGiven, Covered, AreaHeld, Routed, BaseTiers, TiersGiven;
    Repair(lawyers, areas, caseTypes, rng);
    Promote(lawyers);
    AllGood(lawyers, areas, caseTypes);
  }

  /** The passes in order. */
  method Passes(areas: seq<Area>, caseTypes: seq<string>, rng: Rng) returns (lawyers: seq<Lawyer>)
    requires DistinctIds(areas) && areas != []
    requires forall c :: c in caseTypes ==> Routed(areas, c)
    modifies rng
    ensures GoodPlan(lawyers, areas, caseTypes)
  {
    hide GoodPlan, Registered, AreasGiven, Routed, Roster;
    lawyers := BaseLawyers();
    assert BaseTiers(lawyers);
    Draw(lawyers, areas, rng);
    Finish(lawyers, areas, caseTypes, rng);
  }

  /**
   * The plan, from whatever state the generator is in. It is refused exactly when there is no practice
   * area, or a case type no area maps to; otherwise the throw in the pair repair is not reached and the
   * plan is good.
   */
  method Plan(areas: seq<Area>, caseTypes: seq<string>, rng: Rng) returns (r: Outcome)
    requires DistinctIds(areas)
    modifies rng
    ensures r.NoAreas? <==> areas == []
    ensures r.Planned? <==> areas != [] && forall c :: c in caseTypes ==> Routed(areas, c)
    ensures r.Unrouted? ==> forall c :: c in r.caseTypes <==> c in caseTypes && !Routed(areas, c)
    ensures r.Planned? ==> GoodPlan(r.lawyers, areas, caseTypes)
  {
    hide GoodPlan;
    if areas == [] {
      return NoAreas;
    }
    var unrouted := Filter(caseTypes, c => !Routed(areas, c));
    if unrouted != [] {
      assert unrouted[0] in unrouted;
      return Unrouted(unrouted);
    }
    var lawyers := Passes(areas, caseTypes, rng);
    r := Planned(lawyers);
  }

  /** The summary of a planned run never fails its coverage check. */
  method Summarise(lawyers: seq<Lawyer>, areas: seq<Area>, caseTypes: seq<string>) returns (short: seq<Shortfall>)
    requires GoodPlan(lawyers, areas, caseTypes)
    ensures short == []
  {
    short := Shortfalls(lawyers, areas, caseTypes);
  }
}
