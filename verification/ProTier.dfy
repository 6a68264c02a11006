/** The Pro tier: five slots, each for the first lawyer who fits, and which of them are sure to be filled. */
module ProTier {
  import opened Options
  import opened Sequences
  import opened Filters
  import opened RegistrationNumbers
  import opened SixDigitSupply
  import opened TestLawyers
  import opened Registration

  const PRO_REGULATORS: seq<Regulator> := [SRA, LSS, LSNI, SRA, LSS]

  predicate ProEligible(l: Lawyer) { IsAccepting(l) && !IsHeavy(l.n) }

  /** Can take a slot for `r`: on the standard tier, of that regulator, with a combination not used yet. */
  predicate FitsSlot(l: Lawyer, r: Regulator, used: set<Option<Combo>>)
    reads l`tier, l`combo, l`regulator
  {
    l.tier == STANDARD && l.combo !in used && l.regulator == Some(r)
  }

  /** In order of number. */
  ghost predicate Numbered(s: seq<Lawyer>) {
    forall i, k :: 0 <= i < k < |s| ==> s[i].n < s[k].n
  }

  lemma {:induction false} EligibleNumbered(s: seq<Lawyer>)
    requires Numbered(s)
    ensures Numbered(Filter(s, ProEligible))
  {
    hide ProEligible;
    if s != [] {
      EligibleNumbered(s[..|s| - 1]);
      assert forall l :: l in s[..|s| - 1] ==> l.n < s[|s| - 1].n;
    }
  }

  /** `eligible.find`: the first that fits. */
  method FindFit(eligible: seq<Lawyer>, r: Regulator, used: set<Option<Combo>>) returns (fit: Option<Lawyer>)
    requires Numbered(eligible)
    ensures fit.Some? ==> fit.value in eligible && FitsSlot(fit.value, r, used)
    ensures forall l :: l in eligible && FitsSlot(l, r, used) ==> fit.Some? && fit.value.n <= l.n
  {
    for i := 0 to |eligible|
      invariant forall k :: 0 <= k < i ==> !FitsSlot(eligible[k], r, used)
    {
      if FitsSlot(eligible[i], r, used) {
        return Some(eligible[i]);
      }
    }
    fit := None;
  }

  /** One slot: the lawyer with the lowest number who fits it goes from standard to Pro, if anybody does. */
  method FillSlot(lawyers: seq<Lawyer>, eligible: seq<Lawyer>, r: Regulator, used: set<Option<Combo>>)
      returns (fit: Option<Lawyer>)
    requires Numbered(eligible) && forall l :: l in eligible <==> l in lawyers && ProEligible(l)
    modifies lawyers`tier
    ensures fit.Some? ==> fit.value in lawyers && ProEligible(fit.value) && fit.value.tier == PRO
    ensures fit.Some? ==> old(FitsSlot(fit.value, r, used))
    ensures forall l :: l in lawyers && ProEligible(l) && old(FitsSlot(l, r, used)) ==> fit.Some? && fit.value.n <= l.n
    ensures forall l :: l in lawyers && fit != Some(l) ==> l.tier == old(l.tier)
  {
    fit := FindFit(eligible, r, used);
    if fit.Some? {
      var l := fit.value;
      assert l in lawyers;
      l.tier := PRO;
    }
  }

  ghost function Given(pros: seq<Option<Lawyer>>): set<Lawyer> {
    set p | p in pros && p.Some? :: p.value
  }

  /** Nobody given one of these slots has the combination. */
  ghost predicate Unused(pros: seq<Option<Lawyer>>, combo: Option<Combo>)
    reads Given(pros)`combo
  {
    forall k :: 0 <= k < |pros| && pros[k].Some? ==> pros[k].value.combo != combo
  }

  lemma UnusedNext(pros: seq<Option<Lawyer>>, fit: Option<Lawyer>, combo: Option<Combo>)
    ensures Unused(pros + [fit], combo) <==> Unused(pros, combo) && (fit.Some? ==> fit.value.combo != combo)
  {
    assert (pros + [fit])[|pros|] == fit;
    assert forall k :: 0 <= k < |pros| ==> (pros + [fit])[k] == pros[k];
  }

  ghost function Standard(lawyers: seq<Lawyer>): set<Lawyer>
    reads lawyers`tier
  {
    set l | l in lawyers && l.tier == STANDARD
  }

  /** Could be given slot `i`, with who was given the slots before it. */
  ghost predicate Wants(l: Lawyer, standard: set<Lawyer>, pros: seq<Option<Lawyer>>, i: nat)
    requires i < |PRO_REGULATORS| && i <= |pros|
    reads l`regulator, l`combo, Given(pros)`combo
  {
    ProEligible(l) && l in standard && l.regulator == Some(PRO_REGULATORS[i]) && Unused(pros[..i], l.combo)
  }

  /** Slot `i` has the lawyer with the lowest number among those who could be given it, if there is any. */
  ghost predicate Filled(lawyers: seq<Lawyer>, standard: set<Lawyer>, pros: seq<Option<Lawyer>>, i: nat)
    requires i < |PRO_REGULATORS| && i < |pros|
    reads lawyers`regulator, lawyers`combo, Given(pros)`combo, Given(pros)`regulator
  {
    && (pros[i].Some? ==> pros[i].value in lawyers && Wants(pros[i].value, standard, pros, i))
    && forall l :: l in lawyers && Wants(l, standard, pros, i) ==> pros[i].Some? && pros[i].value.n <= l.n
  }

  lemma FilledStays(lawyers: seq<Lawyer>, standard: set<Lawyer>, pros: seq<Option<Lawyer>>, i: nat, fit: Option<Lawyer>)
    requires i < |PRO_REGULATORS| && i < |pros| && Filled(lawyers, standard, pros, i)
    ensures Filled(lawyers, standard, pros + [fit], i)
  {
    assert (pros + [fit])[..i] == pros[..i];
  }

  lemma NewlyFilled(lawyers: seq<Lawyer>, standard: set<Lawyer>, pros: seq<Option<Lawyer>>, fit: Option<Lawyer>)
    requires |pros| < |PRO_REGULATORS|
    requires fit.Some? ==> fit.value in lawyers && Wants(fit.value, standard, pros, |pros|)
    requires forall l :: l in lawyers && Wants(l, standard, pros, |pros|) ==> fit.Some? && fit.value.n <= l.n
    ensures Filled(lawyers, standard, pros + [fit], |pros|)
  {
    assert (pros + [fit])[..|pros|] == pros == pros[..|pros|];
  }

  /** The next slot, when the lawyers given one so far are the standard lawyers made Pro. */
  method NextSlot(lawyers: seq<Lawyer>, eligible: seq<Lawyer>, used: set<Option<Combo>>, ghost standard: set<Lawyer>,
      ghost pros: seq<Option<Lawyer>>, i: nat) returns (fit: Option<Lawyer>)
    requires i == |pros| < |PRO_REGULATORS|
    requires Numbered(eligible) && forall l :: l in eligible <==> l in lawyers && ProEligible(l)
    requires Given(pros) <= standard && Standard(lawyers) == standard - Given(pros)
    requires forall combo :: combo !in used <==> Unused(pros, combo)
    modifies lawyers`tier
    ensures fit.Some? ==> fit.value in standard && fit.value !in Given(pros) && Unused(pros, fit.value.combo)
    ensures Filled(lawyers, standard, pros + [fit], i)
    ensures fit.Some? ==> fit.value.tier == PRO
    ensures forall l :: l in lawyers && fit != Some(l) ==> l.tier == old(l.tier)
  {
    hide ProEligible;
    fit := FillSlot(lawyers, eligible, PRO_REGULATORS[i], used);
    assert pros[..i] == pros;
    forall l | l in lawyers && Wants(l, standard, pros, i)
      ensures old(FitsSlot(l, PRO_REGULATORS[i], used))
    {
      assert l !in Given(pros);
      assert l in old(Standard(lawyers));
    }
    assert fit.Some? ==> fit.value in old(Standard(lawyers));
    NewlyFilled(lawyers, standard, pros, fit);
  }

  /**
   * Each slot goes to the accepting lawyer of its regulator with the lowest number who is on the standard tier
   * and whose combination no earlier slot used, and stays empty only when there is none. Nobody else's tier
   * changes.
   */
  method AssignPro(lawyers: seq<Lawyer>) returns (ghost pros: seq<Option<Lawyer>>)
    requires Numbered(lawyers)
    modifies lawyers`tier
    ensures |pros| == |PRO_REGULATORS|
    ensures forall i :: 0 <= i < |pros| ==> Filled(lawyers, old(Standard(lawyers)), pros, i)
    ensures forall l :: l in lawyers ==> l.tier == if l in Given(pros) then PRO else old(l.tier)
    ensures Given(pros) <= old(Standard(lawyers))
  {
    hide ProEligible, Filled, Wants;
    var eligible := Filter(lawyers, ProEligible);
    EligibleNumbered(lawyers);
    var used: set<Option<Combo>> := {};
    ghost var standard := Standard(lawyers);
    pros := [];
    for i := 0 to |PRO_REGULATORS|
      invariant |pros| == i && Given(pros) <= standard
      invariant forall combo :: combo !in used <==> Unused(pros, combo)
      invariant forall k :: 0 <= k < i ==> Filled(lawyers, standard, pros, k)
      invariant forall l :: l in lawyers ==> l.tier == if l in Given(pros) then PRO else old(l.tier)
    {
      var fit := NextSlot(lawyers, eligible, used, standard, pros, i);
      forall k | 0 <= k < i
        ensures Filled(lawyers, standard, pros + [fit], k)
      {
        FilledStays(lawyers, standard, pros, k, fit);
      }
      forall combo
        ensures Unused(pros + [fit], combo) <==> Unused(pros, combo) && (fit.Some? ==> fit.value.combo != combo)
      {
        UnusedNext(pros, fit, combo);
      }
      if fit.Some? {
        used := used + {fit.value.combo};
      }
      ghost var before := pros;
      pros := pros + [fit];
      assert Given(pros) == Given(before) + if fit.Some? then {fit.value} else {};
    }
  }

  // ── What every plan's tiers are ─────────────────────────────────────────────────────────────

  ghost predicate BaseTiers(lawyers: seq<Lawyer>)
    reads lawyers`tier
  {
    forall l :: l in lawyers ==> l.tier == if IsMaxTier(l.n) then MAX else STANDARD
  }

  ghost function Pros(lawyers: seq<Lawyer>): set<Lawyer>
    reads lawyers`tier
  {
    set l | l in lawyers && l.tier == PRO
  }

  /** One to five Pros, one of them with the SRA, all accepting, none heavy, no two with one combination; the
    * Max tier as it was laid out. */
  ghost predicate TiersGiven(lawyers: seq<Lawyer>)
    reads lawyers`tier, lawyers`combo, lawyers`regulator
  {
    && 1 <= |Pros(lawyers)| <= |PRO_REGULATORS|
    && (exists l :: l in Pros(lawyers) && l.regulator == Some(SRA))
    && (forall l :: l in Pros(lawyers) ==> ProEligible(l))
    && (forall l, m :: l in Pros(lawyers) && m in Pros(lawyers) && l != m ==> l.combo != m.combo)
    && (forall l :: l in lawyers ==> (l.tier == MAX <==> IsMaxTier(l.n)))
  }

  /** The accepting lawyers with the SRA who may be made Pro. */
  ghost function SraEligible(lawyers: seq<Lawyer>): set<Lawyer>
    reads lawyers`regulator
  {
    set l | l in lawyers && ProEligible(l) && l.regulator == Some(SRA)
  }

  lemma {:induction false} GivenSize(pros: seq<Option<Lawyer>>)
    ensures |Given(pros)| <= |pros|
  {
    if pros != [] {
      var n := |pros| - 1;
      GivenSize(pros[..n]);
      assert Given(pros) == Given(pros[..n]) + if pros[n].Some? then {pros[n].value} else {};
    }
  }

  lemma GivenApart(lawyers: seq<Lawyer>, standard: set<Lawyer>, pros: seq<Option<Lawyer>>, l: Lawyer, m: Lawyer)
    requires |pros| == |PRO_REGULATORS| && forall i :: 0 <= i < |pros| ==> Filled(lawyers, standard, pros, i)
    requires l in Given(pros) && m in Given(pros) && l != m
    ensures l.combo != m.combo && ProEligible(l)
  {
    var i :| 0 <= i < |pros| && pros[i] == Some(l);
    var k :| 0 <= k < |pros| && pros[k] == Some(m);
    assert Filled(lawyers, standard, pros, i) && Filled(lawyers, standard, pros, k);
    if i < k {
      assert pros[..k][i] == Some(l);
    } else {
      assert pros[..i][k] == Some(m);
    }
  }

  lemma GivenEligible(lawyers: seq<Lawyer>, standard: set<Lawyer>, pros: seq<Option<Lawyer>>, l: Lawyer)
    requires |pros| == |PRO_REGULATORS| && forall i :: 0 <= i < |pros| ==> Filled(lawyers, standard, pros, i)
    requires l in Given(pros)
    ensures l in lawyers && ProEligible(l)
  {
    var i :| 0 <= i < |pros| && pros[i] == Some(l);
    assert Filled(lawyers, standard, pros, i);
  }

  /** The first slot is an SRA one and no combination is used yet, so one eligible SRA lawyer fills it. */
  lemma FirstSlotFilled(lawyers: seq<Lawyer>, standard: set<Lawyer>, pros: seq<Option<Lawyer>>, l: Lawyer)
    requires |pros| == |PRO_REGULATORS| && Filled(lawyers, standard, pros, 0)
    requires l in SraEligible(lawyers) && l in standard
    ensures pros[0].Some? && pros[0].value.regulator == Some(SRA)
  {
    assert Wants(l, standard, pros, 0);
  }

  /** Whoever is regulated has a combination of their regulator. */
  ghost predicate OfTheirCombo(lawyers: seq<Lawyer>)
    reads lawyers`combo, lawyers`regulator
  {
    forall l :: l in lawyers && l.regulator.Some? ==>
      l.combo.Some? && l.combo.value.regulator == l.regulator.value
  }

  lemma DealtOfTheirCombo(lawyers: seq<Lawyer>, d: Deal)
    requires FairDeal(lawyers, d) && DealtTo(d, COUNT)
    ensures OfTheirCombo(lawyers)
  {
    forall l | l in lawyers && l.regulator.Some?
      ensures l.combo.Some? && l.combo.value.regulator == l.regulator.value
    {
      var i := DealtPlace(lawyers, d, l);
    }
  }

  /** Every regulator gets a Pro of its own if anybody of it may be made one: the first three slots are one for
    * each, and no combination is shared between them. */
  lemma EachRegulatorServed(lawyers: seq<Lawyer>, standard: set<Lawyer>, pros: seq<Option<Lawyer>>, reg: Regulator,
      l: Lawyer) returns (i: nat)
    requires |pros| == |PRO_REGULATORS| && forall i :: 0 <= i < |pros| ==> Filled(lawyers, standard, pros, i)
    requires OfTheirCombo(lawyers) && l in lawyers && ProEligible(l) && l in standard && l.regulator == Some(reg)
    ensures i < |pros| && pros[i].Some? && pros[i].value.regulator == Some(reg)
  {
    hide Filled, ProEligible;
    i := match reg case SRA => 0 case LSS => 1 case LSNI => 2;
    forall k | 0 <= k < i && pros[k].Some?
      ensures pros[k].value.combo != l.combo
    {
      FilledBy(lawyers, standard, pros, k);
    }
    assert Wants(l, standard, pros, i);
    WantedIsFilled(lawyers, standard, pros, i, l);
  }

  lemma FilledBy(lawyers: seq<Lawyer>, standard: set<Lawyer>, pros: seq<Option<Lawyer>>, i: nat)
    requires i < |PRO_REGULATORS| && i < |pros| && Filled(lawyers, standard, pros, i) && pros[i].Some?
    ensures pros[i].value in lawyers && pros[i].value.regulator == Some(PRO_REGULATORS[i])
  {
  }

  lemma WantedIsFilled(lawyers: seq<Lawyer>, standard: set<Lawyer>, pros: seq<Option<Lawyer>>, i: nat, l: Lawyer)
    requires i < |PRO_REGULATORS| && i < |pros| && Filled(lawyers, standard, pros, i)
    requires l in lawyers && Wants(l, standard, pros, i)
    ensures pros[i].Some? && pros[i].value.regulator == Some(PRO_REGULATORS[i])
  {
  }

  lemma GivenTiers(lawyers: seq<Lawyer>, standard: set<Lawyer>, pros: seq<Option<Lawyer>>, l: Lawyer)
    requires |pros| == |PRO_REGULATORS| && forall i :: 0 <= i < |pros| ==> Filled(lawyers, standard, pros, i)
    requires l in SraEligible(lawyers) && l in standard
    requires forall x :: x in lawyers ==> (x.tier == PRO <==> x in Given(pros)) && (x.tier == MAX <==> IsMaxTier(x.n))
    ensures TiersGiven(lawyers)
  {
    hide Filled, Wants, ProEligible;
    FirstSlotFilled(lawyers, standard, pros, l);
    forall x | x in Given(pros)
      ensures x in lawyers && ProEligible(x)
      ensures forall y :: y in Given(pros) && x != y ==> x.combo != y.combo
    {
      GivenEligible(lawyers, standard, pros, x);
      forall y | y in Given(pros) && x != y
        ensures x.combo != y.combo
      {
        GivenApart(lawyers, standard, pros, x, y);
      }
    }
    GivenSize(pros);
    assert Pros(lawyers) == Given(pros);
    assert pros[0].value in Given(pros);
  }

  ghost function FirstOf(s: set<Lawyer>): (l: Lawyer)
    requires s != {}
    ensures l in s
  {
    var l :| l in s; l
  }

  /** The pass over the lawyers as laid out, when there is an eligible SRA lawyer. */
  method AssignTiers(lawyers: seq<Lawyer>)
    requires Roster(lawyers) && BaseTiers(lawyers) && SraEligible(lawyers) != {}
    modifies lawyers`tier
    ensures TiersGiven(lawyers)
  {
    ghost var standard, l := Standard(lawyers), FirstOf(SraEligible(lawyers));
    assert l in standard;
    ghost var pros := AssignPro(lawyers);
    hide Filled, Wants, ProEligible, TiersGiven, SraEligible, Numbered;
    GivenTiers(lawyers, standard, pros, l);
  }

  // ── How many each regulator has ─────────────────────────────────────────────────────────────

  /** Slots of combinations `m` up to `k`, after those before `m`, are of one of those. */
  lemma {:induction false} SlotFrom(k: nat, guaranteed: bool, m: nat, i: nat) returns (c: nat)
    requires m <= k <= COMBO_COUNT && i < |Slots(k, guaranteed)|
    requires |Slots(m, guaranteed)| <= i
    ensures m <= c < k && Slots(k, guaranteed)[i] == ComboAt(c)
  {
    hide ComboAt;
    if i < |Slots(k - 1, guaranteed)| {
      c := SlotFrom(k - 1, guaranteed, m, i);
    } else {
      c := k - 1;
    }
  }

  /** The lawyers whose combination is of that regulator. */
  ghost function Under(lawyers: seq<Lawyer>, reg: Regulator): set<Lawyer>
    reads lawyers`combo
  {
    set l | l in lawyers && l.combo.Some? && l.combo.value.regulator == reg
  }

  /** Those of them with one of the first `k` combinations. */
  ghost function UnderFirst(lawyers: seq<Lawyer>, k: nat, reg: Regulator): set<Lawyer>
    requires k <= COMBO_COUNT
    reads lawyers`combo
  {
    if k == 0 then {}
    else UnderFirst(lawyers, k - 1, reg)
         + if ComboAt(k - 1).regulator == reg then WithCombo(lawyers, ComboAt(k - 1)) else {}
  }

  function QuotaUnder(k: nat, reg: Regulator): nat
    requires k <= COMBO_COUNT
  {
    if k == 0 then 0 else QuotaUnder(k - 1, reg) + if ComboAt(k - 1).regulator == reg then ComboAt(k - 1).count else 0
  }

  /** The lawyer has one of the first `k` combinations. */
  ghost predicate HasFirst(l: Lawyer, k: nat)
    requires k <= COMBO_COUNT
    reads l`combo
  {
    exists i :: 0 <= i < k && l.combo == Some(ComboAt(i))
  }

  lemma FirstAgain(l: Lawyer, k: nat)
    requires 0 < k <= COMBO_COUNT
    ensures HasFirst(l, k) <==> HasFirst(l, k - 1) || l.combo == Some(ComboAt(k - 1))
    ensures HasFirst(l, k - 1) ==> l.combo != Some(ComboAt(k - 1))
  {
    hide ComboAt;
    if HasFirst(l, k - 1) {
      var i :| 0 <= i < k - 1 && l.combo == Some(ComboAt(i));
      if ComboAt(i) == ComboAt(k - 1) {
        ComboInjective(i, k - 1);
      }
    }
  }

  lemma {:induction false} UnderFirstMembers(lawyers: seq<Lawyer>, k: nat, reg: Regulator)
    requires k <= COMBO_COUNT
    ensures forall l :: l in UnderFirst(lawyers, k, reg) ==> l in Under(lawyers, reg) && HasFirst(l, k)
  {
    hide ComboAt, HasFirst;
    if k > 0 {
      UnderFirstMembers(lawyers, k - 1, reg);
      forall l | l in lawyers
        ensures HasFirst(l, k) <==> HasFirst(l, k - 1) || l.combo == Some(ComboAt(k - 1))
      {
        FirstAgain(l, k);
      }
    }
  }

  lemma FirstsApart(lawyers: seq<Lawyer>, k: nat, reg: Regulator)
    requires 0 < k <= COMBO_COUNT
    ensures UnderFirst(lawyers, k - 1, reg) !! WithCombo(lawyers, ComboAt(k - 1))
  {
    UnderFirstMembers(lawyers, k - 1, reg);
    hide ComboAt, HasFirst, UnderFirst, Under;
    forall l | l in lawyers
      ensures HasFirst(l, k - 1) ==> l !in WithCombo(lawyers, ComboAt(k - 1))
    {
      FirstAgain(l, k);
    }
  }

  lemma {:induction false} UnderFirstSize(lawyers: seq<Lawyer>, d: Deal, k: nat, reg: Regulator)
    requires Roster(lawyers) && FairDeal(lawyers, d) && DealtTo(d, COUNT) && k <= COMBO_COUNT
    ensures |UnderFirst(lawyers, k, reg)| == QuotaUnder(k, reg)
  {
    hide FairDeal, DealtTo, Roster, ComboAt, WithCombo;
    if k > 0 {
      UnderFirstSize(lawyers, d, k - 1, reg);
      EachComboItsCount(lawyers, d, k - 1);
      FirstsApart(lawyers, k, reg);
      var before, here := UnderFirst(lawyers, k - 1, reg), WithCombo(lawyers, ComboAt(k - 1));
      assert |before + here| == |before| + |here|;
    }
  }

  lemma QuotaTotals()
    ensures QuotaUnder(COMBO_COUNT, SRA) == 55 && QuotaUnder(COMBO_COUNT, LSS) == 25
    ensures QuotaUnder(COMBO_COUNT, LSNI) == 20
  {
    assert QuotaUnder(4, SRA) == 55 && QuotaUnder(4, LSS) == 0 && QuotaUnder(4, LSNI) == 0;
    assert QuotaUnder(8, SRA) == 55 && QuotaUnder(8, LSS) == 25 && QuotaUnder(8, LSNI) == 0;
  }

  lemma NoSlotsYet()
    ensures Slots(0, true) == [] && Slots(0, false) == []
  {
  }

  lemma DealtSlot(lawyers: seq<Lawyer>, d: Deal, l: Lawyer) returns (c: nat)
    requires Roster(lawyers) && FairDeal(lawyers, d) && DealtTo(d, COUNT) && l in lawyers
    ensures c < COMBO_COUNT && l.combo == Some(ComboAt(c))
  {
    hide ComboAt, Roster, Slots;
    NoSlotsYet();
    var i := DealtPlace(lawyers, d, l);
    assert d.combos[i] in multiset(d.combos);
    if d.combos[i] in Slots(COMBO_COUNT, true) {
      var k: nat :| k < |Slots(COMBO_COUNT, true)| && Slots(COMBO_COUNT, true)[k] == d.combos[i];
      c := SlotFrom(COMBO_COUNT, true, 0, k);
    } else {
      assert d.combos[i] in Slots(COMBO_COUNT, false);
      var k: nat :| k < |Slots(COMBO_COUNT, false)| && Slots(COMBO_COUNT, false)[k] == d.combos[i];
      c := SlotFrom(COMBO_COUNT, false, 0, k);
    }
  }

  lemma {:induction false} UnderFirstHas(lawyers: seq<Lawyer>, k: nat, reg: Regulator, c: nat, l: Lawyer)
    requires c < k <= COMBO_COUNT && ComboAt(c).regulator == reg && l in WithCombo(lawyers, ComboAt(c))
    ensures l in UnderFirst(lawyers, k, reg)
  {
    hide ComboAt, WithCombo;
    if c < k - 1 {
      UnderFirstHas(lawyers, k - 1, reg, c, l);
    }
  }

  /** After every deal 55 lawyers have a combination of the SRA, 25 of the LSS and 20 of the LSNI. */
  lemma RegulatorShares(lawyers: seq<Lawyer>, d: Deal, reg: Regulator)
    requires Roster(lawyers) && FairDeal(lawyers, d) && DealtTo(d, COUNT)
    ensures |Under(lawyers, reg)| == match reg case SRA => 55 case LSS => 25 case LSNI => 20
  {
    hide FairDeal, DealtTo, Roster, ComboAt, QuotaUnder, UnderFirst;
    UnderFirstSize(lawyers, d, COMBO_COUNT, reg);
    UnderFirstMembers(lawyers, COMBO_COUNT, reg);
    QuotaTotals();
    forall l | l in Under(lawyers, reg)
      ensures l in UnderFirst(lawyers, COMBO_COUNT, reg)
    {
      var c := DealtSlot(lawyers, d, l);
      UnderFirstHas(lawyers, COMBO_COUNT, reg, c, l);
    }
    assert Under(lawyers, reg) == UnderFirst(lawyers, COMBO_COUNT, reg);
  }

  // ── Who is sure to be there ─────────────────────────────────────────────────────────────────

  lemma Minus(a: set<Lawyer>, b: set<Lawyer>)
    ensures |a - b| >= |a| - |b|
  {
    assert a == (a - b) + (a * b);
    assert |a| == |a - b| + |a * b|;
    SubsetSize(a * b, b);
  }

  lemma ThirtyUnverified(lawyers: seq<Lawyer>)
    requires Roster(lawyers)
    ensures |set l | l in lawyers && !IsVerified(l)| == 30
  {
    NumberedBetween(lawyers, 70, 100);
    assert (set l | l in lawyers && !IsVerified(l)) == set l | l in lawyers && 70 < l.n <= 100;
  }

  /** After every deal at least ten accepting lawyers with the SRA may be made Pro: of 55, at most 30 are not
    * verified, 12 not accepting and 3 heavy. */
  lemma TenSraEligible(lawyers: seq<Lawyer>, d: Deal)
    requires Roster(lawyers) && FairDeal(lawyers, d) && DealtTo(d, COUNT)
    ensures |SraEligible(lawyers)| >= 10
  {
    RegulatorShares(lawyers, d, SRA);
    ThirtyUnverified(lawyers);
    TwelveNotAccepting(lawyers);
    NumberedBetween(lawyers, 0, 3);
    var sra, unverified := Under(lawyers, SRA), set l | l in lawyers && !IsVerified(l);
    var heavy := set l | l in lawyers && 0 < l.n <= 3;
    Minus(sra, unverified);
    Minus(sra - unverified, NotAccepting(lawyers));
    Minus(sra - unverified - NotAccepting(lawyers), heavy);
    var sure := sra - unverified - NotAccepting(lawyers) - heavy;
    forall l | l in sure
      ensures l in SraEligible(lawyers)
    {
      var i := DealtPlace(lawyers, d, l);
      VerifiedMissNothing(l);
    }
    SubsetSize(sure, SraEligible(lawyers));
  }

  // ── Who is not ──────────────────────────────────────────────────────────────────────────────

  lemma {:induction false} SlotsPrefix(k: nat, guaranteed: bool, m: nat)
    requires m <= k <= COMBO_COUNT
    ensures Slots(m, guaranteed) <= Slots(k, guaranteed)
  {
    hide ComboAt;
    if m < k {
      SlotsPrefix(k - 1, guaranteed, m);
    }
  }

  /** The lawyers lined up so that the twelve who are not accepting stand where the guaranteed LSS slots are
    * dealt. */
  ghost function UnluckyLine(ls: seq<Lawyer>): seq<Lawyer>
    requires |ls| == COUNT
  {
    ls[..12] + ls[58..70] + ls[12..58] + ls[70..]
  }

  lemma UnluckyLineIsFair(ls: seq<Lawyer>)
    requires Roster(ls)
    ensures FairOrder(ls, UnluckyLine(ls))
    ensures forall i :: 12 <= i < 24 ==> !IsAccepting(UnluckyLine(ls)[i])
    ensures forall i :: 70 <= i < COUNT ==> !IsAccepting(UnluckyLine(ls)[i])
  {
    hide UnluckyLine, Elements;
    UnluckyLineAt(ls);
    UnluckyElements(ls);
    var order := UnluckyLine(ls);
    forall i, k | 0 <= i < k < COUNT
      ensures order[i] != order[k]
    {
      assert order[i].n == UnluckyFrom(i) + 1 && order[k].n == UnluckyFrom(k) + 1;
    }
  }

  /** Where in the roster place `i` of that line comes from. */
  function UnluckyFrom(i: nat): nat {
    if i < 12 then i else if i < 24 then i + 46 else if i < 70 then i - 12 else i
  }

  lemma UnluckyLineAt(ls: seq<Lawyer>)
    requires |ls| == COUNT
    ensures |UnluckyLine(ls)| == COUNT
    ensures forall i: nat :: i < COUNT ==> UnluckyFrom(i) < COUNT && UnluckyLine(ls)[i] == ls[UnluckyFrom(i)]
  {
  }

  lemma UnluckyElements(ls: seq<Lawyer>)
    requires |ls| == COUNT
    ensures Elements(UnluckyLine(ls)) == Elements(ls)
  {
    var order := UnluckyLine(ls);
    assert Elements(order) == Elements(ls[..12]) + Elements(ls[58..70]) + Elements(ls[12..58]) + Elements(ls[70..]);
    assert ls == ls[..12] + ls[12..58] + ls[58..70] + ls[70..];
    assert Elements(ls) == Elements(ls[..12]) + Elements(ls[12..58]) + Elements(ls[58..70]) + Elements(ls[70..]);
  }

  /** The slots in their own order: guaranteed first. Outside the ten-and-two dealt to the twelve and the last
    * thirty, none is LSS. */
  lemma LssSlotsElsewhere(i: nat)
    requires i < 12 || 24 <= i < 70
    ensures |Slots(COMBO_COUNT, true) + Slots(COMBO_COUNT, false)| == COUNT
    ensures (Slots(COMBO_COUNT, true) + Slots(COMBO_COUNT, false))[i].regulator != LSS
  {
    SlotsLength(COMBO_COUNT, true);
    SlotsLength(COMBO_COUNT, false);
    if i < 12 {
      SlotsLength(4, true);
      SlotsPrefix(COMBO_COUNT, true, 4);
      var c := SlotFrom(4, true, 0, i);
    } else if i < 36 {
      SlotsLength(8, true);
      var c := SlotFrom(COMBO_COUNT, true, 8, i);
    } else {
      SlotsPrefix(COMBO_COUNT, false, 1);
      assert |Slots(1, false)| == 37;
      var c := SlotFrom(1, false, 0, i - 36);
    }
  }

  /** There is a fair deal that leaves no eligible lawyer with the LSS. */
  lemma LssCanStayEmpty(ls: seq<Lawyer>) returns (d: Deal)
    requires Roster(ls)
    ensures FairDeal(ls, d)
    ensures forall i :: 0 <= i < COUNT && ProEligible(d.order[i]) ==> d.combos[i].regulator != LSS
  {
    var supply := SixDigitStates();
    var numbers := DistinctNumbers(supply, 6);
    var rest := Slots(COMBO_COUNT, false);
    d := Deal(UnluckyLine(ls), Slots(COMBO_COUNT, true) + rest, numbers);
    hide Slots, ComboAt, Supply, Number;
    UnluckyLineIsFair(ls);
    DealIsFair(ls, d, rest);
    forall i | 0 <= i < COUNT && ProEligible(d.order[i])
      ensures d.combos[i].regulator != LSS
    {
      LssSlotsElsewhere(i);
    }
  }

  /** After such a deal both LSS slots stay empty. */
  lemma LssSlotsEmpty(ls: seq<Lawyer>, d: Deal, standard: set<Lawyer>, pros: seq<Option<Lawyer>>)
    requires Roster(ls) && FairDeal(ls, d) && DealtTo(d, COUNT)
    requires forall i :: 0 <= i < COUNT && ProEligible(d.order[i]) ==> d.combos[i].regulator != LSS
    requires |pros| == |PRO_REGULATORS| && forall i :: 0 <= i < |pros| ==> Filled(ls, standard, pros, i)
    ensures pros[1].None? && pros[4].None?
  {
    forall i | i == 1 || i == 4
      ensures pros[i].None?
    {
      assert Filled(ls, standard, pros, i);
      if pros[i].Some? {
        var m := DealtPlace(ls, d, pros[i].value);
      }
    }
  }
}
