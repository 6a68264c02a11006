/** Dealing out regulators, registration numbers and jurisdictions. */
module Registration {
  import opened Options
  import opened Sequences
  import opened Filters
  import opened Mulberry
  import opened Shuffles
  import opened RegistrationNumbers
  import opened SixDigitSupply
  import opened TestLawyers

  // ── The slots dealt out ─────────────────────────────────────────────────────────────────────

  /** `n` copies of one combination. */
  function Copies(c: Combo, n: nat): seq<Combo> { seq(n, _ => c) }

  /** How many of combination `k`'s lawyers are guaranteed to be verified, or are dealt at random. */
  function Quota(k: nat, guaranteed: bool): nat
    requires k < COMBO_COUNT
  {
    if guaranteed then MIN_PER_COMBO else ComboAt(k).count - MIN_PER_COMBO
  }

  /** The slots of the first `k` combinations. */
  function Slots(k: nat, guaranteed: bool): seq<Combo>
    requires k <= COMBO_COUNT
  {
    if k == 0 then [] else Slots(k - 1, guaranteed) + Copies(ComboAt(k - 1), Quota(k - 1, guaranteed))
  }

  lemma {:induction false} SlotsLength(k: nat, guaranteed: bool)
    requires k <= COMBO_COUNT
    ensures guaranteed ==> |Slots(k, true)| == 3 * k
    ensures k == COMBO_COUNT && !guaranteed ==> |Slots(k, false)| == 64
  {
    if guaranteed {
      if k > 0 {
        SlotsLength(k - 1, true);
      }
    } else if k == COMBO_COUNT {
      assert |Slots(3, false)| == 42;
      assert |Slots(6, false)| == 56;
      assert |Slots(9, false)| == 63 by {
        assert |Slots(8, false)| == 56;
      }
    }
  }

  lemma ComboInjective(a: nat, b: nat)
    requires a < COMBO_COUNT && b < COMBO_COUNT && ComboAt(a) == ComboAt(b)
    ensures a == b
  {
  }

  lemma {:induction false} CopiesCount(c: Combo, n: nat, d: Combo)
    ensures multiset(Copies(c, n))[d] == if c == d then n else 0
  {
    if n == 0 {
      assert Copies(c, 0) == [];
    } else {
      CopiesCount(c, n - 1, d);
      assert Copies(c, n) == Copies(c, n - 1) + [c];
    }
  }

  lemma CopiesAdded(before: seq<Combo>, c: Combo, n: nat, d: Combo)
    ensures multiset(before + Copies(c, n))[d] == multiset(before)[d] + if c == d then n else 0
  {
    CopiesCount(c, n, d);
    hide *;
    assert multiset(before + Copies(c, n)) == multiset(before) + multiset(Copies(c, n));
  }

  lemma {:induction false} SlotsCount(k: nat, guaranteed: bool, i: nat)
    requires k <= COMBO_COUNT && i < COMBO_COUNT
    ensures multiset(Slots(k, guaranteed))[ComboAt(i)] == if i < k then Quota(i, guaranteed) else 0
  {
    hide ComboAt, Copies;
    if k > 0 {
      SlotsCount(k - 1, guaranteed, i);
      if ComboAt(k - 1) == ComboAt(i) {
        ComboInjective(k - 1, i);
      }
      CopiesAdded(Slots(k - 1, guaranteed), ComboAt(k - 1), Quota(k - 1, guaranteed), ComboAt(i));
    }
  }

  /** Which slots are for jurisdiction `j`. */
  ghost function SlotsIn(slots: seq<Combo>, j: Jurisdiction): set<nat> {
    set i: nat | i < |slots| && j in slots[i].jurisdictions
  }

  function CombosWith(k: nat, j: Jurisdiction): nat
    requires k <= COMBO_COUNT
  {
    if k == 0 then 0 else CombosWith(k - 1, j) + if j in ComboAt(k - 1).jurisdictions then 1 else 0
  }

  lemma ThreeMoreSlots(before: seq<Combo>, c: Combo, j: Jurisdiction)
    ensures |SlotsIn(before + Copies(c, 3), j)| == |SlotsIn(before, j)| + if j in c.jurisdictions then 3 else 0
  {
    assert before + Copies(c, 3) == before + [c] + [c] + [c];
    OneMoreSlot(before, c, j);
    OneMoreSlot(before + [c], c, j);
    OneMoreSlot(before + [c] + [c], c, j);
  }

  lemma OneMoreSlot(before: seq<Combo>, c: Combo, j: Jurisdiction)
    ensures |SlotsIn(before + [c], j)| == |SlotsIn(before, j)| + if j in c.jurisdictions then 1 else 0
  {
    var added: set<nat> := if j in c.jurisdictions then {|before|} else {};
    assert SlotsIn(before + [c], j) == SlotsIn(before, j) + added;
  }

  lemma {:induction false} GuaranteedPerJurisdiction(k: nat, j: Jurisdiction)
    requires k <= COMBO_COUNT
    ensures |SlotsIn(Slots(k, true), j)| == 3 * CombosWith(k, j)
  {
    hide ComboAt;
    if k == 0 {
      assert SlotsIn(Slots(0, true), j) == {};
    } else {
      GuaranteedPerJurisdiction(k - 1, j);
      ThreeMoreSlots(Slots(k - 1, true), ComboAt(k - 1), j);
    }
  }

  /** Every jurisdiction is in eight of the twelve combinations. */
  lemma EightCombosEach(j: Jurisdiction)
    ensures CombosWith(COMBO_COUNT, j) == 8
  {
    assert CombosWith(6, j) == (match j case EW => 5 case SCO => 4 case NI => 2);
  }

  // ── Dealing them out ────────────────────────────────────────────────────────────────────────

  /** What lawyer `l` holds after being dealt combination `c` and number `number`: each field they are
    * missing is left empty. */
  ghost predicate Holds(l: Lawyer, c: Combo, number: string)
    reads l`combo, l`regulator, l`registrationNumber, l`jurisdictions
  {
    && l.combo == Some(c)
    && l.regulator == (if REGULATOR in l.missing then None else Some(c.regulator))
    && l.registrationNumber == (if REGISTRATION_NUMBER in l.missing then None else Some(number))
    && l.jurisdictions == (if QUALIFIED_JURISDICTIONS in l.missing then [] else c.jurisdictions)
  }

  /** How the lawyers were lined up and what was dealt to each: the verified come first, and so do the
    * guaranteed slots. */
  datatype Deal = Deal(order: seq<Lawyer>, combos: seq<Combo>, numbers: seq<string>)

  ghost predicate FairOrder(lawyers: seq<Lawyer>, order: seq<Lawyer>) {
    && Distinct(order) && Elements(order) == Elements(lawyers) && |order| == COUNT
    && forall i :: 0 <= i < VERIFIED_COUNT ==> IsVerified(order[i])
  }

  ghost predicate FairDeal(lawyers: seq<Lawyer>, d: Deal) {
    && FairOrder(lawyers, d.order)
    && |d.combos| == COUNT && Slots(COMBO_COUNT, true) <= d.combos
    && multiset(d.combos) == multiset(Slots(COMBO_COUNT, true)) + multiset(Slots(COMBO_COUNT, false))
    && |d.numbers| == COUNT && Distinct(d.numbers)
    && forall s :: s in d.numbers ==> IsNumber(s, 6)
  }

  ghost predicate DealtTo(d: Deal, k: nat)
    requires k <= |d.order| && k <= |d.combos| && k <= |d.numbers|
    reads d.order`combo, d.order`regulator, d.order`registrationNumber, d.order`jurisdictions
  {
    forall i :: 0 <= i < k ==> Holds(d.order[i], d.combos[i], d.numbers[i])
  }

  lemma VerifiedThenOthers(lawyers: seq<Lawyer>, verified: seq<Lawyer>, others: seq<Lawyer>)
    requires Roster(lawyers) && Distinct(verified) && Distinct(others)
    requires Elements(verified) == Verified(lawyers) && Elements(others) == Elements(lawyers) - Verified(lawyers)
    ensures FairOrder(lawyers, verified + others)
  {
    var order := verified + others;
    SeventyVerified(lawyers);
    DistinctSize(verified);
    DistinctSize(others);
    DistinctSize(lawyers);
    forall i, j | 0 <= i < j < |order|
      ensures order[i] != order[j]
    {
      if i < |verified| <= j {
        assert order[i] in Elements(verified) && order[j] in Elements(others);
      }
    }
    forall i | 0 <= i < VERIFIED_COUNT
      ensures IsVerified(order[i])
    {
      assert order[i] in Elements(verified);
    }
    assert Elements(order) == Elements(verified) + Elements(others);
    assert |Elements(lawyers) - Verified(lawyers)| == COUNT - VERIFIED_COUNT;
  }

  /** The line the draws from `start` make: the first seventy shuffled, then the last thirty shuffled. */
  ghost function LineFrom(lawyers: seq<Lawyer>, start: Word): seq<Lawyer>
    requires |lawyers| == COUNT
  {
    Shuffled(lawyers[..VERIFIED_COUNT], ChoicesFrom(start, VERIFIED_COUNT))
    + Shuffled(lawyers[VERIFIED_COUNT..], ChoicesFrom(After(start, VERIFIED_COUNT - 1), COUNT - VERIFIED_COUNT))
  }

  predicate NotVerified(l: Lawyer) { !IsVerified(l) }

  lemma VerifiedFirst(lawyers: seq<Lawyer>)
    requires Roster(lawyers)
    ensures Filter(lawyers, IsVerified) == lawyers[..VERIFIED_COUNT]
    ensures Filter(lawyers, NotVerified) == lawyers[VERIFIED_COUNT..]
  {
    var first, last := lawyers[..VERIFIED_COUNT], lawyers[VERIFIED_COUNT..];
    assert lawyers == first + last;
    FilterBoth(first, last, IsVerified);
    FilterBoth(first, last, NotVerified);
    FilterAll(first, IsVerified);
    FilterNone(last, IsVerified);
    FilterNone(first, NotVerified);
    FilterAll(last, NotVerified);
  }

  /** The lawyers lined up: the verified, shuffled, then the others, shuffled. */
  method LineUp(lawyers: seq<Lawyer>, rng: Rng) returns (order: seq<Lawyer>)
    requires Roster(lawyers)
    modifies rng
    ensures FairOrder(lawyers, order)
    ensures order == LineFrom(lawyers, old(rng.a)) && rng.a == After(old(rng.a), COUNT - 2)
  {
    hide Shuffled, ChoicesFrom, After;
    var first := Filter(lawyers, IsVerified);
    var second := Filter(lawyers, NotVerified);
    VerifiedFirst(lawyers);
    assert Elements(first) == Verified(lawyers);
    assert Elements(second) == Elements(lawyers) - Verified(lawyers);
    RosterDistinct(lawyers);
    assert Distinct(first) && Distinct(second);
    ghost var start := rng.a;
    var verified := Shuffle(rng, first);
    var others := Shuffle(rng, second);
    AfterAfter(start, VERIFIED_COUNT - 1, COUNT - VERIFIED_COUNT - 1);
    PermutationElements(first, verified);
    PermutationElements(second, others);
    VerifiedThenOthers(lawyers, verified, others);
    order := verified + others;
  }

  lemma DealIsFair(lawyers: seq<Lawyer>, d: Deal, rest: seq<Combo>)
    requires FairOrder(lawyers, d.order) && d.combos == Slots(COMBO_COUNT, true) + rest
    requires multiset(rest) == multiset(Slots(COMBO_COUNT, false))
    requires |d.numbers| == COUNT && Distinct(d.numbers) && forall s :: s in d.numbers ==> IsNumber(s, 6)
    ensures FairDeal(lawyers, d)
  {
    SlotsLength(COMBO_COUNT, true);
    SlotsLength(COMBO_COUNT, false);
    hide Slots, ComboAt;
    assert |multiset(rest)| == |multiset(Slots(COMBO_COUNT, false))|;
  }

  /** The i-th lawyer in line gets the i-th combination and the i-th number. */
  method DealOut(ghost lawyers: seq<Lawyer>, order: seq<Lawyer>, combos: seq<Combo>, numbers: seq<string>)
    requires Distinct(order) && |order| == |combos| == |numbers|
    requires forall l :: l in order ==> l in lawyers
    modifies lawyers`combo, lawyers`regulator, lawyers`registrationNumber, lawyers`jurisdictions
    ensures DealtTo(Deal(order, combos, numbers), |order|)
  {
    for i := 0 to |order|
      invariant DealtTo(Deal(order, combos, numbers), i)
    {
      var l, c := order[i], combos[i];
      assert l in lawyers;
      l.combo := Some(c);
      l.regulator := if REGULATOR in l.missing then None else Some(c.regulator);
      l.registrationNumber := if REGISTRATION_NUMBER in l.missing then None else Some(numbers[i]);
      l.jurisdictions := if QUALIFIED_JURISDICTIONS in l.missing then [] else c.jurisdictions;
    }
  }

  /** The deal the generator's draws from `start` come to: the other slots shuffled, the lawyers lined up, then
    * the numbers, each where it first came up in `drawn` draws. */
  ghost predicate DealtFrom(lawyers: seq<Lawyer>, d: Deal, start: Word, drawn: nat)
    requires |lawyers| == COUNT
  {
    var rest := Slots(COMBO_COUNT, false);
    var lined := After(start, DrawsUsed(|rest|));
    && d.combos == Slots(COMBO_COUNT, true) + Shuffled(rest, ChoicesFrom(start, |rest|))
    && d.order == LineFrom(lawyers, lined)
    && d.numbers == Firsts(Numbers(After(lined, COUNT - 2), drawn, 6))
  }

  /** The registration pass: whoever ends up where, the deal it makes is fair. */
  method AssignRegistration(lawyers: seq<Lawyer>, rng: Rng) returns (ghost d: Deal, ghost drawn: nat)
    requires Roster(lawyers)
    modifies rng, lawyers`combo, lawyers`regulator, lawyers`registrationNumber, lawyers`jurisdictions
    ensures FairDeal(lawyers, d) && DealtTo(d, COUNT)
    ensures DealtFrom(lawyers, d, old(rng.a), drawn)
  {
    hide Slots, ComboAt, Supply, Shuffled, ChoicesFrom, After, Firsts, Numbers, LineFrom, FairOrder;
    var guaranteed := Slots(COMBO_COUNT, true);
    var rest := Shuffle(rng, Slots(COMBO_COUNT, false));
    var order := LineUp(lawyers, rng);
    var combos := guaranteed + rest;
    ghost var supply := SixDigitStates();
    var numbers;
    numbers, drawn := UniqueNumbers(rng, |lawyers|, 6, supply);
    d := Deal(order, combos, numbers);
    DealIsFair(lawyers, d, rest);
    SameLawyers(lawyers, order);
    DealOut(lawyers, order, combos, numbers);
  }

  lemma SameLawyers(lawyers: seq<Lawyer>, order: seq<Lawyer>)
    requires FairOrder(lawyers, order)
    ensures Distinct(order) && |order| == COUNT && forall l :: l in order ==> l in lawyers
  {
    forall l | l in order
      ensures l in lawyers
    {
      assert l in Elements(order) && Elements(order) == Elements(lawyers);
    }
  }

  // ── What every deal guarantees ──────────────────────────────────────────────────────────────


  /** Every lawyer was dealt something. */
  lemma DealtPlace(lawyers: seq<Lawyer>, d: Deal, l: Lawyer) returns (i: nat)
    requires FairDeal(lawyers, d) && DealtTo(d, COUNT) && l in lawyers
    ensures i < COUNT && d.order[i] == l && Holds(l, d.combos[i], d.numbers[i])
  {
    assert l in Elements(d.order);
    i :| 0 <= i < |d.order| && d.order[i] == l;
    assert Holds(d.order[i], d.combos[i], d.numbers[i]);
  }

  ghost function WithCombo(lawyers: seq<Lawyer>, c: Combo): set<Lawyer>
    reads lawyers`combo
  {
    set l | l in lawyers && l.combo == Some(c)
  }

  /** Each combination goes to exactly as many lawyers as its count. */
  lemma EachComboItsCount(lawyers: seq<Lawyer>, d: Deal, k: nat)
    requires Roster(lawyers) && FairDeal(lawyers, d) && DealtTo(d, COUNT) && k < COMBO_COUNT
    ensures |WithCombo(lawyers, ComboAt(k))| == ComboAt(k).count
  {
    SlotsCount(COMBO_COUNT, true, k);
    SlotsCount(COMBO_COUNT, false, k);
    assert multiset(d.combos)[ComboAt(k)] == ComboAt(k).count;
    hide Slots, ComboAt;
    PlacesCount(d.combos, ComboAt(k));
    WhereDealt(lawyers, d, ComboAt(k));
    AtSize(d.order, Places(d.combos, ComboAt(k)));
  }

  lemma WhereDealt(lawyers: seq<Lawyer>, d: Deal, c: Combo)
    requires FairOrder(lawyers, d.order) && |d.combos| == |d.numbers| == COUNT && DealtTo(d, COUNT)
    ensures WithCombo(lawyers, c) == At(d.order, Places(d.combos, c))
  {
    var places := Places(d.combos, c);
    forall l | l in WithCombo(lawyers, c)
      ensures l in At(d.order, places)
    {
      assert l in Elements(d.order);
      var i: nat :| i < |d.order| && d.order[i] == l;
      assert Holds(d.order[i], d.combos[i], d.numbers[i]);
      assert i in places;
    }
    forall i | i in places
      ensures d.order[i] in WithCombo(lawyers, c)
    {
      assert d.order[i] in Elements(d.order);
      assert Holds(d.order[i], d.combos[i], d.numbers[i]);
    }
  }

  /** At least three of them are verified. */
  lemma ThreeVerifiedPerCombo(lawyers: seq<Lawyer>, d: Deal, k: nat)
    requires Roster(lawyers) && FairDeal(lawyers, d) && DealtTo(d, COUNT) && k < COMBO_COUNT
    ensures |set l | l in WithCombo(lawyers, ComboAt(k)) && IsVerified(l)| >= MIN_PER_COMBO
  {
    var guaranteed := Slots(COMBO_COUNT, true);
    SlotsLength(COMBO_COUNT, true);
    var places := Places(guaranteed, ComboAt(k));
    forall l | l in At(d.order, places)
      ensures l in WithCombo(lawyers, ComboAt(k)) && IsVerified(l)
    {
      var i :| i in places && d.order[i] == l;
      assert d.combos[i] == guaranteed[i];
      assert l in Elements(d.order);
      assert Holds(d.order[i], d.combos[i], d.numbers[i]);
    }
    AtSize(d.order, places);
    PlacesCount(guaranteed, ComboAt(k));
    SlotsCount(COMBO_COUNT, true, k);
    SubsetSize(At(d.order, places), set l | l in WithCombo(lawyers, ComboAt(k)) && IsVerified(l));
  }

  ghost function AcceptingIn(lawyers: seq<Lawyer>, j: Jurisdiction): set<Lawyer>
    reads lawyers`jurisdictions
  {
    set l | l in lawyers && IsAccepting(l) && j in l.jurisdictions
  }

  /** The pigeonhole behind coverPairs never running out: 24 guaranteed slots in each jurisdiction, all
    * dealt to verified lawyers, of whom only 12 are not accepting. */
  lemma TwelveAcceptingIn(lawyers: seq<Lawyer>, d: Deal, j: Jurisdiction)
    requires Roster(lawyers) && FairDeal(lawyers, d) && DealtTo(d, COUNT)
    ensures |AcceptingIn(lawyers, j)| >= 12
  {
    var guaranteed := Slots(COMBO_COUNT, true);
    SlotsLength(COMBO_COUNT, true);
    var places := SlotsIn(guaranteed, j);
    GuaranteedPerJurisdiction(COMBO_COUNT, j);
    EightCombosEach(j);
    AtSize(d.order, places);
    TwelveNotAccepting(lawyers);
    var qualified := At(d.order, places);
    forall l | l in qualified - NotAccepting(lawyers)
      ensures l in AcceptingIn(lawyers, j)
    {
      var i :| i in places && d.order[i] == l;
      assert d.combos[i] == guaranteed[i];
      assert l in Elements(d.order);
      assert Holds(d.order[i], d.combos[i], d.numbers[i]);
      VerifiedMissNothing(l);
    }
    SubsetSize(qualified - NotAccepting(lawyers), AcceptingIn(lawyers, j));
  }
}
