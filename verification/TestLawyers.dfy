/** Who the hundred test lawyers are: the fixed layout, and what the plan fills in. */
module TestLawyers {
  import opened Options
  import opened Sequences

  datatype Status = VERIFIED | PENDING | REJECTED | UNSUBMITTED
  datatype Availability = ACCEPTING | PAUSED | OFF | CAPACITY
  datatype Tier = STANDARD | PRO | MAX
  datatype Regulator = SRA | LSS | LSNI
  datatype Jurisdiction = EW | SCO | NI
  datatype Field = REGULATOR | REGISTRATION_NUMBER | QUALIFIED_JURISDICTIONS | PRACTICE_AREAS

  const COUNT: nat := 100
  const VERIFIED_COUNT: nat := 70
  const UK_JURISDICTIONS: seq<Jurisdiction> := [EW, SCO, NI]

  function StatusOf(n: nat): Status {
    if n <= 70 then VERIFIED else if n <= 85 then PENDING else if n <= 90 then REJECTED else UNSUBMITTED
  }

  function AvailabilityOf(n: nat): Availability {
    if n <= 58 then ACCEPTING else if n <= 63 then PAUSED else if n <= 67 then OFF else CAPACITY
  }

  function MissingOf(n: nat): set<Field> {
    if n == 91 || n == 92 then {REGULATOR}
    else if n == 93 || n == 94 then {REGISTRATION_NUMBER}
    else if n == 95 || n == 96 then {QUALIFIED_JURISDICTIONS}
    else if n == 97 || n == 98 then {PRACTICE_AREAS}
    else if n == 99 then {REGULATOR, REGISTRATION_NUMBER}
    else if n == 100 then {QUALIFIED_JURISDICTIONS, PRACTICE_AREAS}
    else {}
  }

  predicate IsHeavy(n: nat) { n == 1 || n == 2 || n == 3 }

  predicate IsMaxTier(n: nat) { n == 1 || n == 2 }

  /** A practice area as the plan reads it: `caseArea` is the client case type it maps to. */
  datatype Area = Area(id: string, name: string, caseArea: Option<string>)

  /** A regulator and the jurisdictions it is combined with, and how many lawyers get it. */
  datatype Combo = Combo(regulator: Regulator, jurisdictions: seq<Jurisdiction>, count: nat)

  const COMBO_COUNT: nat := 12
  const MIN_PER_COMBO: nat := 3

  function ComboAt(k: nat): Combo
    requires k < COMBO_COUNT
  {
    match k
    case 0 => Combo(SRA, [EW], 40)
    case 1 => Combo(SRA, [EW, SCO], 6)
    case 2 => Combo(SRA, [EW, NI], 5)
    case 3 => Combo(SRA, [EW, SCO, NI], 4)
    case 4 => Combo(LSS, [SCO], 15)
    case 5 => Combo(LSS, [SCO, EW], 4)
    case 6 => Combo(LSS, [SCO, NI], 3)
    case 7 => Combo(LSS, [SCO, EW, NI], 3)
    case 8 => Combo(LSNI, [NI], 10)
    case 9 => Combo(LSNI, [NI, EW], 4)
    case 10 => Combo(LSNI, [NI, SCO], 3)
    case _ => Combo(LSNI, [NI, EW, SCO], 3)
  }

  class Lawyer {
    const n: nat
    const status: Status
    const missing: set<Field>
    const availability: Option<Availability>
    const heavy: bool
    var tier: Tier
    var areaIds: set<string>
    var regulator: Option<Regulator>
    var registrationNumber: Option<string>
    var jurisdictions: seq<Jurisdiction>
    var combo: Option<Combo>

    constructor (n: nat)
      ensures this.n == n && LaidOut(this)
      ensures tier == (if IsMaxTier(n) then MAX else STANDARD) && areaIds == {}
    {
      this.n := n;
      status := StatusOf(n);
      missing := MissingOf(n);
      availability := if StatusOf(n) == VERIFIED then Some(AvailabilityOf(n)) else None;
      heavy := IsHeavy(n);
      tier := if IsMaxTier(n) then MAX else STANDARD;
      areaIds := {};
      regulator := None;
      registrationNumber := None;
      jurisdictions := [];
      combo := None;
    }
  }

  /** What never changes about a lawyer follows from their number. */
  ghost predicate LaidOut(l: Lawyer) {
    && l.status == StatusOf(l.n)
    && l.missing == MissingOf(l.n)
    && l.availability == (if StatusOf(l.n) == VERIFIED then Some(AvailabilityOf(l.n)) else None)
    && l.heavy == IsHeavy(l.n)
  }

  /** The hundred lawyers in order of number. */
  ghost predicate Roster(ls: seq<Lawyer>) {
    |ls| == COUNT && forall i :: 0 <= i < COUNT ==> ls[i].n == i + 1 && LaidOut(ls[i])
  }

  predicate IsVerified(l: Lawyer) { l.status == VERIFIED }

  predicate IsAccepting(l: Lawyer) { l.availability == Some(ACCEPTING) }

  method BaseLawyers() returns (lawyers: seq<Lawyer>)
    ensures Roster(lawyers) && fresh(lawyers)
    ensures forall l :: l in lawyers ==> l.areaIds == {} && l.tier == (if IsMaxTier(l.n) then MAX else STANDARD)
  {
    lawyers := [];
    for i := 0 to COUNT
      invariant |lawyers| == i && fresh(lawyers)
      invariant forall k :: 0 <= k < i ==> lawyers[k].n == k + 1 && LaidOut(lawyers[k])
      invariant forall l :: l in lawyers ==> l.areaIds == {} && l.tier == (if IsMaxTier(l.n) then MAX else STANDARD)
    {
      var l := new Lawyer(i + 1);
      lawyers := lawyers + [l];
    }
  }

  lemma RosterDistinct(ls: seq<Lawyer>)
    requires Roster(ls)
    ensures Distinct(ls)
  {
  }

  /** A verified lawyer is missing nothing. */
  lemma VerifiedMissNothing(l: Lawyer)
    requires LaidOut(l) && IsVerified(l)
    ensures l.missing == {}
  {
  }

  ghost function Verified(ls: seq<Lawyer>): set<Lawyer> {
    set l | l in ls && IsVerified(l)
  }

  lemma NumberedBetween(ls: seq<Lawyer>, lo: nat, hi: nat)
    requires Roster(ls) && lo <= hi <= COUNT
    ensures |set l | l in ls && lo < l.n <= hi| == hi - lo
  {
    var numbered := set l | l in ls && lo < l.n <= hi;
    assert numbered == At(ls, Interval(lo, hi)) by {
      forall l | l in numbered
        ensures l in At(ls, Interval(lo, hi))
      {
        var i: nat :| i < |ls| && ls[i] == l;
        assert i in Interval(lo, hi);
      }
    }
    AtSize(ls, Interval(lo, hi));
  }

  lemma SeventyVerified(ls: seq<Lawyer>)
    requires Roster(ls)
    ensures |Verified(ls)| == VERIFIED_COUNT
  {
    NumberedBetween(ls, 0, VERIFIED_COUNT);
    assert Verified(ls) == set l | l in ls && 0 < l.n <= VERIFIED_COUNT;
  }

  ghost function NotAccepting(ls: seq<Lawyer>): set<Lawyer> {
    set l | l in ls && IsVerified(l) && !IsAccepting(l)
  }

  /** Only twelve verified lawyers are not accepting requests. */
  lemma TwelveNotAccepting(ls: seq<Lawyer>)
    requires Roster(ls)
    ensures |NotAccepting(ls)| == 12
  {
    NumberedBetween(ls, 58, 70);
    assert NotAccepting(ls) == set l | l in ls && 58 < l.n <= 70;
  }

  ghost function WithStatus(ls: seq<Lawyer>, status: Status): set<Lawyer> { set l | l in ls && l.status == status }

  ghost function WithAvailability(ls: seq<Lawyer>, a: Availability): set<Lawyer> {
    set l | l in ls && l.availability == Some(a)
  }

  ghost function Missing(ls: seq<Lawyer>, field: Field): set<Lawyer> { set l | l in ls && field in l.missing }

  /** How many there are of each kind. */
  lemma LayoutCounts(ls: seq<Lawyer>)
    requires Roster(ls)
    ensures |WithStatus(ls, PENDING)| == 15 && |WithStatus(ls, REJECTED)| == 5 && |WithStatus(ls, UNSUBMITTED)| == 10
    ensures |WithAvailability(ls, ACCEPTING)| == 58 && |WithAvailability(ls, PAUSED)| == 5
    ensures |WithAvailability(ls, OFF)| == 4 && |WithAvailability(ls, CAPACITY)| == 3
    ensures |set l | l in ls && l.heavy| == 3 && |set l | l in ls && IsMaxTier(l.n)| == 2
    ensures forall l :: l in ls && IsMaxTier(l.n) ==> l.heavy
    ensures forall l :: l in ls && l.heavy ==> IsVerified(l) && IsAccepting(l)
  {
    StatusCounts(ls);
    AvailabilityCounts(ls);
    hide WithStatus, WithAvailability;
    NumberedBetween(ls, 0, 3);
    NumberedBetween(ls, 0, 2);
    assert (set l | l in ls && l.heavy) == set l | l in ls && 0 < l.n <= 3;
    assert (set l | l in ls && IsMaxTier(l.n)) == set l | l in ls && 0 < l.n <= 2;
  }

  lemma StatusCounts(ls: seq<Lawyer>)
    requires Roster(ls)
    ensures |WithStatus(ls, PENDING)| == 15 && |WithStatus(ls, REJECTED)| == 5 && |WithStatus(ls, UNSUBMITTED)| == 10
  {
    NumberedBetween(ls, 70, 85);
    NumberedBetween(ls, 85, 90);
    NumberedBetween(ls, 90, 100);
    assert WithStatus(ls, PENDING) == set l | l in ls && 70 < l.n <= 85;
    assert WithStatus(ls, REJECTED) == set l | l in ls && 85 < l.n <= 90;
    assert WithStatus(ls, UNSUBMITTED) == set l | l in ls && 90 < l.n <= 100;
  }

  lemma AvailabilityCounts(ls: seq<Lawyer>)
    requires Roster(ls)
    ensures |WithAvailability(ls, ACCEPTING)| == 58 && |WithAvailability(ls, PAUSED)| == 5
    ensures |WithAvailability(ls, OFF)| == 4 && |WithAvailability(ls, CAPACITY)| == 3
  {
    NumberedBetween(ls, 0, 58);
    NumberedBetween(ls, 58, 63);
    NumberedBetween(ls, 63, 67);
    NumberedBetween(ls, 67, 70);
    assert WithAvailability(ls, ACCEPTING) == set l | l in ls && 0 < l.n <= 58;
    assert WithAvailability(ls, PAUSED) == set l | l in ls && 58 < l.n <= 63;
    assert WithAvailability(ls, OFF) == set l | l in ls && 63 < l.n <= 67;
    assert WithAvailability(ls, CAPACITY) == set l | l in ls && 67 < l.n <= 70;
  }

  /** Each field is missing from three lawyers, all of whom have not submitted. */
  lemma ThreeMissEach(ls: seq<Lawyer>, field: Field)
    requires Roster(ls)
    ensures |Missing(ls, field)| == 3 && Missing(ls, field) <= WithStatus(ls, UNSUBMITTED)
  {
    match field {
      case REGULATOR => assert Missing(ls, field) == {ls[90], ls[91], ls[98]};
      case REGISTRATION_NUMBER => assert Missing(ls, field) == {ls[92], ls[93], ls[98]};
      case QUALIFIED_JURISDICTIONS => assert Missing(ls, field) == {ls[94], ls[95], ls[99]};
      case PRACTICE_AREAS => assert Missing(ls, field) == {ls[96], ls[97], ls[99]};
    }
  }
}
