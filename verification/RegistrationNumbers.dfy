/** Drawing distinct registration numbers from the seeded generator. */
module RegistrationNumbers {
  import opened Mulberry
  import opened Sequences

  function Pow10(n: nat): (p: nat)
    ensures p > 0
  {
    if n == 0 then 1 else 10 * Pow10(n - 1)
  }

  /** JavaScript's `String(n)` of a non-negative integer. */
  function Decimal(n: nat): string {
    if n < 10 then [Digit(n)] else Decimal(n / 10) + [Digit(n % 10)]
  }

  function Digit(d: nat): char
    requires d < 10
  {
    '0' + d as char
  }

  ghost predicate IsNumber(s: string, digits: nat) {
    |s| == digits && forall i :: 0 <= i < |s| ==> '0' <= s[i] <= '9'
  }

  lemma {:induction false} DecimalIsNumber(n: nat, digits: nat)
    requires digits > 0 && n < Pow10(digits) && (digits > 1 ==> Pow10(digits - 1) <= n)
    ensures IsNumber(Decimal(n), digits)
  {
    if digits == 1 {
      assert Pow10(1) == 10 * Pow10(0);
    } else {
      assert Pow10(digits - 1) == 10 * Pow10(digits - 2);
      DecimalIsNumber(n / 10, digits - 1);
    }
  }

  lemma {:induction false} DecimalInjective(m: nat, n: nat)
    requires Decimal(m) == Decimal(n)
    ensures m == n
  {
    var s := Decimal(m);
    if m >= 10 && n >= 10 {
      assert s[..|s| - 1] == Decimal(m / 10) == Decimal(n / 10);
      assert s[|s| - 1] == Digit(m % 10) == Digit(n % 10);
      DecimalInjective(m / 10, n / 10);
    } else {
      DecimalNotEmpty(m / 10);
      DecimalNotEmpty(n / 10);
    }
  }

  lemma DecimalNotEmpty(n: nat)
    ensures Decimal(n) != ""
  {
  }

  /** `int(rng, 10 ** (digits - 1), 10 ** digits - 1)` from the advanced state `a`. */
  function Candidate(a: Word, digits: nat): (x: nat)
    requires digits > 0
    ensures Pow10(digits - 1) <= x < Pow10(digits)
  {
    Pow10(digits - 1) + Scale(Output(a), Pow10(digits) - Pow10(digits - 1))
  }

  /** States whose numbers are pairwise different: the generator can yield this many. */
  ghost predicate Supply(states: seq<Word>, digits: nat)
    requires digits > 0
  {
    forall i, j :: 0 <= i < j < |states| ==> Candidate(states[i], digits) != Candidate(states[j], digits)
  }

  /** The number drawn from the advanced state `a`, as a string. */
  function Number(a: Word, digits: nat): string
    requires digits > 0
  {
    Decimal(Candidate(a, digits))
  }

  /** The first `k` numbers drawn from `start`. */
  ghost function Numbers(start: Word, k: nat, digits: nat): (r: seq<string>)
    requires digits > 0
    ensures |r| == k
  {
    if k == 0 then [] else Numbers(start, k - 1, digits) + [Number(After(start, k), digits)]
  }

  lemma {:induction false} NumbersAt(start: Word, k: nat, digits: nat, m: nat)
    requires digits > 0 && 0 < m <= k
    ensures Numbers(start, k, digits)[m - 1] == Number(After(start, m), digits)
  {
    hide Number;
    if m < k {
      NumbersAt(start, k - 1, digits, m);
    }
  }

  /** The numbers of a supply: all different, all of that many digits. */
  lemma DistinctNumbers(supply: seq<Word>, digits: nat) returns (names: seq<string>)
    requires digits > 0 && Supply(supply, digits)
    ensures |names| == |supply| && Distinct(names) && forall s :: s in names ==> IsNumber(s, digits)
    ensures forall i :: 0 <= i < |names| ==> names[i] == Number(supply[i], digits)
  {
    hide Candidate, Decimal, IsNumber;
    names := seq(|supply|, i requires 0 <= i < |supply| => Number(supply[i], digits));
    forall i, j | 0 <= i < j < |names|
      ensures names[i] != names[j]
    {
      if names[i] == names[j] {
        DecimalInjective(Candidate(supply[i], digits), Candidate(supply[j], digits));
      }
    }
    forall i | 0 <= i < |names|
      ensures IsNumber(names[i], digits)
    {
      DecimalIsNumber(Candidate(supply[i], digits), digits);
    }
  }

  /** With a whole period drawn, every number of a supply has come up. */
  lemma PeriodDrainsSupply(start: Word, seen: seq<string>, supply: seq<Word>, digits: nat)
    requires digits > 0 && Supply(supply, digits) && Distinct(seen)
    requires forall s :: s in Numbers(start, RANGE, digits) ==> s in seen
    ensures |seen| >= |supply|
  {
    var names := DistinctNumbers(supply, digits);
    forall i | 0 <= i < |names|
      ensures names[i] in seen
    {
      var m := EveryStateComesUp(start, supply[i]);
      NumbersAt(start, RANGE, digits, m);
    }
    DistinctSize(names);
    DistinctSize(seen);
    SubsetSize(Elements(names), Elements(seen));
  }

  method DrawNumber(rng: Rng, digits: nat) returns (s: string)
    requires digits > 0
    modifies rng
    ensures rng.a == Advance(old(rng.a)) && s == Number(rng.a, digits)
    ensures IsNumber(s, digits)
  {
    hide Scale, Output, Decimal, IsNumber;
    var n := rng.Between(Pow10(digits - 1), Pow10(digits) - 1);
    DecimalIsNumber(n, digits);
    s := Decimal(n);
  }

  /** Each number where it first came up. */
  ghost function Firsts(numbers: seq<string>): (r: seq<string>)
    ensures Distinct(r) && forall s :: s in r <==> s in numbers
  {
    if numbers == [] then []
    else
      var r, last := Firsts(numbers[..|numbers| - 1]), numbers[|numbers| - 1];
      if last in r then r else r + [last]
  }

  lemma OneMoreNumber(start: Word, k: nat, digits: nat)
    requires digits > 0
    ensures Numbers(start, k + 1, digits)[..k] == Numbers(start, k, digits)
    ensures Numbers(start, k + 1, digits)[k] == Number(After(start, k + 1), digits)
    ensures After(start, k + 1) == Advance(After(start, k))
  {
    hide Number;
  }

  /**
   * Draws until `count` different numbers have come up, and keeps them in that order. It ends because the
   * generator's state runs through its whole period; `supply` witnesses that the numbers are there.
   */
  method UniqueNumbers(rng: Rng, count: nat, digits: nat, ghost supply: seq<Word>)
    returns (numbers: seq<string>, ghost drawn: nat)
    requires digits > 0
    requires |supply| == count && Supply(supply, digits)
    modifies rng
    ensures |numbers| == count && Distinct(numbers)
    ensures forall s :: s in numbers ==> IsNumber(s, digits)
    ensures numbers == Firsts(Numbers(old(rng.a), drawn, digits)) && rng.a == After(old(rng.a), drawn)
    ensures drawn > 0 ==> |Firsts(Numbers(old(rng.a), drawn - 1, digits))| < count
  {
    hide Number, Numbers, Firsts, Advance, IsNumber;
    var seen: seq<string> := [];
    ghost var start := rng.a;
    drawn := 0;
    NoNumberYet(start, digits);
    while |seen| < count
      invariant Distinct(seen) && |seen| <= count
      invariant forall s :: s in seen ==> IsNumber(s, digits)
      invariant drawn <= RANGE && rng.a == After(start, drawn)
      invariant seen == Firsts(Numbers(start, drawn, digits))
      invariant drawn > 0 ==> |Firsts(Numbers(start, drawn - 1, digits))| < count
      decreases RANGE - drawn
    {
      assert drawn < RANGE by {
        if drawn == RANGE {
          PeriodDrainsSupply(start, seen, supply, digits);
        }
      }
      var s := DrawNumber(rng, digits);
      NextFirst(start, drawn, digits);
      drawn := drawn + 1;
      if s !in seen {
        seen := seen + [s];
      }
    }
    numbers := seen;
  }

  lemma NoNumberYet(start: Word, digits: nat)
    requires digits > 0
    ensures Firsts(Numbers(start, 0, digits)) == [] && After(start, 0) == start
  {
  }

  lemma NextFirst(start: Word, k: nat, digits: nat)
    requires digits > 0
    ensures var seen, s := Firsts(Numbers(start, k, digits)), Number(After(start, k + 1), digits);
      Firsts(Numbers(start, k + 1, digits)) == if s in seen then seen else seen + [s]
    ensures After(start, k + 1) == Advance(After(start, k))
  {
    hide Number, Numbers, Advance;
    OneMoreNumber(start, k, digits);
  }
}
