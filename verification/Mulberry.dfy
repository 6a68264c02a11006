/** The seeded generator (mulberry32) behind the test-lawyer plan. */
module Mulberry {

  /** 2^32: a draw is `v / RANGE` for some `0 <= v < RANGE`. */
  const RANGE: nat := 0x1_0000_0000

  /** A 32-bit word, read unsigned. */
  type Word = x: nat | x < 0x1_0000_0000

  const INCREMENT: Word := 0x6d2b79f5

  /** The inverse of the increment modulo RANGE: it has one because it is odd. */
  const INVERSE: Word := 0xdc58aa5d

  const WRAPS: nat := 0x5df72c67

  function Advance(a: Word): Word { (a + INCREMENT) % RANGE }

  /** The state after `k` draws. */
  function After(a: Word, k: nat): Word {
    if k == 0 then a else Advance(After(a, k - 1))
  }

  /** The mixing of the advanced state into the draw's numerator. */
  function Mix(a: bv32): bv32 {
    var t := (a ^ (a >> 15)) * (1 | a);
    var u := (t + (t ^ (t >> 7)) * (61 | t)) ^ t;
    u ^ (u >> 14)
  }

  function Bits(a: Word): bv32 { a as bv32 }

  function Unsigned(b: bv32): Word { b as nat }

  function Output(a: Word): Word { Unsigned(Mix(Bits(a))) }

  /** `Math.floor(v / RANGE * n)`. */
  function Scale(v: Word, n: nat): (j: nat)
    requires n > 0
    ensures j < n
    ensures j * RANGE <= v * n < (j + 1) * RANGE
  {
    BelowProduct(v, n);
    BelowQuotient(v * n, n);
    v * n / RANGE
  }

  lemma BelowProduct(v: Word, n: nat)
    requires n > 0
    ensures v * n < RANGE * n
  {
  }

  lemma BelowQuotient(x: nat, n: nat)
    requires x < RANGE * n
    ensures x / RANGE < n
  {
  }

  class Rng {
    var a: Word

    constructor (seed: Word)
      ensures a == seed
    {
      a := seed;
    }

    /** One draw: the numerator of `rng()`, over RANGE. */
    method Next() returns (v: Word)
      modifies this
      ensures a == Advance(old(a)) && v == Output(a)
    {
      a := Advance(a);
      v := Output(a);
    }

    /** `Math.floor(rng() * n)`. */
    method Below(n: nat) returns (j: nat)
      requires n > 0
      modifies this
      ensures j < n
      ensures a == Advance(old(a)) && j == Scale(Output(a), n)
    {
      var v := Next();
      j := Scale(v, n);
    }

    /** `int(rng, min, max)`. */
    method Between(min: nat, max: nat) returns (x: nat)
      requires min <= max
      modifies this
      ensures min <= x <= max
      ensures a == Advance(old(a)) && x == min + Scale(Output(a), max - min + 1)
    {
      var j := Below(max - min + 1);
      x := min + j;
    }
  }

  /** The k-th draw from `start`, counted from 0. */
  ghost function Draw(start: Word, k: nat): Word { Output(After(start, k + 1)) }

  lemma {:induction false} AfterAfter(a: Word, j: nat, k: nat)
    ensures After(After(a, j), k) == After(a, j + k)
  {
    if k > 0 {
      AfterAfter(a, j, k - 1);
    }
  }

  // ── The period ──────────────────────────────────────────────────────────────────────────────

  lemma WholeTurns(x: int, z: int)
    ensures (x + RANGE * z) % RANGE == x % RANGE
  {
  }

  lemma AdvanceSum(y: nat)
    ensures Advance(y % RANGE) == (y + INCREMENT) % RANGE
  {
    WholeTurns(y % RANGE + INCREMENT, y / RANGE);
  }

  lemma {:induction false} AfterIsLinear(a: Word, k: nat)
    ensures After(a, k) == (a + k * INCREMENT) % RANGE
  {
    if k > 0 {
      AfterIsLinear(a, k - 1);
      AdvanceSum(a + (k - 1) * INCREMENT);
      assert k * INCREMENT == (k - 1) * INCREMENT + INCREMENT;
    }
  }

  lemma InverseOfIncrement()
    ensures INCREMENT * INVERSE == WRAPS * RANGE + 1
  {
  }

  /** The state comes back to where it was after `k` draws exactly when 2^32 divides `k`. */
  lemma FullPeriod(a: Word, k: nat)
    ensures After(a, k) == a <==> k % RANGE == 0
  {
    AfterIsLinear(a, k);
    var x := k * INCREMENT;
    if k % RANGE == 0 {
      var z := k / RANGE;
      assert x == RANGE * (z * INCREMENT) by {
        assert k == RANGE * z;
      }
      WholeTurns(a, z * INCREMENT);
    }
    if After(a, k) == a {
      var q := (a + x) / RANGE;
      assert x == RANGE * q;
      InverseOfIncrement();
      assert x * INVERSE == k * (WRAPS * RANGE + 1) by {
        assert k * INCREMENT * INVERSE == k * (INCREMENT * INVERSE);
      }
      assert x * INVERSE == RANGE * (q * INVERSE);
      assert k == RANGE * (q * INVERSE - k * WRAPS);
      WholeTurns(0, q * INVERSE - k * WRAPS);
    }
  }

  /** Every 32-bit state comes up within any 2^32 draws in a row. */
  lemma EveryStateComesUp(a: Word, target: Word) returns (k: nat)
    ensures 0 < k <= RANGE && After(a, k) == target
  {
    var d := if target >= a then target - a else target + RANGE - a;
    var z;
    k, z := DrawsFor(d);
    hide After;
    AfterIsLinear(a, k);
    WholeTurns(a + d, z);
    if k == 0 {
      FullPeriod(a, RANGE);
      k := RANGE;
    }
  }

  /** As many draws as it takes to move the state by `d`. */
  lemma DrawsFor(d: nat) returns (k: nat, z: int)
    ensures k < RANGE && k * INCREMENT == d + RANGE * z
  {
    var p := d * INVERSE / RANGE;
    k := d * INVERSE % RANGE;
    z := d * WRAPS - p * INCREMENT;
    assert k == d * INVERSE - RANGE * p;
    InverseOfIncrement();
    Distributes(d, p);
  }

  lemma Distributes(d: int, p: int)
    requires INCREMENT * INVERSE == WRAPS * RANGE + 1
    ensures (d * INVERSE - RANGE * p) * INCREMENT == d + RANGE * (d * WRAPS - p * INCREMENT)
  {
  }
}
