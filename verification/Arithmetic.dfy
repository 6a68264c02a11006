/** Arithmetic that several modules share. */
module Arithmetic {
  function Max(a: int, b: int): int { if a >= b then a else b }

  function Min(a: int, b: int): int { if a <= b then a else b }

  lemma Distributes(a: nat, b: nat, rate: nat)
    ensures (a + b) * rate == a * rate + b * rate
  {
  }
}
