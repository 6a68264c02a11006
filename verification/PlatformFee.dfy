/** The platform fee deducted from what a lawyer quotes, and the split it makes. Amounts are in minor units. */
module PlatformFee {
  import opened Arithmetic
  import opened Sequences

  /** A share in basis points, at most the whole. An admin may set up to 5000. */
  type Bps = b: nat | b <= 10_000

  /** `bps` of the amount, rounded half-up. */
  function Share(quoted: nat, bps: Bps): nat { (quoted * bps + 5000) / 10_000 }

  function PlatformFeeOf(quoted: int, bps: Bps, minFee: nat): int {
    if quoted <= 0 then 0 else Min(Max(Share(quoted, bps), minFee), quoted)
  }

  /** What the client pays, split between the platform and the lawyer. */
  datatype Terms = Terms(bps: Bps, minFee: nat)
  datatype Priced = Priced(platformFee: nat, serviceFee: nat, total: nat)

  function Price(amount: nat, terms: Terms): (p: Priced)
    ensures p.total == amount && p.platformFee + p.serviceFee == amount
    ensures amount == 0 ==> p.platformFee == 0
  {
    FeeWithin(amount, terms.bps, terms.minFee);
    var fee := PlatformFeeOf(amount, terms.bps, terms.minFee);
    Priced(fee, amount - fee, amount)
  }

  // ── Rounding ────────────────────────────────────────────────────────────────────────────────

  /** Half-up: the rounded share is above the exact one by at most a half, and below it by less. */
  lemma ShareIsNear(quoted: nat, bps: Bps)
    ensures quoted * bps - 5000 < 10_000 * Share(quoted, bps) <= quoted * bps + 5000
  {
    var x := quoted * bps + 5000;
    assert x == 10_000 * (x / 10_000) + x % 10_000;
  }

  lemma BpsOf(quoted: nat, bps: Bps)
    ensures 0 <= quoted * bps <= quoted * 10_000
  {
  }

  lemma ShareWithin(quoted: nat, bps: Bps)
    ensures Share(quoted, bps) <= quoted
  {
    BpsOf(quoted, bps);
    ShareIsNear(quoted, bps);
  }

  /** The fee is never more than the amount, never less than the lower of the minimum and the amount,
    * and away from both clamps it is the rounded share. */
  lemma FeeWithin(quoted: int, bps: Bps, minFee: nat)
    ensures 0 <= PlatformFeeOf(quoted, bps, minFee) <= Max(quoted, 0)
    ensures quoted >= 0 ==> PlatformFeeOf(quoted, bps, minFee) >= Max(Share(quoted, bps), Min(minFee, quoted))
    ensures minFee < PlatformFeeOf(quoted, bps, minFee) < quoted ==>
      -5000 < 10_000 * PlatformFeeOf(quoted, bps, minFee) - quoted * bps <= 5000
  {
    if quoted >= 0 {
      ShareWithin(quoted, bps);
      ShareIsNear(quoted, bps);
    }
  }

  // ── Monotone both ways ──────────────────────────────────────────────────────────────────────

  lemma ShareGrows(less: nat, more: nat, bps: Bps)
    requires less <= more
    ensures 0 <= Share(more, bps) - Share(less, bps) <= more - less
  {
    var d := more - less;
    BpsOf(d, bps);
    assert more * bps == less * bps + d * bps;
    Shifted(less * bps + 5000, d);
  }

  lemma Shifted(x: nat, d: nat)
    ensures (x + 10_000 * d) / 10_000 == x / 10_000 + d
  {
  }

  /** Quoting more never lowers the fee, nor what the lawyer receives. */
  lemma MoreForBoth(less: int, more: int, bps: Bps, minFee: nat)
    requires less <= more
    ensures PlatformFeeOf(less, bps, minFee) <= PlatformFeeOf(more, bps, minFee)
    ensures less - PlatformFeeOf(less, bps, minFee) <= more - PlatformFeeOf(more, bps, minFee)
  {
    FeeWithin(more, bps, minFee);
    if less > 0 {
      ShareGrows(less, more, bps);
    }
  }

  // ── The two parts of a price ────────────────────────────────────────────────────────────────

  /** What a split of `amount` has to meet: the platform takes its share rounded half-up, but no less than the
    * minimum, and never more than there is; the lawyer takes the rest. */
  predicate SplitFor(amount: nat, terms: Terms, platform: int, lawyer: int) {
    && platform + lawyer == amount && lawyer >= 0
    && platform >= Min(terms.minFee, amount)
    && 10_000 * platform > amount * terms.bps - 5000
    && (platform > Min(terms.minFee, amount) ==> 10_000 * platform <= amount * terms.bps + 5000)
  }

  /** The price is the one split that meets it: no other two parts do, the same two swapped included. */
  lemma PriceIsTheSplit(amount: nat, terms: Terms, platform: int, lawyer: int)
    ensures SplitFor(amount, terms, platform, lawyer) <==>
      platform == Price(amount, terms).platformFee && lawyer == Price(amount, terms).serviceFee
  {
    ShareWithin(amount, terms.bps);
    ShareIsNear(amount, terms.bps);
    OneSplit(amount, terms, platform, Share(amount, terms.bps));
  }

  lemma OneSplit(amount: nat, terms: Terms, platform: int, share: nat)
    requires share <= amount
    requires amount * terms.bps - 5000 < 10_000 * share <= amount * terms.bps + 5000
    ensures SplitFor(amount, terms, platform, amount - platform) <==>
      platform == Min(Max(share, terms.minFee), amount)
  {
  }

  /** Quoting more lowers neither part of the price. */
  lemma PriceGrows(less: nat, more: nat, terms: Terms)
    requires less <= more
    ensures Price(less, terms).platformFee <= Price(more, terms).platformFee
    ensures Price(less, terms).serviceFee <= Price(more, terms).serviceFee
  {
    MoreForBoth(less, more, terms.bps, terms.minFee);
  }

  // ── Splitting a quote ───────────────────────────────────────────────────────────────────────

  /** The fees on quotes sent separately. */
  function Fees(parts: seq<nat>, bps: Bps, minFee: nat): int {
    if parts == [] then 0
    else Fees(parts[..|parts| - 1], bps, minFee) + PlatformFeeOf(parts[|parts| - 1], bps, minFee)
  }

  lemma FeeCoversShare(quoted: nat, bps: Bps, minFee: nat)
    ensures 10_000 * PlatformFeeOf(quoted, bps, minFee) >= quoted * bps - 4999
  {
    FeeWithin(quoted, bps, minFee);
    ShareIsNear(quoted, bps);
  }

  lemma {:induction false} FeesCoverShares(parts: seq<nat>, bps: Bps, minFee: nat)
    ensures 10_000 * Fees(parts, bps, minFee) >= Total(parts) * bps - 4999 * |parts|
  {
    hide PlatformFeeOf, Share;
    if parts != [] {
      var rest, last := parts[..|parts| - 1], parts[|parts| - 1];
      FeesCoverShares(rest, bps, minFee);
      FeeCoversShare(last, bps, minFee);
      Distributes(Total(rest), last, bps);
    }
  }

  /** Either one part alone pays the minimum, or every part is taken whole. */
  lemma {:induction false} FeesCoverMinimum(parts: seq<nat>, bps: Bps, minFee: nat)
    ensures Fees(parts, bps, minFee) >= Min(minFee, Total(parts))
  {
    if parts != [] {
      var rest, last := parts[..|parts| - 1], parts[|parts| - 1];
      FeesCoverMinimum(rest, bps, minFee);
      FeeWithin(last, bps, minFee);
      FeesNotNegative(rest, bps, minFee);
    }
  }

  lemma {:induction false} FeesNotNegative(parts: seq<nat>, bps: Bps, minFee: nat)
    ensures Fees(parts, bps, minFee) >= 0
  {
    if parts != [] {
      FeesNotNegative(parts[..|parts| - 1], bps, minFee);
      FeeWithin(parts[|parts| - 1], bps, minFee);
    }
  }

  /** Splitting an amount into n quotes lowers the platform's take by at most n / 2 minor units, through
    * the rounding, the minimum and the cap. */
  lemma SplittingSavesHalfAPennyEach(parts: seq<nat>, bps: Bps, minFee: nat)
    requires parts != []
    ensures PlatformFeeOf(Total(parts), bps, minFee) - Fees(parts, bps, minFee) <= |parts| / 2
  {
    var total := Total(parts);
    FeesCoverMinimum(parts, bps, minFee);
    FeesCoverShares(parts, bps, minFee);
    ShareIsNear(total, bps);
  }

  function Pennies(n: nat): (r: seq<nat>)
    ensures |r| == n
  {
    if n == 0 then [] else Pennies(n - 1) + [1]
  }

  lemma {:induction false} PenniesFree(n: nat)
    ensures Total(Pennies(n)) == n && Fees(Pennies(n), 4999, 0) == 0
  {
    if n > 0 {
      PenniesFree(n - 1);
      assert Pennies(n)[..n - 1] == Pennies(n - 1);
    }
  }

  /** That bound is met: n quotes of a penny each, at a fee an admin may set. */
  lemma SplittingBoundIsMet(n: nat)
    requires 0 < n <= 5000
    ensures PlatformFeeOf(Total(Pennies(n)), 4999, 0) - Fees(Pennies(n), 4999, 0) == n / 2
  {
    PenniesFree(n);
  }
}
