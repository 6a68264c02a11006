/** One payment that took money, its refunds and disputes, and the lawyer's earning from it. */
module Refunds {
  import opened Arithmetic
  import opened Options
  import opened Sequences

  datatype RefundStatus = PENDING | SUCCEEDED | FAILED
  datatype Refund = Refund(amount: nat, serviceFee: int, platformFee: int, status: RefundStatus)

  datatype EarningStatus = PENDING | AVAILABLE | REVERSED
  datatype Earning = Earning(
    net: nat, reversed: nat, status: EarningStatus, disputed: bool, availableAt: int, releasedAt: Option<int>)

  datatype PaymentStatus = SUCCEEDED | PARTIALLY_REFUNDED | REFUNDED | DISPUTED

  /** `earning` is missing when the money came too late to engage the request. `lost` is history: what had
    * been refunded when the client's bank took the payment back. */
  datatype Payment = Payment(
    status: PaymentStatus, amount: nat, serviceFee: nat, platformFee: nat, refunded: nat,
    refunds: seq<Refund>, earning: Option<Earning>, lost: Option<int>)

  /** Money taken: the lawyer's part is held until `availableAt`, if it engaged the request. */
  function Taken(amount: nat, serviceFee: nat, engaged: bool, availableAt: int): Payment
    requires serviceFee <= amount
  {
    Payment(PaymentStatus.SUCCEEDED, amount, serviceFee, amount - serviceFee, 0, [],
      if engaged then Some(Earning(serviceFee, 0, EarningStatus.PENDING, false, availableAt, None)) else None, None)
  }

  // ── Sums over the refunds ───────────────────────────────────────────────────────────────────

  /** On its way or given back: what a refund holds of the payment. A failed one holds nothing. */
  function LiveAmount(r: Refund): int { if r.status == FAILED then 0 else r.amount }

  function LiveService(r: Refund): int { if r.status == FAILED then 0 else r.serviceFee }

  function LivePlatform(r: Refund): int { if r.status == FAILED then 0 else r.platformFee }

  /** Given back. */
  function DoneAmount(r: Refund): int { if r.status == RefundStatus.SUCCEEDED then r.amount else 0 }

  function DoneService(r: Refund): int { if r.status == RefundStatus.SUCCEEDED then r.serviceFee else 0 }

  function DonePlatform(r: Refund): int { if r.status == RefundStatus.SUCCEEDED then r.platformFee else 0 }

  /** A refund's two parts. */
  ghost predicate SplitOk(r: Refund) {
    r.serviceFee >= 0 && r.platformFee >= 0 && r.amount == r.serviceFee + r.platformFee
  }

  lemma {:induction false} SumsSplit(rs: seq<Refund>)
    requires forall i :: 0 <= i < |rs| ==> SplitOk(rs[i])
    ensures SumOf(rs, LiveAmount) == SumOf(rs, LiveService) + SumOf(rs, LivePlatform)
    ensures SumOf(rs, DoneAmount) == SumOf(rs, DoneService) + SumOf(rs, DonePlatform)
    ensures 0 <= SumOf(rs, DoneService) <= SumOf(rs, LiveService)
      && 0 <= SumOf(rs, DonePlatform) <= SumOf(rs, LivePlatform)
  {
    if rs != [] {
      SumsSplit(rs[..|rs| - 1]);
    }
  }

  // ── Refunding ───────────────────────────────────────────────────────────────────────────────

  /** What no refund has taken yet of the payment, and of the lawyer's part of it. */
  function AmountLeft(p: Payment): int { p.amount - SumOf(p.refunds, LiveAmount) }

  function ServiceLeft(p: Payment): int { p.serviceFee - SumOf(p.refunds, LiveService) }

  /** A new refund: the whole of what is left carries both fees, anything less is the lawyer's alone. */
  function CreateRefund(p: Payment, amount: nat): Option<Payment> {
    var full := amount == AmountLeft(p);
    if amount > AmountLeft(p) || (!full && amount > ServiceLeft(p)) then None
    else
      var serviceFee := if full then ServiceLeft(p) else amount;
      Some(p.(refunds := p.refunds + [Refund(amount, serviceFee, amount - serviceFee, RefundStatus.PENDING)]))
  }

  /** What reversing up to `amount` of the earning takes out of the wallet. */
  function Reversible(e: Option<Earning>, amount: int): nat {
    if e.None? || amount <= 0 || e.value.status == REVERSED || e.value.reversed >= e.value.net then 0
    else Min(amount, e.value.net - e.value.reversed)
  }

  function Reversed(e: Option<Earning>, amount: int): Option<Earning> {
    if Reversible(e, amount) == 0 then e
    else
      var reversed := e.value.reversed + Reversible(e, amount);
      Some(e.value.(reversed := reversed, status := if reversed >= e.value.net then REVERSED else e.value.status))
  }

  predicate RefundPending(p: Payment, r: nat) { r < |p.refunds| && p.refunds[r].status == RefundStatus.PENDING }

  /** The refund could not be made. */
  function RefundFailed(p: Payment, r: nat): Payment
    requires RefundPending(p, r)
  {
    p.(refunds := p.refunds[r := p.refunds[r].(status := FAILED)])
  }

  /** The refund went through: the lawyer's earning is reversed by its part of it. */
  function RefundSucceeded(p: Payment, r: nat): Payment
    requires RefundPending(p, r)
  {
    var refund := p.refunds[r];
    var refunded := p.refunded + refund.amount;
    p.(refunds := p.refunds[r := refund.(status := RefundStatus.SUCCEEDED)], refunded := refunded,
       status :=
         if p.status == DISPUTED then DISPUTED
         else if refunded >= p.amount then REFUNDED else PARTIALLY_REFUNDED,
       earning := Reversed(p.earning, refund.serviceFee))
  }

  // ── Disputes and the hold ───────────────────────────────────────────────────────────────────

  function OpenDispute(p: Payment): Payment {
    p.(status := if p.status == PaymentStatus.SUCCEEDED || p.status == PARTIALLY_REFUNDED then DISPUTED else p.status,
       earning := if p.earning.Some? then Some(p.earning.value.(disputed := true)) else None)
  }

  function Undisputed(e: Option<Earning>): Option<Earning> {
    if e.Some? then Some(e.value.(disputed := false)) else None
  }

  /** Won, or closed without taking money. */
  function DisputeWon(p: Payment): Payment {
    p.(status :=
         if p.refunded >= p.amount then REFUNDED
         else if p.refunded > 0 then PARTIALLY_REFUNDED else PaymentStatus.SUCCEEDED,
       earning := Undisputed(p.earning))
  }

  /** The bank took the payment back: what is left of the earning is reversed. */
  function DisputeLost(p: Payment): Payment {
    p.(status := REFUNDED, refunded := p.amount, lost := Some(SumOf(p.refunds, DoneAmount)),
       earning := Reversed(Undisputed(p.earning), if p.earning.Some? then p.earning.value.net else 0))
  }

  predicate Releasable(p: Payment, now: int) {
    p.earning.Some? && p.earning.value.status == EarningStatus.PENDING && !p.earning.value.disputed
      && p.earning.value.availableAt <= now
  }

  function Released(p: Payment, now: int): Payment
    requires p.earning.Some?
  {
    p.(earning := Some(p.earning.value.(status := AVAILABLE, releasedAt := Some(now))))
  }

  // ── What always holds of a payment ──────────────────────────────────────────────────────────

  ghost predicate RefundsOk(p: Payment) {
    && (forall i :: 0 <= i < |p.refunds| ==>
          && SplitOk(p.refunds[i])
          && (p.refunds[i].platformFee == 0 || p.refunds[i].platformFee == p.platformFee))
    && SumOf(p.refunds, LiveService) <= p.serviceFee
    && SumOf(p.refunds, LivePlatform) <= p.platformFee
  }

  ghost predicate EarningOk(p: Payment) {
    p.earning.Some? ==>
      var e := p.earning.value;
      && e.net == p.serviceFee && e.reversed <= e.net
      && (e.status == REVERSED <==> e.reversed == e.net > 0)
      && (e.status == AVAILABLE ==> e.releasedAt.Some?) && (e.status == EarningStatus.PENDING ==> e.releasedAt.None?)
      && (e.releasedAt.Some? ==> e.availableAt <= e.releasedAt.value)
      && (p.lost.None? ==> e.reversed == SumOf(p.refunds, DoneService))
      && (p.lost.Some? ==> e.reversed == e.net)
  }

  ghost predicate PaymentOk(p: Payment) {
    && p.amount == p.serviceFee + p.platformFee && RefundsOk(p) && EarningOk(p)
    && (p.status == PARTIALLY_REFUNDED ==> p.refunded < p.amount)
    && (p.status == PaymentStatus.SUCCEEDED ==> p.refunded == 0)
    && (p.lost.None? ==>
      p.refunded == SumOf(p.refunds, DoneAmount) && (p.status == REFUNDED ==> p.refunded >= p.amount))
    && (p.lost.Some? ==>
          && p.status == REFUNDED && p.lost.value <= SumOf(p.refunds, DoneAmount)
          && p.refunded == p.amount + SumOf(p.refunds, DoneAmount) - p.lost.value)
  }

  lemma TakenOk(amount: nat, serviceFee: nat, engaged: bool, availableAt: int)
    requires serviceFee <= amount
    ensures PaymentOk(Taken(amount, serviceFee, engaged, availableAt))
  {
  }

  lemma CreateRefundKeeps(p: Payment, amount: nat)
    requires PaymentOk(p) && CreateRefund(p, amount).Some?
    ensures PaymentOk(CreateRefund(p, amount).value)
  {
    hide SumOf;
    var after := CreateRefund(p, amount).value;
    var r := after.refunds[|p.refunds|];
    SumsSplit(p.refunds);
    SumAppend(p.refunds, r, LiveService);
    SumAppend(p.refunds, r, LivePlatform);
    SumAppend(p.refunds, r, DoneService);
    SumAppend(p.refunds, r, DoneAmount);
    PlatformPartIsAllOrNone(p);
  }

  /** The platform's part held by refunds is none of it or all of it. */
  lemma PlatformPartIsAllOrNone(p: Payment)
    requires RefundsOk(p)
    ensures SumOf(p.refunds, LivePlatform) == 0 || SumOf(p.refunds, LivePlatform) == p.platformFee
  {
    NoneOrSome(p.refunds, p.platformFee);
  }

  lemma {:induction false} NoneOrSome(rs: seq<Refund>, fee: nat)
    requires forall i :: 0 <= i < |rs| ==> rs[i].platformFee == 0 || rs[i].platformFee == fee
    ensures SumOf(rs, LivePlatform) == 0 || SumOf(rs, LivePlatform) >= fee
  {
    if rs != [] {
      NoneOrSome(rs[..|rs| - 1], fee);
    }
  }

  /** What is left to refund after one more. */
  lemma LeftAfterRefund(p: Payment, amount: nat)
    requires PaymentOk(p) && CreateRefund(p, amount).Some?
    ensures var after := CreateRefund(p, amount).value;
      && AmountLeft(after) == AmountLeft(p) - amount
      && ServiceLeft(after) == if amount == AmountLeft(p) then 0 else ServiceLeft(p) - amount
  {
    var r := CreateRefund(p, amount).value.refunds[|p.refunds|];
    SumAppend(p.refunds, r, LiveAmount);
    SumAppend(p.refunds, r, LiveService);
  }

  lemma LeftInBounds(p: Payment)
    requires PaymentOk(p)
    ensures 0 <= ServiceLeft(p) <= AmountLeft(p)
  {
    SumsSplit(p.refunds);
  }

  /** Refunds asked for one after another; refused once one of them is. */
  function CreateRefunds(p: Payment, amounts: seq<nat>): Option<Payment> {
    if amounts == [] then Some(p)
    else
      var before := CreateRefunds(p, amounts[..|amounts| - 1]);
      if before.None? then None else CreateRefund(before.value, amounts[|amounts| - 1])
  }

  /** The total before the last of them that asks for anything. */
  function UpToLast(amounts: seq<nat>): nat {
    if amounts == [] then 0
    else if amounts[|amounts| - 1] == 0 then UpToLast(amounts[..|amounts| - 1])
    else Total(amounts[..|amounts| - 1])
  }

  /** Any refunds in a row are all accepted exactly when together they fit in what is left of the lawyer's fee,
    * or they take all that is left and the ones before the last fit there: how it is cut up makes no other
    * difference. */
  lemma {:induction false} RefundsInARow(p: Payment, amounts: seq<nat>)
    requires PaymentOk(p)
    ensures CreateRefunds(p, amounts).Some? <==>
      Total(amounts) <= ServiceLeft(p) || (Total(amounts) == AmountLeft(p) && UpToLast(amounts) <= ServiceLeft(p))
    ensures CreateRefunds(p, amounts).Some? ==> var after := CreateRefunds(p, amounts).value;
      && PaymentOk(after) && AmountLeft(after) == AmountLeft(p) - Total(amounts)
      && ServiceLeft(after) == if Total(amounts) == AmountLeft(p) then 0 else ServiceLeft(p) - Total(amounts)
  {
    hide PaymentOk, AmountLeft, ServiceLeft;
    LeftInBounds(p);
    if amounts != [] {
      var rest, last := amounts[..|amounts| - 1], amounts[|amounts| - 1];
      RefundsInARow(p, rest);
      if CreateRefunds(p, amounts).Some? {
        LeftAfterRefund(CreateRefunds(p, rest).value, last);
        CreateRefundKeeps(CreateRefunds(p, rest).value, last);
      }
    }
  }

  lemma RefundFailedKeeps(p: Payment, r: nat)
    requires PaymentOk(p) && RefundPending(p, r)
    ensures PaymentOk(RefundFailed(p, r))
    ensures SumOf(RefundFailed(p, r).refunds, LiveAmount) == SumOf(p.refunds, LiveAmount) - p.refunds[r].amount
    ensures SumOf(RefundFailed(p, r).refunds, LivePlatform) == SumOf(p.refunds, LivePlatform) - p.refunds[r].platformFee
  {
    hide SumOf;
    var failed := p.refunds[r].(status := FAILED);
    SumUpdate(p.refunds, r, failed, LiveAmount);
    SumUpdate(p.refunds, r, failed, LiveService);
    SumUpdate(p.refunds, r, failed, LivePlatform);
    SumUpdate(p.refunds, r, failed, DoneService);
    SumUpdate(p.refunds, r, failed, DoneAmount);
  }

  /** Marking a refund as gone through. */
  lemma SucceededSums(p: Payment, r: nat)
    requires RefundsOk(p) && RefundPending(p, r)
    ensures var after := RefundSucceeded(p, r).refunds;
      && RefundsOk(RefundSucceeded(p, r))
      && SumOf(after, DoneService) == SumOf(p.refunds, DoneService) + p.refunds[r].serviceFee <= p.serviceFee
      && SumOf(after, DoneAmount) == SumOf(p.refunds, DoneAmount) + p.refunds[r].amount
  {
    hide SumOf;
    var done := p.refunds[r].(status := RefundStatus.SUCCEEDED);
    SumUpdate(p.refunds, r, done, LiveService);
    SumUpdate(p.refunds, r, done, LivePlatform);
    SumUpdate(p.refunds, r, done, DoneService);
    SumUpdate(p.refunds, r, done, DoneAmount);
    SumsSplit(p.refunds[r := done]);
  }

  /** Reversing what is still there of an earning takes exactly that. */
  lemma ReversedOk(e: Earning, amount: int)
    requires e.status == REVERSED <==> e.reversed == e.net > 0
    requires e.reversed <= e.net && amount >= 0 && (e.reversed + amount <= e.net || e.reversed == e.net)
    ensures var n := if e.reversed == e.net then 0 else amount;
      && Reversible(Some(e), amount) == n
      && Reversed(Some(e), amount) == Some(e.(reversed := e.reversed + n,
           status := if e.reversed + n == e.net > 0 then REVERSED else e.status))
  {
  }

  lemma EarningAfterRefund(p: Payment, r: nat)
    requires PaymentOk(p) && RefundPending(p, r)
    ensures EarningOk(RefundSucceeded(p, r))
    ensures p.lost.None? && p.earning.Some? ==>
      Reversible(p.earning, p.refunds[r].serviceFee) == p.refunds[r].serviceFee
  {
    hide RefundsOk, SumOf, SplitOk, Reversible, Reversed;
    SucceededSums(p, r);
    PartOk(p, r);
    if p.earning.Some? {
      ReversedOk(p.earning.value, p.refunds[r].serviceFee);
    } else {
      NothingReversed(p.refunds[r].serviceFee);
    }
  }

  lemma NothingReversed(amount: int)
    ensures Reversed(None, amount) == None
  {
  }

  lemma PartOk(p: Payment, r: nat)
    requires RefundsOk(p) && r < |p.refunds|
    ensures SplitOk(p.refunds[r]) && p.refunds[r].serviceFee >= 0
  {
  }

  lemma RefundSucceededKeeps(p: Payment, r: nat)
    requires PaymentOk(p) && RefundPending(p, r)
    ensures PaymentOk(RefundSucceeded(p, r))
  {
    hide RefundsOk, EarningOk, SumOf, Reversed;
    SucceededSums(p, r);
    EarningAfterRefund(p, r);
    var after := RefundSucceeded(p, r);
    assert after.amount == p.amount && after.serviceFee == p.serviceFee && after.platformFee == p.platformFee;
    assert after.lost == p.lost && after.refunded == p.refunded + p.refunds[r].amount;
  }

  lemma DisputesKeep(p: Payment)
    requires PaymentOk(p)
    ensures PaymentOk(OpenDispute(p))
    ensures p.status == DISPUTED ==> PaymentOk(DisputeWon(p)) && PaymentOk(DisputeLost(p))
  {
    hide *;
    OpeningKeeps(p);
    if p.status == DISPUTED {
      WinningKeeps(p);
      LosingKeeps(p);
    }
  }

  lemma OpeningKeeps(p: Payment)
    requires PaymentOk(p)
    ensures PaymentOk(OpenDispute(p))
  {
  }

  lemma WinningKeeps(p: Payment)
    requires PaymentOk(p) && p.status == DISPUTED
    ensures PaymentOk(DisputeWon(p))
  {
  }

  lemma LosingKeeps(p: Payment)
    requires PaymentOk(p) && p.status == DISPUTED
    ensures PaymentOk(DisputeLost(p))
  {
    SumsSplit(p.refunds);
  }

  /** The status of a payment that is not disputed says how much of it was given back. */
  lemma StatusSaysHowMuch(p: Payment)
    requires PaymentOk(p) && p.amount > 0 && p.status != DISPUTED
    ensures p.status == REFUNDED <==> p.refunded >= p.amount
    ensures 0 < p.refunded < p.amount ==> p.status == PARTIALLY_REFUNDED
    ensures p.status == PaymentStatus.SUCCEEDED ==> p.refunded == 0
  {
    assert p.lost.Some? ==> p.lost.value <= SumOf(p.refunds, DoneAmount);
  }

  /** An opening holds the earning and disputes the payment, unless that was given back whole already. */
  lemma OpeningHolds(p: Payment, now: int)
    requires PaymentOk(p)
    ensures var disputed := OpenDispute(p);
      && !Releasable(disputed, now) && disputed.refunded == p.refunded
      && (disputed.status == DISPUTED <==> p.status != REFUNDED)
      && (p.status == REFUNDED ==> disputed.status == REFUNDED)
  {
  }

  /** Winning gives it all back: the payment stands as its refunds make it, and the earning is released as soon
    * as its hold is over, if it still waits for that. */
  lemma WinningFrees(p: Payment, now: int)
    requires PaymentOk(p) && p.status == DISPUTED
    ensures var won := DisputeWon(p);
      && (Releasable(won, now) <==>
            p.earning.Some? && p.earning.value.status == EarningStatus.PENDING && p.earning.value.availableAt <= now)
      && (won.status == REFUNDED <==> p.refunded >= p.amount)
      && (won.status == PaymentStatus.SUCCEEDED <==> p.refunded == 0 < p.amount)
      && won.status != DISPUTED && won.refunded == p.refunded && won.refunds == p.refunds && won.lost == p.lost
  {
  }

  /** Losing gives the client everything and leaves the lawyer nothing. */
  lemma LosingTakesAll(p: Payment, now: int)
    requires PaymentOk(p) && p.status == DISPUTED
    ensures var lost := DisputeLost(p);
      && lost.status == REFUNDED && lost.refunded == p.amount && lost.lost.Some? && lost.refunds == p.refunds
      && (lost.earning.Some? ==> lost.earning.value.reversed == p.serviceFee && !lost.earning.value.disputed)
      && (p.serviceFee > 0 ==> !Releasable(lost, now))
  {
    DisputesKeep(p);
  }

  /** A refund going through gives its amount back, and ends the payment in REFUNDED once all of it is back. */
  lemma RefundGivesBack(p: Payment, r: nat)
    requires PaymentOk(p) && RefundPending(p, r)
    ensures var after := RefundSucceeded(p, r);
      && after.refunded == p.refunded + p.refunds[r].amount
      && (p.status == DISPUTED ==> after.status == DISPUTED)
      && (p.status != DISPUTED && p.amount > 0 ==>
            (after.status == REFUNDED <==> p.refunded + p.refunds[r].amount >= p.amount))
  {
    RefundSucceededKeeps(p, r);
    if p.status != DISPUTED && p.amount > 0 {
      StatusSaysHowMuch(RefundSucceeded(p, r));
    }
  }

  // ── What the money means ────────────────────────────────────────────────────────────────────

  /** With refunds in flight, what is given back or on its way is never more than was paid, nor its parts
    * more than the two fees. */
  lemma NeverMoreThanPaid(p: Payment)
    requires PaymentOk(p)
    ensures SumOf(p.refunds, LiveAmount) <= p.amount
    ensures SumOf(p.refunds, DoneAmount) <= SumOf(p.refunds, LiveAmount)
  {
    SumsSplit(p.refunds);
  }

  /** Unless the bank took it back: what the client got, the lawyer keeps and the platform keeps add up to
    * what was paid. */
  lemma RefundsAddUp(p: Payment)
    requires PaymentOk(p) && p.lost.None? && p.earning.Some?
    ensures p.refunded + (p.earning.value.net - p.earning.value.reversed)
      + (p.platformFee - SumOf(p.refunds, DonePlatform)) == p.amount
    ensures SumOf(p.refunds, DonePlatform) <= p.platformFee
  {
    SumsSplit(p.refunds);
  }

  /** Refunding everything that is left leaves neither fee with anything: the platform fee comes back too.
    * Anything less takes nothing from the platform. */
  lemma WholeRefundTakesBoth(p: Payment, amount: nat)
    requires PaymentOk(p) && CreateRefund(p, amount).Some?
    ensures var after, left := CreateRefund(p, amount).value, p.amount - SumOf(p.refunds, LiveAmount);
      && SumOf(after.refunds, LiveAmount) == SumOf(p.refunds, LiveAmount) + amount
      && (amount == left ==>
            SumOf(after.refunds, LiveService) == p.serviceFee && SumOf(after.refunds, LivePlatform) == p.platformFee)
      && (amount != left ==> SumOf(after.refunds, LivePlatform) == SumOf(p.refunds, LivePlatform))
  {
    var r := CreateRefund(p, amount).value.refunds[|p.refunds|];
    SumsSplit(p.refunds);
    SumAppend(p.refunds, r, LiveAmount);
    SumAppend(p.refunds, r, LiveService);
    SumAppend(p.refunds, r, LivePlatform);
  }

  /** The platform fee is wholly kept, or the payment is wholly given back or on its way. */
  ghost predicate PlatformKeptOrAllBack(p: Payment) {
    SumOf(p.refunds, LivePlatform) == 0 || SumOf(p.refunds, LiveAmount) == p.amount
  }

  lemma CreatingKeepsAllOrNothing(p: Payment, amount: nat)
    requires PaymentOk(p) && CreateRefund(p, amount).Some? && PlatformKeptOrAllBack(p)
    ensures PlatformKeptOrAllBack(CreateRefund(p, amount).value)
  {
    hide SumOf, RefundsOk, EarningOk;
    var r := CreateRefund(p, amount).value.refunds[|p.refunds|];
    NeverMoreThanPaid(p);
    SumAppend(p.refunds, r, LiveAmount);
    SumAppend(p.refunds, r, LivePlatform);
  }

  lemma SucceedingKeepsAllOrNothing(p: Payment, r: nat)
    requires RefundPending(p, r)
    ensures PlatformKeptOrAllBack(RefundSucceeded(p, r)) <==> PlatformKeptOrAllBack(p)
  {
    var done := p.refunds[r].(status := RefundStatus.SUCCEEDED);
    SumUpdate(p.refunds, r, done, LiveAmount);
    SumUpdate(p.refunds, r, done, LivePlatform);
  }

  /** A refund that fails keeps that exactly when it was for nothing, it carried the platform fee itself, or
    * no refund carries it: a partial refund failing after the rest was refunded leaves the platform fee
    * given back on a payment that is not. */
  lemma FailingKeepsAllOrNothingExactly(p: Payment, r: nat)
    requires PaymentOk(p) && RefundPending(p, r) && PlatformKeptOrAllBack(p)
    ensures PlatformKeptOrAllBack(RefundFailed(p, r)) <==>
      p.refunds[r].amount == 0 || p.refunds[r].platformFee > 0 || SumOf(p.refunds, LivePlatform) == 0
  {
    RefundFailedKeeps(p, r);
    NeverMoreThanPaid(p);
    SumsSplit(RefundFailed(p, r).refunds);
  }

  /** It does happen: 40 of 100 on its way, the other 60 with the platform's 15, then the 40 fails. */
  lemma PlatformFeeGivenBackOnAKeptPayment()
    ensures var p := Taken(100, 85, true, 0);
      && CreateRefund(p, 40).Some? && CreateRefund(CreateRefund(p, 40).value, 60).Some?
      && var q := CreateRefund(CreateRefund(p, 40).value, 60).value;
         RefundPending(q, 0) && PlatformKeptOrAllBack(q) && !PlatformKeptOrAllBack(RefundFailed(q, 0))
  {
    var p := Taken(100, 85, true, 0);
    TakenOk(100, 85, true, 0);
    var one := Refund(40, 40, 0, RefundStatus.PENDING);
    SumAppend([], one, LiveAmount);
    SumAppend([], one, LiveService);
    SumAppend([], one, LivePlatform);
    assert [] + [one] == [one];
    var first := CreateRefund(p, 40).value;
    assert first.refunds == [one];
    CreateRefundKeeps(p, 40);
    var two := Refund(60, 45, 15, RefundStatus.PENDING);
    SumAppend([one], two, LiveAmount);
    SumAppend([one], two, LivePlatform);
    var q := CreateRefund(first, 60).value;
    assert q.refunds == [one, two];
    CreateRefundKeeps(first, 60);
    FailingKeepsAllOrNothingExactly(q, 0);
  }

  lemma RefundedWithinPaidExactly(p: Payment)
    requires PaymentOk(p)
    ensures p.refunded <= p.amount <==> p.lost.None? || p.lost.value == SumOf(p.refunds, DoneAmount)
  {
    NeverMoreThanPaid(p);
  }

  /** A refund still on its way on a payment already marked as given back. */
  predicate ComesOnTop(p: Payment, r: nat)
    requires r < |p.refunds|
  {
    p.status == REFUNDED && p.refunds[r].amount > 0
  }

  /** A refund going through keeps the refunded total within what was paid exactly when it does not come on top
    * of a payment marked as given back: that happens when the bank took the payment back meanwhile. */
  lemma SucceedingStaysWithinPaidExactly(p: Payment, r: nat)
    requires PaymentOk(p) && RefundPending(p, r) && p.refunded <= p.amount
    ensures RefundSucceeded(p, r).refunded <= p.amount <==> !ComesOnTop(p, r)
    ensures ComesOnTop(p, r) ==> p.lost.Some?
  {
    var done := p.refunds[r].(status := RefundStatus.SUCCEEDED);
    RefundSucceededKeeps(p, r);
    NeverMoreThanPaid(RefundSucceeded(p, r));
    RefundedWithinPaidExactly(p);
    SumUpdate(p.refunds, r, done, DoneAmount);
  }

  /** It does happen: 40 of 100 on its way when the dispute is lost, and then it goes through. */
  lemma RefundedMoreThanPaid()
    ensures var p := Taken(100, 85, true, 0);
      && CreateRefund(p, 40).Some?
      && var q := DisputeLost(OpenDispute(CreateRefund(p, 40).value));
         RefundPending(q, 0) && q.refunded == 100 && RefundSucceeded(q, 0).refunded == 140
  {
    var p := Taken(100, 85, true, 0);
    var q := DisputeLost(OpenDispute(CreateRefund(p, 40).value));
    assert q.refunds == [Refund(40, 40, 0, RefundStatus.PENDING)];
  }
}
