/** Where the rows of a wallet come from: what each of them says was said by a step of the run, and the money is
  * where the row says. */
module WalletHistory {
  import opened Options
  import opened Sequences
  import opened Refunds
  import opened Wallets
  import opened WalletSafety

  // ── Which end does what ─────────────────────────────────────────────────────────────────────

  /** A payout that arrived takes the money out of the wallet for good; one that failed makes it available
    * again. */
  lemma PayoutEnds(b: Books, w: nat, paid: bool)
    requires w < |b.withdrawals| && b.withdrawals[w].status == PROCESSING
    ensures var after, amount := Apply(b, DoSettleWithdrawal(w, paid)), b.withdrawals[w].amount;
      && Balance(after, RESERVED) == Balance(b, RESERVED) - amount
      && Balance(after, WITHDRAWN) == Balance(b, WITHDRAWN) + (if paid then amount else 0)
      && Balance(after, Bucket.AVAILABLE) == Balance(b, Bucket.AVAILABLE) + (if paid then 0 else amount)
      && Balance(after, Bucket.PENDING) == Balance(b, Bucket.PENDING)
      && after.withdrawals[w].status == (if paid then WithdrawalStatus.PAID else WithdrawalStatus.FAILED)
      && after.withdrawals[w].amount == amount
  {
    var after := Apply(b, DoSettleWithdrawal(w, paid));
    MoveBalances(b, after, Some(RESERVED), Some(if paid then WITHDRAWN else Bucket.AVAILABLE),
      b.withdrawals[w].amount, if paid then Key.PAID(w) else Key.FAILED(w));
    hide Balance, Move;
  }

  /** A withdrawal sets what it asks for aside. */
  lemma ReserveSetsAside(b: Books, amount: nat, key: string, min: nat)
    requires !HasKey(b, key)
    ensures var after := Apply(b, DoReserve(amount, key, min));
      if min <= amount <= Balance(b, Bucket.AVAILABLE) then
        && Balance(after, Bucket.AVAILABLE) == Balance(b, Bucket.AVAILABLE) - amount
        && Balance(after, RESERVED) == Balance(b, RESERVED) + amount
        && Balance(after, Bucket.PENDING) == Balance(b, Bucket.PENDING)
        && Balance(after, WITHDRAWN) == Balance(b, WITHDRAWN)
      else after == b
  {
    var after := Apply(b, DoReserve(amount, key, min));
    if min <= amount <= Balance(b, Bucket.AVAILABLE) {
      MoveBalances(b, after, Some(Bucket.AVAILABLE), Some(RESERVED), amount, RESERVE(|b.withdrawals|));
    }
    hide Balance, Move;
  }

  /** The same key asked for again is answered with what it already got, and sets nothing aside. */
  lemma SameKeySameAnswer(b: Books, amount: nat, key: string, min: nat)
    requires HasKey(b, key)
    ensures Attempt(b, DoReserve(amount, key, min)) == Moved(b)
  {
  }

  /** The end of a hold makes available exactly what is left of the earning. */
  lemma ReleaseMakesAvailable(b: Books, i: nat, now: int)
    requires Sound(b) && Has(b, i) && Releasable(b.payments[i], now)
    ensures var after, left := Apply(b, DoRelease(i, now)), Left(b.payments[i]);
      && Balance(after, Bucket.PENDING) == Balance(b, Bucket.PENDING) - left
      && Balance(after, Bucket.AVAILABLE) == Balance(b, Bucket.AVAILABLE) + left
      && Balance(after, RESERVED) == Balance(b, RESERVED) && Balance(after, WITHDRAWN) == Balance(b, WITHDRAWN)
      && Left(after.payments[i]) == left && after.payments[i].earning.value.status == EarningStatus.AVAILABLE
  {
    var after, left := Apply(b, DoRelease(i, now)), Left(b.payments[i]);
    assert PaymentOk(b.payments[i]);
    hide Sound, Balance, Move;
    if left > 0 {
      MoveBalances(b, after, Some(Bucket.PENDING), Some(Bucket.AVAILABLE), left, RELEASE(i));
    } else {
      assert after.ledger == b.ledger;
      SameBalances(b, after);
    }
  }

  lemma SameBalances(b: Books, after: Books)
    requires after.ledger == b.ledger
    ensures forall bucket :: Balance(after, bucket) == Balance(b, bucket)
  {
  }

  /** A refund that went through gives its amount to the client and takes the lawyer's part of it out of the
    * wallet; one that failed gives and takes nothing. */
  lemma RefundEnds(b: Books, i: nat, r: nat, ok: bool)
    requires Sound(b) && Has(b, i) && RefundPending(b.payments[i], r)
    ensures var after, p := Apply(b, DoSettleRefund(i, r, ok)), b.payments[i];
      && after.payments[i].refunds[r].status == (if ok then RefundStatus.SUCCEEDED else RefundStatus.FAILED)
      && after.payments[i].refunded == p.refunded + (if ok then p.refunds[r].amount else 0)
      && (p.lost.None? ==>
            Left(after.payments[i]) == Left(p) - (if ok && p.earning.Some? then p.refunds[r].serviceFee else 0))
      && (!ok ==> after.ledger == b.ledger && after.payments[i].status == p.status)
  {
    var p := b.payments[i];
    PaymentIsOk(b, i);
    hide Sound;
    if ok {
      RefundGivesBack(p, r);
      EarningAfterRefund(p, r);
      if p.earning.Some? {
        LeftAfterReversal(p.earning, p.refunds[r].serviceFee);
      } else {
        NothingReversed(p.refunds[r].serviceFee);
      }
    }
  }

  lemma PaymentIsOk(b: Books, i: nat)
    requires Sound(b) && Has(b, i)
    ensures PaymentOk(b.payments[i])
  {
  }

  lemma LeftAfterReversal(e: Option<Earning>, amount: int)
    requires e.Some?
    ensures Reversed(e, amount).Some? && Reversed(e, amount).value.net == e.value.net
    ensures Reversed(e, amount).value.reversed == e.value.reversed + Reversible(e, amount)
  {
  }

  // ── Rows say what steps said ────────────────────────────────────────────────────────────────

  lemma StepEndsPayout(b: Books, step: Step, w: nat)
    requires w < |Apply(b, step).withdrawals| && Apply(b, step).withdrawals[w].status != PROCESSING
    ensures var status := Apply(b, step).withdrawals[w].status;
      || (w < |b.withdrawals| && b.withdrawals[w].status == status)
      || step == DoSettleWithdrawal(w, status == WithdrawalStatus.PAID)
  {
    hide SumOf, Balance;
  }

  /** A withdrawal reads paid only because a step said so, and failed only because one said that. */
  lemma {:induction false} PayoutEndedAsTold(steps: seq<Step>, w: nat) returns (k: nat)
    requires w < |Reached(steps).withdrawals| && Reached(steps).withdrawals[w].status != PROCESSING
    ensures k < |steps|
    ensures steps[k] == DoSettleWithdrawal(w, Reached(steps).withdrawals[w].status == WithdrawalStatus.PAID)
  {
    var n := |steps| - 1;
    hide Apply;
    StepEndsPayout(Reached(steps[..n]), steps[n], w);
    if steps[n] == DoSettleWithdrawal(w, Reached(steps).withdrawals[w].status == WithdrawalStatus.PAID) {
      k := n;
    } else {
      k := PayoutEndedAsTold(steps[..n], w);
    }
  }

  lemma StepEndsRefund(b: Books, step: Step, i: nat, r: nat)
    requires HasRefund(Apply(b, step), i, r) && RefundAt(Apply(b, step), i, r).status != RefundStatus.PENDING
    ensures var status := RefundAt(Apply(b, step), i, r).status;
      || (HasRefund(b, i, r) && RefundAt(b, i, r).status == status)
      || step == DoSettleRefund(i, r, status == RefundStatus.SUCCEEDED)
  {
    hide SumOf, Balance;
  }

  predicate HasRefund(b: Books, i: nat, r: nat) { Has(b, i) && r < |b.payments[i].refunds| }

  function RefundAt(b: Books, i: nat, r: nat): Refund
    requires HasRefund(b, i, r)
  {
    b.payments[i].refunds[r]
  }

  /** So does a refund. */
  lemma {:induction false} RefundEndedAsTold(steps: seq<Step>, i: nat, r: nat) returns (k: nat)
    requires HasRefund(Reached(steps), i, r) && RefundAt(Reached(steps), i, r).status != RefundStatus.PENDING
    ensures k < |steps|
    ensures steps[k] == DoSettleRefund(i, r, RefundAt(Reached(steps), i, r).status == RefundStatus.SUCCEEDED)
  {
    var n := |steps| - 1;
    hide Apply;
    StepEndsRefund(Reached(steps[..n]), steps[n], i, r);
    if steps[n] == DoSettleRefund(i, r, RefundAt(Reached(steps), i, r).status == RefundStatus.SUCCEEDED) {
      k := n;
    } else {
      k := RefundEndedAsTold(steps[..n], i, r);
    }
  }

  lemma StepCreatesRefund(b: Books, step: Step, i: nat, r: nat)
    requires HasRefund(Apply(b, step), i, r)
    ensures if HasRefund(b, i, r) then RefundAt(b, i, r).amount == RefundAt(Apply(b, step), i, r).amount
            else step == DoStartRefund(i, RefundAt(Apply(b, step), i, r).amount)
  {
    hide SumOf, Balance;
  }

  /** A refund is for what a step asked for. */
  lemma {:induction false} RefundAskedFor(steps: seq<Step>, i: nat, r: nat) returns (k: nat)
    requires HasRefund(Reached(steps), i, r)
    ensures k < |steps| && steps[k] == DoStartRefund(i, RefundAt(Reached(steps), i, r).amount)
  {
    var n := |steps| - 1;
    hide Apply;
    StepCreatesRefund(Reached(steps[..n]), steps[n], i, r);
    if HasRefund(Reached(steps[..n]), i, r) {
      k := RefundAskedFor(steps[..n], i, r);
    } else {
      k := n;
    }
  }

  /** A payment as a step settled it: what it took, how that was split, whether it engaged its request, and how
    * long the earning is held. */
  predicate SettledAs(p: Payment, step: Step) {
    && step.DoPayIn? && p.amount == step.amount && p.serviceFee == step.serviceFee
    && p.platformFee + p.serviceFee == p.amount
    && (p.earning.Some? <==> step.engaged)
    && (p.earning.Some? ==> p.earning.value.net == step.serviceFee && p.earning.value.availableAt == step.availableAt)
  }

  lemma StepSettles(b: Books, step: Step, i: nat)
    requires Has(Apply(b, step), i)
    ensures if Has(b, i) then forall s :: SettledAs(b.payments[i], s) ==> SettledAs(Apply(b, step).payments[i], s)
            else SettledAs(Apply(b, step).payments[i], step)
  {
    hide SumOf, Balance;
  }

  /** Every payment stays as a step settled it. */
  lemma {:induction false} SettledByAStep(steps: seq<Step>, i: nat) returns (k: nat)
    requires Has(Reached(steps), i)
    ensures k < |steps| && SettledAs(Reached(steps).payments[i], steps[k])
  {
    var n := |steps| - 1;
    hide Apply, SettledAs;
    StepSettles(Reached(steps[..n]), steps[n], i);
    if Has(Reached(steps[..n]), i) {
      k := SettledByAStep(steps[..n], i);
    } else {
      k := n;
    }
  }

  lemma StepLoses(b: Books, step: Step, i: nat)
    requires Has(Apply(b, step), i) && Apply(b, step).payments[i].lost.Some?
    ensures (Has(b, i) && b.payments[i].lost.Some?) || step == DoCloseDispute(i, true)
  {
    hide SumOf, Balance;
  }

  /** A payment is taken back only because a step said its dispute was lost. */
  lemma {:induction false} LostAsTold(steps: seq<Step>, i: nat) returns (k: nat)
    requires Has(Reached(steps), i) && Reached(steps).payments[i].lost.Some?
    ensures k < |steps| && steps[k] == DoCloseDispute(i, true)
  {
    var n := |steps| - 1;
    hide Apply;
    StepLoses(Reached(steps[..n]), steps[n], i);
    if steps[n] == DoCloseDispute(i, true) {
      k := n;
    } else {
      k := LostAsTold(steps[..n], i);
    }
  }

  // ── A dispute decided ───────────────────────────────────────────────────────────────────────

  /** Neither the payment nor its earning is disputed. */
  predicate Cleared(b: Books, i: nat) {
    Has(b, i) && b.payments[i].status != DISPUTED
    && (b.payments[i].earning.Some? ==> !b.payments[i].earning.value.disputed)
  }

  lemma StepStaysCleared(b: Books, step: Step, i: nat)
    requires Cleared(b, i) && !IsOpening(step, i)
    ensures Cleared(Apply(b, step), i)
  {
    hide SumOf, Balance;
  }

  lemma {:induction false} StaysCleared(b: Books, i: nat, more: seq<Step>)
    requires Cleared(b, i) && forall step :: step in more ==> !IsOpening(step, i)
    ensures Cleared(Run(b, more), i)
  {
    if more != [] {
      StaysCleared(b, i, more[..|more| - 1]);
      StepStaysCleared(Run(b, more[..|more| - 1]), more[|more| - 1], i);
    }
  }

  /** Once a dispute is decided, and as long as none is opened anew, the earning is released at any time exactly
    * if it still waits for that and its hold is over: nothing of the dispute holds it back. */
  lemma FreedByTheDecision(b: Books, i: nat, lost: bool, more: seq<Step>, now: int)
    requires Sound(b) && Has(b, i) && b.payments[i].status == DISPUTED
    requires forall step :: step in more ==> !IsOpening(step, i)
    ensures var later := Run(Apply(b, DoCloseDispute(i, lost)), more);
      && Has(later, i) && later.payments[i].status != DISPUTED
      && (Attempt(later, DoRelease(i, now)).Moved? <==>
            && later.payments[i].earning.Some? && later.payments[i].earning.value.status == EarningStatus.PENDING
            && later.payments[i].earning.value.availableAt <= now)
  {
    PaymentIsOk(b, i);
    WinningFrees(b.payments[i], now);
    LosingTakesAll(b.payments[i], now);
    assert Cleared(Apply(b, DoCloseDispute(i, lost)), i);
    hide Apply, Sound;
    StaysCleared(Apply(b, DoCloseDispute(i, lost)), i, more);
  }
}
