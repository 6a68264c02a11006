/** What every run of a wallet guarantees. */
module WalletSafety {
  import opened Options
  import opened Sequences
  import opened Refunds
  import opened Wallets

  /** The books after any steps, in any order, from an empty wallet. */
  function Reached(steps: seq<Step>): Books { Run(EMPTY, steps) }

  lemma ReachedSound(steps: seq<Step>)
    ensures Sound(Reached(steps))
  {
    RunKeeps(EMPTY, steps);
  }

  // ── Conservation ────────────────────────────────────────────────────────────────────────────

  function Net(p: Payment): int { if p.earning.Some? then p.earning.value.net else 0 }

  function TakenBack(p: Payment): int { if p.earning.Some? then p.earning.value.reversed else 0 }

  lemma {:induction false} HeldAndFree(ps: seq<Payment>)
    requires forall i :: 0 <= i < |ps| ==> PaymentOk(ps[i])
    ensures SumOf(ps, Held) + SumOf(ps, Free) == SumOf(ps, Net) - SumOf(ps, TakenBack)
    ensures SumOf(ps, Held) >= 0 && SumOf(ps, Free) >= 0
  {
    if ps != [] {
      HeldAndFree(ps[..|ps| - 1]);
      assert PaymentOk(ps[|ps| - 1]);
    }
  }

  /** On every run the four balances add up to what was earned less what was reversed. */
  lemma BalancesAddUp(steps: seq<Step>)
    ensures var b := Reached(steps);
      Balance(b, Bucket.PENDING) + Balance(b, Bucket.AVAILABLE) + Balance(b, RESERVED) + Balance(b, WITHDRAWN)
      == SumOf(b.payments, Net) - SumOf(b.payments, TakenBack)
  {
    ReachedSound(steps);
    HeldAndFree(Reached(steps).payments);
  }

  /** Only AVAILABLE can go below zero, and never by more than what has been withdrawn or is on its way:
    * nothing else is ever owed. */
  lemma OwesAtMostWhatLeft(steps: seq<Step>)
    ensures var b := Reached(steps);
      && Balance(b, Bucket.PENDING) >= 0 && Balance(b, RESERVED) >= 0 && Balance(b, WITHDRAWN) >= 0
      && Balance(b, Bucket.AVAILABLE) >= -(Balance(b, RESERVED) + Balance(b, WITHDRAWN))
  {
    ReachedSound(steps);
    var b := Reached(steps);
    HeldAndFree(b.payments);
    SumNotNegative(b.withdrawals, OnItsWay);
    SumNotNegative(b.withdrawals, PaidOut);
  }

  // ── Who can take AVAILABLE below zero ───────────────────────────────────────────────────────

  /** A refund going through, or a dispute lost. */
  predicate IsReversal(step: Step) { (step.DoSettleRefund? && step.ok) || (step.DoCloseDispute? && step.lost) }

  lemma OnlyReservingLowers(b: Books, step: Step)
    requires !IsReversal(step)
    ensures Balance(Apply(b, step), Bucket.AVAILABLE) < Balance(b, Bucket.AVAILABLE) ==>
      step.DoReserve? && Balance(Apply(b, step), Bucket.AVAILABLE) >= 0
  {
    var after := Apply(b, step);
    var bucket := Bucket.AVAILABLE;
    if Attempt(b, step).Moved? {
      match step {
        case DoPayIn(amount, serviceFee, engaged, availableAt) =>
          if engaged {
            MoveBalance(b, after, None, Some(Bucket.PENDING), serviceFee, EARNING(|b.payments|), bucket);
          } else {
            assert after.ledger == b.ledger;
          }
        case DoRelease(i, _) =>
          if Left(b.payments[i]) > 0 {
            MoveBalance(b, after, Some(Bucket.PENDING), Some(bucket), Left(b.payments[i]), RELEASE(i), bucket);
          } else {
            assert after.ledger == b.ledger;
          }
        case DoReserve(amount, key, min) =>
          if !HasKey(b, key) {
            MoveBalance(b, after, Some(bucket), Some(RESERVED), amount, RESERVE(|b.withdrawals|), bucket);
          }
        case DoSettleWithdrawal(w, paid) =>
          MoveBalance(b, after, Some(RESERVED), Some(if paid then WITHDRAWN else bucket), b.withdrawals[w].amount,
            if paid then Key.PAID(w) else Key.FAILED(w), bucket);
        case _ =>
          assert after.ledger == b.ledger;
      }
    }
  }

  /** On every run, if AVAILABLE is below zero after a step that was not a reversal, it already was and the
    * step did not lower it: a withdrawal never takes it there. */
  lemma OnlyReversalsGoBelowZero(steps: seq<Step>, step: Step)
    requires !IsReversal(step) && Balance(Apply(Reached(steps), step), Bucket.AVAILABLE) < 0
    ensures Balance(Reached(steps), Bucket.AVAILABLE) <= Balance(Apply(Reached(steps), step), Bucket.AVAILABLE)
  {
    OnlyReservingLowers(Reached(steps), step);
  }

  lemma Unrolled(steps: seq<Step>, k: nat)
    requires 0 < k <= |steps|
    ensures Reached(steps[..k]) == Apply(Reached(steps[..k - 1]), steps[k - 1])
  {
    assert steps[..k][..k - 1] == steps[..k - 1];
  }

  /** Books with one payment of `amount`, of which `net` is the lawyer's, and nothing refunded. */
  ghost predicate OnePayment(b: Books, amount: nat, net: nat, status: EarningStatus) {
    && net <= amount
    && var releasedAt := if status == EarningStatus.AVAILABLE then Some(0) else None;
       b.payments == [Taken(amount, net, true, 0).(earning := Some(Earning(net, 0, status, false, 0, releasedAt)))]
  }

  lemma PaidIn(amount: nat, net: nat)
    requires net <= amount
    ensures var b := Apply(EMPTY, DoPayIn(amount, net, true, 0));
      OnePayment(b, amount, net, EarningStatus.PENDING) && b.withdrawals == [] && Balance(b, Bucket.AVAILABLE) == 0
  {
    MoveBalance(EMPTY, Apply(EMPTY, DoPayIn(amount, net, true, 0)), None, Some(Bucket.PENDING), net, EARNING(0),
      Bucket.AVAILABLE);
  }

  lemma ReleasedIn(b: Books, amount: nat, net: nat)
    requires OnePayment(b, amount, net, EarningStatus.PENDING) && net > 0
    ensures var c := Apply(b, DoRelease(0, 0));
      && OnePayment(c, amount, net, EarningStatus.AVAILABLE) && c.withdrawals == b.withdrawals
      && Balance(c, Bucket.AVAILABLE) == Balance(b, Bucket.AVAILABLE) + net
  {
    MoveBalance(b, Apply(b, DoRelease(0, 0)), Some(Bucket.PENDING), Some(Bucket.AVAILABLE), net, RELEASE(0),
      Bucket.AVAILABLE);
  }

  lemma WithdrawnIn(b: Books, amount: nat, key: string)
    requires b.withdrawals == [] && amount <= Balance(b, Bucket.AVAILABLE)
    ensures var c := Apply(b, DoReserve(amount, key, 0));
      c.payments == b.payments && Balance(c, Bucket.AVAILABLE) == Balance(b, Bucket.AVAILABLE) - amount
  {
    assert !HasKey(b, key);
    MoveBalance(b, Apply(b, DoReserve(amount, key, 0)), Some(Bucket.AVAILABLE), Some(RESERVED), amount, RESERVE(0),
      Bucket.AVAILABLE);
  }

  lemma RefundedIn(b: Books, amount: nat, net: nat)
    requires OnePayment(b, amount, net, EarningStatus.AVAILABLE) && net > 0
    ensures var c := Apply(Apply(b, DoStartRefund(0, amount)), DoSettleRefund(0, 0, true));
      Balance(c, Bucket.AVAILABLE) == Balance(b, Bucket.AVAILABLE) - net
  {
    var p, refund := b.payments[0], Refund(amount, net, amount - net, RefundStatus.PENDING);
    assert [] + [refund] == [refund];
    var started := Apply(b, DoStartRefund(0, amount));
    assert started.payments == [p.(refunds := [refund])] && started.ledger == b.ledger;
    MoveBalance(started, Apply(started, DoSettleRefund(0, 0, true)), Some(Bucket.AVAILABLE), None, net, REFUND(0, 0),
      Bucket.AVAILABLE);
  }

  /** A reversal does: everything withdrawn, then refunded. */
  lemma RefundAfterWithdrawal(amount: nat, net: nat, key: string) returns (steps: seq<Step>)
    requires 0 < net <= amount
    ensures Balance(Reached(steps), Bucket.AVAILABLE) + net == 0
  {
    steps := [DoPayIn(amount, net, true, 0), DoRelease(0, 0), DoReserve(net, key, 0), DoStartRefund(0, amount),
      DoSettleRefund(0, 0, true)];
    assert steps[..0] == [] && steps[..5] == steps;
    Unrolled(steps, 1);
    Unrolled(steps, 2);
    Unrolled(steps, 3);
    Unrolled(steps, 4);
    Unrolled(steps, 5);
    assert Reached([]) == EMPTY;
    hide Reached, Apply, Balance, OnePayment;
    PaidIn(amount, net);
    ReleasedIn(Reached(steps[..1]), amount, net);
    WithdrawnIn(Reached(steps[..2]), net, key);
    var b := Reached(steps[..3]);
    StillOnePayment(Reached(steps[..2]), b, amount, net);
    RefundedIn(b, amount, net);
  }

  lemma StillOnePayment(b: Books, c: Books, amount: nat, net: nat)
    requires OnePayment(b, amount, net, EarningStatus.AVAILABLE) && c.payments == b.payments
    ensures OnePayment(c, amount, net, EarningStatus.AVAILABLE)
  {
  }

  // ── What a payee can ever get ───────────────────────────────────────────────────────────────

  /** What has been released of a payment, whatever was reversed later. */
  function EverReleased(p: Payment): int {
    if p.earning.Some? && p.earning.value.releasedAt.Some? then p.earning.value.net else 0
  }

  function Out(w: Withdrawal): int { OnItsWay(w) + PaidOut(w) }

  ghost predicate Covered(b: Books) { SumOf(b.withdrawals, Out) <= SumOf(b.payments, EverReleased) }

  lemma {:induction false} OutIsBoth(ws: seq<Withdrawal>)
    ensures SumOf(ws, Out) == SumOf(ws, OnItsWay) + SumOf(ws, PaidOut)
  {
    if ws != [] {
      OutIsBoth(ws[..|ws| - 1]);
    }
  }

  lemma FreeIsReleased(b: Books)
    requires Sound(b)
    ensures SumOf(b.payments, Free) <= SumOf(b.payments, EverReleased)
  {
    forall p | p in b.payments
      ensures Free(p) <= EverReleased(p)
    {
      assert PaymentOk(p);
    }
    SumAtMost(b.payments, Free, EverReleased);
  }

  /** Nothing released is ever unreleased. */
  lemma ReleasedStays(b: Books, step: Step)
    requires Sound(b)
    ensures SumOf(Apply(b, step).payments, EverReleased) >= SumOf(b.payments, EverReleased)
  {
    hide SumOf, Balance, Sound;
    var after := Apply(b, step);
    match step {
      case DoPayIn(amount, serviceFee, engaged, availableAt) =>
        if serviceFee <= amount {
          SumAppend(b.payments, Taken(amount, serviceFee, engaged, availableAt), EverReleased);
        }
      case DoReserve(_, _, _) =>
      case DoSettleWithdrawal(_, _) =>
      case _ =>
        if step.i < |b.payments| {
          SumUpdate(b.payments, step.i, after.payments[step.i], EverReleased);
          assert after.payments == b.payments[step.i := after.payments[step.i]];
        }
    }
  }

  lemma AvailableIsReleased(b: Books)
    requires Sound(b)
    ensures Balance(b, Bucket.AVAILABLE) + SumOf(b.withdrawals, Out) <= SumOf(b.payments, EverReleased)
  {
    hide Balance, SumOf;
    FreeIsReleased(b);
    OutIsBoth(b.withdrawals);
  }

  lemma StepCovered(b: Books, step: Step)
    requires Sound(b) && Covered(b)
    ensures Covered(Apply(b, step))
  {
    hide Sound, Balance, SumOf;
    ReleasedStays(b, step);
    var after := Apply(b, step);
    if step.DoReserve? && after.withdrawals != b.withdrawals {
      AvailableIsReleased(b);
      SumAppend(b.withdrawals, Withdrawal(step.withdrawn, step.key, PROCESSING), Out);
    } else if step.DoSettleWithdrawal? && after.withdrawals != b.withdrawals {
      SumUpdate(b.withdrawals, step.w, after.withdrawals[step.w], Out);
    } else {
      assert after.withdrawals == b.withdrawals;
    }
  }

  lemma {:induction false} ReachedCovered(steps: seq<Step>)
    ensures Covered(Reached(steps))
  {
    if steps != [] {
      ReachedCovered(steps[..|steps| - 1]);
      ReachedSound(steps[..|steps| - 1]);
      StepCovered(Reached(steps[..|steps| - 1]), steps[|steps| - 1]);
    }
  }

  /** On every run, what has left the wallet or is on its way is never more than the earnings released so far:
    * money held, disputed before its release or never earned is never paid out, whatever is reversed. */
  lemma PaidNoMoreThanReleased(steps: seq<Step>)
    ensures var b := Reached(steps); Balance(b, RESERVED) + Balance(b, WITHDRAWN) <= SumOf(b.payments, EverReleased)
  {
    ReachedSound(steps);
    ReachedCovered(steps);
    OutIsBoth(Reached(steps).withdrawals);
  }

  /** The step records a withdrawal: at least the minimum of the time, at most what is available, under a key
    * not used before. */
  ghost predicate Records(b: Books, step: Step, w: Withdrawal) {
    step.DoReserve? && w.amount == step.withdrawn && w.key == step.key
    && step.min <= w.amount <= Balance(b, Bucket.AVAILABLE) && !HasKey(b, w.key)
  }

  lemma StepRecords(b: Books, step: Step, w: nat)
    requires Sound(b) && w < |Apply(b, step).withdrawals|
    ensures w < |b.withdrawals| ==> WithdrawalGrown(b.withdrawals[w], Apply(b, step).withdrawals[w])
    ensures w >= |b.withdrawals| ==> Records(b, step, Apply(b, step).withdrawals[w])
  {
    hide Balance, SumOf, Sound, PaymentGrown, CreateRefund, Move;
    StepKeeps(b, step);
  }

  /** Every withdrawal in the books was recorded by one step of the run, for what it asked and within the limits
    * that held there, whatever has happened to it since. */
  lemma {:induction false} WithdrawnWithinLimits(steps: seq<Step>, w: nat) returns (k: nat)
    requires w < |Reached(steps).withdrawals|
    ensures k < |steps| && Records(Reached(steps[..k]), steps[k], Reached(steps).withdrawals[w])
  {
    hide Records, Sound, Apply;
    var n := |steps| - 1;
    assert steps != [];
    ReachedSound(steps[..n]);
    StepRecords(Reached(steps[..n]), steps[n], w);
    if w < |Reached(steps[..n]).withdrawals| {
      k := WithdrawnWithinLimits(steps[..n], w);
      assert steps[..n][..k] == steps[..k];
      SameTerms(Reached(steps[..k]), steps[k], Reached(steps[..n]).withdrawals[w], Reached(steps).withdrawals[w]);
    } else {
      k := n;
    }
  }

  lemma SameTerms(b: Books, step: Step, v: Withdrawal, w: Withdrawal)
    requires Records(b, step, v) && WithdrawalGrown(v, w)
    ensures Records(b, step, w)
  {
  }

  /** On every run an earning was released, if it was, no earlier than its hold allows, and one that is
    * available was. */
  lemma ReleasedNoEarlierThanDue(steps: seq<Step>, i: nat)
    requires i < |Reached(steps).payments| && Reached(steps).payments[i].earning.Some?
    ensures var e := Reached(steps).payments[i].earning.value;
      && (e.releasedAt.Some? ==> e.availableAt <= e.releasedAt.value)
      && (e.status == EarningStatus.AVAILABLE ==> e.releasedAt.Some?)
  {
    ReachedSound(steps);
    assert PaymentOk(Reached(steps).payments[i]);
  }

  predicate IsClosing(step: Step, i: nat) { step.DoCloseDispute? && step.i == i }

  predicate IsOpening(step: Step, i: nat) { step.DoOpenDispute? && step.i == i }

  /** Disputed and not released. */
  predicate HeldBack(b: Books, i: nat) {
    i < |b.payments| && b.payments[i].earning.Some? && b.payments[i].earning.value.disputed
    && b.payments[i].earning.value.releasedAt.None?
  }

  lemma StepHeldBack(b: Books, step: Step, i: nat)
    requires HeldBack(b, i) && !IsClosing(step, i)
    ensures HeldBack(Apply(b, step), i)
  {
    hide SumOf, Balance;
  }

  /** An earning disputed before its release stays out of reach, however the run goes on, until the dispute is
    * closed. */
  lemma {:induction false} HeldUntilClosed(b: Books, i: nat, more: seq<Step>)
    requires HeldBack(b, i) && forall step :: step in more ==> !IsClosing(step, i)
    ensures HeldBack(Run(b, more), i) && EverReleased(Run(b, more).payments[i]) == 0
  {
    if more != [] {
      HeldUntilClosed(b, i, more[..|more| - 1]);
      StepHeldBack(Run(b, more[..|more| - 1]), more[|more| - 1], i);
    }
  }

  // ── Replays ─────────────────────────────────────────────────────────────────────────────────

  /** Steps that a webhook, a sweep or a retried call may send again and that happen once: a refund or a
    * withdrawal settling, a hold ending, a withdrawal asked for, a dispute lost. */
  predicate HappensOnce(step: Step) {
    step.DoSettleRefund? || step.DoRelease? || step.DoReserve? || step.DoSettleWithdrawal?
    || (step.DoCloseDispute? && step.lost)
  }

  /** Whether what the step is for has happened. */
  predicate Happened(b: Books, step: Step)
    requires HappensOnce(step)
  {
    match step
    case DoSettleRefund(i, r, _) => Spent(b, REFUND(i, r))
    case DoRelease(i, _) => Spent(b, RELEASE(i))
    case DoReserve(_, key, _) => HasKey(b, key)
    case DoSettleWithdrawal(w, _) => Spent(b, Key.PAID(w))
    case DoCloseDispute(i, _) => Spent(b, DISPUTE(i))
  }

  lemma DoingItMakesItHappen(b: Books, step: Step)
    requires HappensOnce(step) && Attempt(b, step).Moved?
    ensures Happened(Apply(b, step), step)
  {
    if step.DoReserve? && !HasKey(b, step.key) {
      assert Apply(b, step).withdrawals[|b.withdrawals|].key == step.key;
    }
  }

  lemma OnceIsEnough(b: Books, step: Step)
    requires Sound(b) && HappensOnce(step) && Happened(b, step)
    ensures Apply(b, step) == b
  {
    if step.DoCloseDispute? {
      assert PaymentOk(b.payments[step.i]);
    }
  }

  lemma HappenedStays(b: Books, after: Books, step: Step)
    requires HappensOnce(step) && Happened(b, step) && Grown(b, after)
    ensures Happened(after, step)
  {
    GrownKeepsSpent(b, after);
    if step.DoReserve? {
      var w :| 0 <= w < |b.withdrawals| && b.withdrawals[w].key == step.key;
      assert WithdrawalGrown(b.withdrawals[w], after.withdrawals[w]);
    }
  }

  lemma {:induction false} HappenedThroughRun(b: Books, step: Step, more: seq<Step>)
    requires Sound(b) && HappensOnce(step) && Happened(b, step)
    ensures Happened(Run(b, more), step)
  {
    if more != [] {
      var rest := more[..|more| - 1];
      HappenedThroughRun(b, step, rest);
      RunKeeps(b, rest);
      StepKeeps(Run(b, rest), more[|more| - 1]);
      HappenedStays(Run(b, rest), Run(b, more), step);
    }
  }

  /** Done once, such a step changes nothing when it comes again, however much has happened in between. */
  lemma ReplaysChangeNothing(steps: seq<Step>, step: Step, more: seq<Step>)
    requires HappensOnce(step) && Attempt(Reached(steps), step).Moved?
    ensures var later := Run(Apply(Reached(steps), step), more); Apply(later, step) == later
  {
    ReachedSound(steps);
    StepKeeps(Reached(steps), step);
    DoingItMakesItHappen(Reached(steps), step);
    HappenedThroughRun(Apply(Reached(steps), step), step, more);
    RunKeeps(Apply(Reached(steps), step), more);
    OnceIsEnough(Run(Apply(Reached(steps), step), more), step);
  }

  // ── Disputes that come again ────────────────────────────────────────────────────────────────

  /** Nothing an opening would still do. */
  predicate OpenedAlready(b: Books, i: nat) {
    i < |b.payments| && (b.payments[i].status == DISPUTED || b.payments[i].status == REFUNDED)
    && (b.payments[i].earning.Some? ==> b.payments[i].earning.value.disputed)
  }

  lemma StepStaysOpened(b: Books, step: Step, i: nat)
    requires Sound(b) && OpenedAlready(b, i) && !IsClosing(step, i)
    ensures OpenedAlready(Apply(b, step), i)
  {
    assert PaymentOk(b.payments[i]);
    hide SumOf, Balance, Sound;
  }

  lemma {:induction false} StaysOpened(b: Books, i: nat, more: seq<Step>)
    requires Sound(b) && OpenedAlready(b, i) && forall step :: step in more ==> !IsClosing(step, i)
    ensures OpenedAlready(Run(b, more), i)
  {
    if more != [] {
      StaysOpened(b, i, more[..|more| - 1]);
      RunKeeps(b, more[..|more| - 1]);
      StepStaysOpened(Run(b, more[..|more| - 1]), more[|more| - 1], i);
    }
  }

  /** A dispute opening that comes again changes nothing as long as the dispute has not been closed. */
  lemma ReopeningBeforeClosing(steps: seq<Step>, i: nat, more: seq<Step>)
    requires Has(Reached(steps), i) && forall step :: step in more ==> !IsClosing(step, i)
    ensures var later := Run(Apply(Reached(steps), DoOpenDispute(i)), more); Apply(later, DoOpenDispute(i)) == later
  {
    ReachedSound(steps);
    StepKeeps(Reached(steps), DoOpenDispute(i));
    StaysOpened(Apply(Reached(steps), DoOpenDispute(i)), i, more);
    OpeningChangesNothingExactly(Run(Apply(Reached(steps), DoOpenDispute(i)), more), i);
  }

  lemma JustOpened(b: Books, i: nat)
    requires Sound(b) && Has(b, i)
    ensures OpenedAlready(Apply(b, DoOpenDispute(i)), i)
  {
    assert PaymentOk(b.payments[i]);
  }

  /** An opening changes nothing exactly when the payment is not there, or is disputed or given back whole and
    * so is its earning, if it has one, disputed. */
  lemma OpeningChangesNothingExactly(b: Books, i: nat)
    ensures Apply(b, DoOpenDispute(i)) == b <==> !Has(b, i) || OpenedAlready(b, i)
  {
    if Has(b, i) {
      var q := OpenDispute(b.payments[i]);
      assert Apply(b, DoOpenDispute(i)).payments[i] == q;
      assert q == b.payments[i] ==> b.payments[i := q] == b.payments;
    }
  }

  /** After an opening and whatever came then, closings and new disputes included, it changes nothing when it
    * comes again exactly when what it does is still in place. */
  lemma ReopeningExactly(steps: seq<Step>, i: nat, more: seq<Step>)
    requires Has(Reached(steps), i)
    ensures var later := Run(Apply(Reached(steps), DoOpenDispute(i)), more);
      Apply(later, DoOpenDispute(i)) == later <==> OpenedAlready(later, i)
  {
    hide OpenedAlready;
    StaysThere(Apply(Reached(steps), DoOpenDispute(i)), i, more);
    OpeningChangesNothingExactly(Run(Apply(Reached(steps), DoOpenDispute(i)), more), i);
  }

  lemma {:induction false} StaysThere(b: Books, i: nat, more: seq<Step>)
    requires Has(b, i)
    ensures Has(Run(b, more), i)
  {
    if more != [] {
      StaysThere(b, i, more[..|more| - 1]);
      hide SumOf, Balance;
    }
  }

  /** Coming again right after a closing, it changes nothing exactly on a payment given back whole that had
    * no earning: on any other it marks the payment or its earning disputed once more. */
  lemma ReopeningAfterClosingExactly(b: Books, i: nat, lost: bool)
    requires Has(b, i) && b.payments[i].status == DISPUTED
    ensures var closed := Apply(b, DoCloseDispute(i, lost));
      Apply(closed, DoOpenDispute(i)) == closed <==>
        closed.payments[i].earning.None? && closed.payments[i].status == REFUNDED
  {
    hide SumOf, ReversalOf;
    var closed := Apply(b, DoCloseDispute(i, lost));
    var p, q := closed.payments[i], OpenDispute(closed.payments[i]);
    assert Apply(closed, DoOpenDispute(i)).payments[i] == q;
    if p == q {
      assert closed.payments[i := q] == closed.payments;
    }
  }

  /** So an opening applied once more after the dispute is closed does change the books. */
  lemma ReopeningCanChange(amount: nat, serviceFee: nat, availableAt: int)
    requires serviceFee <= amount
    ensures var b := Reached([DoPayIn(amount, serviceFee, true, availableAt), DoOpenDispute(0),
      DoCloseDispute(0, false)]);
      Apply(b, DoOpenDispute(0)) != b
  {
    var steps := [DoPayIn(amount, serviceFee, true, availableAt), DoOpenDispute(0), DoCloseDispute(0, false)];
    assert steps[..0] == [] && steps[..3] == steps;
    Unrolled(steps, 1);
    Unrolled(steps, 2);
    Unrolled(steps, 3);
    ReopeningAfterClosingExactly(Reached(steps[..2]), 0, false);
  }

  /** Closing changes nothing exactly when the payment is not disputed. */
  lemma ClosingAgainExactly(b: Books, i: nat, lost: bool)
    ensures Apply(b, DoCloseDispute(i, lost)) == b <==> !Has(b, i) || b.payments[i].status != DISPUTED
  {
    hide SumOf, ReversalOf;
    if Has(b, i) && b.payments[i].status == DISPUTED {
      assert Apply(b, DoCloseDispute(i, lost)).payments[i].status != DISPUTED;
    }
  }

  lemma JustClosed(b: Books, i: nat, lost: bool)
    requires Has(b, i) && b.payments[i].status == DISPUTED
    ensures var after := Apply(b, DoCloseDispute(i, lost)); Has(after, i) && after.payments[i].status != DISPUTED
  {
    hide SumOf, ReversalOf;
  }

  lemma {:induction false} StaysClosed(b: Books, i: nat, more: seq<Step>)
    requires Has(b, i) && b.payments[i].status != DISPUTED && forall step :: step in more ==> !IsOpening(step, i)
    ensures Has(Run(b, more), i) && Run(b, more).payments[i].status != DISPUTED
  {
    if more != [] {
      StaysClosed(b, i, more[..|more| - 1]);
      StepStaysClosed(Run(b, more[..|more| - 1]), more[|more| - 1], i);
    }
  }

  lemma StepStaysClosed(b: Books, step: Step, i: nat)
    requires Has(b, i) && b.payments[i].status != DISPUTED && !IsOpening(step, i)
    ensures Has(Apply(b, step), i) && Apply(b, step).payments[i].status != DISPUTED
  {
    hide SumOf, Balance;
  }

  /** So one that comes again, won or lost, changes nothing as long as no dispute has been opened since. */
  lemma ClosingAgainBeforeOpening(b: Books, i: nat, lost: bool, more: seq<Step>, again: bool)
    requires Has(b, i) && b.payments[i].status == DISPUTED && forall step :: step in more ==> !IsOpening(step, i)
    ensures var later := Run(Apply(b, DoCloseDispute(i, lost)), more); Apply(later, DoCloseDispute(i, again)) == later
  {
    var closed := Apply(b, DoCloseDispute(i, lost));
    assert closed.payments[i].status != DISPUTED;
    StaysClosed(closed, i, more);
    ClosingAgainExactly(Run(closed, more), i, again);
  }

  /** No two entries of the ledger share a key and a side, and no two withdrawals a key. */
  lemma NothingRecordedTwice(steps: seq<Step>)
    ensures KeysOnce(Reached(steps).ledger) && RowsOk(Reached(steps))
  {
    ReachedSound(steps);
  }

  // ── Each payment in the wallet ──────────────────────────────────────────────────────────────

  /** On every run, for each payment: refunds given or on their way never exceed it, and unless the bank
    * took it back the client's, the lawyer's and the platform's parts add up to it. */
  lemma EveryPaymentAddsUp(steps: seq<Step>, i: nat)
    requires i < |Reached(steps).payments|
    ensures var p := Reached(steps).payments[i];
      && SumOf(p.refunds, LiveAmount) <= p.amount
      && (p.lost.None? && p.earning.Some? ==>
            p.refunded + Left(p) + (p.platformFee - SumOf(p.refunds, DonePlatform)) == p.amount)
  {
    ReachedSound(steps);
    var p := Reached(steps).payments[i];
    assert PaymentOk(p);
    NeverMoreThanPaid(p);
    if p.lost.None? && p.earning.Some? {
      RefundsAddUp(p);
    }
  }

  // ── Kept on every run exactly when no step breaks it ────────────────────────────────────────

  /** What single steps keep, exactly when they are safe, runs keep exactly when each of their steps is. */
  lemma KeptExactlyWhenSafe(steps: seq<Step>, good: Books -> bool, safe: (Books, Step) -> bool)
    requires good(EMPTY)
    requires forall b, step :: Sound(b) && good(b) ==> (good(Apply(b, step)) <==> safe(b, step))
    ensures (forall k :: 0 <= k <= |steps| ==> good(Reached(steps[..k]))) <==>
            (forall k :: 0 <= k < |steps| ==> safe(Reached(steps[..k]), steps[k]))
  {
    if forall k :: 0 <= k <= |steps| ==> good(Reached(steps[..k])) {
      forall k | 0 <= k < |steps|
        ensures safe(Reached(steps[..k]), steps[k])
      {
        ReachedSound(steps[..k]);
        Unrolled(steps, k + 1);
        assert good(Reached(steps[..k + 1]));
      }
    }
    if forall k :: 0 <= k < |steps| ==> safe(Reached(steps[..k]), steps[k]) {
      forall k | 0 <= k <= |steps|
        ensures good(Reached(steps[..k]))
      {
        SafeSoFar(steps, k, good, safe);
      }
    }
  }

  lemma {:induction false} SafeSoFar(steps: seq<Step>, k: nat, good: Books -> bool, safe: (Books, Step) -> bool)
    requires good(EMPTY) && k <= |steps|
    requires forall b, step :: Sound(b) && good(b) ==> (good(Apply(b, step)) <==> safe(b, step))
    requires forall m :: 0 <= m < |steps| ==> safe(Reached(steps[..m]), steps[m])
    ensures good(Reached(steps[..k]))
  {
    if k > 0 {
      SafeSoFar(steps, k - 1, good, safe);
      ReachedSound(steps[..k - 1]);
      Unrolled(steps, k);
    } else {
      assert steps[..0] == [];
    }
  }

  /** The platform fee of every payment is wholly kept, or that payment is wholly given back or on its way. */
  ghost predicate AllOrNothing(b: Books) {
    forall i :: 0 <= i < |b.payments| ==> PlatformKeptOrAllBack(b.payments[i])
  }

  /** If a refund fails here, it was for nothing, it carried the platform fee, or no refund does. */
  predicate FailsSafely(b: Books, step: Step) {
    step.DoSettleRefund? && !step.ok && Has(b, step.i) && RefundPending(b.payments[step.i], step.r) ==>
      var p := b.payments[step.i];
      p.refunds[step.r].amount == 0 || p.refunds[step.r].platformFee > 0 || SumOf(p.refunds, LivePlatform) == 0
  }

  lemma OnePaymentChanges(b: Books, after: Books, i: nat)
    requires AllOrNothing(b) && i < |b.payments| == |after.payments|
      && after.payments == b.payments[i := after.payments[i]]
    ensures AllOrNothing(after) <==> PlatformKeptOrAllBack(after.payments[i])
  {
    hide PlatformKeptOrAllBack;
  }

  lemma StepAllOrNothing(b: Books, step: Step)
    requires Sound(b) && AllOrNothing(b)
    ensures AllOrNothing(Apply(b, step)) <==> FailsSafely(b, step)
  {
    hide Sound, Balance;
    var after := Apply(b, step);
    if Attempt(b, step).Moved? && !step.DoReserve? && !step.DoSettleWithdrawal? {
      if step.DoPayIn? {
        NewPaymentAllOrNothing(b, step);
      } else {
        PaymentsOk(b, step.i);
        var p := b.payments[step.i];
        hide PlatformKeptOrAllBack, AllOrNothing;
        OnePaymentChanges(b, after, step.i);
        if step.DoStartRefund? {
          CreatingKeepsAllOrNothing(p, step.refundAmount);
        } else if !step.DoSettleRefund? {
          SameRefunds(p, after.payments[step.i]);
        } else if step.ok {
          SucceedingKeepsAllOrNothing(p, step.r);
        } else {
          FailingKeepsAllOrNothingExactly(p, step.r);
        }
      }
    }
  }

  lemma PaymentsOk(b: Books, i: nat)
    requires Sound(b) && AllOrNothing(b) && i < |b.payments|
    ensures PaymentOk(b.payments[i]) && PlatformKeptOrAllBack(b.payments[i])
  {
  }

  lemma SameRefunds(p: Payment, q: Payment)
    requires PlatformKeptOrAllBack(p) && q.refunds == p.refunds && q.amount == p.amount
    ensures PlatformKeptOrAllBack(q)
  {
  }

  lemma NewPaymentAllOrNothing(b: Books, step: Step)
    requires AllOrNothing(b) && step.DoPayIn?
    ensures AllOrNothing(Apply(b, step))
  {
  }

  /** On every run, every payment's platform fee is wholly kept or the payment wholly given back all along
    * exactly when every refund that fails does so safely. */
  lemma AllOrNothingOnEveryRunExactly(steps: seq<Step>)
    ensures (forall k :: 0 <= k <= |steps| ==> AllOrNothing(Reached(steps[..k]))) <==>
            (forall k :: 0 <= k < |steps| ==> FailsSafely(Reached(steps[..k]), steps[k]))
  {
    forall b, step | Sound(b) && AllOrNothing(b)
      ensures AllOrNothing(Apply(b, step)) <==> FailsSafely(b, step)
    {
      StepAllOrNothing(b, step);
    }
    KeptExactlyWhenSafe(steps, AllOrNothing, FailsSafely);
  }

  /** No payment has been refunded more than was paid. */
  ghost predicate WithinPaid(b: Books) {
    forall i :: 0 <= i < |b.payments| ==> b.payments[i].refunded <= b.payments[i].amount
  }

  /** If a refund goes through here, the payment is not marked as given back already. */
  predicate SucceedsSafely(b: Books, step: Step) {
    step.DoSettleRefund? && step.ok && Has(b, step.i) && RefundPending(b.payments[step.i], step.r) ==>
      !ComesOnTop(b.payments[step.i], step.r)
  }

  lemma StepWithinPaid(b: Books, step: Step)
    requires Sound(b) && WithinPaid(b)
    ensures WithinPaid(Apply(b, step)) <==> SucceedsSafely(b, step)
  {
    hide Sound, SumOf, Balance, ComesOnTop, PaymentOk;
    var after := Apply(b, step);
    if step.DoSettleRefund? && step.ok && Attempt(b, step).Moved? {
      RowOk(b, step.i);
      SucceedingStaysWithinPaidExactly(b.payments[step.i], step.r);
      OneRefundedMore(b, after, step.i);
    } else if !step.DoSettleWithdrawal? && !step.DoReserve? && !step.DoPayIn? && step.i < |b.payments| {
      assert after.payments[step.i].refunded <= after.payments[step.i].amount;
      OneRefundedMore(b, after, step.i);
    }
  }

  lemma RowOk(b: Books, i: nat)
    requires Sound(b) && i < |b.payments|
    ensures PaymentOk(b.payments[i])
  {
  }

  lemma OneRefundedMore(b: Books, after: Books, i: nat)
    requires WithinPaid(b) && i < |b.payments| == |after.payments|
      && after.payments == b.payments[i := after.payments[i]]
    ensures WithinPaid(after) <==> after.payments[i].refunded <= after.payments[i].amount
  {
  }

  /** On every run no payment is ever refunded more than was paid exactly when no refund goes through on top
    * of a payment already given back. */
  lemma WithinPaidOnEveryRunExactly(steps: seq<Step>)
    ensures (forall k :: 0 <= k <= |steps| ==> WithinPaid(Reached(steps[..k]))) <==>
            (forall k :: 0 <= k < |steps| ==> SucceedsSafely(Reached(steps[..k]), steps[k]))
  {
    forall b, step | Sound(b) && WithinPaid(b)
      ensures WithinPaid(Apply(b, step)) <==> SucceedsSafely(b, step)
    {
      StepWithinPaid(b, step);
    }
    KeptExactlyWhenSafe(steps, WithinPaid, SucceedsSafely);
  }
}
