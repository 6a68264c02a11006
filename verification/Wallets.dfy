/**
 * One payee's wallet: the payments into it, the withdrawals out of it, and the append-only ledger every
 * balance is summed from. A refused step is a transaction rolled back: it changes nothing.
 */
module Wallets {
  import opened Options
  import opened Sequences
  import opened Refunds

  datatype Bucket = PENDING | AVAILABLE | RESERVED | WITHDRAWN

  /** The idempotency key of a move, by what it is for. */
  datatype Key =
    | EARNING(i: nat) | RELEASE(i: nat) | REFUND(i: nat, r: nat) | DISPUTE(i: nat)
    | RESERVE(w: nat) | PAID(w: nat) | FAILED(w: nat)

  datatype Side = FROM | TO
  datatype Entry = Entry(bucket: Bucket, amount: int, key: Key, side: Side)

  datatype WithdrawalStatus = PROCESSING | PAID | FAILED
  datatype Withdrawal = Withdrawal(amount: nat, key: string, status: WithdrawalStatus)

  datatype Books = Books(payments: seq<Payment>, withdrawals: seq<Withdrawal>, ledger: seq<Entry>)

  datatype Reply = Moved(books: Books) | Refused

  const EMPTY := Books([], [], [])

  /** A negative entry where money goes out and a positive one where it comes in; either may be missing. */
  function Move(from: Option<Bucket>, to: Option<Bucket>, amount: int, key: Key): seq<Entry> {
    (if from.Some? then [Entry(from.value, -amount, key, FROM)] else [])
    + (if to.Some? then [Entry(to.value, amount, key, TO)] else [])
  }

  function InBucket(bucket: Bucket): Entry -> int {
    (e: Entry) => if e.bucket == bucket then e.amount else 0
  }

  function Balance(b: Books, bucket: Bucket): int { SumOf(b.ledger, InBucket(bucket)) }

  // ── The steps ───────────────────────────────────────────────────────────────────────────────

  predicate Has(b: Books, i: nat) { i < |b.payments| }

  /** A payment settles. One that engages the request puts the lawyer's part in PENDING. */
  function PayIn(b: Books, amount: nat, serviceFee: nat, engaged: bool, availableAt: int): Reply {
    if serviceFee > amount then Refused
    else Moved(b.(
      payments := b.payments + [Taken(amount, serviceFee, engaged, availableAt)],
      ledger := b.ledger + if engaged then Move(None, Some(Bucket.PENDING), serviceFee, EARNING(|b.payments|)) else []))
  }

  function StartRefund(b: Books, i: nat, amount: nat): Reply {
    if !Has(b, i) || CreateRefund(b.payments[i], amount).None? then Refused
    else Moved(b.(payments := b.payments[i := CreateRefund(b.payments[i], amount).value]))
  }

  /** Where the money of an earning is: AVAILABLE once released, else still PENDING. */
  function BucketOf(e: Earning): Bucket {
    if e.status == EarningStatus.AVAILABLE then Bucket.AVAILABLE else Bucket.PENDING
  }

  /** The ledger's record of a reversal, if anything was left to reverse. */
  function ReversalOf(p: Payment, amount: int, key: Key): seq<Entry> {
    if Reversible(p.earning, amount) == 0 then []
    else Move(Some(BucketOf(p.earning.value)), None, Reversible(p.earning, amount), key)
  }

  function SettleRefund(b: Books, i: nat, r: nat, ok: bool): Reply {
    if !Has(b, i) || !RefundPending(b.payments[i], r) then Refused
    else if !ok then Moved(b.(payments := b.payments[i := RefundFailed(b.payments[i], r)]))
    else Moved(b.(
      payments := b.payments[i := RefundSucceeded(b.payments[i], r)],
      ledger := b.ledger + ReversalOf(b.payments[i], b.payments[i].refunds[r].serviceFee, REFUND(i, r))))
  }

  function DisputeOpened(b: Books, i: nat): Reply {
    if !Has(b, i) then Refused else Moved(b.(payments := b.payments[i := OpenDispute(b.payments[i])]))
  }

  function DisputeClosed(b: Books, i: nat, lost: bool): Reply {
    if !Has(b, i) || b.payments[i].status != DISPUTED then Refused
    else if !lost then Moved(b.(payments := b.payments[i := DisputeWon(b.payments[i])]))
    else
      var p := b.payments[i];
      var net := if p.earning.Some? then p.earning.value.net else 0;
      Moved(b.(payments := b.payments[i := DisputeLost(p)], ledger := b.ledger + ReversalOf(p, net, DISPUTE(i))))
  }

  /** The hold is over: what is left of the earning becomes AVAILABLE. */
  function Release(b: Books, i: nat, now: int): Reply {
    if !Has(b, i) || !Releasable(b.payments[i], now) then Refused
    else
      var e := b.payments[i].earning.value;
      var left := e.net - e.reversed;
      Moved(b.(
        payments := b.payments[i := Released(b.payments[i], now)],
        ledger := b.ledger
          + if left > 0 then Move(Some(Bucket.PENDING), Some(Bucket.AVAILABLE), left, RELEASE(i)) else []))
  }

  predicate HasKey(b: Books, key: string) {
    exists w :: 0 <= w < |b.withdrawals| && b.withdrawals[w].key == key
  }

  /** A withdrawal of what is available. The same key gives the withdrawal it already made. */
  function Reserve(b: Books, amount: nat, key: string, min: nat): Reply {
    if HasKey(b, key) then Moved(b)
    else if amount < min || amount > Balance(b, Bucket.AVAILABLE) then Refused
    else Moved(b.(
      withdrawals := b.withdrawals + [Withdrawal(amount, key, PROCESSING)],
      ledger := b.ledger + Move(Some(Bucket.AVAILABLE), Some(RESERVED), amount, RESERVE(|b.withdrawals|))))
  }

  function SettleWithdrawal(b: Books, w: nat, paid: bool): Reply {
    if w >= |b.withdrawals| || b.withdrawals[w].status != PROCESSING then Refused
    else
      var row := b.withdrawals[w];
      Moved(b.(
        withdrawals := b.withdrawals[w :=
          row.(status := if paid then WithdrawalStatus.PAID else WithdrawalStatus.FAILED)],
        ledger := b.ledger + Move(Some(RESERVED), Some(if paid then WITHDRAWN else Bucket.AVAILABLE), row.amount,
                                  if paid then Key.PAID(w) else Key.FAILED(w))))
  }

  datatype Step =
    | DoPayIn(amount: nat, serviceFee: nat, engaged: bool, availableAt: int)
    | DoStartRefund(i: nat, refundAmount: nat)
    | DoSettleRefund(i: nat, r: nat, ok: bool)
    | DoOpenDispute(i: nat)
    | DoCloseDispute(i: nat, lost: bool)
    | DoRelease(i: nat, now: int)
    | DoReserve(withdrawn: nat, key: string, min: nat)
    | DoSettleWithdrawal(w: nat, paid: bool)

  function Attempt(b: Books, step: Step): Reply {
    match step
    case DoPayIn(amount, serviceFee, engaged, availableAt) => PayIn(b, amount, serviceFee, engaged, availableAt)
    case DoStartRefund(i, amount) => StartRefund(b, i, amount)
    case DoSettleRefund(i, r, ok) => SettleRefund(b, i, r, ok)
    case DoOpenDispute(i) => DisputeOpened(b, i)
    case DoCloseDispute(i, lost) => DisputeClosed(b, i, lost)
    case DoRelease(i, now) => Release(b, i, now)
    case DoReserve(amount, key, min) => Reserve(b, amount, key, min)
    case DoSettleWithdrawal(w, paid) => SettleWithdrawal(b, w, paid)
  }

  function Apply(b: Books, step: Step): Books {
    var reply := Attempt(b, step);
    if reply.Moved? then reply.books else b
  }

  function Run(b: Books, steps: seq<Step>): Books {
    if steps == [] then b else Apply(Run(b, steps[..|steps| - 1]), steps[|steps| - 1])
  }

  // ── What the rows say each balance is ───────────────────────────────────────────────────────

  function Left(p: Payment): int {
    if p.earning.Some? then p.earning.value.net - p.earning.value.reversed else 0
  }

  function Held(p: Payment): int {
    if p.earning.Some? && p.earning.value.status == EarningStatus.PENDING then Left(p) else 0
  }

  function Free(p: Payment): int {
    if p.earning.Some? && p.earning.value.status == EarningStatus.AVAILABLE then Left(p) else 0
  }

  function OnItsWay(w: Withdrawal): int { if w.status == PROCESSING then w.amount else 0 }

  function PaidOut(w: Withdrawal): int { if w.status == WithdrawalStatus.PAID then w.amount else 0 }

  /** Every bucket of the ledger holds what the rows say. */
  ghost predicate Agrees(b: Books) {
    && Balance(b, Bucket.PENDING) == SumOf(b.payments, Held)
    && Balance(b, Bucket.AVAILABLE) ==
         SumOf(b.payments, Free) - SumOf(b.withdrawals, OnItsWay) - SumOf(b.withdrawals, PaidOut)
    && Balance(b, RESERVED) == SumOf(b.withdrawals, OnItsWay)
    && Balance(b, WITHDRAWN) == SumOf(b.withdrawals, PaidOut)
  }

  /** Whether what the key is for has already happened. */
  predicate Spent(b: Books, key: Key) {
    match key
    case EARNING(i) => i < |b.payments|
    case RELEASE(i) => i < |b.payments| && b.payments[i].earning.Some?
      && b.payments[i].earning.value.status != EarningStatus.PENDING
    case REFUND(i, r) => i < |b.payments| && r < |b.payments[i].refunds|
      && b.payments[i].refunds[r].status != RefundStatus.PENDING
    case DISPUTE(i) => i < |b.payments| && b.payments[i].lost.Some?
    case RESERVE(w) => w < |b.withdrawals|
    case PAID(w) => w < |b.withdrawals| && b.withdrawals[w].status != PROCESSING
    case FAILED(w) => w < |b.withdrawals| && b.withdrawals[w].status != PROCESSING
  }

  /** No key is ever used twice on one side. */
  ghost predicate KeysOnce(ledger: seq<Entry>) {
    forall i, k :: 0 <= i < k < |ledger| && ledger[i].key == ledger[k].key ==> ledger[i].side != ledger[k].side
  }

  ghost predicate KeysSpent(b: Books) {
    forall k :: 0 <= k < |b.ledger| ==> Spent(b, b.ledger[k].key)
  }

  ghost predicate RowsOk(b: Books) {
    && (forall i :: 0 <= i < |b.payments| ==> PaymentOk(b.payments[i]))
    && forall v, w :: 0 <= v < w < |b.withdrawals| ==> b.withdrawals[v].key != b.withdrawals[w].key
  }

  ghost predicate Sound(b: Books) { RowsOk(b) && Agrees(b) && KeysOnce(b.ledger) && KeysSpent(b) }

  // ── One move ────────────────────────────────────────────────────────────────────────────────

  function Put(bucket: Option<Bucket>, amount: int, into: Bucket): int {
    if bucket == Some(into) then amount else 0
  }

  lemma MoveBalance(b: Books, after: Books, from: Option<Bucket>, to: Option<Bucket>, amount: int, key: Key,
      bucket: Bucket)
    requires after.ledger == b.ledger + Move(from, to, amount, key)
    ensures Balance(after, bucket) == Balance(b, bucket) - Put(from, amount, bucket) + Put(to, amount, bucket)
  {
    var out := if from.Some? then b.ledger + [Entry(from.value, -amount, key, FROM)] else b.ledger;
    if from.Some? {
      SumAppend(b.ledger, Entry(from.value, -amount, key, FROM), InBucket(bucket));
    }
    if to.Some? {
      SumAppend(out, Entry(to.value, amount, key, TO), InBucket(bucket));
      assert after.ledger == out + [Entry(to.value, amount, key, TO)];
    } else {
      assert after.ledger == out;
    }
  }

  /** A move between two buckets leaves the other two alone. */
  lemma MoveBalances(b: Books, after: Books, from: Option<Bucket>, to: Option<Bucket>, amount: int, key: Key)
    requires after.ledger == b.ledger + Move(from, to, amount, key)
    ensures forall bucket ::
      Balance(after, bucket) == Balance(b, bucket) - Put(from, amount, bucket) + Put(to, amount, bucket)
  {
    forall bucket
      ensures Balance(after, bucket) == Balance(b, bucket) - Put(from, amount, bucket) + Put(to, amount, bucket)
    {
      MoveBalance(b, after, from, to, amount, key, bucket);
    }
  }

  lemma MoveKeys(b: Books, after: Books, from: Option<Bucket>, to: Option<Bucket>, amount: int, key: Key)
    requires KeysOnce(b.ledger) && KeysSpent(b)
    requires after.ledger == b.ledger + Move(from, to, amount, key)
    requires !Spent(b, key) && Spent(after, key) && Grown(b, after)
    ensures KeysOnce(after.ledger) && KeysSpent(after)
  {
    GrownKeepsSpent(b, after);
    forall k | 0 <= k < |after.ledger|
      ensures Spent(after, after.ledger[k].key)
    {
      if k < |b.ledger| {
        assert after.ledger[k] == b.ledger[k];
      } else {
        assert after.ledger[k].key == key;
      }
    }
  }

  /** What never goes back: rows stay, and what is settled stays settled. */
  ghost predicate PaymentGrown(p: Payment, q: Payment) {
    && |p.refunds| <= |q.refunds| && (p.lost.Some? ==> q.lost.Some?)
    && q.amount == p.amount && q.serviceFee == p.serviceFee && (p.earning.Some? <==> q.earning.Some?)
    && (p.earning.Some? && p.earning.value.status != EarningStatus.PENDING ==>
      q.earning.value.status != EarningStatus.PENDING)
    && forall r :: 0 <= r < |p.refunds| && p.refunds[r].status != RefundStatus.PENDING ==> q.refunds[r] == p.refunds[r]
  }

  ghost predicate WithdrawalGrown(v: Withdrawal, w: Withdrawal) {
    v.key == w.key && v.amount == w.amount && (v.status != PROCESSING ==> w.status == v.status)
  }

  ghost predicate Grown(b: Books, after: Books) {
    && |b.payments| <= |after.payments| && |b.withdrawals| <= |after.withdrawals|
    && (forall i :: 0 <= i < |b.payments| ==> PaymentGrown(b.payments[i], after.payments[i]))
    && forall w :: 0 <= w < |b.withdrawals| ==> WithdrawalGrown(b.withdrawals[w], after.withdrawals[w])
  }

  lemma GrownKeepsSpent(b: Books, after: Books)
    requires Grown(b, after)
    ensures forall key :: Spent(b, key) ==> Spent(after, key)
  {
    forall key | Spent(b, key)
      ensures Spent(after, key)
    {
      match key {
        case REFUND(i, r) => assert PaymentGrown(b.payments[i], after.payments[i]);
        case RELEASE(i) => assert PaymentGrown(b.payments[i], after.payments[i]);
        case DISPUTE(i) => assert PaymentGrown(b.payments[i], after.payments[i]);
        case PAID(w) => assert WithdrawalGrown(b.withdrawals[w], after.withdrawals[w]);
        case FAILED(w) => assert WithdrawalGrown(b.withdrawals[w], after.withdrawals[w]);
        case _ =>
      }
    }
  }

  // ── Every step keeps the books sound ────────────────────────────────────────────────────────

  lemma GrownAlready(b: Books)
    ensures Grown(b, b)
  {
  }

  lemma OnePaymentGrown(b: Books, after: Books, i: nat)
    requires i < |b.payments| == |after.payments| && after.payments == b.payments[i := after.payments[i]]
    requires after.withdrawals == b.withdrawals && PaymentGrown(b.payments[i], after.payments[i])
    ensures Grown(b, after)
  {
  }

  /** The ledger is left alone and so is what the rows say. */
  lemma QuietChange(b: Books, i: nat, p: Payment)
    requires Sound(b) && i < |b.payments| && PaymentOk(p) && PaymentGrown(b.payments[i], p)
    requires Held(p) == Held(b.payments[i]) && Free(p) == Free(b.payments[i])
    ensures Sound(b.(payments := b.payments[i := p])) && Grown(b, b.(payments := b.payments[i := p]))
  {
    var after := b.(payments := b.payments[i := p]);
    SumUpdate(b.payments, i, p, Held);
    SumUpdate(b.payments, i, p, Free);
    OnePaymentGrown(b, after, i);
    GrownKeepsSpent(b, after);
    assert forall bucket :: Balance(after, bucket) == Balance(b, bucket);
  }

  /** A payment's row and the ledger change by the same amount. */
  lemma RecordedChange(b: Books, i: nat, p: Payment, from: Bucket, to: Option<Bucket>, amount: nat, key: Key)
    requires Sound(b) && i < |b.payments| && PaymentOk(p) && PaymentGrown(b.payments[i], p)
    requires (from == Bucket.PENDING || from == Bucket.AVAILABLE) && (to == None || to == Some(Bucket.AVAILABLE))
    requires Held(p) == Held(b.payments[i]) - Put(Some(from), amount, Bucket.PENDING) + Put(to, amount, Bucket.PENDING)
    requires Free(p) == Free(b.payments[i]) - Put(Some(from), amount, Bucket.AVAILABLE)
      + Put(to, amount, Bucket.AVAILABLE)
    requires var after := b.(payments := b.payments[i := p], ledger := b.ledger + Move(Some(from), to, amount, key));
      !Spent(b, key) && Spent(after, key)
    ensures var after := b.(payments := b.payments[i := p], ledger := b.ledger + Move(Some(from), to, amount, key));
      Sound(after) && Grown(b, after)
  {
    hide PaymentOk, Held, Free, Spent, PaymentGrown;
    var after := b.(payments := b.payments[i := p], ledger := b.ledger + Move(Some(from), to, amount, key));
    SumUpdate(b.payments, i, p, Held);
    SumUpdate(b.payments, i, p, Free);
    OnePaymentGrown(b, after, i);
    MoveKeys(b, after, Some(from), to, amount, key);
    MoveBalances(b, after, Some(from), to, amount, key);
    hide Balance, Move;
  }

  lemma PayInKeeps(b: Books, amount: nat, serviceFee: nat, engaged: bool, availableAt: int)
    requires Sound(b) && serviceFee <= amount
    ensures var after := PayIn(b, amount, serviceFee, engaged, availableAt).books; Sound(after) && Grown(b, after)
  {
    var after, p := PayIn(b, amount, serviceFee, engaged, availableAt).books,
      Taken(amount, serviceFee, engaged, availableAt);
    hide Balance, Move, PaymentOk, RowsOk, Agrees, Grown, KeysOnce, KeysSpent, Taken, Spent, Put;
    TakenOk(amount, serviceFee, engaged, availableAt);
    OnePaymentMore(b, after, p);
    if engaged {
      var key, to := EARNING(|b.payments|), Some(Bucket.PENDING);
      EarningSpent(b, after);
      MoveKeys(b, after, None, to, serviceFee, key);
      EarningAgrees(b, after, amount, serviceFee, availableAt);
    } else {
      SameLedger(b, after);
      OrphanAgrees(b, after, amount, serviceFee, availableAt);
    }
  }

  lemma OnePaymentMore(b: Books, after: Books, p: Payment)
    requires after.payments == b.payments + [p] && after.withdrawals == b.withdrawals && RowsOk(b) && PaymentOk(p)
    ensures Grown(b, after) && RowsOk(after)
  {
    hide PaymentOk;
  }

  lemma EarningAgrees(b: Books, after: Books, amount: nat, serviceFee: nat, availableAt: int)
    requires Agrees(b) && serviceFee <= amount && after.withdrawals == b.withdrawals
    requires after.payments == b.payments + [Taken(amount, serviceFee, true, availableAt)]
    requires after.ledger == b.ledger + Move(None, Some(Bucket.PENDING), serviceFee, EARNING(|b.payments|))
    ensures Agrees(after)
  {
    hide Balance, Move, SumOf;
    MoveBalances(b, after, None, Some(Bucket.PENDING), serviceFee, EARNING(|b.payments|));
    SumAppend(b.payments, Taken(amount, serviceFee, true, availableAt), Held);
    SumAppend(b.payments, Taken(amount, serviceFee, true, availableAt), Free);
  }

  lemma OrphanAgrees(b: Books, after: Books, amount: nat, serviceFee: nat, availableAt: int)
    requires Agrees(b) && serviceFee <= amount && after.withdrawals == b.withdrawals
    requires after.payments == b.payments + [Taken(amount, serviceFee, false, availableAt)]
    requires forall bucket :: Balance(after, bucket) == Balance(b, bucket)
    ensures Agrees(after)
  {
    hide Balance, SumOf;
    SumAppend(b.payments, Taken(amount, serviceFee, false, availableAt), Held);
    SumAppend(b.payments, Taken(amount, serviceFee, false, availableAt), Free);
  }

  lemma EarningSpent(b: Books, after: Books)
    requires |after.payments| == |b.payments| + 1
    ensures !Spent(b, EARNING(|b.payments|)) && Spent(after, EARNING(|b.payments|))
  {
  }

  lemma SameLedger(b: Books, after: Books)
    requires after.ledger == b.ledger && Grown(b, after) && KeysOnce(b.ledger) && KeysSpent(b)
    ensures forall bucket :: Balance(after, bucket) == Balance(b, bucket)
    ensures KeysOnce(after.ledger) && KeysSpent(after)
  {
    GrownKeepsSpent(b, after);
  }

  /** Reversing changes what the rows say by exactly what the ledger records. */
  lemma ReversalKeeps(b: Books, i: nat, p: Payment, amount: int, key: Key)
    requires Sound(b) && i < |b.payments| && PaymentOk(p) && PaymentGrown(b.payments[i], p)
    requires var e := b.payments[i].earning;
      p.earning == Reversed(e, amount) || p.earning == Reversed(Undisputed(e), amount)
    requires !Spent(b, key) && Spent(b.(payments := b.payments[i := p]), key)
    ensures var ledger := b.ledger + ReversalOf(b.payments[i], amount, key);
      var after := b.(payments := b.payments[i := p], ledger := ledger);
      Sound(after) && Grown(b, after)
  {
    var was, n := b.payments[i], Reversible(b.payments[i].earning, amount);
    assert PaymentOk(was);
    assert Held(p) + Free(p) == Held(was) + Free(was) - n;
    hide PaymentOk, PaymentGrown, Spent;
    if n == 0 {
      assert b.ledger + ReversalOf(was, amount, key) == b.ledger;
      QuietChange(b, i, p);
    } else {
      SpentReadsRows(b.(payments := b.payments[i := p]),
        b.(payments := b.payments[i := p], ledger := b.ledger + ReversalOf(was, amount, key)), key);
      RecordedChange(b, i, p, BucketOf(was.earning.value), None, n, key);
    }
  }

  lemma SpentReadsRows(b: Books, c: Books, key: Key)
    requires b.payments == c.payments && b.withdrawals == c.withdrawals
    ensures Spent(b, key) == Spent(c, key)
  {
  }

  lemma RefundFailureKeeps(b: Books, i: nat, r: nat)
    requires Sound(b) && i < |b.payments| && RefundPending(b.payments[i], r)
    ensures var after := SettleRefund(b, i, r, false).books; Sound(after) && Grown(b, after)
  {
    assert PaymentOk(b.payments[i]);
    RefundFailedKeeps(b.payments[i], r);
    hide PaymentOk;
    QuietChange(b, i, RefundFailed(b.payments[i], r));
  }

  lemma RefundSuccessKeeps(b: Books, i: nat, r: nat)
    requires Sound(b) && i < |b.payments| && RefundPending(b.payments[i], r)
    ensures var after := SettleRefund(b, i, r, true).books; Sound(after) && Grown(b, after)
  {
    var p := b.payments[i];
    assert PaymentOk(p);
    RefundSucceededKeeps(p, r);
    var after := RefundSucceeded(p, r);
    assert after.refunds == p.refunds[r := after.refunds[r]];
    assert p.earning.Some? ==> after.earning.Some?;
    assert PaymentGrown(p, after);
    hide PaymentOk, PaymentGrown, Reversed, Reversible, ReversalOf;
    ReversalKeeps(b, i, after, p.refunds[r].serviceFee, REFUND(i, r));
  }

  lemma DisputeKeeps(b: Books, i: nat)
    requires Sound(b) && i < |b.payments|
    ensures var after := DisputeOpened(b, i).books; Sound(after) && Grown(b, after)
    ensures b.payments[i].status == DISPUTED ==>
      var after := DisputeClosed(b, i, false).books; Sound(after) && Grown(b, after)
  {
    var p := b.payments[i];
    assert PaymentOk(p);
    DisputesKeep(p);
    hide PaymentOk;
    QuietChange(b, i, OpenDispute(p));
    if p.status == DISPUTED {
      QuietChange(b, i, DisputeWon(p));
    }
  }

  lemma DisputeLostKeeps(b: Books, i: nat)
    requires Sound(b) && i < |b.payments| && b.payments[i].status == DISPUTED
    ensures var after := DisputeClosed(b, i, true).books; Sound(after) && Grown(b, after)
  {
    var p := b.payments[i];
    assert PaymentOk(p) && p.lost.None?;
    DisputesKeep(p);
    hide PaymentOk;
    ReversalKeeps(b, i, DisputeLost(p), if p.earning.Some? then p.earning.value.net else 0, DISPUTE(i));
  }

  lemma ReleaseKeeps(b: Books, i: nat, now: int)
    requires Sound(b) && Release(b, i, now).Moved?
    ensures var after := Release(b, i, now).books; Sound(after) && Grown(b, after)
  {
    var p := b.payments[i];
    assert PaymentOk(p) && PaymentOk(Released(p, now));
    hide PaymentOk;
    if Left(p) > 0 {
      RecordedChange(b, i, Released(p, now), Bucket.PENDING, Some(Bucket.AVAILABLE), Left(p), RELEASE(i));
    } else {
      assert b.ledger + [] == b.ledger;
      QuietChange(b, i, Released(p, now));
    }
  }

  lemma ReserveKeeps(b: Books, amount: nat, key: string, min: nat)
    requires Sound(b) && Reserve(b, amount, key, min).Moved?
    ensures var after := Reserve(b, amount, key, min).books; Sound(after) && Grown(b, after)
  {
    hide Balance, Move, RowsOk, Agrees, Grown, KeysOnce, KeysSpent, Spent, HasKey;
    var after := Reserve(b, amount, key, min).books;
    if HasKey(b, key) {
      GrownAlready(b);
    } else {
      OneWithdrawalMore(b, after, amount, key);
      ReserveSpent(b, after);
      MoveKeys(b, after, Some(Bucket.AVAILABLE), Some(RESERVED), amount, RESERVE(|b.withdrawals|));
      ReservedAgrees(b, after, amount, key);
    }
  }

  lemma OneWithdrawalMore(b: Books, after: Books, amount: nat, key: string)
    requires after.withdrawals == b.withdrawals + [Withdrawal(amount, key, PROCESSING)] && after.payments == b.payments
    requires RowsOk(b) && !HasKey(b, key)
    ensures Grown(b, after) && RowsOk(after)
  {
    hide PaymentOk;
  }

  lemma ReserveSpent(b: Books, after: Books)
    requires |after.withdrawals| == |b.withdrawals| + 1
    ensures !Spent(b, RESERVE(|b.withdrawals|)) && Spent(after, RESERVE(|b.withdrawals|))
  {
  }

  lemma ReservedAgrees(b: Books, after: Books, amount: nat, key: string)
    requires Agrees(b) && after.payments == b.payments
    requires after.withdrawals == b.withdrawals + [Withdrawal(amount, key, PROCESSING)]
    requires after.ledger ==
      b.ledger + Move(Some(Bucket.AVAILABLE), Some(RESERVED), amount, RESERVE(|b.withdrawals|))
    ensures Agrees(after)
  {
    hide Balance, Move, SumOf;
    MoveBalances(b, after, Some(Bucket.AVAILABLE), Some(RESERVED), amount, RESERVE(|b.withdrawals|));
    SumAppend(b.withdrawals, Withdrawal(amount, key, PROCESSING), OnItsWay);
    SumAppend(b.withdrawals, Withdrawal(amount, key, PROCESSING), PaidOut);
  }

  lemma SettleWithdrawalKeeps(b: Books, w: nat, paid: bool)
    requires Sound(b) && SettleWithdrawal(b, w, paid).Moved?
    ensures var after := SettleWithdrawal(b, w, paid).books; Sound(after) && Grown(b, after)
  {
    hide Balance, Move, RowsOk, Agrees, Grown, KeysOnce, KeysSpent, Spent;
    var after := SettleWithdrawal(b, w, paid).books;
    SettledRow(b, after, w, paid);
    MoveKeys(b, after, Some(RESERVED), Some(if paid then WITHDRAWN else Bucket.AVAILABLE), b.withdrawals[w].amount,
      if paid then Key.PAID(w) else Key.FAILED(w));
    SettledAgrees(b, after, w, paid);
  }

  lemma SettledRow(b: Books, after: Books, w: nat, paid: bool)
    requires w < |b.withdrawals| && b.withdrawals[w].status == PROCESSING && RowsOk(b) && after.payments == b.payments
    requires after.withdrawals ==
      b.withdrawals[w := b.withdrawals[w].(status := if paid then WithdrawalStatus.PAID else WithdrawalStatus.FAILED)]
    ensures Grown(b, after) && RowsOk(after)
    ensures var key := if paid then Key.PAID(w) else Key.FAILED(w); !Spent(b, key) && Spent(after, key)
  {
    hide PaymentOk;
  }

  lemma SettledAgrees(b: Books, after: Books, w: nat, paid: bool)
    requires Agrees(b) && w < |b.withdrawals| && b.withdrawals[w].status == PROCESSING && after.payments == b.payments
    requires after.withdrawals ==
      b.withdrawals[w := b.withdrawals[w].(status := if paid then WithdrawalStatus.PAID else WithdrawalStatus.FAILED)]
    requires after.ledger == b.ledger + Move(Some(RESERVED), Some(if paid then WITHDRAWN else Bucket.AVAILABLE),
      b.withdrawals[w].amount, if paid then Key.PAID(w) else Key.FAILED(w))
    ensures Agrees(after)
  {
    hide Balance, Move, SumOf;
    SumUpdate(b.withdrawals, w, after.withdrawals[w], OnItsWay);
    SumUpdate(b.withdrawals, w, after.withdrawals[w], PaidOut);
    MoveBalances(b, after, Some(RESERVED), Some(if paid then WITHDRAWN else Bucket.AVAILABLE), b.withdrawals[w].amount,
      if paid then Key.PAID(w) else Key.FAILED(w));
  }

  lemma StartRefundKeeps(b: Books, i: nat, amount: nat)
    requires Sound(b) && StartRefund(b, i, amount).Moved?
    ensures var after := StartRefund(b, i, amount).books; Sound(after) && Grown(b, after)
  {
    assert PaymentOk(b.payments[i]);
    CreateRefundKeeps(b.payments[i], amount);
    hide PaymentOk;
    QuietChange(b, i, CreateRefund(b.payments[i], amount).value);
  }

  lemma StepKeeps(b: Books, step: Step)
    requires Sound(b)
    ensures Sound(Apply(b, step)) && Grown(b, Apply(b, step))
  {
    hide Sound, Grown;
    if Attempt(b, step).Moved? {
      match step {
        case DoPayIn(amount, serviceFee, engaged, availableAt) =>
          PayInKeeps(b, amount, serviceFee, engaged, availableAt);
        case DoStartRefund(i, amount) => StartRefundKeeps(b, i, amount);
        case DoSettleRefund(i, r, ok) =>
          if ok {
            RefundSuccessKeeps(b, i, r);
          } else {
            RefundFailureKeeps(b, i, r);
          }
        case DoOpenDispute(i) => DisputeKeeps(b, i);
        case DoCloseDispute(i, lost) =>
          if lost {
            DisputeLostKeeps(b, i);
          } else {
            DisputeKeeps(b, i);
          }
        case DoRelease(i, now) => ReleaseKeeps(b, i, now);
        case DoReserve(amount, key, min) => ReserveKeeps(b, amount, key, min);
        case DoSettleWithdrawal(w, paid) => SettleWithdrawalKeeps(b, w, paid);
      }
    } else {
      GrownAlready(b);
    }
  }

  lemma {:induction false} RunKeeps(b: Books, steps: seq<Step>)
    requires Sound(b)
    ensures Sound(Run(b, steps))
  {
    if steps != [] {
      RunKeeps(b, steps[..|steps| - 1]);
      StepKeeps(Run(b, steps[..|steps| - 1]), steps[|steps| - 1]);
    }
  }
}
