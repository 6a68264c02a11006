/** Stripe's events about one wallet: a delivery is looked up, applied and recorded as handled in three separate
  * steps, any of which other deliveries and other changes may come between. */
module Webhooks {
  import H = WalletHistory
  import R = Refunds
  import S = WalletSafety
  import W = Wallets

  /** What an event tells: the refund, the payment or the withdrawal it is about. */
  datatype Notice =
    | RefundEnded(i: nat, r: nat, ok: bool)
    | DisputeCreated(i: nat)
    | DisputeDecided(i: nat, lost: bool)
    | PayoutEnded(w: nat, paid: bool)

  datatype Event = Event(id: nat, notice: Notice)

  /** The change to the wallet it asks for. */
  function Change(notice: Notice): W.Step {
    match notice
    case RefundEnded(i, r, ok) => W.DoSettleRefund(i, r, ok)
    case DisputeCreated(i) => W.DoOpenDispute(i)
    case DisputeDecided(i, lost) => W.DoCloseDispute(i, lost)
    case PayoutEnded(w, paid) => W.DoSettleWithdrawal(w, paid)
  }

  /** CHECKED: the event was not recorded when the delivery looked. ANSWERED: recorded, or failed. */
  datatype Phase = CHECKED | APPLIED | ANSWERED

  datatype Delivery = Delivery(event: Event, phase: Phase)

  /** `recorded`: the ids of the events recorded as handled. */
  datatype Desk = Desk(books: W.Books, recorded: set<nat>, deliveries: seq<Delivery>)

  /** `Else` is any change that does not come from an event; nothing else opens or closes a dispute. */
  datatype Step =
    | Arrive(event: Event) | Work(d: nat) | Record(d: nat) | Throw(d: nat) | Else(change: W.Step)

  const START := Desk(W.EMPTY, {}, [])

  predicate At(desk: Desk, d: nat, phase: Phase) { d < |desk.deliveries| && desk.deliveries[d].phase == phase }

  function To(desk: Desk, d: nat, phase: Phase): Desk
    requires d < |desk.deliveries|
  {
    desk.(deliveries := desk.deliveries[d := desk.deliveries[d].(phase := phase)])
  }

  predicate IsDispute(change: W.Step) { change.DoOpenDispute? || change.DoCloseDispute? }

  function Apply(desk: Desk, step: Step): Desk {
    match step
    case Arrive(event) =>
      if event.id in desk.recorded then desk
      else desk.(deliveries := desk.deliveries + [Delivery(event, CHECKED)])
    case Work(d) =>
      if !At(desk, d, CHECKED) then desk
      else To(desk, d, APPLIED).(books := W.Apply(desk.books, Change(desk.deliveries[d].event.notice)))
    case Record(d) =>
      if !At(desk, d, APPLIED) then desk
      else To(desk, d, ANSWERED).(recorded := desk.recorded + {desk.deliveries[d].event.id})
    case Throw(d) => if d < |desk.deliveries| then To(desk, d, ANSWERED) else desk
    case Else(change) => if IsDispute(change) then desk else desk.(books := W.Apply(desk.books, change))
  }

  function Run(desk: Desk, steps: seq<Step>): Desk {
    if steps == [] then desk else Apply(Run(desk, steps[..|steps| - 1]), steps[|steps| - 1])
  }

  // ── What a run does to the books ────────────────────────────────────────────────────────────

  function ChangesOf(desk: Desk, step: Step): seq<W.Step> {
    match step
    case Work(d) => if At(desk, d, CHECKED) then [Change(desk.deliveries[d].event.notice)] else []
    case Else(change) => if IsDispute(change) then [] else [change]
    case _ => []
  }

  /** The changes to the wallet in a run, in order. */
  function Changes(desk: Desk, steps: seq<Step>): seq<W.Step> {
    if steps == [] then []
    else
      var rest := steps[..|steps| - 1];
      Changes(desk, rest) + ChangesOf(Run(desk, rest), steps[|steps| - 1])
  }

  lemma {:induction false} BooksOfRun(desk: Desk, steps: seq<Step>)
    ensures Run(desk, steps).books == W.Run(desk.books, Changes(desk, steps))
  {
    if steps != [] {
      var rest, last := steps[..|steps| - 1], steps[|steps| - 1];
      BooksOfRun(desk, rest);
      BooksOfStep(Run(desk, rest), last);
      RunOneMore(desk.books, Changes(desk, rest), ChangesOf(Run(desk, rest), last));
      hide W.Run, Apply, ChangesOf;
    }
  }

  lemma BooksOfStep(desk: Desk, step: Step)
    ensures var more := ChangesOf(desk, step);
      |more| <= 1 && Apply(desk, step).books == if more == [] then desk.books else W.Apply(desk.books, more[0])
  {
    hide W.Apply;
  }

  lemma RunOneMore(b: W.Books, changes: seq<W.Step>, more: seq<W.Step>)
    requires |more| <= 1
    ensures W.Run(b, changes + more) == if more == [] then W.Run(b, changes) else W.Apply(W.Run(b, changes), more[0])
  {
    hide W.Apply;
    if more == [] {
      assert changes + more == changes;
    } else {
      assert (changes + more)[..|changes|] == changes && (changes + more)[|changes|] == more[0];
    }
  }

  /** So whatever events come, and however they are delivered, the wallet is sound. */
  lemma DeskSound(steps: seq<Step>)
    ensures W.Sound(Run(START, steps).books)
  {
    hide W.Sound, W.Run, Run, Changes;
    BooksOfRun(START, steps);
    S.ReachedSound(Changes(START, steps));
  }

  // ── Recorded events ─────────────────────────────────────────────────────────────────────────

  /** Recorded, and no delivery of it is past the check and not yet applied. */
  ghost predicate Over(desk: Desk, id: nat) {
    id in desk.recorded && forall d :: 0 <= d < |desk.deliveries| && desk.deliveries[d].event.id == id ==>
      desk.deliveries[d].phase != CHECKED
  }

  lemma StepStaysOver(desk: Desk, step: Step, id: nat)
    requires Over(desk, id)
    ensures Over(Apply(desk, step), id)
  {
    hide W.Apply;
  }

  /** An event recorded with no delivery of it under way is never applied again, whatever its kind and however
    * often it is delivered. */
  lemma {:induction false} RecordedIsOver(desk: Desk, more: seq<Step>, event: Event)
    requires Over(desk, event.id)
    ensures var later := Run(desk, more);
      && Over(later, event.id) && Apply(later, Arrive(event)) == later
      && forall d: nat :: d < |later.deliveries| && later.deliveries[d].event.id == event.id ==>
           Apply(later, Work(d)) == later
  {
    if more != [] {
      RecordedIsOver(desk, more[..|more| - 1], event);
      StepStaysOver(Run(desk, more[..|more| - 1]), more[|more| - 1], event.id);
    }
  }

  /** A delivery there is after a run was there before it, or arrived in it when its event was not recorded. */
  lemma {:induction false} ArrivedUnrecorded(desk: Desk, more: seq<Step>, f: nat)
    requires f < |Run(desk, more).deliveries|
    ensures f < |desk.deliveries|
         || exists m :: 0 <= m < |more| &&
              ArrivesNew(Run(desk, more[..m]), more[m], Run(desk, more).deliveries[f].event)
  {
    if more != [] {
      var n := |more| - 1;
      var rest := Run(desk, more[..n]);
      hide W.Apply, Run;
      SameEvents(desk, more, f);
      if f < |rest.deliveries| {
        ArrivedUnrecorded(desk, more[..n], f);
        if f >= |desk.deliveries| {
          var m :| 0 <= m < n && ArrivesNew(Run(desk, more[..n][..m]), more[..n][m], rest.deliveries[f].event);
          assert more[..n][..m] == more[..m];
        }
      } else {
        assert ArrivesNew(rest, more[n], Run(desk, more).deliveries[f].event);
      }
    }
  }

  predicate ArrivesNew(desk: Desk, step: Step, event: Event) {
    step == Arrive(event) && event.id !in desk.recorded
  }

  /** The last step leaves every delivery's event as it is, and adds one only as it arrives. */
  lemma SameEvents(desk: Desk, more: seq<Step>, f: nat)
    requires more != [] && f < |Run(desk, more).deliveries|
    ensures var rest, after := Run(desk, more[..|more| - 1]), Run(desk, more);
      if f < |rest.deliveries| then after.deliveries[f].event == rest.deliveries[f].event
      else ArrivesNew(rest, more[|more| - 1], after.deliveries[f].event)
  {
    hide W.Apply;
  }

  /** A delivery of the event makes its change. */
  predicate Works(desk: Desk, step: Step, id: nat) {
    step.Work? && At(desk, step.d, CHECKED) && desk.deliveries[step.d].event.id == id
  }

  /** Some delivery of it has. */
  ghost predicate Worked(steps: seq<Step>, id: nat) {
    exists m :: 0 <= m < |steps| && Works(Run(START, steps[..m]), steps[m], id)
  }

  lemma StillWorked(steps: seq<Step>, id: nat)
    requires steps != [] && Worked(steps[..|steps| - 1], id)
    ensures Worked(steps, id)
  {
    var rest := steps[..|steps| - 1];
    var m :| 0 <= m < |rest| && Works(Run(START, rest[..m]), rest[m], id);
    assert rest[..m] == steps[..m];
  }

  lemma StepRecordsWorked(desk: Desk, step: Step, id: nat)
    ensures var after := Apply(desk, step);
      && (id in after.recorded ==> id in desk.recorded || (step.Record? && HasApplied(desk, id)))
      && (HasApplied(after, id) ==> HasApplied(desk, id) || Works(desk, step, id))
  {
    hide W.Apply;
    if HasApplied(Apply(desk, step), id) && !Works(desk, step, id) {
      var d :| 0 <= d < |Apply(desk, step).deliveries| && Applied(Apply(desk, step).deliveries[d], id);
      assert Applied(desk.deliveries[d], id);
    }
    if step.Record? && At(desk, step.d, APPLIED) && desk.deliveries[step.d].event.id == id {
      assert Applied(desk.deliveries[step.d], id);
    }
  }

  predicate Applied(delivery: Delivery, id: nat) { delivery.event.id == id && delivery.phase == APPLIED }

  ghost predicate HasApplied(desk: Desk, id: nat) {
    exists d :: 0 <= d < |desk.deliveries| && Applied(desk.deliveries[d], id)
  }

  /** An event is recorded only once a delivery of it has made its change. */
  lemma {:induction false} RecordedWasWorked(steps: seq<Step>, id: nat)
    requires id in Run(START, steps).recorded || HasApplied(Run(START, steps), id)
    ensures Worked(steps, id)
  {
    hide Worked, Works, Apply, HasApplied;
    NothingRecordedYet(id);
    var n := |steps| - 1;
    StepRecordsWorked(Run(START, steps[..n]), steps[n], id);
    if Works(Run(START, steps[..n]), steps[n], id) {
      JustWorked(steps, id);
    } else {
      RecordedWasWorked(steps[..n], id);
      StillWorked(steps, id);
    }
  }

  lemma NothingRecordedYet(id: nat)
    ensures id !in Run(START, []).recorded && !HasApplied(Run(START, []), id)
  {
  }

  lemma JustWorked(steps: seq<Step>, id: nat)
    requires steps != [] && Works(Run(START, steps[..|steps| - 1]), steps[|steps| - 1], id)
    ensures Worked(steps, id)
  {
  }

  // ── The books say what the event said ───────────────────────────────────────────────────────

  /** The row the event is about stands as it tells. */
  predicate Says(b: W.Books, notice: Notice) {
    match notice
    case RefundEnded(i, r, ok) =>
      i < |b.payments| && r < |b.payments[i].refunds|
      && b.payments[i].refunds[r].status == if ok then R.RefundStatus.SUCCEEDED else R.RefundStatus.FAILED
    case PayoutEnded(w, paid) =>
      w < |b.withdrawals|
      && b.withdrawals[w].status == if paid then W.WithdrawalStatus.PAID else W.WithdrawalStatus.FAILED
    case DisputeCreated(i) => S.OpenedAlready(b, i)
    case DisputeDecided(i, lost) =>
      i < |b.payments| && b.payments[i].status != R.DISPUTED && (b.payments[i].lost.Some? <==> lost)
  }

  /** An event that does something leaves the books saying what it told. */
  lemma WorkedSays(desk: Desk, d: nat)
    requires W.Sound(desk.books) && At(desk, d, CHECKED)
    requires W.Attempt(desk.books, Change(desk.deliveries[d].event.notice)).Moved?
    ensures Says(Apply(desk, Work(d)).books, desk.deliveries[d].event.notice)
  {
    var b, notice := desk.books, desk.deliveries[d].event.notice;
    match notice {
      case DisputeCreated(i) => S.JustOpened(b, i);
      case DisputeDecided(i, _) => H.PaymentIsOk(b, i);
      case _ =>
    }
    hide W.Sound, W.Balance;
  }

  lemma StaysSaid(b: W.Books, notice: Notice, changes: seq<W.Step>)
    requires W.Sound(b) && Says(b, notice) && (notice.RefundEnded? || notice.PayoutEnded?)
    ensures Says(W.Run(b, changes), notice)
    decreases |changes|
  {
    if changes != [] {
      var rest := changes[..|changes| - 1];
      StaysSaid(b, notice, rest);
      W.RunKeeps(b, rest);
      W.StepKeeps(W.Run(b, rest), changes[|changes| - 1]);
      GrownStaysSaid(W.Run(b, rest), W.Run(b, changes), notice);
      hide W.Sound, W.Apply, Says;
    }
  }

  lemma GrownStaysSaid(b: W.Books, after: W.Books, notice: Notice)
    requires W.Grown(b, after) && Says(b, notice) && (notice.RefundEnded? || notice.PayoutEnded?)
    ensures Says(after, notice)
  {
    match notice {
      case RefundEnded(i, r, _) => assert W.PaymentGrown(b.payments[i], after.payments[i]);
      case PayoutEnded(w, _) => assert W.WithdrawalGrown(b.withdrawals[w], after.withdrawals[w]);
    }
  }

  /** What was told of a refund or a payout stays so in any continuation. */
  lemma SaysForGood(desk: Desk, d: nat, more: seq<Step>)
    requires W.Sound(desk.books) && At(desk, d, CHECKED)
    requires desk.deliveries[d].event.notice.RefundEnded? || desk.deliveries[d].event.notice.PayoutEnded?
    requires W.Attempt(desk.books, Change(desk.deliveries[d].event.notice)).Moved?
    ensures Says(Run(Apply(desk, Work(d)), more).books, desk.deliveries[d].event.notice)
  {
    hide W.Sound, W.Attempt, W.Apply, Says;
    WorkedSays(desk, d);
    W.StepKeeps(desk.books, Change(desk.deliveries[d].event.notice));
    BooksOfRun(Apply(desk, Work(d)), more);
    StaysSaid(Apply(desk, Work(d)).books, desk.deliveries[d].event.notice, Changes(Apply(desk, Work(d)), more));
  }

  // ── An event applied twice ──────────────────────────────────────────────────────────────────

  /** What the event did, if it did something, is still in place: nothing undoes a refund's or a payout's end,
    * but a dispute created may be decided since, and one decided created anew. */
  predicate StillDone(b: W.Books, notice: Notice) {
    match notice
    case DisputeCreated(i) => S.OpenedAlready(b, i)
    case DisputeDecided(i, _) => i < |b.payments| && b.payments[i].status != R.DISPUTED
    case _ => true
  }

  /** Such a change was made: a decision after a creation, or a creation after a decision. */
  predicate Undoes(change: W.Step, notice: Notice) {
    match notice
    case DisputeCreated(i) => S.IsClosing(change, i)
    case DisputeDecided(i, _) => S.IsOpening(change, i)
    case _ => false
  }

  lemma AgainOnBooks(b: W.Books, notice: Notice, changes: seq<W.Step>)
    requires W.Sound(b) && W.Attempt(b, Change(notice)).Moved?
    ensures var later := W.Run(W.Apply(b, Change(notice)), changes);
      && (W.Apply(later, Change(notice)) == later <==> StillDone(later, notice))
      && (StillDone(later, notice) || exists change :: change in changes && Undoes(change, notice))
  {
    var after := W.Apply(b, Change(notice));
    W.StepKeeps(b, Change(notice));
    W.RunKeeps(after, changes);
    match notice {
      case DisputeCreated(i) => CreatedAgain(b, i, changes);
      case DisputeDecided(i, lost) => DecidedAgain(b, i, lost, changes);
      case _ =>
        hide W.Attempt, W.Apply, W.Sound;
        S.DoingItMakesItHappen(b, Change(notice));
        S.HappenedThroughRun(after, Change(notice), changes);
        S.OnceIsEnough(W.Run(after, changes), Change(notice));
    }
  }

  lemma CreatedAgain(b: W.Books, i: nat, changes: seq<W.Step>)
    requires W.Sound(b) && W.Has(b, i)
    ensures var later := W.Run(W.Apply(b, W.DoOpenDispute(i)), changes);
      && (W.Apply(later, W.DoOpenDispute(i)) == later <==> S.OpenedAlready(later, i))
      && (S.OpenedAlready(later, i) || exists change :: change in changes && S.IsClosing(change, i))
  {
    var after := W.Apply(b, W.DoOpenDispute(i));
    S.JustOpened(b, i);
    W.StepKeeps(b, W.DoOpenDispute(i));
    hide W.Apply, W.Sound, S.OpenedAlready;
    S.StaysThere(after, i, changes);
    S.OpeningChangesNothingExactly(W.Run(after, changes), i);
    if forall change :: change in changes ==> !S.IsClosing(change, i) {
      S.StaysOpened(after, i, changes);
    }
  }

  lemma DecidedAgain(b: W.Books, i: nat, lost: bool, changes: seq<W.Step>)
    requires W.Has(b, i) && b.payments[i].status == R.DISPUTED
    ensures var later := W.Run(W.Apply(b, W.DoCloseDispute(i, lost)), changes);
      && W.Has(later, i)
      && (W.Apply(later, W.DoCloseDispute(i, lost)) == later <==> later.payments[i].status != R.DISPUTED)
      && (later.payments[i].status != R.DISPUTED || exists change :: change in changes && S.IsOpening(change, i))
  {
    var after := W.Apply(b, W.DoCloseDispute(i, lost));
    S.JustClosed(b, i, lost);
    hide W.Apply;
    S.StaysThere(after, i, changes);
    S.ClosingAgainExactly(W.Run(after, changes), i, lost);
    if forall change :: change in changes ==> !S.IsOpening(change, i) {
      S.StaysClosed(after, i, changes);
    }
  }

  /** Two deliveries of one event, the first of which did something, whatever came between: the second changes
    * the books exactly when what the first did is no longer in place, and then a dispute was decided, or
    * created anew, in between. */
  lemma WorkedTwiceExactly(desk: Desk, d: nat, more: seq<Step>, f: nat)
    requires W.Sound(desk.books) && At(desk, d, CHECKED)
    requires W.Attempt(desk.books, Change(desk.deliveries[d].event.notice)).Moved?
    requires At(Run(Apply(desk, Work(d)), more), f, CHECKED)
    requires Run(Apply(desk, Work(d)), more).deliveries[f].event == desk.deliveries[d].event
    ensures var notice, worked := desk.deliveries[d].event.notice, Apply(desk, Work(d));
      var later := Run(worked, more);
      && (Apply(later, Work(f)).books == later.books <==> StillDone(later.books, notice))
      && (StillDone(later.books, notice) ||
          exists change :: change in Changes(worked, more) && Undoes(change, notice))
  {
    hide W.Apply, W.Sound, W.Attempt, StillDone, Undoes;
    var worked := Apply(desk, Work(d));
    BooksOfRun(worked, more);
    AgainOnBooks(desk.books, desk.deliveries[d].event.notice, Changes(worked, more));
  }

  // ── One delivery after another ──────────────────────────────────────────────────────────────

  /** A whole delivery with nothing in between. `ok`: every service went through and the event is recorded;
    * else one of them failed after the change was made, and nothing is. */
  function Deliver(desk: Desk, event: Event, ok: bool): Desk {
    if event.id in desk.recorded then desk
    else
      var d := |desk.deliveries|;
      var worked := Apply(Apply(desk, Arrive(event)), Work(d));
      Apply(worked, if ok then Record(d) else Throw(d))
  }

  lemma DeliverBooks(desk: Desk, event: Event, ok: bool)
    requires event.id !in desk.recorded
    ensures Deliver(desk, event, ok).books == W.Apply(desk.books, Change(event.notice))
    ensures Deliver(desk, event, ok).recorded == desk.recorded + if ok then {event.id} else {}
  {
    hide W.Apply;
  }

  lemma {:induction false} StaysRecorded(desk: Desk, more: seq<Step>)
    ensures desk.recorded <= Run(desk, more).recorded
  {
    if more != [] {
      StaysRecorded(desk, more[..|more| - 1]);
      hide W.Apply;
    }
  }

  /** An event that did something, delivered again after anything at all, changes nothing exactly when it was
    * recorded, at its first delivery or since, or what it did is still in place. */
  lemma DeliveredAgainExactly(desk: Desk, event: Event, ok: bool, more: seq<Step>, again: bool)
    requires W.Sound(desk.books) && event.id !in desk.recorded
    requires W.Attempt(desk.books, Change(event.notice)).Moved?
    ensures var first := Deliver(desk, event, ok);
      var later := Run(first, more);
      && (Deliver(later, event, again).books == later.books <==>
            event.id in later.recorded || StillDone(later.books, event.notice))
      && (ok ==> event.id in later.recorded)
      && (StillDone(later.books, event.notice) ||
          exists change :: change in Changes(first, more) && Undoes(change, event.notice))
  {
    hide W.Apply, W.Sound, W.Attempt, StillDone, Undoes, Deliver;
    var first := Deliver(desk, event, ok);
    DeliverBooks(desk, event, ok);
    StaysRecorded(first, more);
    BooksOfRun(first, more);
    AgainOnBooks(desk.books, event.notice, Changes(first, more));
    if event.id in Run(first, more).recorded {
      Known(Run(first, more), event, again);
    } else {
      DeliverBooks(Run(first, more), event, again);
    }
  }

  lemma Known(desk: Desk, event: Event, ok: bool)
    requires event.id in desk.recorded
    ensures Deliver(desk, event, ok) == desk
  {
  }

  // ── It does happen ──────────────────────────────────────────────────────────────────────────

  /** A payment that engaged its request, as the first thing at the desk. */
  function Paid(amount: nat, serviceFee: nat, availableAt: int): Desk {
    Apply(START, Else(W.DoPayIn(amount, serviceFee, true, availableAt)))
  }

  lemma ClosedBooks(amount: nat, serviceFee: nat, availableAt: int)
    requires serviceFee <= amount
    ensures var b := Paid(amount, serviceFee, availableAt).books;
      var closed := W.Apply(W.Apply(b, W.DoOpenDispute(0)), W.DoCloseDispute(0, false));
      W.Apply(closed, W.DoOpenDispute(0)) != closed
  {
    var steps := [W.DoPayIn(amount, serviceFee, true, availableAt), W.DoOpenDispute(0), W.DoCloseDispute(0, false)];
    hide W.Apply;
    S.ReopeningCanChange(amount, serviceFee, availableAt);
    assert steps[..0] == [] && steps[..3] == steps;
    S.Unrolled(steps, 1);
    S.Unrolled(steps, 2);
    S.Unrolled(steps, 3);
  }

  /** A creation whose delivery failed after it was applied: the dispute is won, and the retry opens it again. */
  lemma RetriedAfterTheDecision(amount: nat, serviceFee: nat, availableAt: int, created: nat, decided: nat)
    requires serviceFee <= amount && created != decided
    ensures var failed := Deliver(Paid(amount, serviceFee, availableAt), Event(created, DisputeCreated(0)), false);
      var closed := Deliver(failed, Event(decided, DisputeDecided(0, false)), true);
      Deliver(closed, Event(created, DisputeCreated(0)), true).books != closed.books
  {
    var e, c := Event(created, DisputeCreated(0)), Event(decided, DisputeDecided(0, false));
    var paid := Paid(amount, serviceFee, availableAt);
    ClosedBooks(amount, serviceFee, availableAt);
    hide Deliver, W.Apply;
    DeliverBooks(paid, e, false);
    DeliverBooks(Deliver(paid, e, false), c, true);
    DeliverBooks(Deliver(Deliver(paid, e, false), c, true), e, true);
  }

  /** A creation delivered twice at once: both are past the check before either records it, so the second opens
    * the dispute again although the event is recorded by then. */
  lemma AppliedThoughRecorded(amount: nat, serviceFee: nat, availableAt: int, created: nat, decided: nat)
    requires serviceFee <= amount && created != decided
    ensures var e, c := Event(created, DisputeCreated(0)), Event(decided, DisputeDecided(0, false));
      var two := Run(Paid(amount, serviceFee, availableAt), [Arrive(e), Arrive(e), Work(0), Record(0)]);
      var closed := Deliver(two, c, true);
      created in closed.recorded && Apply(closed, Work(1)).books != closed.books
  {
    var e, c := Event(created, DisputeCreated(0)), Event(decided, DisputeDecided(0, false));
    var paid := Paid(amount, serviceFee, availableAt);
    ClosedBooks(amount, serviceFee, availableAt);
    hide W.Apply;
    BothChecked(paid, e);
    var two := Run(paid, [Arrive(e), Arrive(e), Work(0), Record(0)]);
    DeliverBooks(two, c, true);
    assert Deliver(two, c, true).deliveries[1] == Delivery(e, CHECKED);
  }

  lemma BothChecked(desk: Desk, e: Event)
    requires desk.deliveries == [] && desk.recorded == {}
    ensures Run(desk, [Arrive(e), Arrive(e), Work(0), Record(0)]) ==
      Desk(W.Apply(desk.books, Change(e.notice)), {e.id}, [Delivery(e, ANSWERED), Delivery(e, CHECKED)])
  {
    hide W.Apply;
    var steps := [Arrive(e), Arrive(e), Work(0), Record(0)];
    assert steps[..3][..2] == [Arrive(e), Arrive(e)] && steps[..3][..2][..1] == [Arrive(e)];
    assert steps[..3] == [Arrive(e), Arrive(e), Work(0)];
    assert Run(desk, []) == desk;
    assert Run(desk, [Arrive(e)]) == desk.(deliveries := [Delivery(e, CHECKED)]);
    assert Run(desk, [Arrive(e), Arrive(e)]) == desk.(deliveries := [Delivery(e, CHECKED), Delivery(e, CHECKED)]);
  }
}
