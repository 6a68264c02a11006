/** Where the rows of a request come from: what a place, a quotation, a payment or the request itself says of how
  * it went was done by a step of the run, at the time the row gives. */
module HandoffHistory {
  import opened Options
  import opened PlatformFee
  import opened Handoff
  import opened HandoffInvariants
  import opened HandoffSafety

  // ── What each step does to a row ────────────────────────────────────────────────────────────

  /** Ends place `k` in that outcome at that time. */
  predicate Ends(step: Step, k: nat, outcome: Outcome, at: Option<Time>) {
    match outcome
    case RELEASED => (step.DoRelease? || step.DoWithdrawQuotation?) && step.k == k && at == Some(step.now)
    case LAPSED => step.DoLapse? && step.k == k && at == Some(step.now)
    case DECLINED => step.DoDecline? && step.k == k && at == Some(step.now)
    case WITHDRAWN => step.DoWithdraw? && at == Some(step.now)
    case ENGAGED => (step.DoEngageUnpaid? || step.DoSettlePayment?) && step.k == k
    case NOT_CHOSEN =>
      && (((step.DoExpireSent? || step.DoExpireAccepted?) && step.k == k) || (step.DoAccept? && step.k != k)
          || step.DoExpire?)
      && at == Some(step.now)
  }

  /** Brings quotation `k` into that status. */
  predicate Makes(step: Step, k: nat, status: Quote) {
    match status
    case DRAFT => step.DoSaveDraft? && step.k == k
    case SENT => (step.DoSend? || step.DoSaveAndSend?) && step.k == k
    case ACCEPTED => step.DoAccept? && step.k == k
    case PAID => (step.DoEngageUnpaid? || step.DoSettlePayment?) && step.k == k
    case REJECTED => step.DoDecline? && step.k == k
    case WITHDRAWN =>
      step.DoWithdraw? || ((step.DoRelease? || step.DoLapse? || step.DoWithdrawQuotation?) && step.k == k)
    case EXPIRED => step.DoExpire? || ((step.DoExpireSent? || step.DoExpireAccepted?) && step.k == k)
    case NOT_CHOSEN => step.DoAccept? && step.k != k
  }

  /** Saves quotation `k` for that amount and time. */
  predicate Drafts(step: Step, k: nat, amount: nat, expiresAt: Time) {
    (step.DoSaveDraft? || step.DoSaveAndSend?) && step.k == k && step.amount == amount && step.expiresAt == expiresAt
  }

  /** Splits quotation `k` between platform and lawyer by the terms of the moment. */
  predicate Prices(step: Step, k: nat, q: Quotation) {
    && (step.DoSaveDraft? || step.DoSend? || step.DoSaveAndSend?) && step.k == k
    && SplitFor(q.amount, step.terms, q.amount - q.serviceFee, q.serviceFee)
  }

  /** Sends quotation `k` then, split by the terms of the moment. */
  predicate Sends(step: Step, k: nat, q: Quotation) {
    && (step.DoSend? || step.DoSaveAndSend?) && step.k == k && q.sentAt == Some(step.now)
    && SplitFor(q.amount, step.terms, q.amount - q.serviceFee, q.serviceFee)
  }

  /** Brings attempt `p` at paying quotation `k` into that status. */
  predicate Attempts(step: Step, k: nat, p: nat, a: Payment) {
    match a.status
    case PENDING => step.DoStartPayment? && step.k == k && step.now == a.startedAt
    case SUCCEEDED => step.DoSettlePayment? && step.k == k && step.p == p
    case FAILED => step == DoEndPayment(k, p, true)
    case CANCELED => step == DoEndPayment(k, p, false) || (step.DoExpireAccepted? && step.k == k)
  }

  // ── One step ────────────────────────────────────────────────────────────────────────────────

  predicate AttemptTold(was: Option<Payment>, a: Payment, step: Step, k: nat, p: nat) {
    || (was.Some? && was.value.status == a.status && was.value.startedAt == a.startedAt)
    || (Attempts(step, k, p, a) && (was.Some? ==> was.value.startedAt == a.startedAt)
        && (was.None? ==> a.status == PaymentStatus.PENDING))
  }

  function AttemptAt(q: Option<Quotation>, p: nat): Option<Payment> {
    if q.Some? && p < |q.value.payments| then Some(q.value.payments[p]) else None
  }

  predicate SameTerms(was: Quotation, q: Quotation) {
    was.sentAt == q.sentAt && was.amount == q.amount && was.serviceFee == q.serviceFee
  }

  /** Whatever the quotation says now it said before, or the step did it. */
  ghost predicate QuoteTold(was: Option<Quotation>, q: Quotation, step: Step, k: nat) {
    && ((was.Some? && was.value.status == q.status) || Makes(step, k, q.status))
    && ((was.Some? && was.value.amount == q.amount && was.value.expiresAt == q.expiresAt)
        || Drafts(step, k, q.amount, q.expiresAt))
    && ((was.Some? && was.value.amount == q.amount && was.value.serviceFee == q.serviceFee) || Prices(step, k, q))
    && (q.sentAt.Some? ==> (was.Some? && SameTerms(was.value, q)) || Sends(step, k, q))
    && (q.acceptedAt.Some? ==>
          || (was.Some? && was.value.acceptedAt == q.acceptedAt)
          || (step.DoAccept? && step.k == k && q.acceptedAt == Some(step.now)))
    && (q.paidAt.Some? ==>
          || (was.Some? && was.value.paidAt == q.paidAt)
          || ((step.DoEngageUnpaid? || step.DoSettlePayment?) && step.k == k && q.paidAt == Some(step.now)))
    && forall p :: 0 <= p < |q.payments| ==> AttemptTold(AttemptAt(was, p), q.payments[p], step, k, p)
  }

  /** So with the place. */
  ghost predicate Told(c: Claim, d: Claim, step: Step, k: nat) {
    && d.lawyer == c.lawyer && d.claimedAt == c.claimedAt
    && (d.outcome.Some? ==>
          (d.outcome == c.outcome && d.endedAt == c.endedAt) || Ends(step, k, d.outcome.value, d.endedAt))
    && (d.quotation.Some? ==> QuoteTold(c.quotation, d.quotation.value, step, k))
  }

  lemma SameTold(c: Claim, step: Step, k: nat)
    ensures Told(c, c, step, k)
  {
  }

  lemma EndTold(c: Claim, outcome: Outcome, status: Quote, now: Time, step: Step, k: nat)
    requires Ends(step, k, outcome, Some(now)) && Makes(step, k, status)
    ensures Told(c, End(c, outcome, status, now), step, k)
  {
    hide Makes, Ends, Drafts, Prices, Sends, QuoteTold;
    if c.quotation.Some? {
      var q := c.quotation.value;
      StatusTold(q, status, step, k);
      QuoteStays(q, step, k);
    }
  }

  lemma StatusTold(q: Quotation, status: Quote, step: Step, k: nat)
    requires Makes(step, k, status)
    ensures QuoteTold(Some(q), q.(status := status), step, k)
  {
    hide Makes, Drafts, Prices, Sends;
  }

  lemma QuoteStays(q: Quotation, step: Step, k: nat)
    ensures QuoteTold(Some(q), q, step, k)
  {
    hide Makes, Drafts, Prices, Sends;
  }

  lemma PricedTold(q: Quotation, step: Step, k: nat)
    requires (step.DoSaveDraft? || step.DoSend? || step.DoSaveAndSend?) && step.k == k
    requires q.serviceFee == Price(q.amount, step.terms).serviceFee
    ensures Prices(step, k, q)
    ensures (step.DoSend? || step.DoSaveAndSend?) && q.sentAt == Some(step.now) ==> Sends(step, k, q)
  {
    var terms := step.terms;
    PriceIsTheSplit(q.amount, terms, q.amount - q.serviceFee, q.serviceFee);
    hide SplitFor;
  }

  lemma QuotingTold(r: Request, step: Step)
    requires Attempt(r, step).Moved? && (step.DoSaveDraft? || step.DoSend? || step.DoSaveAndSend?)
    ensures step.k < |r.claims| && Told(r.claims[step.k], Apply(r, step).claims[step.k], step, step.k)
  {
    var q := Apply(r, step).claims[step.k].quotation.value;
    PricedTold(q, step, step.k);
    hide Price, SplitFor;
  }

  lemma HiringTold(r: Request, step: Step)
    requires Attempt(r, step).Moved? && (step.DoAccept? || step.DoEngageUnpaid? || step.DoSettlePayment?)
    ensures step.k < |r.claims| && Told(r.claims[step.k], Apply(r, step).claims[step.k], step, step.k)
  {
    hide SplitFor, End;
  }

  lemma PayingTold(r: Request, step: Step)
    requires Attempt(r, step).Moved? && (step.DoStartPayment? || step.DoEndPayment? || step.DoExpireAccepted?)
    ensures step.k < |r.claims| && Told(r.claims[step.k], Apply(r, step).claims[step.k], step, step.k)
  {
    hide SplitFor;
    if step.DoStartPayment? && Apply(r, step) == r {
      SameTold(r.claims[step.k], step, step.k);
    }
  }

  /** The claims of a request after a step: each as it was or told by the step, and one more after a join. */
  ghost predicate ClaimsTold(r: Request, after: Request, step: Step) {
    && |r.claims| <= |after.claims|
    && (forall k :: 0 <= k < |r.claims| ==> Told(r.claims[k], after.claims[k], step, k))
    && forall k :: |r.claims| <= k < |after.claims| ==>
         step.DoJoin? && after.claims[k] == Place(step.lawyer, step.now)
  }

  lemma OneTold(r: Request, after: Request, step: Step, k: nat)
    requires k < |r.claims| == |after.claims| && after.claims == r.claims[k := after.claims[k]]
    requires Told(r.claims[k], after.claims[k], step, k)
    ensures ClaimsTold(r, after, step)
  {
    forall i | 0 <= i < |r.claims| && i != k
      ensures Told(r.claims[i], after.claims[i], step, i)
    {
      SameTold(r.claims[i], step, i);
    }
    hide Told;
  }

  lemma NoneTold(r: Request, after: Request, step: Step)
    requires after.claims == r.claims
    ensures ClaimsTold(r, after, step)
  {
    forall i | 0 <= i < |r.claims|
      ensures Told(r.claims[i], after.claims[i], step, i)
    {
      SameTold(r.claims[i], step, i);
    }
    hide Told;
  }

  lemma EndClaimTold(r: Request, k: nat, outcome: Outcome, status: Quote, now: Time, step: Step)
    requires EndClaim(r, k, outcome, status, now).Moved?
    requires Ends(step, k, outcome, Some(now)) && Makes(step, k, status)
    ensures ClaimsTold(r, EndClaim(r, k, outcome, status, now).request, step)
  {
    EndTold(r.claims[k], outcome, status, now, step, k);
    hide End, Told;
    OneTold(r, EndClaim(r, k, outcome, status, now).request, step, k);
  }

  lemma GivingUpTold(r: Request, step: Step)
    requires Attempt(r, step).Moved?
    requires step.DoRelease? || step.DoDecline? || step.DoLapse? || step.DoExpireSent? || step.DoWithdrawQuotation?
    ensures ClaimsTold(r, Apply(r, step), step)
  {
    hide EndClaim, ClaimsTold;
    match step {
      case DoRelease(k, now) => EndClaimTold(r, k, RELEASED, Quote.WITHDRAWN, now, step);
      case DoDecline(k, now) => EndClaimTold(r, k, DECLINED, REJECTED, now, step);
      case DoLapse(k, now) => EndClaimTold(r, k, LAPSED, Quote.WITHDRAWN, now, step);
      case DoExpireSent(k, now) => EndClaimTold(r, k, Outcome.NOT_CHOSEN, Quote.EXPIRED, now, step);
      case DoWithdrawQuotation(k, now) => EndClaimTold(r, k, RELEASED, Quote.WITHDRAWN, now, step);
    }
  }

  lemma ClosingTold(r: Request, step: Step)
    requires Attempt(r, step).Moved? && (step.DoWithdraw? || step.DoExpire?)
    ensures ClaimsTold(r, Apply(r, step), step)
  {
    forall i | 0 <= i < |r.claims|
      ensures Told(r.claims[i], Apply(r, step).claims[i], step, i)
    {
      if step.DoWithdraw? {
        EndTold(r.claims[i], Outcome.WITHDRAWN, Quote.WITHDRAWN, step.now, step, i);
      } else {
        EndTold(r.claims[i], Outcome.NOT_CHOSEN, Quote.EXPIRED, step.now, step, i);
      }
    }
    hide Told, End;
  }

  lemma AcceptTold(r: Request, k: nat, now: Time)
    requires Accept(r, k, now).Moved?
    ensures ClaimsTold(r, Accept(r, k, now).request, DoAccept(k, now))
  {
    var step, after := DoAccept(k, now), Accept(r, k, now).request;
    HiringTold(r, step);
    forall i | 0 <= i < |r.claims|
      ensures Told(r.claims[i], after.claims[i], step, i)
    {
      if i != k {
        EndTold(r.claims[i], Outcome.NOT_CHOSEN, Quote.NOT_CHOSEN, now, step, i);
      }
    }
    hide Told, End;
  }

  /** Only claim `step.k` is changed. */
  lemma OneChanges(r: Request, step: Step)
    requires Attempt(r, step).Moved?
    requires step.DoSaveDraft? || step.DoSend? || step.DoSaveAndSend? || step.DoEngageUnpaid? || step.DoStartPayment?
      || step.DoEndPayment? || step.DoSettlePayment? || step.DoExpireAccepted?
    ensures var after := Apply(r, step);
      step.k < |r.claims| == |after.claims| && after.claims == r.claims[step.k := after.claims[step.k]]
  {
    hide Price, Engage, CancelPending, WithPayment, PickBy;
  }

  lemma StepTold(r: Request, step: Step)
    ensures ClaimsTold(r, Apply(r, step), step)
  {
    hide ClaimsTold, Told;
    if Attempt(r, step).Refused? {
      NoneTold(r, Apply(r, step), step);
    } else {
      match step {
        case DoJoin(lawyer, now) => JoinTold(r, lawyer, now);
        case DoAccept(k, now) => AcceptTold(r, k, now);
        case DoWithdraw(_) => ClosingTold(r, step);
        case DoExpire(_) => ClosingTold(r, step);
        case DoRelease(_, _) => GivingUpTold(r, step);
        case DoDecline(_, _) => GivingUpTold(r, step);
        case DoLapse(_, _) => GivingUpTold(r, step);
        case DoExpireSent(_, _) => GivingUpTold(r, step);
        case DoWithdrawQuotation(_, _) => GivingUpTold(r, step);
        case DoRoute(_, _) => NoneTold(r, Apply(r, step), step);
        case DoCheck(_, _) => NoneTold(r, Apply(r, step), step);
        case DoExclude(_) => NoneTold(r, Apply(r, step), step);
        case DoOpenToAll(_) => NoneTold(r, Apply(r, step), step);
        case DoClose => NoneTold(r, Apply(r, step), step);
        case _ => OneClaimTold(r, step);
      }
    }
  }

  lemma JoinTold(r: Request, lawyer: Id, now: Time)
    requires Join(r, lawyer, now).Moved?
    ensures ClaimsTold(r, Join(r, lawyer, now).request, DoJoin(lawyer, now))
  {
    var after := Join(r, lawyer, now).request;
    forall i | 0 <= i < |r.claims|
      ensures Told(r.claims[i], after.claims[i], DoJoin(lawyer, now), i)
    {
      SameTold(r.claims[i], DoJoin(lawyer, now), i);
    }
    hide Told;
  }

  lemma OneClaimTold(r: Request, step: Step)
    requires Attempt(r, step).Moved?
    requires step.DoSaveDraft? || step.DoSend? || step.DoSaveAndSend? || step.DoEngageUnpaid? || step.DoStartPayment?
      || step.DoEndPayment? || step.DoSettlePayment? || step.DoExpireAccepted?
    ensures ClaimsTold(r, Apply(r, step), step)
  {
    hide ClaimsTold, Told, Apply, Attempt;
    OneChanges(r, step);
    if step.DoSaveDraft? || step.DoSend? || step.DoSaveAndSend? {
      QuotingTold(r, step);
    } else if step.DoEngageUnpaid? || step.DoSettlePayment? {
      HiringTold(r, step);
    } else {
      PayingTold(r, step);
    }
    OneTold(r, Apply(r, step), step, step.k);
  }

  // ── Over a run ──────────────────────────────────────────────────────────────────────────────

  lemma NewPlaceTold(r: Request, after: Request, step: Step, k: nat)
    requires ClaimsTold(r, after, step) && |r.claims| <= k < |after.claims|
    ensures step.DoJoin? && after.claims[k] == Place(step.lawyer, step.now)
  {
    assert after.claims[k] == after.claims[k];
  }

  lemma LastTold(requestedLawyer: Option<Id>, steps: seq<Step>, k: nat)
    requires steps != []
    ensures var n := |steps| - 1;
      var r, after := Run(requestedLawyer, steps[..n]), Run(requestedLawyer, steps);
      k < |after.claims| ==>
        if k < |r.claims| then Told(r.claims[k], after.claims[k], steps[n], k)
        else steps[n].DoJoin? && after.claims[k] == Place(steps[n].lawyer, steps[n].now)
  {
    hide Apply, Told;
    var n := |steps| - 1;
    var r, after := Run(requestedLawyer, steps[..n]), Apply(Run(requestedLawyer, steps[..n]), steps[n]);
    StepTold(r, steps[n]);
    assert after == Run(requestedLawyer, steps);
    if |r.claims| <= k < |after.claims| {
      NewPlaceTold(r, after, steps[n], k);
    }
  }

  /** A place ended as it says because a step of the run ended it so, then. */
  lemma {:induction false} EndedByAStep(requestedLawyer: Option<Id>, steps: seq<Step>, k: nat) returns (m: nat)
    requires var r := Run(requestedLawyer, steps); k < |r.claims| && r.claims[k].outcome.Some?
    ensures var c := Run(requestedLawyer, steps).claims[k];
      m < |steps| && Ends(steps[m], k, c.outcome.value, c.endedAt)
  {
    hide Run, QuoteTold, Ends;
    Started(requestedLawyer);
    var n := |steps| - 1;
    LastTold(requestedLawyer, steps, k);
    var c := Run(requestedLawyer, steps).claims[k];
    if Ends(steps[n], k, c.outcome.value, c.endedAt) {
      m := n;
    } else {
      m := EndedByAStep(requestedLawyer, steps[..n], k);
    }
  }

  lemma Started(requestedLawyer: Option<Id>)
    ensures Run(requestedLawyer, []) == New(requestedLawyer)
  {
  }

  /** A place was taken by a join, by that lawyer, then. */
  lemma {:induction false} JoinedByAStep(requestedLawyer: Option<Id>, steps: seq<Step>, k: nat) returns (m: nat)
    requires k < |Run(requestedLawyer, steps).claims|
    ensures var c := Run(requestedLawyer, steps).claims[k]; m < |steps| && steps[m] == DoJoin(c.lawyer, c.claimedAt)
  {
    hide Run, QuoteTold, Ends;
    Started(requestedLawyer);
    var n := |steps| - 1;
    LastTold(requestedLawyer, steps, k);
    if k < |Run(requestedLawyer, steps[..n]).claims| {
      m := JoinedByAStep(requestedLawyer, steps[..n], k);
    } else {
      m := n;
    }
  }

  ghost predicate HasQuote(r: Request, k: nat) { k < |r.claims| && r.claims[k].quotation.Some? }

  function QuoteOf(r: Request, k: nat): Quotation
    requires HasQuote(r, k)
  {
    r.claims[k].quotation.value
  }

  lemma LastQuoteTold(requestedLawyer: Option<Id>, steps: seq<Step>, k: nat)
    requires HasQuote(Run(requestedLawyer, steps), k)
    ensures steps != []
    ensures var n := |steps| - 1;
      var r := Run(requestedLawyer, steps[..n]);
      var before := if HasQuote(r, k) then Some(QuoteOf(r, k)) else None;
      QuoteTold(before, QuoteOf(Run(requestedLawyer, steps), k), steps[n], k)
  {
    hide Run, QuoteTold, Ends;
    Started(requestedLawyer);
    LastTold(requestedLawyer, steps, k);
  }

  /** A quotation stands as it does because a step brought it there. */
  lemma {:induction false} StandsByAStep(requestedLawyer: Option<Id>, steps: seq<Step>, k: nat) returns (m: nat)
    requires HasQuote(Run(requestedLawyer, steps), k)
    ensures m < |steps| && Makes(steps[m], k, QuoteOf(Run(requestedLawyer, steps), k).status)
  {
    LastQuoteTold(requestedLawyer, steps, k);
    hide Run, Makes, AttemptTold, Sends, Drafts;
    var n := |steps| - 1;
    if Makes(steps[n], k, QuoteOf(Run(requestedLawyer, steps), k).status) {
      m := n;
    } else {
      m := StandsByAStep(requestedLawyer, steps[..n], k);
    }
  }

  /** It is for what the lawyer last saved. */
  lemma {:induction false} DraftedByAStep(requestedLawyer: Option<Id>, steps: seq<Step>, k: nat) returns (m: nat)
    requires HasQuote(Run(requestedLawyer, steps), k)
    ensures var q := QuoteOf(Run(requestedLawyer, steps), k); m < |steps| && Drafts(steps[m], k, q.amount, q.expiresAt)
  {
    LastQuoteTold(requestedLawyer, steps, k);
    hide Run, Makes, AttemptTold, Sends, Drafts;
    var n := |steps| - 1;
    var q := QuoteOf(Run(requestedLawyer, steps), k);
    if Drafts(steps[n], k, q.amount, q.expiresAt) {
      m := n;
    } else {
      m := DraftedByAStep(requestedLawyer, steps[..n], k);
    }
  }

  /** What it leaves the lawyer is the split of its amount by the terms of a step that saved or sent it. */
  lemma {:induction false} PricedByAStep(requestedLawyer: Option<Id>, steps: seq<Step>, k: nat) returns (m: nat)
    requires HasQuote(Run(requestedLawyer, steps), k)
    ensures m < |steps| && Prices(steps[m], k, QuoteOf(Run(requestedLawyer, steps), k))
  {
    LastQuoteTold(requestedLawyer, steps, k);
    hide Run, Makes, AttemptTold, Sends, Drafts, SplitFor;
    var n := |steps| - 1;
    if Prices(steps[n], k, QuoteOf(Run(requestedLawyer, steps), k)) {
      m := n;
    } else {
      m := PricedByAStep(requestedLawyer, steps[..n], k);
    }
  }

  /** A quotation sent went out by a step then, split between platform and lawyer by the terms of that moment:
    * nothing has changed that since. */
  lemma {:induction false} SentByAStep(requestedLawyer: Option<Id>, steps: seq<Step>, k: nat) returns (m: nat)
    requires HasQuote(Run(requestedLawyer, steps), k) && QuoteOf(Run(requestedLawyer, steps), k).sentAt.Some?
    ensures m < |steps| && Sends(steps[m], k, QuoteOf(Run(requestedLawyer, steps), k))
  {
    LastQuoteTold(requestedLawyer, steps, k);
    hide Run, Makes, AttemptTold, SplitFor, Drafts;
    var n := |steps| - 1;
    if Sends(steps[n], k, QuoteOf(Run(requestedLawyer, steps), k)) {
      m := n;
    } else {
      m := SentByAStep(requestedLawyer, steps[..n], k);
    }
  }

  /** One accepted was accepted by a step then. */
  lemma {:induction false} AcceptedByAStep(requestedLawyer: Option<Id>, steps: seq<Step>, k: nat) returns (m: nat)
    requires HasQuote(Run(requestedLawyer, steps), k) && QuoteOf(Run(requestedLawyer, steps), k).acceptedAt.Some?
    ensures m < |steps| && steps[m] == DoAccept(k, QuoteOf(Run(requestedLawyer, steps), k).acceptedAt.value)
  {
    LastQuoteTold(requestedLawyer, steps, k);
    hide Run, Makes, AttemptTold, Sends, Drafts;
    var n := |steps| - 1;
    if steps[n] == DoAccept(k, QuoteOf(Run(requestedLawyer, steps), k).acceptedAt.value) {
      m := n;
    } else {
      m := AcceptedByAStep(requestedLawyer, steps[..n], k);
    }
  }

  /** One paid was paid by a step then. */
  lemma {:induction false} PaidByAStep(requestedLawyer: Option<Id>, steps: seq<Step>, k: nat) returns (m: nat)
    requires HasQuote(Run(requestedLawyer, steps), k) && QuoteOf(Run(requestedLawyer, steps), k).paidAt.Some?
    ensures m < |steps| && (steps[m].DoEngageUnpaid? || steps[m].DoSettlePayment?) && steps[m].k == k
    ensures QuoteOf(Run(requestedLawyer, steps), k).paidAt == Some(steps[m].now)
  {
    LastQuoteTold(requestedLawyer, steps, k);
    hide Run, Makes, AttemptTold, Sends, Drafts;
    var n := |steps| - 1;
    var q := QuoteOf(Run(requestedLawyer, steps), k);
    if (steps[n].DoEngageUnpaid? || steps[n].DoSettlePayment?) && steps[n].k == k && q.paidAt == Some(steps[n].now) {
      m := n;
    } else {
      m := PaidByAStep(requestedLawyer, steps[..n], k);
    }
  }

  lemma LastAttemptTold(requestedLawyer: Option<Id>, steps: seq<Step>, k: nat, p: nat)
    requires HasPayment(Run(requestedLawyer, steps), k, p)
    ensures steps != []
    ensures var n := |steps| - 1;
      var r := Run(requestedLawyer, steps[..n]);
      var was := if HasPayment(r, k, p) then Some(QuoteOf(r, k).payments[p]) else None;
      AttemptTold(was, QuoteOf(Run(requestedLawyer, steps), k).payments[p], steps[n], k, p)
  {
    LastQuoteTold(requestedLawyer, steps, k);
    hide Run, Makes, AttemptTold, Sends, Drafts, SameTerms;
  }

  /** An attempt at paying stands as it does because a step brought it there. */
  lemma {:induction false} AttemptByAStep(requestedLawyer: Option<Id>, steps: seq<Step>, k: nat, p: nat)
    returns (m: nat)
    requires HasPayment(Run(requestedLawyer, steps), k, p)
    ensures m < |steps| && Attempts(steps[m], k, p, QuoteOf(Run(requestedLawyer, steps), k).payments[p])
  {
    LastAttemptTold(requestedLawyer, steps, k, p);
    hide Run;
    var n := |steps| - 1;
    if Attempts(steps[n], k, p, QuoteOf(Run(requestedLawyer, steps), k).payments[p]) {
      m := n;
    } else {
      m := AttemptByAStep(requestedLawyer, steps[..n], k, p);
    }
  }

  // ── The request itself ──────────────────────────────────────────────────────────────────────

  /** Brings the request into that status. */
  predicate Moves(step: Step, status: Status) {
    match status
    case REQUESTED => false
    case ROUTED => step.DoRoute? || step.DoExpireAccepted?
    case CONFIRMED => step.DoAccept?
    case ENGAGED => step.DoEngageUnpaid? || step.DoSettlePayment?
    case CLOSED => step.DoClose?
    case EXPIRED => step.DoExpire?
    case WITHDRAWN => step.DoWithdraw?
  }

  /** Puts the lawyer out of the request. */
  ghost predicate PutsOut(r: Request, step: Step, lawyer: Id) {
    || step == DoExclude(lawyer)
    || ((step.DoRelease? || step.DoDecline? || step.DoLapse? || step.DoExpireSent? || step.DoWithdrawQuotation?
         || step.DoExpireAccepted?) && step.k < |r.claims| && r.claims[step.k].lawyer == lawyer)
  }

  /** Nothing but what the step is for. */
  ghost predicate MovesAsTold(r: Request, after: Request, step: Step) {
    && (after.status == r.status || Moves(step, after.status))
    && (forall l :: l in after.excluded ==> l in r.excluded || PutsOut(r, step, l))
    && (forall l :: l in after.cleared ==> l in r.cleared || (step.DoCheck? && step.lawyer == l))
    && (r.requestedOnly && !after.requestedOnly ==> Open(after.claims) == {})
    && after.requestedLawyer == r.requestedLawyer && (after.requestedOnly ==> r.requestedOnly)
  }

  lemma EndClaimMoves(r: Request, k: nat, outcome: Outcome, status: Quote, now: Time, step: Step)
    requires EndClaim(r, k, outcome, status, now).Moved?
    requires PutsOut(r, step, r.claims[k].lawyer)
    ensures MovesAsTold(r, EndClaim(r, k, outcome, status, now).request, step)
  {
    hide End, PutsOut;
  }

  lemma GivingUpMoves(r: Request, step: Step)
    requires Attempt(r, step).Moved?
    requires step.DoRelease? || step.DoDecline? || step.DoLapse? || step.DoExpireSent? || step.DoWithdrawQuotation?
    ensures MovesAsTold(r, Apply(r, step), step)
  {
    hide MovesAsTold, AfterEnded, End;
    match step {
      case DoRelease(k, now) => EndClaimMoves(r, k, RELEASED, Quote.WITHDRAWN, now, step);
      case DoDecline(k, now) => EndClaimMoves(r, k, DECLINED, REJECTED, now, step);
      case DoLapse(k, now) => EndClaimMoves(r, k, LAPSED, Quote.WITHDRAWN, now, step);
      case DoExpireSent(k, now) => EndClaimMoves(r, k, Outcome.NOT_CHOSEN, Quote.EXPIRED, now, step);
      case DoWithdrawQuotation(k, now) => EndClaimMoves(r, k, RELEASED, Quote.WITHDRAWN, now, step);
    }
  }

  lemma OtherMoves(r: Request, step: Step)
    requires Attempt(r, step).Moved?
    requires !(step.DoRelease? || step.DoDecline? || step.DoLapse? || step.DoExpireSent? || step.DoWithdrawQuotation?)
    ensures MovesAsTold(r, Apply(r, step), step)
  {
    hide End, EndAll, Engage, CancelPending, Price, PickBy, WithPayment, Holds, IsFor;
  }

  lemma StepMoves(r: Request, step: Step)
    ensures MovesAsTold(r, Apply(r, step), step)
  {
    if Attempt(r, step).Refused? {
      assert Apply(r, step) == r;
    } else if step.DoRelease? || step.DoDecline? || step.DoLapse? || step.DoExpireSent? || step.DoWithdrawQuotation? {
      GivingUpMoves(r, step);
    } else {
      OtherMoves(r, step);
    }
    hide Apply, Attempt;
  }

  /** The request stands as it does because a step brought it there. */
  lemma {:induction false} MovedByAStep(requestedLawyer: Option<Id>, steps: seq<Step>) returns (m: nat)
    requires Run(requestedLawyer, steps).status != REQUESTED
    ensures m < |steps| && Moves(steps[m], Run(requestedLawyer, steps).status)
  {
    Started(requestedLawyer);
    hide Apply;
    var n := |steps| - 1;
    StepMoves(Run(requestedLawyer, steps[..n]), steps[n]);
    if Moves(steps[n], Run(requestedLawyer, steps).status) {
      m := n;
    } else {
      m := MovedByAStep(requestedLawyer, steps[..n]);
    }
  }

  /** Nobody is out of a request but who passed or lost a place on it: a step put them out. */
  lemma {:induction false} PutOutByAStep(requestedLawyer: Option<Id>, steps: seq<Step>, lawyer: Id) returns (m: nat)
    requires lawyer in Run(requestedLawyer, steps).excluded
    ensures m < |steps| && PutsOut(Run(requestedLawyer, steps[..m]), steps[m], lawyer)
  {
    Started(requestedLawyer);
    hide Apply, PutsOut;
    var n := |steps| - 1;
    StepMoves(Run(requestedLawyer, steps[..n]), steps[n]);
    if PutsOut(Run(requestedLawyer, steps[..n]), steps[n], lawyer) {
      m := n;
    } else {
      m := PutOutByAStep(requestedLawyer, steps[..n], lawyer);
      assert steps[..n][..m] == steps[..m];
    }
  }
}
