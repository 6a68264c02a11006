/** When things happened on a request and why its lawyers lost their places, read from its rows after any run
  * whose times do not go back. */
module HandoffTimes {
  import opened Options
  import opened PlatformFee
  import opened Handoff
  import opened HandoffInvariants
  import opened HandoffSafety

  // ── Time ────────────────────────────────────────────────────────────────────────────────────

  /** The moment a step runs at, for the steps that read or record one. */
  function Moment(step: Step): Option<Time> {
    match step
    case DoRoute(now, _) => Some(now)
    case DoJoin(_, now) => Some(now)
    case DoOpenToAll(now) => Some(now)
    case DoSaveDraft(_, _, _, _, now) => Some(now)
    case DoSend(_, _, now) => Some(now)
    case DoSaveAndSend(_, _, _, _, now) => Some(now)
    case DoRelease(_, now) => Some(now)
    case DoDecline(_, now) => Some(now)
    case DoLapse(_, now) => Some(now)
    case DoExpireSent(_, now) => Some(now)
    case DoWithdrawQuotation(_, now) => Some(now)
    case DoAccept(_, now) => Some(now)
    case DoEngageUnpaid(_, now) => Some(now)
    case DoStartPayment(_, now) => Some(now)
    case DoSettlePayment(_, _, now) => Some(now)
    case DoExpireAccepted(_, now) => Some(now)
    case DoWithdraw(now) => Some(now)
    case DoExpire(now) => Some(now)
    case DoCheck(_, _) => None
    case DoExclude(_) => None
    case DoEndPayment(_, _, _) => None
    case DoClose => None
  }

  /** The time after a run that began at `start`. */
  function Clock(start: Time, steps: seq<Step>): Time {
    if steps == [] then start
    else
      var last := Moment(steps[|steps| - 1]);
      if last.Some? then last.value else Clock(start, steps[..|steps| - 1])
  }

  /** Times never go back. */
  predicate InOrder(start: Time, steps: seq<Step>) {
    steps == []
    || (InOrder(start, steps[..|steps| - 1])
        && Clock(start, steps[..|steps| - 1]) <= Clock(start, steps))
  }

  // ── What the rows then say ──────────────────────────────────────────────────────────────────

  /** A quotation of claim `c`: sent inside the lawyer's 24 hours, accepted after that and before its expiry,
    * every attempt at paying started between the two, and paid after that. */
  ghost predicate QuotationTimely(c: Claim, q: Quotation, clock: Time) {
    && (q.sentAt.Some? <==> c.quoted) && (q.status == DRAFT ==> !c.quoted)
    && (c.quoted ==>
      c.claimedAt <= q.sentAt.value < c.expiresAt && q.sentAt.value < q.expiresAt && q.sentAt.value <= clock)
    && (q.acceptedAt.Some? ==>
      c.quoted && q.sentAt.value <= q.acceptedAt.value < q.expiresAt && q.acceptedAt.value <= clock)
    && (q.payments != [] ==> q.acceptedAt.Some?)
    && (forall p :: 0 <= p < |q.payments| ==> q.acceptedAt.value <= q.payments[p].startedAt < q.expiresAt)
    && (q.paidAt.Some? <==> q.status == PAID)
    && (q.paidAt.Some? ==> q.acceptedAt.Some? && q.acceptedAt.value <= q.paidAt.value <= clock)
    && (forall p :: 0 <= p < |q.payments| ==>
          q.payments[p].startedAt <= if q.paidAt.Some? then q.paidAt.value else clock)
  }

  /** A claim: 24 hours from joining, lapsed only when they were over without a quote, declined only once
    * quoted. */
  ghost predicate ClaimTimely(c: Claim, clock: Time) {
    && c.expiresAt == c.claimedAt + CLAIM_HOLD && c.claimedAt <= clock
    && (c.endedAt.Some? <==> c.outcome.Some? && c.outcome != Some(Outcome.ENGAGED))
    && (c.endedAt.Some? ==> c.claimedAt <= c.endedAt.value <= clock)
    && (c.quotation.None? ==> !c.quoted)
    && (c.quotation.Some? ==> QuotationTimely(c, c.quotation.value, clock))
    && (c.quoted && c.endedAt.Some? ==> c.quotation.value.sentAt.value <= c.endedAt.value)
    && (c.outcome == Some(LAPSED) ==> !c.quoted && c.expiresAt <= c.endedAt.value)
    && (c.outcome == Some(DECLINED) ==> c.quoted && HasQuotation(c, REJECTED))
  }

  /** The client let the quotation run out. */
  ghost predicate RanOut(c: Claim) {
    c.quoted && HasQuotation(c, Quote.EXPIRED) && c.endedAt.Some? && c.quotation.value.expiresAt <= c.endedAt.value
  }

  /** Another lawyer's quotation was accepted at the moment claim `i` ended. */
  ghost predicate AnotherAccepted(r: Request, i: nat)
    requires i < |r.claims|
  {
    exists k :: 0 <= k < |r.claims| && k != i && AcceptedAt(r.claims[k], r.claims[i].endedAt)
  }

  predicate AcceptedAt(c: Claim, at: Option<Time>) {
    c.quotation.Some? && at.Some? && c.quotation.value.acceptedAt == at
  }

  /** Why a lawyer was passed over, or lost their place with the request. */
  ghost predicate Explained(r: Request, i: nat)
    requires i < |r.claims|
  {
    var c := r.claims[i];
    && (c.outcome == Some(Outcome.NOT_CHOSEN) ==> RanOut(c) || AnotherAccepted(r, i) || r.status == Status.EXPIRED)
    && (c.outcome == Some(Outcome.WITHDRAWN) ==> r.status == Status.WITHDRAWN)
  }

  /** Every lawyer on a routed request joined before the window that is open now ends. */
  ghost predicate InWindow(r: Request) {
    r.status == ROUTED ==>
      forall i :: 0 <= i < |r.claims| && IsOpen(r.claims[i]) ==> r.claims[i].claimedAt < r.routingExpiresAt
  }

  ghost predicate Timely(r: Request, clock: Time) {
    && (forall i :: 0 <= i < |r.claims| ==> ClaimTimely(r.claims[i], clock) && Explained(r, i))
    && InWindow(r)
  }

  // ── Later ───────────────────────────────────────────────────────────────────────────────────

  lemma ClaimLater(c: Claim, clock: Time, now: Time)
    requires ClaimTimely(c, clock) && clock <= now
    ensures ClaimTimely(c, now)
  {
  }

  /** A reason once there stays. */
  lemma StillExplained(r: Request, after: Request, i: nat)
    requires Valid(r) && i < |r.claims| && Explained(r, i) && Grows(r, after) && Keeps(r, after)
    requires after.claims[i].outcome == r.claims[i].outcome
    ensures Explained(after, i)
  {
    var c, d := r.claims[i], after.claims[i];
    assert ClaimGrows(c, d);
    if c.outcome == Some(Outcome.NOT_CHOSEN) && AnotherAccepted(r, i) && !RanOut(c) {
      var k :| 0 <= k < |r.claims| && k != i && AcceptedAt(r.claims[k], c.endedAt);
      assert ClaimOk(r.claims[k]) && ClaimGrows(r.claims[k], after.claims[k]);
      assert AcceptedAt(after.claims[k], d.endedAt);
    }
  }

  /** A request that expired or was withdrawn stays so. */
  ghost predicate Keeps(r: Request, after: Request) {
    r.status == Status.EXPIRED || (r.status == Status.WITHDRAWN && r.claims != []) ==> after.status == r.status
  }

  /** Only claim `k` changes. */
  lemma OneClaimTimely(r: Request, after: Request, k: nat, clock: Time, now: Time)
    requires Valid(r) && Timely(r, clock) && clock <= now && Grows(r, after) && Keeps(r, after)
    requires k < |r.claims| == |after.claims| && after.claims == r.claims[k := after.claims[k]]
    requires ClaimTimely(after.claims[k], now) && InWindow(after)
    requires after.claims[k].outcome == r.claims[k].outcome || Explained(after, k)
    ensures Timely(after, now)
  {
    hide ClaimTimely, Explained, Valid, Grows, InWindow;
    forall i | 0 <= i < |r.claims|
      ensures ClaimTimely(after.claims[i], now) && Explained(after, i)
    {
      if i != k {
        ClaimLater(r.claims[i], clock, now);
      }
      if after.claims[i].outcome == r.claims[i].outcome {
        StillExplained(r, after, i);
      }
    }
  }

  /** A change to one claim of a request whose window stays as it is, with no place reopened. */
  lemma SameWindow(r: Request, after: Request, k: nat)
    requires InWindow(r) && k < |r.claims| == |after.claims| && after.claims == r.claims[k := after.claims[k]]
    requires IsOpen(after.claims[k]) ==> IsOpen(r.claims[k]) && after.claims[k].claimedAt == r.claims[k].claimedAt
    requires after.status == r.status && after.routingExpiresAt == r.routingExpiresAt
    ensures InWindow(after)
  {
  }

  // ── Each step ───────────────────────────────────────────────────────────────────────────────

  lemma PlacingTimely(r: Request, step: Step, clock: Time, now: Time)
    requires Valid(r) && Timely(r, clock) && clock <= now && Moment(step) in {None, Some(now)}
    requires step.DoRoute? || step.DoCheck? || step.DoExclude? || step.DoOpenToAll? || step.DoClose?
    ensures Timely(Apply(r, step), now)
  {
    var after := Apply(r, step);
    assert after.claims == r.claims;
    PlacingGrows(r, step);
    assert step.DoOpenToAll? && Attempt(r, step).Moved? ==>
      forall i :: 0 <= i < |r.claims| && IsOpen(r.claims[i]) ==> i in Open(r.claims);
    assert Keeps(r, after) && InWindow(after);
    hide ClaimTimely, Explained, Valid, Grows, Apply, InWindow;
    forall i | 0 <= i < |r.claims|
      ensures ClaimTimely(after.claims[i], now) && Explained(after, i)
    {
      ClaimLater(r.claims[i], clock, now);
      StillExplained(r, after, i);
    }
  }

  lemma JoinTimely(r: Request, lawyer: Id, clock: Time, now: Time)
    requires Valid(r) && Timely(r, clock) && clock <= now && Join(r, lawyer, now).Moved?
    ensures Timely(Join(r, lawyer, now).request, now)
  {
    var after := Join(r, lawyer, now).request;
    PlacingGrows(r, DoJoin(lawyer, now));
    assert after == Apply(r, DoJoin(lawyer, now));
    hide ClaimTimely, Explained, Valid, Grows;
    forall i | 0 <= i < |r.claims|
      ensures ClaimTimely(after.claims[i], now) && Explained(after, i)
    {
      ClaimLater(r.claims[i], clock, now);
      StillExplained(r, after, i);
    }
    NewPlaceTimely(after, |r.claims|, lawyer, now);
  }

  lemma NewPlaceTimely(r: Request, i: nat, lawyer: Id, now: Time)
    requires i < |r.claims| && r.claims[i] == Place(lawyer, now)
    ensures ClaimTimely(r.claims[i], now) && Explained(r, i)
  {
  }

  lemma DraftTimely(r: Request, k: nat, amount: nat, expiresAt: Time, terms: Terms, clock: Time, now: Time)
    requires Valid(r) && Timely(r, clock) && clock <= now && SaveDraft(r, k, amount, expiresAt, terms, now).Moved?
    ensures Timely(SaveDraft(r, k, amount, expiresAt, terms, now).request, now)
  {
    var after := SaveDraft(r, k, amount, expiresAt, terms, now).request;
    DraftGrows(r, k, amount, expiresAt, terms, now);
    assert ClaimOk(r.claims[k]) && ClaimTimely(r.claims[k], clock);
    assert ClaimTimely(after.claims[k], now);
    SameWindow(r, after, k);
    hide Valid, Timely, Grows, ClaimOk, ClaimTimely, Price;
    OneClaimTimely(r, after, k, clock, now);
  }

  lemma SendTimely(r: Request, k: nat, terms: Terms, clock: Time, now: Time)
    requires Valid(r) && Timely(r, clock) && clock <= now && Send(r, k, terms, now).Moved?
    ensures Timely(Send(r, k, terms, now).request, now)
  {
    var after := Send(r, k, terms, now).request;
    SendGrows(r, k, terms, now);
    assert ClaimOk(r.claims[k]) && ClaimTimely(r.claims[k], clock);
    assert ClaimTimely(after.claims[k], now);
    SameWindow(r, after, k);
    hide Valid, Timely, Grows, ClaimOk, ClaimTimely, Price;
    OneClaimTimely(r, after, k, clock, now);
  }

  /** Ending one open claim of a routed request, when its own reason is there. */
  lemma EndClaimTimely(r: Request, k: nat, outcome: Outcome, status: Quote, clock: Time, now: Time)
    requires Valid(r) && Timely(r, clock) && clock <= now && EndClaim(r, k, outcome, status, now).Moved?
    requires status == REJECTED || status == Quote.WITHDRAWN || status == Quote.EXPIRED
    requires outcome == LAPSED ==> !r.claims[k].quoted && r.claims[k].expiresAt <= now
    requires outcome == DECLINED ==> r.claims[k].quoted && status == REJECTED
    requires outcome == Outcome.NOT_CHOSEN ==>
      status == Quote.EXPIRED && HasQuotation(r.claims[k], SENT) && r.claims[k].quotation.value.expiresAt <= now
    requires outcome != Outcome.ENGAGED && outcome != Outcome.WITHDRAWN
    ensures Timely(EndClaim(r, k, outcome, status, now).request, now)
  {
    var after := EndClaim(r, k, outcome, status, now).request;
    EndClaimGrows(r, k, outcome, status, now);
    assert ClaimOk(r.claims[k]) && ClaimTimely(r.claims[k], clock);
    AcceptedOnlyWhenConfirmed(r, k);
    EndedTimely(r.claims[k], outcome, status, clock, now);
    assert after.claims == r.claims[k := End(r.claims[k], outcome, status, now)];
    assert after.claims[k].outcome == Some(outcome);
    PooledWindow(r, k, outcome, status, now);
    hide Valid, Timely, Grows, ClaimOk, ClaimTimely, End, AfterEnded, InWindow;
    OneClaimTimely(r, after, k, clock, now);
  }

  lemma EndedTimely(c: Claim, outcome: Outcome, status: Quote, clock: Time, now: Time)
    requires ClaimOk(c) && ClaimTimely(c, clock) && clock <= now && IsOpen(c) && !HasQuotation(c, ACCEPTED)
    requires status == REJECTED || status == Quote.WITHDRAWN || status == Quote.EXPIRED || status == Quote.NOT_CHOSEN
    requires outcome == LAPSED ==> !c.quoted && c.expiresAt <= now
    requires outcome == DECLINED ==> c.quoted && status == REJECTED
    requires outcome != Outcome.ENGAGED
    ensures ClaimTimely(End(c, outcome, status, now), now)
    ensures status == Quote.EXPIRED && HasQuotation(c, SENT) && c.quotation.value.expiresAt <= now ==>
      RanOut(End(c, outcome, status, now))
  {
  }

  lemma PooledWindow(r: Request, k: nat, outcome: Outcome, status: Quote, now: Time)
    requires InWindow(r) && EndClaim(r, k, outcome, status, now).Moved?
    ensures InWindow(EndClaim(r, k, outcome, status, now).request)
  {
    var after := EndClaim(r, k, outcome, status, now).request;
    assert forall i :: 0 <= i < |after.claims| && IsOpen(after.claims[i]) ==> i in Open(after.claims);
  }

  lemma GivingUpTimely(r: Request, step: Step, clock: Time, now: Time)
    requires Valid(r) && Timely(r, clock) && clock <= now && Attempt(r, step).Moved? && Moment(step) == Some(now)
    requires step.DoRelease? || step.DoDecline? || step.DoLapse? || step.DoExpireSent? || step.DoWithdrawQuotation?
    ensures Timely(Apply(r, step), now)
  {
    hide Valid, Timely, EndClaim;
    match step {
      case DoRelease(k, _) => EndClaimTimely(r, k, RELEASED, Quote.WITHDRAWN, clock, now);
      case DoDecline(k, _) =>
        EndClaimNeeds(r, k, DECLINED, REJECTED, now);
        EndClaimTimely(r, k, DECLINED, REJECTED, clock, now);
      case DoLapse(k, _) =>
        EndClaimNeeds(r, k, LAPSED, Quote.WITHDRAWN, now);
        EndClaimTimely(r, k, LAPSED, Quote.WITHDRAWN, clock, now);
      case DoExpireSent(k, _) =>
        EndClaimNeeds(r, k, Outcome.NOT_CHOSEN, Quote.EXPIRED, now);
        EndClaimTimely(r, k, Outcome.NOT_CHOSEN, Quote.EXPIRED, clock, now);
      case DoWithdrawQuotation(k, _) => EndClaimTimely(r, k, RELEASED, Quote.WITHDRAWN, clock, now);
    }
  }

  lemma EndClaimNeeds(r: Request, k: nat, outcome: Outcome, status: Quote, now: Time)
    requires EndClaim(r, k, outcome, status, now).Moved?
    ensures k < |r.claims|
  {
  }

  lemma AcceptTimely(r: Request, k: nat, clock: Time, now: Time)
    requires Valid(r) && Timely(r, clock) && clock <= now && Accept(r, k, now).Moved?
    ensures Timely(Accept(r, k, now).request, now)
  {
    var after := Accept(r, k, now).request;
    AcceptGrows(r, k, now);
    assert after == Apply(r, DoAccept(k, now));
    assert ClaimOk(r.claims[k]) && ClaimTimely(r.claims[k], clock);
    assert ClaimTimely(after.claims[k], now) && AcceptedAt(after.claims[k], Some(now));
    hide ClaimTimely, Grows, End, ClaimOk, Explained;
    forall i | 0 <= i < |r.claims|
      ensures ClaimTimely(after.claims[i], now) && Explained(after, i)
    {
      if i != k {
        assert ClaimOk(r.claims[i]) && ClaimTimely(r.claims[i], clock) && Explained(r, i);
        PooledIsNotAccepted(r, i);
        OthersTimely(r, after, i, k, clock, now);
      } else {
        NotExplainedYet(after, k);
      }
    }
  }

  lemma NotExplainedYet(r: Request, i: nat)
    requires i < |r.claims| && IsOpen(r.claims[i])
    ensures Explained(r, i)
  {
  }

  /** Everybody but the lawyer accepted is passed over at that moment. */
  lemma OthersTimely(r: Request, after: Request, i: nat, k: nat, clock: Time, now: Time)
    requires Valid(r) && i < |r.claims| && Explained(r, i) && Grows(r, after) && Keeps(r, after) && clock <= now
    requires ClaimOk(r.claims[i]) && ClaimTimely(r.claims[i], clock) && i != k && k < |after.claims|
    requires !HasQuotation(r.claims[i], ACCEPTED) && r.claims[i].outcome != Some(Outcome.ENGAGED)
    requires after.claims[i] == End(r.claims[i], Outcome.NOT_CHOSEN, Quote.NOT_CHOSEN, now)
    requires AcceptedAt(after.claims[k], Some(now))
    ensures ClaimTimely(after.claims[i], now) && Explained(after, i)
  {
    if IsOpen(r.claims[i]) {
      EndedTimely(r.claims[i], Outcome.NOT_CHOSEN, Quote.NOT_CHOSEN, clock, now);
      assert after.claims[i].endedAt == Some(now);
      assert AnotherAccepted(after, i);
    } else {
      assert after.claims[i] == r.claims[i];
      ClaimLater(r.claims[i], clock, now);
      StillExplained(r, after, i);
    }
  }

  lemma EngageUnpaidTimely(r: Request, k: nat, clock: Time, now: Time)
    requires Valid(r) && Timely(r, clock) && clock <= now && EngageUnpaid(r, k, now).Moved?
    ensures Timely(EngageUnpaid(r, k, now).request, now)
  {
    var after, step := EngageUnpaid(r, k, now).request, DoEngageUnpaid(k, now);
    PayingGrows(r, step);
    assert after == Apply(r, step);
    OnlyAccepted(r, k);
    assert ClaimTimely(r.claims[k], clock);
    assert ClaimTimely(after.claims[k], now) && Explained(after, k);
    hide Valid, Timely, Grows, ClaimOk, ClaimTimely;
    OneClaimTimely(r, after, k, clock, now);
  }

  lemma StartPaymentTimely(r: Request, k: nat, clock: Time, now: Time)
    requires Valid(r) && Timely(r, clock) && clock <= now && StartPayment(r, k, now).Moved?
    ensures Timely(StartPayment(r, k, now).request, now)
  {
    var after, step := StartPayment(r, k, now).request, DoStartPayment(k, now);
    PayingGrows(r, step);
    assert after == Apply(r, step);
    OnlyAccepted(r, k);
    assert ClaimTimely(r.claims[k], clock);
    assert ClaimTimely(after.claims[k], now);
    SameWindow(r, after, k);
    hide Valid, Timely, Grows, ClaimOk, ClaimTimely;
    OneClaimTimely(r, after, k, clock, now);
  }

  lemma EndPaymentTimely(r: Request, k: nat, p: nat, declined: bool, clock: Time)
    requires Valid(r) && Timely(r, clock) && EndPayment(r, k, p, declined).Moved?
    ensures Timely(EndPayment(r, k, p, declined).request, clock)
  {
    var after, step := EndPayment(r, k, p, declined).request, DoEndPayment(k, p, declined);
    hide Valid, Grows, ClaimOk, ClaimTimely, Explained, InWindow, EndPayment;
    EndPaymentIsAStep(r, k, p, declined);
    PayingGrows(r, step);
    AttemptEndedTimely(r, k, p, declined, clock);
    SameWindow(r, after, k);
    OneClaimTimely(r, after, k, clock, clock);
  }

  lemma EndPaymentIsAStep(r: Request, k: nat, p: nat, declined: bool)
    requires EndPayment(r, k, p, declined).Moved?
    ensures EndPayment(r, k, p, declined).request == Apply(r, DoEndPayment(k, p, declined))
    ensures EndPayment(r, k, p, declined) == Attempt(r, DoEndPayment(k, p, declined))
  {
  }

  /** The attempt that ended was started before, and nothing else changed. */
  lemma AttemptEndedTimely(r: Request, k: nat, p: nat, declined: bool, clock: Time)
    requires Timely(r, clock) && EndPayment(r, k, p, declined).Moved?
    ensures var after := EndPayment(r, k, p, declined).request;
      && k < |r.claims| && after == r.(claims := r.claims[k := after.claims[k]])
      && after.claims[k].outcome == r.claims[k].outcome && after.claims[k].claimedAt == r.claims[k].claimedAt
      && ClaimTimely(after.claims[k], clock)
  {
    assert ClaimTimely(r.claims[k], clock);
  }

  lemma SettlePaymentTimely(r: Request, k: nat, p: nat, clock: Time, now: Time)
    requires Valid(r) && Timely(r, clock) && clock <= now && SettlePayment(r, k, p, now).Moved?
    ensures Timely(SettlePayment(r, k, p, now).request, now)
  {
    var after, step := SettlePayment(r, k, p, now).request, DoSettlePayment(k, p, now);
    hide Valid, Grows, ClaimOk, ClaimTimely, Explained, InWindow, SettlePayment;
    SettlePaymentIsAStep(r, k, p, now);
    PayingGrows(r, step);
    SettledTimely(r, k, p, clock, now);
    OneClaimTimely(r, after, k, clock, now);
  }

  lemma SettlePaymentIsAStep(r: Request, k: nat, p: nat, now: Time)
    requires SettlePayment(r, k, p, now).Moved?
    ensures SettlePayment(r, k, p, now).request == Apply(r, DoSettlePayment(k, p, now))
    ensures SettlePayment(r, k, p, now) == Attempt(r, DoSettlePayment(k, p, now))
  {
  }

  /** The claim settled, in time or late. */
  lemma SettledTimely(r: Request, k: nat, p: nat, clock: Time, now: Time)
    requires Valid(r) && Timely(r, clock) && clock <= now && SettlePayment(r, k, p, now).Moved?
    ensures var after := SettlePayment(r, k, p, now).request;
      && k < |r.claims| && after.claims == r.claims[k := after.claims[k]] && Keeps(r, after) && InWindow(after)
      && ClaimTimely(after.claims[k], now)
      && (after.claims[k].outcome == r.claims[k].outcome || Explained(after, k))
  {
    var after := SettlePayment(r, k, p, now).request;
    assert ClaimOk(r.claims[k]) && ClaimTimely(r.claims[k], clock);
    AcceptedOnlyWhenConfirmed(r, k);
    if after.status == r.status {
      SameWindow(r, after, k);
    }
  }

  lemma ExpireAcceptedTimely(r: Request, k: nat, clock: Time, now: Time)
    requires Valid(r) && Timely(r, clock) && clock <= now && ExpireAccepted(r, k, now).Moved?
    ensures Timely(ExpireAccepted(r, k, now).request, now)
  {
    var after, step := ExpireAccepted(r, k, now).request, DoExpireAccepted(k, now);
    hide Valid, Grows, ClaimOk, ClaimTimely, Explained, InWindow, ExpireAccepted;
    ExpireAcceptedIsAStep(r, k, now);
    PayingGrows(r, step);
    ExpiredTimely(r, k, clock, now);
    OneClaimTimely(r, after, k, clock, now);
  }

  lemma ExpireAcceptedIsAStep(r: Request, k: nat, now: Time)
    requires ExpireAccepted(r, k, now).Moved?
    ensures ExpireAccepted(r, k, now).request == Apply(r, DoExpireAccepted(k, now))
    ensures ExpireAccepted(r, k, now) == Attempt(r, DoExpireAccepted(k, now))
  {
  }

  /** The quotation ran out, and nobody else is on the request. */
  lemma ExpiredTimely(r: Request, k: nat, clock: Time, now: Time)
    requires Valid(r) && Timely(r, clock) && clock <= now && ExpireAccepted(r, k, now).Moved?
    ensures var after := ExpireAccepted(r, k, now).request;
      && k < |r.claims| && after.claims == r.claims[k := after.claims[k]] && Keeps(r, after) && InWindow(after)
      && ClaimTimely(after.claims[k], now) && Explained(after, k)
  {
    var after := ExpireAccepted(r, k, now).request;
    OnlyAccepted(r, k);
    hide Valid;
    assert ClaimTimely(r.claims[k], clock);
    assert RanOut(after.claims[k]);
    assert forall i :: 0 <= i < |after.claims| && i != k ==> GivenUp(r.excluded, after.claims[i]);
  }

  lemma ClosingTimely(r: Request, step: Step, clock: Time, now: Time)
    requires Valid(r) && Timely(r, clock) && clock <= now && Attempt(r, step).Moved? && Moment(step) == Some(now)
    requires step.DoWithdraw? || step.DoExpire?
    ensures Timely(Apply(r, step), now)
  {
    var after := Apply(r, step);
    var outcome := if step.DoWithdraw? then Outcome.WITHDRAWN else Outcome.NOT_CHOSEN;
    var status := if step.DoWithdraw? then Quote.WITHDRAWN else Quote.EXPIRED;
    hide ClaimTimely, Grows, End, ClaimOk, Explained, Apply, Attempt;
    EndingGrows(r, step);
    ClosingEndsAll(r, step, now);
    forall i | 0 <= i < |r.claims|
      ensures ClaimTimely(after.claims[i], now) && Explained(after, i)
    {
      assert ClaimOk(r.claims[i]) && ClaimTimely(r.claims[i], clock) && Explained(r, i);
      PooledIsNotAccepted(r, i);
      OverTimely(r, after, i, outcome, status, clock, now);
    }
  }

  lemma ClosingEndsAll(r: Request, step: Step, now: Time)
    requires Attempt(r, step).Moved? && Moment(step) == Some(now) && (step.DoWithdraw? || step.DoExpire?)
    ensures var after := Apply(r, step);
      && after.claims == (if step.DoWithdraw? then EndAll(r.claims, -1, Outcome.WITHDRAWN, Quote.WITHDRAWN, now)
                          else EndAll(r.claims, -1, Outcome.NOT_CHOSEN, Quote.EXPIRED, now))
      && after.status == (if step.DoWithdraw? then Status.WITHDRAWN else Status.EXPIRED)
      && (r.status == ROUTED || (r.status == REQUESTED && step.DoWithdraw?)) && Keeps(r, after)
  {
  }

  lemma OverTimely(r: Request, after: Request, i: nat, outcome: Outcome, status: Quote, clock: Time, now: Time)
    requires Valid(r) && i < |r.claims| && Explained(r, i) && Grows(r, after) && Keeps(r, after) && clock <= now
    requires ClaimOk(r.claims[i]) && ClaimTimely(r.claims[i], clock)
    requires !HasQuotation(r.claims[i], ACCEPTED) && r.claims[i].outcome != Some(Outcome.ENGAGED)
    requires after.claims[i] == End(r.claims[i], outcome, status, now)
    requires
      || (outcome == Outcome.WITHDRAWN && status == Quote.WITHDRAWN && after.status == Status.WITHDRAWN)
      || (outcome == Outcome.NOT_CHOSEN && status == Quote.EXPIRED && after.status == Status.EXPIRED)
    ensures ClaimTimely(after.claims[i], now) && Explained(after, i)
  {
    if IsOpen(r.claims[i]) {
      EndedTimely(r.claims[i], outcome, status, clock, now);
    } else {
      ClosedTimely(r.claims[i], outcome, status, clock, now);
      StillExplained(r, after, i);
    }
  }

  lemma ClosedTimely(c: Claim, outcome: Outcome, status: Quote, clock: Time, now: Time)
    requires ClaimOk(c) && ClaimTimely(c, clock) && clock <= now && !IsOpen(c) && c.outcome != Some(Outcome.ENGAGED)
    ensures End(c, outcome, status, now) == c && ClaimTimely(c, now)
  {
  }

  // ── Every run ───────────────────────────────────────────────────────────────────────────────

  lemma StepTimely(r: Request, step: Step, clock: Time, now: Time)
    requires Valid(r) && Timely(r, clock) && clock <= now
    requires if Moment(step).Some? then Moment(step).value == now else now == clock
    ensures Timely(Apply(r, step), now)
  {
    hide Valid, Timely;
    if Attempt(r, step).Refused? {
      TimelyLater(r, clock, now);
    } else {
      match step {
        case DoJoin(lawyer, _) => JoinTimely(r, lawyer, clock, now);
        case DoSaveDraft(k, amount, expiresAt, terms, _) => DraftTimely(r, k, amount, expiresAt, terms, clock, now);
        case DoSend(k, terms, _) => SendTimely(r, k, terms, clock, now);
        case DoSaveAndSend(k, amount, expiresAt, terms, _) =>
          DraftTimely(r, k, amount, expiresAt, terms, clock, now);
          DraftKeeps(r, k, amount, expiresAt, terms, now);
          SendTimely(SaveDraft(r, k, amount, expiresAt, terms, now).request, k, terms, now, now);
        case DoAccept(k, _) => AcceptTimely(r, k, clock, now);
        case DoEngageUnpaid(k, _) => EngageUnpaidTimely(r, k, clock, now);
        case DoStartPayment(k, _) => StartPaymentTimely(r, k, clock, now);
        case DoEndPayment(k, p, declined) => EndPaymentTimely(r, k, p, declined, clock);
        case DoSettlePayment(k, p, _) => SettlePaymentTimely(r, k, p, clock, now);
        case DoExpireAccepted(k, _) => ExpireAcceptedTimely(r, k, clock, now);
        case DoWithdraw(_) => ClosingTimely(r, step, clock, now);
        case DoExpire(_) => ClosingTimely(r, step, clock, now);
        case DoRelease(_, _) => GivingUpTimely(r, step, clock, now);
        case DoDecline(_, _) => GivingUpTimely(r, step, clock, now);
        case DoLapse(_, _) => GivingUpTimely(r, step, clock, now);
        case DoExpireSent(_, _) => GivingUpTimely(r, step, clock, now);
        case DoWithdrawQuotation(_, _) => GivingUpTimely(r, step, clock, now);
        case _ => PlacingTimely(r, step, clock, now);
      }
    }
  }

  lemma TimelyLater(r: Request, clock: Time, now: Time)
    requires Timely(r, clock) && clock <= now
    ensures Timely(r, now)
  {
    hide ClaimTimely, Explained;
    forall i | 0 <= i < |r.claims|
      ensures ClaimTimely(r.claims[i], now)
    {
      ClaimLater(r.claims[i], clock, now);
    }
  }

  lemma {:induction false} RunTimely(requestedLawyer: Option<Id>, start: Time, steps: seq<Step>)
    requires InOrder(start, steps)
    ensures Timely(Run(requestedLawyer, steps), Clock(start, steps))
  {
    hide Timely, Valid, Apply;
    if steps == [] {
      NewIsTimely(requestedLawyer, start);
    } else {
      var rest, last := steps[..|steps| - 1], steps[|steps| - 1];
      RunTimely(requestedLawyer, start, rest);
      RunValid(requestedLawyer, rest);
      StepTimely(Run(requestedLawyer, rest), last, Clock(start, rest), Clock(start, steps));
    }
  }

  lemma NewIsTimely(requestedLawyer: Option<Id>, start: Time)
    ensures Timely(New(requestedLawyer), start)
  {
  }

  // ── What that means ─────────────────────────────────────────────────────────────────────────

  /** Every quotation the client was ever sent went out inside the 24 hours of its own claim and before its
    * own expiry. */
  lemma SentInsideTheHold(requestedLawyer: Option<Id>, start: Time, steps: seq<Step>, k: nat)
    requires InOrder(start, steps) && k < |Run(requestedLawyer, steps).claims|
    requires Run(requestedLawyer, steps).claims[k].quotation.Some?
    ensures var c := Run(requestedLawyer, steps).claims[k]; var q := c.quotation.value;
      && (q.sentAt.Some? <==> c.quoted)
      && (c.quoted ==> c.claimedAt <= q.sentAt.value < c.claimedAt + CLAIM_HOLD && q.sentAt.value < q.expiresAt)
  {
    RunTimely(requestedLawyer, start, steps);
    hide Run;
    assert ClaimTimely(Run(requestedLawyer, steps).claims[k], Clock(start, steps));
  }

  /** A lawyer hired was sent for, accepted and paid in that order: joined, sent within 24 hours, accepted
    * before the expiry, and paid by an attempt started between acceptance and expiry. */
  lemma HiredInOrder(requestedLawyer: Option<Id>, start: Time, steps: seq<Step>, k: nat)
    requires InOrder(start, steps) && k < |Run(requestedLawyer, steps).claims|
    requires Run(requestedLawyer, steps).claims[k].outcome == Some(Outcome.ENGAGED)
    ensures var c := Run(requestedLawyer, steps).claims[k];
      && c.quotation.Some? && c.quotation.value.sentAt.Some? && c.quotation.value.acceptedAt.Some?
      && c.quotation.value.paidAt.Some?
    ensures var c := Run(requestedLawyer, steps).claims[k]; var q := c.quotation.value;
      && c.claimedAt <= q.sentAt.value < c.claimedAt + CLAIM_HOLD
      && q.sentAt.value <= q.acceptedAt.value < q.expiresAt && q.acceptedAt.value <= q.paidAt.value
      && forall p :: 0 <= p < |q.payments| ==>
           && q.acceptedAt.value <= q.payments[p].startedAt < q.expiresAt
           && q.payments[p].startedAt <= q.paidAt.value
  {
    RunTimely(requestedLawyer, start, steps);
    RunValid(requestedLawyer, steps);
    hide Run;
    var c := Run(requestedLawyer, steps).claims[k];
    assert ClaimOk(c) && ClaimTimely(c, Clock(start, steps));
  }

  /** Nobody loses their place unasked before their time: a claim lapsed only once its 24 hours were over
    * without a quote, was declined only with a quote on it, and was passed over only because the client let
    * its quote run out, accepted another at that moment, or let the request run out. */
  lemma LostForAReason(requestedLawyer: Option<Id>, start: Time, steps: seq<Step>, k: nat)
    requires InOrder(start, steps) && k < |Run(requestedLawyer, steps).claims|
    ensures var r := Run(requestedLawyer, steps); var c := r.claims[k];
      && (c.outcome == Some(LAPSED) ==> !c.quoted && c.endedAt.Some? && c.claimedAt + CLAIM_HOLD <= c.endedAt.value)
      && (c.outcome == Some(DECLINED) ==> c.quoted && HasQuotation(c, REJECTED))
      && (c.outcome == Some(Outcome.NOT_CHOSEN) ==> RanOut(c) || AnotherAccepted(r, k) || r.status == Status.EXPIRED)
      && (c.outcome == Some(Outcome.WITHDRAWN) ==> r.status == Status.WITHDRAWN)
  {
    RunTimely(requestedLawyer, start, steps);
    hide Run;
    var r := Run(requestedLawyer, steps);
    assert ClaimTimely(r.claims[k], Clock(start, steps)) && Explained(r, k);
  }

  /** Whoever is on a routed request joined before its window ends, and has 24 hours from then. */
  lemma JoinedInWindow(requestedLawyer: Option<Id>, start: Time, steps: seq<Step>, k: nat)
    requires InOrder(start, steps) && Run(requestedLawyer, steps).status == ROUTED
    requires k in Open(Run(requestedLawyer, steps).claims)
    ensures var r := Run(requestedLawyer, steps);
      r.claims[k].claimedAt < r.routingExpiresAt && r.claims[k].expiresAt == r.claims[k].claimedAt + CLAIM_HOLD
  {
    RunTimely(requestedLawyer, start, steps);
    hide Run;
    assert ClaimTimely(Run(requestedLawyer, steps).claims[k], Clock(start, steps));
  }

  /** Money can still come after the quotation's expiry, from an attempt started before it: until the expiry is
    * acted on it engages the request. */
  lemma PaidAfterExpiry(terms: Terms) returns (steps: seq<Step>)
    ensures InOrder(0, steps)
    ensures var r := Run(None, steps);
      && r.status == Status.ENGAGED && |r.claims| == 1 && HasQuotation(r.claims[0], PAID)
      && r.claims[0].quotation.value.paidAt == Some(5) && r.claims[0].quotation.value.expiresAt == 1
  {
    var hire := HireSteps(0, 1, terms, 0);
    steps := [DoRoute(0, ROUTING_WINDOW)] + hire;
    RoutedRun(None, ROUTING_WINDOW);
    var routed := Run(None, [DoRoute(0, ROUTING_WINDOW)]);
    HireAccepts(routed, 1, terms, 0);
    HireRun(None, [DoRoute(0, ROUTING_WINDOW)], 1, terms, 0);
    HiredAtZero(terms);
    PaysLate(Run(None, steps), terms);
    Extend(None, steps, DoStartPayment(0, 0));
    Extend(None, steps + [DoStartPayment(0, 0)], DoSettlePayment(0, 0, 5));
    LaterInOrder(0, steps, DoStartPayment(0, 0));
    LaterInOrder(0, steps + [DoStartPayment(0, 0)], DoSettlePayment(0, 0, 5));
    steps := steps + [DoStartPayment(0, 0)] + [DoSettlePayment(0, 0, 5)];
  }

  lemma PaysLate(r: Request, terms: Terms)
    requires r.status == CONFIRMED && r.claims == [Hired(1, terms, 0)]
    ensures var paid := Apply(Apply(r, DoStartPayment(0, 0)), DoSettlePayment(0, 0, 5));
      && paid.status == Status.ENGAGED && |paid.claims| == 1 && HasQuotation(paid.claims[0], PAID)
      && paid.claims[0].quotation.value.paidAt == Some(5) && paid.claims[0].quotation.value.expiresAt == 1
  {
    hide Price;
  }

  lemma LaterInOrder(start: Time, steps: seq<Step>, step: Step)
    requires InOrder(start, steps) && (Moment(step).Some? ==> Clock(start, steps) <= Moment(step).value)
    ensures InOrder(start, steps + [step])
    ensures Clock(start, steps + [step]) == if Moment(step).Some? then Moment(step).value else Clock(start, steps)
  {
    assert (steps + [step])[..|steps|] == steps;
  }

  lemma HiredAtZero(terms: Terms)
    ensures var steps := [DoRoute(0, ROUTING_WINDOW)] + HireSteps(0, 1, terms, 0);
      InOrder(0, steps) && Clock(0, steps) == 0
  {
    AllAtZero([DoRoute(0, ROUTING_WINDOW)] + HireSteps(0, 1, terms, 0));
  }

  lemma {:induction false} AllAtZero(steps: seq<Step>)
    requires forall i :: 0 <= i < |steps| ==> Moment(steps[i]) in {None, Some(0)}
    ensures InOrder(0, steps) && Clock(0, steps) == 0
  {
    if steps != [] {
      AllAtZero(steps[..|steps| - 1]);
    }
  }

  // ── Back to the pool ────────────────────────────────────────────────────────────────────────

  /** A place given up on a routed request is free again; with nobody left the request is open to every
    * matching lawyer for a fresh 48 hours, and with no quote left there is no date to pick by. */
  lemma GivenBackToThePool(r: Request, step: Step)
    requires Attempt(r, step).Moved?
    requires step.DoRelease? || step.DoDecline? || step.DoLapse? || step.DoExpireSent? || step.DoWithdrawQuotation?
    ensures var after := Apply(r, step);
      && after.status == ROUTED && |Open(after.claims)| == |Open(r.claims)| - 1
      && r.claims[step.k].lawyer in after.excluded
      && (Open(after.claims) == {} ==>
            !after.requestedOnly && after.routingExpiresAt == step.now + ROUTING_WINDOW && after.pickByAt.None?)
      && (Open(after.claims) != {} ==> after.routingExpiresAt == r.routingExpiresAt)
  {
    match step {
      case DoRelease(k, now) => PooledAgain(r, k, RELEASED, Quote.WITHDRAWN, now);
      case DoDecline(k, now) => PooledAgain(r, k, DECLINED, REJECTED, now);
      case DoLapse(k, now) => PooledAgain(r, k, LAPSED, Quote.WITHDRAWN, now);
      case DoExpireSent(k, now) => PooledAgain(r, k, Outcome.NOT_CHOSEN, Quote.EXPIRED, now);
      case DoWithdrawQuotation(k, now) => PooledAgain(r, k, RELEASED, Quote.WITHDRAWN, now);
    }
  }

  lemma PooledAgain(r: Request, k: nat, outcome: Outcome, status: Quote, now: Time)
    requires EndClaim(r, k, outcome, status, now).Moved?
    ensures var after := EndClaim(r, k, outcome, status, now).request;
      && after.status == ROUTED && |Open(after.claims)| == |Open(r.claims)| - 1
      && r.claims[k].lawyer in after.excluded
      && (Open(after.claims) == {} ==>
            !after.requestedOnly && after.routingExpiresAt == now + ROUTING_WINDOW && after.pickByAt.None?)
      && (Open(after.claims) != {} ==> after.routingExpiresAt == r.routingExpiresAt)
  {
    var after := EndClaim(r, k, outcome, status, now).request;
    assert k in Open(r.claims);
    assert Open(after.claims) == Open(r.claims) - {k};
  }
}
