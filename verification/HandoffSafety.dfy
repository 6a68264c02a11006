/** What may never happen to a request, and two promises that need a condition. */
module HandoffSafety {
  import opened Options
  import opened PlatformFee
  import opened Handoff
  import opened HandoffInvariants

  // ── Places ──────────────────────────────────────────────────────────────────────────────────

  /** In every run at most three lawyers are on the request, and at most one, the lawyer the client named,
    * while it is only for them: however the checks and the joins interleave. */
  lemma PlacesAreLimited(requestedLawyer: Option<Id>, steps: seq<Step>)
    ensures var r := Run(requestedLawyer, steps);
      && |Open(r.claims)| <= MAX_LAWYERS
      && (r.requestedOnly ==> |Open(r.claims)| <= 1)
      && (forall i :: r.requestedOnly && i in Open(r.claims) ==> Some(r.claims[i].lawyer) == r.requestedLawyer)
  {
    RunValid(requestedLawyer, steps);
    hide Run;
    var r := Run(requestedLawyer, steps);
    if r.requestedOnly {
      OnePlaceWhileNamed(r);
    }
  }

  lemma OnePlaceWhileNamed(r: Request)
    requires Valid(r) && r.requestedOnly
    ensures |Open(r.claims)| <= 1
    ensures forall i :: i in Open(r.claims) ==> Some(r.claims[i].lawyer) == r.requestedLawyer
  {
    if Open(r.claims) != {} {
      var i :| i in Open(r.claims);
      assert Open(r.claims) == {i};
    }
  }

  /** Attempts stay, and one that took money stays as it was. */
  ghost predicate PaymentsGrow(ps: seq<Payment>, later: seq<Payment>) {
    |ps| <= |later| && forall p :: 0 <= p < |ps| && TookMoney(ps[p]) ==> later[p] == ps[p]
  }

  /** What a quotation keeps once it is sent: its terms, when it was sent and accepted, how it was closed and
    * what has been paid on it. */
  ghost predicate QuotationGrows(q: Quotation, later: Quotation) {
    && later.status != DRAFT && (QuotationClosed(q) ==> later.status == q.status)
    && later.amount == q.amount && later.serviceFee == q.serviceFee && later.expiresAt == q.expiresAt
    && later.sentAt == q.sentAt
    && (q.accepted.Some? ==> later.accepted == q.accepted && later.acceptedAt == q.acceptedAt)
    && PaymentsGrow(q.payments, later.payments)
  }

  /** What a claim keeps: whose it is, since when, how it ended, and from the moment it is sent what was
    * quoted. */
  ghost predicate ClaimGrows(c: Claim, later: Claim) {
    && later.lawyer == c.lawyer && later.claimedAt == c.claimedAt && later.expiresAt == c.expiresAt
    && (c.outcome.Some? ==> later.outcome == c.outcome && later.endedAt == c.endedAt) && (c.quoted ==> later.quoted)
    && (c.quotation.Some? && c.quotation.value.status != DRAFT ==>
          later.quotation.Some? && QuotationGrows(c.quotation.value, later.quotation.value))
  }

  /** The request's history only grows. */
  ghost predicate Grows(r: Request, later: Request) {
    && |r.claims| <= |later.claims| && r.excluded <= later.excluded && (later.requestedOnly ==> r.requestedOnly)
    && forall i :: 0 <= i < |r.claims| ==> ClaimGrows(r.claims[i], later.claims[i])
  }

  lemma GrowsOn(r: Request, s: Request, t: Request)
    requires Grows(r, s) && Grows(s, t)
    ensures Grows(r, t)
  {
    forall i | 0 <= i < |r.claims|
      ensures ClaimGrows(r.claims[i], t.claims[i])
    {
      assert ClaimGrows(r.claims[i], s.claims[i]) && ClaimGrows(s.claims[i], t.claims[i]);
    }
  }

  lemma Unchanged(c: Claim)
    ensures ClaimGrows(c, c)
  {
  }

  lemma EndedGrows(c: Claim, outcome: Outcome, status: Quote, now: Time)
    requires status != DRAFT
    ensures ClaimGrows(c, End(c, outcome, status, now))
  {
  }

  lemma OneClaimGrows(r: Request, later: Request, k: nat)
    requires k < |r.claims| == |later.claims| && r.excluded <= later.excluded
      && (later.requestedOnly ==> r.requestedOnly)
    requires later.claims == r.claims[k := later.claims[k]] && ClaimGrows(r.claims[k], later.claims[k])
    ensures Grows(r, later)
  {
    forall i | 0 <= i < |r.claims|
      ensures ClaimGrows(r.claims[i], later.claims[i])
    {
      Unchanged(r.claims[i]);
    }
  }

  lemma EndClaimGrows(r: Request, k: nat, outcome: Outcome, status: Quote, now: Time)
    requires EndClaim(r, k, outcome, status, now).Moved? && status != DRAFT
    ensures Grows(r, EndClaim(r, k, outcome, status, now).request)
  {
    hide Grows, ClaimGrows, End;
    EndedGrows(r.claims[k], outcome, status, now);
    OneClaimGrows(r, EndClaim(r, k, outcome, status, now).request, k);
  }

  lemma EndAllGrows(r: Request, later: Request, outcome: Outcome, status: Quote, now: Time)
    requires later == r.(status := later.status, claims := EndAll(r.claims, -1, outcome, status, now))
      && status != DRAFT
    ensures Grows(r, later)
  {
    forall i | 0 <= i < |r.claims|
      ensures ClaimGrows(r.claims[i], later.claims[i])
    {
      EndedGrows(r.claims[i], outcome, status, now);
    }
  }

  /** Steps that end one claim or all of them. */
  lemma EndingGrows(r: Request, step: Step)
    requires Attempt(r, step).Moved?
    requires step.DoRelease? || step.DoDecline? || step.DoLapse? || step.DoExpireSent? || step.DoWithdrawQuotation?
          || step.DoWithdraw? || step.DoExpire?
    ensures Grows(r, Apply(r, step))
  {
    hide Grows, EndClaim, EndAll;
    match step {
      case DoRelease(k, now) => EndClaimGrows(r, k, RELEASED, Quote.WITHDRAWN, now);
      case DoDecline(k, now) => EndClaimGrows(r, k, DECLINED, REJECTED, now);
      case DoLapse(k, now) => EndClaimGrows(r, k, LAPSED, Quote.WITHDRAWN, now);
      case DoExpireSent(k, now) => EndClaimGrows(r, k, Outcome.NOT_CHOSEN, Quote.EXPIRED, now);
      case DoWithdrawQuotation(k, now) => EndClaimGrows(r, k, RELEASED, Quote.WITHDRAWN, now);
      case DoWithdraw(now) => EndAllGrows(r, Apply(r, step), Outcome.WITHDRAWN, Quote.WITHDRAWN, now);
      case DoExpire(now) => EndAllGrows(r, Apply(r, step), Outcome.NOT_CHOSEN, Quote.EXPIRED, now);
    }
  }

  lemma DraftGrows(r: Request, k: nat, amount: nat, expiresAt: Time, terms: Terms, now: Time)
    requires SaveDraft(r, k, amount, expiresAt, terms, now).Moved?
    ensures Grows(r, SaveDraft(r, k, amount, expiresAt, terms, now).request)
  {
    hide Price;
    OneClaimGrows(r, SaveDraft(r, k, amount, expiresAt, terms, now).request, k);
  }

  lemma SendGrows(r: Request, k: nat, terms: Terms, now: Time)
    requires Send(r, k, terms, now).Moved?
    ensures Grows(r, Send(r, k, terms, now).request)
  {
    hide Price;
    OneClaimGrows(r, Send(r, k, terms, now).request, k);
  }

  lemma SaveAndSendGrows(r: Request, k: nat, amount: nat, expiresAt: Time, terms: Terms, now: Time)
    requires SaveAndSend(r, k, amount, expiresAt, terms, now).Moved?
    ensures Grows(r, SaveAndSend(r, k, amount, expiresAt, terms, now).request)
  {
    hide Grows, Send, SaveDraft;
    var drafted := SaveDraft(r, k, amount, expiresAt, terms, now).request;
    DraftGrows(r, k, amount, expiresAt, terms, now);
    SendGrows(drafted, k, terms, now);
    GrowsOn(r, drafted, Send(drafted, k, terms, now).request);
  }

  /** Only claim `k` changes, and grows. */
  ghost predicate OneGrows(r: Request, after: Request, k: nat) {
    && k < |r.claims| == |after.claims| && after.claims == r.claims[k := after.claims[k]]
    && r.excluded <= after.excluded && (after.requestedOnly ==> r.requestedOnly)
    && ClaimGrows(r.claims[k], after.claims[k])
  }

  lemma EngageUnpaidGrows(r: Request, k: nat, now: Time)
    requires EngageUnpaid(r, k, now).Moved?
    ensures OneGrows(r, EngageUnpaid(r, k, now).request, k)
  {
  }

  lemma StartPaymentGrows(r: Request, k: nat, now: Time)
    requires StartPayment(r, k, now).Moved?
    ensures OneGrows(r, StartPayment(r, k, now).request, k)
  {
  }

  lemma EndPaymentGrows(r: Request, k: nat, p: nat, declined: bool)
    requires EndPayment(r, k, p, declined).Moved?
    ensures OneGrows(r, EndPayment(r, k, p, declined).request, k)
  {
  }

  lemma SettlePaymentGrows(r: Request, k: nat, p: nat, now: Time)
    requires SettlePayment(r, k, p, now).Moved?
    ensures OneGrows(r, SettlePayment(r, k, p, now).request, k)
  {
  }

  lemma ExpireAcceptedGrows(r: Request, k: nat, now: Time)
    requires ExpireAccepted(r, k, now).Moved?
    ensures OneGrows(r, ExpireAccepted(r, k, now).request, k)
  {
  }

  /** Steps that pay, or fail to. */
  lemma PayingGrows(r: Request, step: Step)
    requires Attempt(r, step).Moved?
    requires step.DoEngageUnpaid? || step.DoStartPayment? || step.DoEndPayment? || step.DoSettlePayment?
      || step.DoExpireAccepted?
    ensures Grows(r, Apply(r, step))
  {
    hide Grows, ClaimGrows, EngageUnpaid, StartPayment, EndPayment, SettlePayment, ExpireAccepted;
    match step {
      case DoEngageUnpaid(k, now) => EngageUnpaidGrows(r, k, now);
      case DoStartPayment(k, now) => StartPaymentGrows(r, k, now);
      case DoEndPayment(k, p, declined) => EndPaymentGrows(r, k, p, declined);
      case DoSettlePayment(k, p, now) => SettlePaymentGrows(r, k, p, now);
      case DoExpireAccepted(k, now) => ExpireAcceptedGrows(r, k, now);
    }
    OneClaimGrows(r, Apply(r, step), step.k);
  }

  lemma AcceptGrows(r: Request, k: nat, now: Time)
    requires Valid(r)
    ensures Grows(r, Apply(r, DoAccept(k, now)))
  {
    var after := Apply(r, DoAccept(k, now));
    if Accept(r, k, now).Moved? {
      assert ClaimOk(r.claims[k]);
      hide Valid, ClaimOk, End;
      forall i | 0 <= i < |r.claims| && i != k
        ensures ClaimGrows(r.claims[i], after.claims[i])
      {
        EndedGrows(r.claims[i], Outcome.NOT_CHOSEN, Quote.NOT_CHOSEN, now);
      }
      assert ClaimGrows(r.claims[k], after.claims[k]);
    }
  }

  lemma StepGrows(r: Request, step: Step)
    requires Valid(r)
    ensures Grows(r, Apply(r, step))
  {
    hide Valid, Grows;
    if Attempt(r, step).Refused? {
      NoStepGrows(r);
    } else {
      match step {
        case DoAccept(k, now) => AcceptGrows(r, k, now);
        case DoSaveDraft(k, amount, expiresAt, terms, now) => DraftGrows(r, k, amount, expiresAt, terms, now);
        case DoSend(k, terms, now) => SendGrows(r, k, terms, now);
        case DoSaveAndSend(k, amount, expiresAt, terms, now) => SaveAndSendGrows(r, k, amount, expiresAt, terms, now);
        case DoRoute(_, _) => PlacingGrows(r, step);
        case DoCheck(_, _) => PlacingGrows(r, step);
        case DoJoin(_, _) => PlacingGrows(r, step);
        case DoExclude(_) => PlacingGrows(r, step);
        case DoOpenToAll(_) => PlacingGrows(r, step);
        case DoClose => PlacingGrows(r, step);
        case DoEngageUnpaid(_, _) => PayingGrows(r, step);
        case DoStartPayment(_, _) => PayingGrows(r, step);
        case DoEndPayment(_, _, _) => PayingGrows(r, step);
        case DoSettlePayment(_, _, _) => PayingGrows(r, step);
        case DoExpireAccepted(_, _) => PayingGrows(r, step);
        case _ => EndingGrows(r, step);
      }
    }
  }

  lemma NoStepGrows(r: Request)
    ensures Grows(r, r)
  {
  }

  /** Steps that leave every claim as it is, or add one. */
  lemma PlacingGrows(r: Request, step: Step)
    requires step.DoRoute? || step.DoCheck? || step.DoJoin? || step.DoExclude? || step.DoOpenToAll? || step.DoClose?
    ensures Grows(r, Apply(r, step))
  {
  }

  lemma OneStepMore(requestedLawyer: Option<Id>, steps: seq<Step>, more: seq<Step>)
    requires more != []
    ensures var before := steps + more[..|more| - 1];
      Run(requestedLawyer, steps + more) == Apply(Run(requestedLawyer, before), more[|more| - 1])
  {
    hide Apply;
    assert (steps + more)[..|steps + more| - 1] == steps + more[..|more| - 1];
  }

  lemma {:induction false} RunGrows(requestedLawyer: Option<Id>, steps: seq<Step>, more: seq<Step>)
    ensures Grows(Run(requestedLawyer, steps), Run(requestedLawyer, steps + more))
  {
    hide Grows, Apply, Run, Valid;
    if more == [] {
      assert steps + more == steps;
      NoStepGrows(Run(requestedLawyer, steps));
    } else {
      var rest, last := more[..|more| - 1], more[|more| - 1];
      RunGrows(requestedLawyer, steps, rest);
      OneStepMore(requestedLawyer, steps, more);
      RunValid(requestedLawyer, steps + rest);
      var s := Run(requestedLawyer, steps + rest);
      StepGrows(s, last);
      GrowsOn(Run(requestedLawyer, steps), s, Apply(s, last));
    }
  }

  /** A lawyer who released the request, let it lapse or was declined is out for good: however the run goes
    * on, they are excluded and have no later place on it. */
  lemma NeverHoldsItAgain(requestedLawyer: Option<Id>, steps: seq<Step>, more: seq<Step>, i: nat, j: nat)
    requires var r := Run(requestedLawyer, steps);
      && i < |r.claims|
      && (r.claims[i].outcome == Some(RELEASED) || r.claims[i].outcome == Some(LAPSED)
          || r.claims[i].outcome == Some(DECLINED))
    requires i < j < |Run(requestedLawyer, steps + more).claims|
    ensures var r, later := Run(requestedLawyer, steps), Run(requestedLawyer, steps + more);
      later.claims[j].lawyer != r.claims[i].lawyer && r.claims[i].lawyer in later.excluded
  {
    var r := Run(requestedLawyer, steps);
    RunGrows(requestedLawyer, steps, more);
    RunValid(requestedLawyer, steps + more);
    RunValid(requestedLawyer, steps);
    ReleasedIsExcluded(r, i);
    assert ClaimGrows(r.claims[i], Run(requestedLawyer, steps + more).claims[i]);
  }

  lemma ReleasedIsExcluded(r: Request, i: nat)
    requires Valid(r) && i < |r.claims|
    requires r.claims[i].outcome == Some(RELEASED) || r.claims[i].outcome == Some(LAPSED)
      || r.claims[i].outcome == Some(DECLINED)
    ensures r.claims[i].lawyer in r.excluded
  {
    assert ClaimOk(r.claims[i]);
    assert !GivenUp({}, r.claims[i]);
  }

  // ── Acceptance ──────────────────────────────────────────────────────────────────────────────

  predicate Taken(status: Status) { status == CONFIRMED || status == Status.ENGAGED || status == CLOSED }

  /** The quotations the client has ever accepted. */
  function EverAccepted(claims: seq<Claim>): set<nat> {
    set i: nat | i < |claims| && claims[i].quotation.Some? && claims[i].quotation.value.accepted.Some?
  }

  /** Those the client then did not pay in time. */
  function LapsedUnpaid(claims: seq<Claim>): set<nat> {
    set i: nat | i < |claims| && claims[i].quotation.Some? && claims[i].quotation.value.accepted.Some?
                 && claims[i].quotation.value.status == Quote.EXPIRED
  }

  predicate Stands(c: Claim) { HasQuotation(c, ACCEPTED) || HasQuotation(c, PAID) }

  /** At most one quotation stands accepted, and one does exactly while the request is taken. */
  lemma OneStandsExactlyWhileTaken(r: Request)
    requires Reachable(r)
    ensures forall i, j :: 0 <= i < |r.claims| && 0 <= j < |r.claims| ==>
      Stands(r.claims[i]) && Stands(r.claims[j]) ==> i == j
    ensures (exists i :: 0 <= i < |r.claims| && Stands(r.claims[i])) <==> Taken(r.status)
  {
    ReachableValid(r);
    if r.status == CONFIRMED {
      var k: nat :| ConfirmedOn(r, k);
      OnlyOneStands(r, k);
    } else if Taken(r.status) {
      var k: nat :| EngagedOn(r, k);
      assert ClaimOk(r.claims[k]);
      OnlyOneStands(r, k);
    } else {
      forall i | 0 <= i < |r.claims|
        ensures !Stands(r.claims[i])
      {
        assert ClaimOk(r.claims[i]);
      }
    }
  }

  lemma OnlyOneStands(r: Request, k: nat)
    requires Valid(r) && OnlyOn(r, k) && Stands(r.claims[k])
    ensures forall i :: 0 <= i < |r.claims| && Stands(r.claims[i]) ==> i == k
  {
    forall i | 0 <= i < |r.claims| && i != k
      ensures !Stands(r.claims[i])
    {
      assert ClaimOk(r.claims[i]) && GivenUp(r.excluded, r.claims[i]);
    }
  }

  /** Each acceptance either lapsed unpaid or is the one that stands. */
  lemma AcceptancesAddUp(r: Request)
    requires Reachable(r)
    ensures |EverAccepted(r.claims)| == |LapsedUnpaid(r.claims)| + if Taken(r.status) then 1 else 0
  {
    hide Reachable, Valid, AcceptedOk;
    OneStandsExactlyWhileTaken(r);
    AllAcceptedOk(r);
    AcceptedApart(r.claims);
    if Taken(r.status) {
      var k :| 0 <= k < |r.claims| && Stands(r.claims[k]);
      assert EverAccepted(r.claims) == LapsedUnpaid(r.claims) + {k};
    } else {
      assert EverAccepted(r.claims) == LapsedUnpaid(r.claims);
    }
  }

  lemma AllAcceptedOk(r: Request)
    requires Reachable(r)
    ensures forall i :: 0 <= i < |r.claims| ==> AcceptedOk(r.claims[i])
  {
    hide Reachable, Open, AcceptedOk, ClaimOk;
    ReachableValid(r);
    forall i | 0 <= i < |r.claims|
      ensures AcceptedOk(r.claims[i])
    {
      AcceptedStandsOrLapsed(r.claims[i]);
    }
  }

  /** The acceptances are the lapsed ones and those that stand, and none is both. */
  lemma AcceptedApart(claims: seq<Claim>)
    requires forall i :: 0 <= i < |claims| ==> AcceptedOk(claims[i])
    ensures forall i :: i in EverAccepted(claims) <==>
      i in LapsedUnpaid(claims) || (0 <= i < |claims| && Stands(claims[i]))
    ensures forall i :: i in LapsedUnpaid(claims) ==> 0 <= i < |claims| && !Stands(claims[i])
  {
  }

  /** What was accepted stands or lapsed, and nothing else does. */
  ghost predicate AcceptedOk(c: Claim) {
    && (c.quotation.Some? && c.quotation.value.accepted.Some? ==>
      Stands(c) || c.quotation.value.status == Quote.EXPIRED)
    && (Stands(c) ==> c.quotation.value.accepted.Some?)
  }

  lemma AcceptedStandsOrLapsed(c: Claim)
    requires ClaimOk(c)
    ensures AcceptedOk(c)
  {
  }

  /** An acceptance is the request's first exactly when none has lapsed unpaid before it: "once" holds of
    * each attempt at hiring, not of the request. */
  lemma AcceptedOnceExactlyIfNoneLapsed(r: Request, k: nat, now: Time)
    requires Reachable(r) && Accept(r, k, now).Moved?
    ensures |EverAccepted(Accept(r, k, now).request.claims)| <= 1 <==> LapsedUnpaid(r.claims) == {}
  {
    hide Reachable, Valid, EverAccepted, LapsedUnpaid, Accept;
    ReachableValid(r);
    StepReaches(r, DoAccept(k, now));
    AcceptConfirms(r, k, now);
    AcceptancesAddUp(r);
    AcceptancesAddUp(Accept(r, k, now).request);
    AcceptingAddsOne(r, k, now);
  }

  lemma AcceptConfirms(r: Request, k: nat, now: Time)
    requires Accept(r, k, now).Moved?
    ensures !Taken(r.status) && Accept(r, k, now).request == Apply(r, DoAccept(k, now))
  {
  }

  lemma AcceptingAddsOne(r: Request, k: nat, now: Time)
    requires Valid(r) && Accept(r, k, now).Moved?
    ensures EverAccepted(Accept(r, k, now).request.claims) == EverAccepted(r.claims) + {k}
    ensures k !in EverAccepted(r.claims)
  {
    assert ClaimOk(r.claims[k]);
  }

  /** A lawyer is cleared, joins and quotes, and the client accepts, all at `now`. */
  function HireSteps(k: nat, lawyer: Id, terms: Terms, now: Time): seq<Step> {
    [DoCheck(lawyer, true), DoJoin(lawyer, now), DoSaveAndSend(k, 100, now + 1, terms, now), DoAccept(k, now)]
  }

  function Hired(lawyer: Id, terms: Terms, now: Time): Claim {
    var q := Draft(100, Price(100, terms).serviceFee, now + 1);
    var accepted := q.(status := ACCEPTED, accepted := Some(100), sentAt := Some(now), acceptedAt := Some(now));
    Place(lawyer, now).(quoted := true, quotation := Some(accepted))
  }

  ghost predicate Idle(c: Claim) { !IsOpen(c) && (c.quotation.Some? ==> !QuotationOpen(c.quotation.value)) }

  function Hire(r: Request, lawyer: Id, terms: Terms, now: Time): Request {
    var k := |r.claims|;
    var joined := Apply(Apply(r, DoCheck(lawyer, true)), DoJoin(lawyer, now));
    Apply(Apply(joined, DoSaveAndSend(k, 100, now + 1, terms, now)), DoAccept(k, now))
  }

  lemma HireAccepts(r: Request, lawyer: Id, terms: Terms, now: Time)
    requires r.status == ROUTED && r.routingExpiresAt > now && lawyer !in r.excluded
    requires r.requestedOnly ==> r.requestedLawyer == Some(lawyer)
    requires forall i :: 0 <= i < |r.claims| ==> Idle(r.claims[i])
    ensures var h := Hire(r, lawyer, terms, now);
      && h.status == CONFIRMED && h.excluded == r.excluded && h.requestedOnly == r.requestedOnly
      && h.claims == r.claims + [Hired(lawyer, terms, now)]
  {
    hide Price;
    var k := |r.claims|;
    assert Open(r.claims) == {};
    var joined := Apply(Apply(r, DoCheck(lawyer, true)), DoJoin(lawyer, now));
    assert joined.claims == r.claims + [Place(lawyer, now)];
    var sent := Apply(joined, DoSaveAndSend(k, 100, now + 1, terms, now));
    var quoted := Draft(100, Price(100, terms).serviceFee, now + 1).(status := SENT, sentAt := Some(now));
    assert sent.claims == r.claims + [Place(lawyer, now).(quoted := true, quotation := Some(quoted))];
    assert sent.status == ROUTED && sent.excluded == r.excluded && sent.requestedOnly == r.requestedOnly;
    AcceptAlone(sent, k, now);
  }

  lemma AcceptAlone(r: Request, k: nat, now: Time)
    requires r.status == ROUTED && |r.claims| == k + 1 && IsOpen(r.claims[k])
    requires HasQuotation(r.claims[k], SENT) && r.claims[k].quotation.value.expiresAt > now
    requires forall i :: 0 <= i < k ==> Idle(r.claims[i])
    ensures var after, q := Apply(r, DoAccept(k, now)), r.claims[k].quotation.value;
      after == r.(status := CONFIRMED,
        claims := r.claims[..k] + [r.claims[k].(quotation :=
          Some(q.(status := ACCEPTED, accepted := Some(q.amount), acceptedAt := Some(now))))])
  {
  }

  lemma Extend(requestedLawyer: Option<Id>, steps: seq<Step>, step: Step)
    ensures Run(requestedLawyer, steps + [step]) == Apply(Run(requestedLawyer, steps), step)
  {
    assert (steps + [step])[..|steps|] == steps;
  }

  lemma HireRun(requestedLawyer: Option<Id>, steps: seq<Step>, lawyer: Id, terms: Terms, now: Time)
    ensures var r := Run(requestedLawyer, steps);
      Run(requestedLawyer, steps + HireSteps(|r.claims|, lawyer, terms, now)) == Hire(r, lawyer, terms, now)
  {
    var h := HireSteps(|Run(requestedLawyer, steps).claims|, lawyer, terms, now);
    hide Run, Apply;
    Extend(requestedLawyer, steps, h[0]);
    Extend(requestedLawyer, steps + [h[0]], h[1]);
    Extend(requestedLawyer, steps + [h[0]] + [h[1]], h[2]);
    Extend(requestedLawyer, steps + [h[0]] + [h[1]] + [h[2]], h[3]);
    assert steps + h == steps + [h[0]] + [h[1]] + [h[2]] + [h[3]];
  }

  lemma NotPaidInTime(r: Request, lawyer: Id, terms: Terms, now: Time)
    requires r.status == CONFIRMED && !r.requestedOnly && r.claims == [Hired(lawyer, terms, now)]
    ensures var after := Apply(r, DoExpireAccepted(0, now + 1));
      && after.status == ROUTED && !after.requestedOnly && after.routingExpiresAt > now + 1
      && after.excluded == r.excluded + {lawyer} && |after.claims| == 1 && Idle(after.claims[0])
      && EverAccepted(after.claims) == {0}
  {
    hide Price;
  }

  lemma RoutedRun(requestedLawyer: Option<Id>, window: int)
    ensures Run(requestedLawyer, [DoRoute(0, window)])
         == New(requestedLawyer).(status := ROUTED, routed := true, routingExpiresAt := window)
  {
    Extend(requestedLawyer, [], DoRoute(0, window));
    assert [] + [DoRoute(0, window)] == [DoRoute(0, window)];
  }

  lemma HireAndLose(steps: seq<Step>, terms: Terms) returns (more: seq<Step>)
    requires Run(None, steps) == New(None).(status := ROUTED, routed := true, routingExpiresAt := ROUTING_WINDOW)
    ensures var after := Run(None, more);
      && after.status == ROUTED && !after.requestedOnly && after.routingExpiresAt > 1
      && after.excluded == {1} && |after.claims| == 1 && Idle(after.claims[0]) && EverAccepted(after.claims) == {0}
  {
    hide Run, Apply, Hire, HireSteps, Hired, Idle, EverAccepted;
    HireAccepts(Run(None, steps), 1, terms, 0);
    HireRun(None, steps, 1, terms, 0);
    more := steps + HireSteps(0, 1, terms, 0);
    NotPaidInTime(Run(None, more), 1, terms, 0);
    Extend(None, more, DoExpireAccepted(0, 1));
    more := more + [DoExpireAccepted(0, 1)];
  }

  /** A run that accepts twice: the first is not paid in time, and the client accepts another lawyer's. */
  lemma AcceptedTwice(terms: Terms) returns (steps: seq<Step>)
    ensures EverAccepted(Run(None, steps).claims) == {0, 1}
  {
    hide Run, Apply, Hire, HireSteps, Idle, Price;
    RoutedRun(None, ROUTING_WINDOW);
    steps := HireAndLose([DoRoute(0, ROUTING_WINDOW)], terms);
    var pooled := Run(None, steps);
    HireAccepts(pooled, 2, terms, 1);
    HireRun(None, steps, 2, terms, 1);
    steps := steps + HireSteps(1, 2, terms, 1);
    OneMoreAccepted(pooled.claims, Hired(2, terms, 1));
  }

  lemma OneMoreAccepted(claims: seq<Claim>, c: Claim)
    requires c.quotation.Some? && c.quotation.value.accepted.Some?
    ensures EverAccepted(claims + [c]) == EverAccepted(claims) + {|claims|}
  {
  }

  // ── Paying ──────────────────────────────────────────────────────────────────────────────────

  ghost predicate OnePaymentEarned(q: Quotation) {
    exists p :: 0 <= p < |q.payments| && q.payments[p].earned && TookMoney(q.payments[p])
      && Some(q.payments[p].amount) == q.accepted
  }

  ghost predicate PaidInFull(c: Claim) {
    HasQuotation(c, PAID) && (c.quotation.value.accepted == Some(0) || OnePaymentEarned(c.quotation.value))
  }

  /** An engaged request rests on one hired lawyer whose accepted total was paid in full, once, or was
    * zero; every other lawyer is out. */
  lemma EngagedMeansPaid(r: Request)
    requires Reachable(r) && (r.status == Status.ENGAGED || r.status == CLOSED)
    ensures Open(r.claims) == {}
    ensures exists k: nat :: EngagedOn(r, k) && PaidInFull(r.claims[k])
  {
    ReachableValid(r);
    var k: nat :| EngagedOn(r, k);
    assert ClaimOk(r.claims[k]);
    var q := r.claims[k].quotation.value;
    if q.amount != 0 {
      var p :| 0 <= p < |q.payments| && q.payments[p].earned;
      assert OnePaymentEarned(q);
    }
    assert PaidInFull(r.claims[k]);
  }

  /** At most one payment of the whole request ever puts an earning in a wallet. */
  lemma EarnsOnce(r: Request, i: nat, p: nat, j: nat, q: nat)
    requires Reachable(r) && HasPayment(r, i, p) && HasPayment(r, j, q)
    requires r.claims[i].quotation.value.payments[p].earned && r.claims[j].quotation.value.payments[q].earned
    ensures i == j && p == q
  {
    ReachableValid(r);
    assert ClaimOk(r.claims[i]) && ClaimOk(r.claims[j]);
    OneStandsExactlyWhileTaken(r);
    assert Stands(r.claims[i]) && Stands(r.claims[j]);
  }

  /** The client never pays anything but what was accepted, and the split is the quotation's own. */
  lemma PaysWhatWasAccepted(r: Request, k: nat, p: nat)
    requires Reachable(r) && HasPayment(r, k, p)
    ensures var q := r.claims[k].quotation.value;
      q.accepted == Some(q.payments[p].amount) && q.payments[p].serviceFee == q.serviceFee <= q.payments[p].amount
  {
    ReachableValid(r);
    assert ClaimOk(r.claims[k]);
  }

  /** An accepted quotation past its expiry always expires: the check for a payment that went through never
    * stops it, because such a payment has already engaged the request. */
  lemma AcceptedExpiresOnTime(r: Request, k: nat, now: Time)
    requires Reachable(r) && k < |r.claims| && HasQuotation(r.claims[k], ACCEPTED)
    ensures ExpireAccepted(r, k, now).Moved? <==> r.claims[k].quotation.value.expiresAt <= now
  {
    ReachableValid(r);
    AcceptedOnlyWhenConfirmed(r, k);
    assert ClaimOk(r.claims[k]);
  }

  // ── Running out ─────────────────────────────────────────────────────────────────────────────

  /** A request never expires under a quote that is still good. */
  lemma NoQuoteCutShort(r: Request, now: Time, i: nat)
    requires Reachable(r) && Expire(r, now).Moved? && i < |r.claims|
    requires IsOpen(r.claims[i]) && HasQuotation(r.claims[i], SENT)
    ensures r.claims[i].quotation.value.expiresAt <= now
  {
    ReachableValid(r);
    assert i in Open(r.claims);
  }

  /** Once it is over nothing is left open on it: no place, no quotation waiting on anyone. */
  lemma NothingLeftOpen(r: Request, i: nat)
    requires Reachable(r) && r.status != ROUTED && r.status != CONFIRMED && i < |r.claims|
    ensures !IsOpen(r.claims[i]) && (r.claims[i].quotation.Some? ==> !QuotationOpen(r.claims[i].quotation.value))
  {
    ReachableValid(r);
    assert ClaimOk(r.claims[i]);
  }

  predicate Over(status: Status) { status == CLOSED || status == Status.EXPIRED || status == Status.WITHDRAWN }

  /** Over stays over under every step but one: routing a request withdrawn before it was ever routed, whose
    * update has no guard, brings it back. */
  lemma OverStaysOverUnlessUnrouted(r: Request, step: Step)
    requires Reachable(r) && Over(r.status)
    ensures Apply(r, step).status == r.status <==> r.routed || !step.DoRoute?
  {
    hide Reachable, Valid, Price, End, EndAll, Engage, Open, CancelPending;
    ReachableValid(r);
    if !r.routed {
      UnroutedIsWaiting(r);
    }
  }

  lemma UnroutedIsWaiting(r: Request)
    requires Valid(r) && !r.routed
    ensures r.claims == [] && (r.status == REQUESTED || r.status == Status.WITHDRAWN)
  {
  }

  lemma WithdrawnComesBack(requestedLawyer: Option<Id>, now: Time)
    ensures Run(requestedLawyer, [DoWithdraw(now)]).status == Status.WITHDRAWN
    ensures Run(requestedLawyer, [DoWithdraw(now), DoRoute(now, ROUTING_WINDOW)]).status == ROUTED
  {
    var withdrawn, routed := [DoWithdraw(now)], [DoWithdraw(now), DoRoute(now, ROUTING_WINDOW)];
    assert withdrawn[..0] == [] && routed[..1] == withdrawn;
  }

  // ── Back in the pool ────────────────────────────────────────────────────────────────────────

  /** After an accepted quotation expires the request is open to joining again, to a matching lawyer who is
    * not out of it, exactly when it had already gone wider: one still only for the named lawyer, who is now
    * out, stays closed to everybody until it is opened to all. */
  lemma JoinableAfterExpiryExactlyIfWider(r: Request, k: nat, now: Time, lawyer: Id)
    requires Reachable(r) && ExpireAccepted(r, k, now).Moved?
    ensures var after := ExpireAccepted(r, k, now).request;
      lawyer !in after.excluded ==>
        (Join(Apply(after, DoCheck(lawyer, true)), lawyer, now).Moved? <==> !r.requestedOnly)
    ensures var after := ExpireAccepted(r, k, now).request;
      lawyer in after.excluded ==> Join(Apply(after, DoCheck(lawyer, true)), lawyer, now).Refused?
  {
    ReachableValid(r);
    OnlyAccepted(r, k);
    var after := ExpireAccepted(r, k, now).request;
    ExpireAcceptedKeeps(r, k, now);
    forall i | 0 <= i < |after.claims|
      ensures !IsOpen(after.claims[i])
    {
      assert i == k || GivenUp(r.excluded, r.claims[i]);
    }
    assert Open(after.claims) == {};
    if r.requestedOnly {
      assert r.claims[k].lawyer == r.requestedLawyer.value;
    }
  }

  /** Such a request: the named lawyer was hired inside the 24 hours that are only theirs and not paid. */
  lemma NamedLawyerNotPaid(lawyer: Id, terms: Terms) returns (steps: seq<Step>)
    ensures var r := Run(Some(lawyer), steps);
      r.requestedOnly && ExpireAccepted(r, 0, 1).Moved? && ExpireAccepted(r, 0, 1).request.requestedOnly
  {
    var window := 24 * HOUR;
    RoutedRun(Some(lawyer), window);
    HireAccepts(Run(Some(lawyer), [DoRoute(0, window)]), lawyer, terms, 0);
    HireRun(Some(lawyer), [DoRoute(0, window)], lawyer, terms, 0);
    steps := [DoRoute(0, window)] + HireSteps(0, lawyer, terms, 0);
    NamedExpires(Run(Some(lawyer), steps), lawyer, terms);
  }

  lemma NamedExpires(r: Request, lawyer: Id, terms: Terms)
    requires r.status == CONFIRMED && r.requestedOnly && r.claims == [Hired(lawyer, terms, 0)]
    ensures ExpireAccepted(r, 0, 1).Moved? && ExpireAccepted(r, 0, 1).request.requestedOnly
  {
    hide Price;
  }

  /** Opening it to all is then allowed at once, and lets any such lawyer in. */
  lemma OpeningLetsThemIn(r: Request, k: nat, now: Time, lawyer: Id)
    requires Reachable(r) && ExpireAccepted(r, k, now).Moved? && r.requestedOnly
    ensures var after := ExpireAccepted(r, k, now).request;
      && OpenToAll(after, now).Moved?
      && (lawyer !in after.excluded ==>
            Join(Apply(OpenToAll(after, now).request, DoCheck(lawyer, true)), lawyer, now).Moved?)
  {
    ReachableValid(r);
    OnlyAccepted(r, k);
    var after := ExpireAccepted(r, k, now).request;
    forall i | 0 <= i < |after.claims|
      ensures !IsOpen(after.claims[i])
    {
      assert i == k || GivenUp(r.excluded, r.claims[i]);
    }
    assert Open(after.claims) == {};
  }
}
