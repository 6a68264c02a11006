/** What every run of a request keeps, whatever the order of the steps. */
module HandoffInvariants {
  import opened Options
  import opened PlatformFee
  import opened Handoff

  // ── One quotation ───────────────────────────────────────────────────────────────────────────

  ghost predicate NonePending(ps: seq<Payment>) { forall i :: 0 <= i < |ps| ==> !IsPending(ps[i]) }

  ghost predicate NoneTaken(ps: seq<Payment>) { forall i :: 0 <= i < |ps| ==> !TookMoney(ps[i]) }

  ghost predicate NoneEarned(ps: seq<Payment>) { forall i :: 0 <= i < |ps| ==> !ps[i].earned }

  ghost predicate SomeEarned(ps: seq<Payment>) { exists i :: 0 <= i < |ps| && ps[i].earned }

  /** Attempts are for the whole quotation, at most one is waiting and at most one has earned. */
  ghost predicate PaymentsOk(q: Quotation) {
    && (forall i :: 0 <= i < |q.payments| ==>
          && q.payments[i].amount == q.amount && q.payments[i].serviceFee == q.serviceFee
          && (q.payments[i].earned ==> TookMoney(q.payments[i])))
    && (forall i, j :: 0 <= i < j < |q.payments| ==>
          !(IsPending(q.payments[i]) && IsPending(q.payments[j])) && !(q.payments[i].earned && q.payments[j].earned))
  }

  ghost predicate QuotationOk(q: Quotation) {
    && q.serviceFee <= q.amount && PaymentsOk(q)
    && (q.status == ACCEPTED || q.status == PAID ==> q.accepted.Some?)
    && (q.accepted.Some? ==>
      q.accepted.value == q.amount && (q.status == ACCEPTED || q.status == PAID || q.status == Quote.EXPIRED))
    && (q.accepted.None? ==> q.payments == [])
    && (q.acceptedAt.Some? <==> q.accepted.Some?)
    && (q.status == ACCEPTED ==> NoneTaken(q.payments))
    && (q.status == PAID ==> q.amount == 0 || SomeEarned(q.payments))
    && (q.status != PAID ==> NoneEarned(q.payments))
    && (q.status == Quote.EXPIRED ==> NoneWaits(q.payments))
  }

  ghost predicate NoneWaits(payments: seq<Payment>) {
    forall i :: 0 <= i < |payments| ==> !IsPending(payments[i])
  }

  predicate QuotationClosed(q: Quotation) {
    q.status == REJECTED || q.status == Quote.WITHDRAWN || q.status == Quote.EXPIRED || q.status == Quote.NOT_CHOSEN
  }

  // ── One claim ───────────────────────────────────────────────────────────────────────────────

  ghost predicate ClaimOk(c: Claim) {
    && (c.quotation.Some? ==> QuotationOk(c.quotation.value))
    && match c.outcome
       case None =>
         && c.quoted == (HasQuotation(c, SENT) || HasQuotation(c, ACCEPTED))
         && (c.quotation.Some? ==> QuotationOpen(c.quotation.value) || c.quotation.value.status == ACCEPTED)
       case Some(outcome) =>
         if outcome == Outcome.ENGAGED then HasQuotation(c, PAID)
         else c.quotation.Some? ==> QuotationClosed(c.quotation.value)
  }

  /** Ended in a way that left the request in the pool: passed over, or out of it for good. */
  ghost predicate GivenUp(excluded: set<Id>, c: Claim) {
    || c.outcome == Some(Outcome.NOT_CHOSEN)
    || ((c.outcome == Some(RELEASED) || c.outcome == Some(LAPSED) || c.outcome == Some(DECLINED))
      && c.lawyer in excluded)
  }

  ghost predicate Waiting(c: Claim) { IsOpen(c) && !HasQuotation(c, ACCEPTED) }

  // ── The request ─────────────────────────────────────────────────────────────────────────────

  /** `k` is the one claim that is not given up. */
  ghost predicate OnlyOn(r: Request, k: nat) {
    k < |r.claims| && forall i :: 0 <= i < |r.claims| && i != k ==> GivenUp(r.excluded, r.claims[i])
  }

  ghost predicate ConfirmedOn(r: Request, k: nat) {
    OnlyOn(r, k) && IsOpen(r.claims[k]) && HasQuotation(r.claims[k], ACCEPTED)
  }

  ghost predicate EngagedOn(r: Request, k: nat) {
    OnlyOn(r, k) && r.claims[k].outcome == Some(Outcome.ENGAGED)
  }

  /** Where the claims stand in each status. */
  ghost predicate Placed(r: Request) {
    match r.status
    case REQUESTED => r.claims == []
    case ROUTED => forall i :: 0 <= i < |r.claims| ==> Waiting(r.claims[i]) || GivenUp(r.excluded, r.claims[i])
    case CONFIRMED => exists k: nat :: ConfirmedOn(r, k)
    case ENGAGED => exists k: nat :: EngagedOn(r, k)
    case CLOSED => exists k: nat :: EngagedOn(r, k)
    case EXPIRED => forall i :: 0 <= i < |r.claims| ==> GivenUp(r.excluded, r.claims[i])
    case WITHDRAWN => forall i :: 0 <= i < |r.claims| ==>
      r.claims[i].outcome == Some(Outcome.WITHDRAWN) || GivenUp(r.excluded, r.claims[i])
  }

  /** A lawyer comes back to a request only after being passed over: whoever released it, let it lapse or
    * was declined never holds it again, and nobody holds two places. */
  ghost predicate NobodyBack(claims: seq<Claim>) {
    forall i, j :: 0 <= i < j < |claims| && claims[i].lawyer == claims[j].lawyer ==>
      claims[i].outcome == Some(Outcome.NOT_CHOSEN)
  }

  /** While the request is only for one lawyer, nobody else has been cleared to join or has joined. */
  ghost predicate OnlyTheNamed(r: Request) {
    r.requestedOnly ==>
      && r.requestedLawyer.Some?
      && (forall l :: l in r.cleared ==> l == r.requestedLawyer.value)
      && forall i :: 0 <= i < |r.claims| ==> r.claims[i].lawyer == r.requestedLawyer.value
  }

  /** The pick-by date is no earlier than any open quote's expiry. */
  ghost predicate PickByCovers(r: Request) {
    r.status == ROUTED ==> forall i :: 0 <= i < |r.claims| && IsOpen(r.claims[i]) && HasQuotation(r.claims[i], SENT) ==>
      r.pickByAt.Some? && r.claims[i].quotation.value.expiresAt <= r.pickByAt.value
  }

  ghost predicate Valid(r: Request) {
    && (forall i :: 0 <= i < |r.claims| ==> ClaimOk(r.claims[i]))
    && Placed(r) && NobodyBack(r.claims) && |Open(r.claims)| <= MAX_LAWYERS
    && OnlyTheNamed(r) && PickByCovers(r)
    && (!r.routed ==> r.claims == [] && (r.status == REQUESTED || r.status == Status.WITHDRAWN))
    && (r.status == REQUESTED ==> !r.routed)
  }

  // ── Steps that keep it ──────────────────────────────────────────────────────────────────────

  lemma OpenShrinks(before: seq<Claim>, after: seq<Claim>)
    requires |after| == |before| && forall i :: 0 <= i < |before| && IsOpen(after[i]) ==> IsOpen(before[i])
    ensures |Open(after)| <= |Open(before)|
  {
    assert Open(after) <= Open(before);
    assert |Open(before) - Open(after)| == |Open(before)| - |Open(after)|;
  }

  lemma JoinKeeps(r: Request, lawyer: Id, now: Time)
    requires Valid(r) && Join(r, lawyer, now).Moved?
    ensures Valid(Join(r, lawyer, now).request)
  {
    hide ClaimOk, Holds, NobodyBack, Placed, PickByCovers;
    var after := Join(r, lawyer, now).request;
    PlaceOk(lawyer, now);
    assert Open(after.claims) == Open(r.claims) + {|r.claims|};
    JoinedPlaced(r, after, lawyer, now);
    JoinedPickBy(r, after, lawyer, now);
    JoinedOnce(r, after, lawyer, now);
  }

  lemma PlaceOk(lawyer: Id, now: Time)
    ensures ClaimOk(Place(lawyer, now)) && IsOpen(Place(lawyer, now)) && Place(lawyer, now).lawyer == lawyer
    ensures Place(lawyer, now).quotation.None?
  {
  }

  lemma JoinedPlaced(r: Request, after: Request, lawyer: Id, now: Time)
    requires Placed(r) && r.status == ROUTED && after == r.(claims := r.claims + [Place(lawyer, now)])
    ensures Placed(after)
  {
  }

  lemma JoinedPickBy(r: Request, after: Request, lawyer: Id, now: Time)
    requires PickByCovers(r) && after == r.(claims := r.claims + [Place(lawyer, now)])
    ensures PickByCovers(after)
  {
  }

  /** Nobody who joins holds a place already, and if they did before it was passed over. */
  lemma JoinedOnce(r: Request, after: Request, lawyer: Id, now: Time)
    requires Placed(r) && r.status == ROUTED && NobodyBack(r.claims) && !Holds(r, lawyer) && lawyer !in r.excluded
    requires after == r.(claims := r.claims + [Place(lawyer, now)])
    ensures NobodyBack(after.claims)
  {
    forall i | 0 <= i < |r.claims| && r.claims[i].lawyer == lawyer
      ensures r.claims[i].outcome == Some(Outcome.NOT_CHOSEN)
    {
      assert Waiting(r.claims[i]) || GivenUp(r.excluded, r.claims[i]);
    }
  }

  /** Excluding more lawyers leaves the claims where they are. */
  lemma StillPlaced(r: Request, after: Request)
    requires Placed(r) && after.claims == r.claims && r.excluded <= after.excluded
    requires after.status == r.status || (r.status == Status.ENGAGED && after.status == CLOSED)
    ensures Placed(after)
  {
    match r.status {
      case CONFIRMED =>
        var k: nat :| ConfirmedOn(r, k);
        assert ConfirmedOn(after, k);
      case ENGAGED =>
        var k: nat :| EngagedOn(r, k);
        assert EngagedOn(after, k);
      case CLOSED =>
        var k: nat :| EngagedOn(r, k);
        assert EngagedOn(after, k);
      case _ =>
    }
  }

  lemma RoutingKeeps(r: Request, step: Step)
    requires Valid(r) && (step.DoRoute? || step.DoCheck? || step.DoExclude? || step.DoOpenToAll? || step.DoClose?)
    ensures Valid(Apply(r, step))
  {
    var after := Apply(r, step);
    if after.status == r.status || step.DoClose? {
      StillPlaced(r, after);
    }
    if step.DoOpenToAll? && Attempt(r, step).Moved? {
      assert forall i :: 0 <= i < |r.claims| && IsOpen(r.claims[i]) ==> i in Open(r.claims);
    }
  }

  lemma DraftKeeps(r: Request, k: nat, amount: nat, expiresAt: Time, terms: Terms, now: Time)
    requires Valid(r) && SaveDraft(r, k, amount, expiresAt, terms, now).Moved?
    ensures Valid(SaveDraft(r, k, amount, expiresAt, terms, now).request)
  {
    var after := SaveDraft(r, k, amount, expiresAt, terms, now).request;
    assert ClaimOk(after.claims[k]);
    OpenShrinks(r.claims, after.claims);
  }

  lemma SendKeeps(r: Request, k: nat, terms: Terms, now: Time)
    requires Valid(r) && Send(r, k, terms, now).Moved?
    ensures Valid(Send(r, k, terms, now).request)
  {
    var after := Send(r, k, terms, now).request;
    assert ClaimOk(r.claims[k]);
    assert ClaimOk(after.claims[k]);
    OpenShrinks(r.claims, after.claims);
  }

  /** A claim that is not engaged or accepted ends well. */
  lemma EndOk(c: Claim, outcome: Outcome, status: Quote, now: Time)
    requires ClaimOk(c) && !HasQuotation(c, ACCEPTED) && c.outcome != Some(Outcome.ENGAGED)
    requires outcome != Outcome.ENGAGED
    requires status == REJECTED || status == Quote.WITHDRAWN || status == Quote.EXPIRED || status == Quote.NOT_CHOSEN
    ensures var e := End(c, outcome, status, now);
      ClaimOk(e) && e.lawyer == c.lawyer && e.outcome == (if IsOpen(c) then Some(outcome) else c.outcome)
  {
  }

  lemma AfterEndedKeeps(r: Request, lawyer: Id, now: Time)
    requires r.status == ROUTED && r.routed && OnlyTheNamed(r) && PickByCovers(r)
    requires forall i :: 0 <= i < |r.claims| ==> ClaimOk(r.claims[i])
    ensures var after := AfterEnded(r, lawyer, now);
      && OnlyTheNamed(after) && PickByCovers(after)
      && after.claims == r.claims && after.routed && after.status == ROUTED
      && after.excluded == r.excluded + {lawyer}
  {
    var after := AfterEnded(r, lawyer, now);
    forall i | 0 <= i < |r.claims| && IsOpen(r.claims[i]) && HasQuotation(r.claims[i], SENT)
      ensures after.pickByAt == r.pickByAt
    {
      assert i in Open(r.claims) && ClaimOk(r.claims[i]);
    }
  }

  lemma EndClaimKeeps(r: Request, k: nat, outcome: Outcome, status: Quote, now: Time)
    requires Valid(r) && EndClaim(r, k, outcome, status, now).Moved?
    requires outcome == RELEASED || outcome == LAPSED || outcome == DECLINED || outcome == Outcome.NOT_CHOSEN
    requires status == REJECTED || status == Quote.WITHDRAWN || status == Quote.EXPIRED
    ensures Valid(EndClaim(r, k, outcome, status, now).request)
  {
    var ended := r.(claims := r.claims[k := End(r.claims[k], outcome, status, now)]);
    assert ClaimOk(r.claims[k]) && Waiting(r.claims[k]);
    EndOk(r.claims[k], outcome, status, now);
    OpenShrinks(r.claims, ended.claims);
    hide ClaimOk, End, AfterEnded;
    AfterEndedKeeps(ended, r.claims[k].lawyer, now);
  }

  lemma AcceptKeeps(r: Request, k: nat, now: Time)
    requires Valid(r) && Accept(r, k, now).Moved?
    ensures Valid(Accept(r, k, now).request) && ConfirmedOn(Accept(r, k, now).request, k)
  {
    var after := Accept(r, k, now).request;
    assert ClaimOk(after.claims[k]) by {
      assert ClaimOk(r.claims[k]);
    }
    hide ClaimOk, End;
    forall i | 0 <= i < |r.claims| && i != k
      ensures ClaimOk(after.claims[i]) && after.claims[i].lawyer == r.claims[i].lawyer
      ensures GivenUp(after.excluded, after.claims[i])
    {
      assert ClaimOk(r.claims[i]);
      PooledIsNotAccepted(r, i);
      EndOk(r.claims[i], Outcome.NOT_CHOSEN, Quote.NOT_CHOSEN, now);
    }
    assert ConfirmedOn(after, k);
    OpenShrinks(r.claims, after.claims);
  }

  lemma PooledIsNotAccepted(r: Request, i: nat)
    requires Valid(r) && r.status == ROUTED && i < |r.claims|
    ensures !HasQuotation(r.claims[i], ACCEPTED) && r.claims[i].outcome != Some(Outcome.ENGAGED)
  {
    assert ClaimOk(r.claims[i]);
  }

  lemma EndAllKeeps(r: Request, outcome: Outcome, status: Quote, now: Time)
    requires Valid(r) && (r.status == ROUTED || r.status == REQUESTED)
    requires status == Quote.WITHDRAWN || status == Quote.EXPIRED
    requires outcome != Outcome.ENGAGED
    ensures var claims := EndAll(r.claims, -1, outcome, status, now);
      && NobodyBack(claims) && |Open(claims)| <= MAX_LAWYERS
      && forall i :: 0 <= i < |claims| ==>
           ClaimOk(claims[i]) && claims[i].lawyer == r.claims[i].lawyer
           && (claims[i].outcome == Some(outcome) || GivenUp(r.excluded, claims[i]))
  {
    var claims := EndAll(r.claims, -1, outcome, status, now);
    hide ClaimOk, End;
    forall i | 0 <= i < |claims|
      ensures ClaimOk(claims[i]) && claims[i].lawyer == r.claims[i].lawyer
      ensures claims[i].outcome == if IsOpen(r.claims[i]) then Some(outcome) else r.claims[i].outcome
    {
      assert ClaimOk(r.claims[i]);
      PooledIsNotAccepted(r, i);
      EndOk(r.claims[i], outcome, status, now);
    }
    OpenShrinks(r.claims, claims);
  }

  /** The one accepted quotation's claim changes and nothing else does. */
  lemma OnlyAccepted(r: Request, k: nat)
    requires Valid(r) && r.status == CONFIRMED && k < |r.claims| && HasQuotation(r.claims[k], ACCEPTED)
    ensures ConfirmedOn(r, k) && ClaimOk(r.claims[k])
  {
    var m: nat :| ConfirmedOn(r, m);
    assert ClaimOk(r.claims[k]);
  }

  lemma EngageUnpaidKeeps(r: Request, k: nat, now: Time)
    requires Valid(r) && EngageUnpaid(r, k, now).Moved?
    ensures Valid(EngageUnpaid(r, k, now).request)
  {
    OnlyAccepted(r, k);
    var after := EngageUnpaid(r, k, now).request;
    assert ClaimOk(after.claims[k]);
    assert EngagedOn(after, k);
    OpenShrinks(r.claims, after.claims);
  }

  lemma StartPaymentKeeps(r: Request, k: nat, now: Time)
    requires Valid(r) && StartPayment(r, k, now).Moved?
    ensures Valid(StartPayment(r, k, now).request)
  {
    OnlyAccepted(r, k);
    var after := StartPayment(r, k, now).request;
    if after != r {
      assert NonePending(r.claims[k].quotation.value.payments);
      assert QuotationOk(after.claims[k].quotation.value);
      assert ConfirmedOn(after, k);
      OpenShrinks(r.claims, after.claims);
    }
  }

  /** One attempt of claim `k` changes, to a payment that has not earned: everything still stands. */
  lemma PaymentChangeKeeps(r: Request, k: nat, p: nat, payment: Payment)
    requires Valid(r) && HasPayment(r, k, p)
    requires var was := r.claims[k].quotation.value.payments[p];
      payment == was.(status := payment.status) && !was.earned && !IsPending(payment)
    requires TookMoney(payment) ==> r.claims[k].quotation.value.status != ACCEPTED
    ensures Valid(r.(claims := r.claims[k := WithPayment(r.claims[k], p, payment)]))
  {
    var c := WithPayment(r.claims[k], p, payment);
    assert ClaimOk(r.claims[k]);
    PaymentChangeOk(r.claims[k], p, payment);
    assert c.quotation.value.status == r.claims[k].quotation.value.status;
    hide ClaimOk;
    OpenShrinks(r.claims, r.claims[k := c]);
    PlacedWithPayment(r, k, c);
  }

  /** Nothing about where the claims stand depends on the payments. */
  lemma PlacedWithPayment(r: Request, k: nat, c: Claim)
    requires Placed(r) && k < |r.claims|
    requires c.outcome == r.claims[k].outcome && c.lawyer == r.claims[k].lawyer
    requires c.quotation.Some? && r.claims[k].quotation.Some?
      && c.quotation.value.status == r.claims[k].quotation.value.status
    ensures Placed(r.(claims := r.claims[k := c]))
  {
    var after := r.(claims := r.claims[k := c]);
    match r.status {
      case CONFIRMED =>
        var m: nat :| ConfirmedOn(r, m);
        assert ConfirmedOn(after, m);
      case ENGAGED =>
        var m: nat :| EngagedOn(r, m);
        assert EngagedOn(after, m);
      case CLOSED =>
        var m: nat :| EngagedOn(r, m);
        assert EngagedOn(after, m);
      case _ =>
    }
  }

  lemma PaymentChangeOk(c: Claim, p: nat, payment: Payment)
    requires ClaimOk(c) && c.quotation.Some? && p < |c.quotation.value.payments|
    requires var was := c.quotation.value.payments[p];
      payment == was.(status := payment.status) && !was.earned && !IsPending(payment)
    requires TookMoney(payment) ==> c.quotation.value.status != ACCEPTED
    ensures ClaimOk(WithPayment(c, p, payment))
  {
    var q, after := c.quotation.value, WithPayment(c, p, payment).quotation.value;
    if q.status == PAID && q.amount != 0 {
      var i :| 0 <= i < |q.payments| && q.payments[i].earned;
      assert after.payments[i].earned;
    }
    assert QuotationOk(after);
  }

  lemma EngagingPaymentKeeps(r: Request, k: nat, p: nat, now: Time)
    requires Valid(r) && SettlePayment(r, k, p, now).Moved? && r.status == CONFIRMED
      && HasQuotation(r.claims[k], ACCEPTED)
    ensures Valid(SettlePayment(r, k, p, now).request)
  {
    OnlyAccepted(r, k);
    var after := SettlePayment(r, k, p, now).request;
    var q := after.claims[k].quotation.value;
    assert q.payments[p].earned;
    assert QuotationOk(q);
    assert EngagedOn(after, k);
    OpenShrinks(r.claims, after.claims);
  }

  lemma SettlePaymentKeeps(r: Request, k: nat, p: nat, now: Time)
    requires Valid(r) && SettlePayment(r, k, p, now).Moved?
    ensures Valid(SettlePayment(r, k, p, now).request)
  {
    if r.status == CONFIRMED && HasQuotation(r.claims[k], ACCEPTED) {
      EngagingPaymentKeeps(r, k, p, now);
    } else {
      assert ClaimOk(r.claims[k]);
      AcceptedOnlyWhenConfirmed(r, k);
      PaymentChangeKeeps(r, k, p, r.claims[k].quotation.value.payments[p].(status := SUCCEEDED));
    }
  }

  lemma AcceptedOnlyWhenConfirmed(r: Request, k: nat)
    requires Valid(r) && k < |r.claims|
    ensures HasQuotation(r.claims[k], ACCEPTED) ==> r.status == CONFIRMED
  {
    assert ClaimOk(r.claims[k]);
  }

  lemma ExpireAcceptedKeeps(r: Request, k: nat, now: Time)
    requires Valid(r) && ExpireAccepted(r, k, now).Moved?
    ensures Valid(ExpireAccepted(r, k, now).request)
  {
    OnlyAccepted(r, k);
    var after := ExpireAccepted(r, k, now).request;
    assert QuotationOk(after.claims[k].quotation.value);
    assert GivenUp(after.excluded, after.claims[k]);
    OpenShrinks(r.claims, after.claims);
  }

  /** Every step keeps everything. */
  lemma StepKeeps(r: Request, step: Step)
    requires Valid(r)
    ensures Valid(Apply(r, step))
  {
    hide Valid;
    if Attempt(r, step).Moved? {
      match step {
        case DoRoute(_, _) => RoutingKeeps(r, step);
        case DoCheck(_, _) => RoutingKeeps(r, step);
        case DoExclude(_) => RoutingKeeps(r, step);
        case DoOpenToAll(_) => RoutingKeeps(r, step);
        case DoClose => RoutingKeeps(r, step);
        case DoJoin(lawyer, now) => JoinKeeps(r, lawyer, now);
        case DoSaveDraft(k, amount, expiresAt, terms, now) => DraftKeeps(r, k, amount, expiresAt, terms, now);
        case DoSend(k, terms, now) => SendKeeps(r, k, terms, now);
        case DoSaveAndSend(k, amount, expiresAt, terms, now) =>
          DraftKeeps(r, k, amount, expiresAt, terms, now);
          SendKeeps(SaveDraft(r, k, amount, expiresAt, terms, now).request, k, terms, now);
        case DoRelease(k, now) => EndClaimKeeps(r, k, RELEASED, Quote.WITHDRAWN, now);
        case DoDecline(k, now) => EndClaimKeeps(r, k, DECLINED, REJECTED, now);
        case DoLapse(k, now) => EndClaimKeeps(r, k, LAPSED, Quote.WITHDRAWN, now);
        case DoExpireSent(k, now) => EndClaimKeeps(r, k, Outcome.NOT_CHOSEN, Quote.EXPIRED, now);
        case DoWithdrawQuotation(k, now) => EndClaimKeeps(r, k, RELEASED, Quote.WITHDRAWN, now);
        case DoAccept(k, now) => AcceptKeeps(r, k, now);
        case DoEngageUnpaid(k, now) => EngageUnpaidKeeps(r, k, now);
        case DoStartPayment(k, now) => StartPaymentKeeps(r, k, now);
        case DoEndPayment(k, p, declined) => EndPaymentKeeps(r, k, p, declined);
        case DoSettlePayment(k, p, now) => SettlePaymentKeeps(r, k, p, now);
        case DoExpireAccepted(k, now) => ExpireAcceptedKeeps(r, k, now);
        case DoWithdraw(_) => ClosingKeeps(r, step);
        case DoExpire(_) => ClosingKeeps(r, step);
      }
    }
  }

  lemma ClosingKeeps(r: Request, step: Step)
    requires Valid(r) && Attempt(r, step).Moved? && (step.DoWithdraw? || step.DoExpire?)
    ensures Valid(Apply(r, step))
  {
    if step.DoWithdraw? {
      EndAllKeeps(r, Outcome.WITHDRAWN, Quote.WITHDRAWN, step.now);
    } else {
      EndAllKeeps(r, Outcome.NOT_CHOSEN, Quote.EXPIRED, step.now);
    }
  }

  lemma EndPaymentKeeps(r: Request, k: nat, p: nat, declined: bool)
    requires Valid(r) && EndPayment(r, k, p, declined).Moved?
    ensures Valid(EndPayment(r, k, p, declined).request)
  {
    assert ClaimOk(r.claims[k]);
    var status := if declined then FAILED else CANCELED;
    PaymentChangeKeeps(r, k, p, r.claims[k].quotation.value.payments[p].(status := status));
  }

  lemma {:induction false} RunValid(requestedLawyer: Option<Id>, steps: seq<Step>)
    ensures Valid(Run(requestedLawyer, steps))
  {
    if steps == [] {
      assert Open([]) == {};
    } else {
      RunValid(requestedLawyer, steps[..|steps| - 1]);
      StepKeeps(Run(requestedLawyer, steps[..|steps| - 1]), steps[|steps| - 1]);
    }
  }

  /** A request some run leads to. */
  ghost predicate Reachable(r: Request) {
    exists requestedLawyer, steps :: r == Run(requestedLawyer, steps)
  }

  lemma ReachableValid(r: Request)
    requires Reachable(r)
    ensures Valid(r)
  {
    var requestedLawyer, steps :| r == Run(requestedLawyer, steps);
    RunValid(requestedLawyer, steps);
  }

  lemma StepReaches(r: Request, step: Step)
    requires Reachable(r)
    ensures Reachable(Apply(r, step))
  {
    var requestedLawyer, steps :| r == Run(requestedLawyer, steps);
    hide Apply;
    assert (steps + [step])[..|steps|] == steps;
    assert Apply(r, step) == Run(requestedLawyer, steps + [step]);
  }
}
