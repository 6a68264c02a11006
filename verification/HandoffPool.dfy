/** How long a request stays in the pool, who may join it meanwhile, and when it runs out. */
module HandoffPool {
  import opened Options
  import opened PlatformFee
  import opened Handoff
  import opened HandoffInvariants
  import opened HandoffSafety

  // ── The date to pick by ─────────────────────────────────────────────────────────────────────

  /** Somebody on the request has sent a quote. */
  ghost predicate SomeQuoted(claims: seq<Claim>) {
    exists i :: 0 <= i < |claims| && IsOpen(claims[i]) && claims[i].quoted
  }

  predicate ExpiresAt(c: Claim, at: Time) { c.quoted && c.quotation.Some? && c.quotation.value.expiresAt == at }

  /** Some quote that was sent expires then. */
  ghost predicate FromQuote(claims: seq<Claim>, at: Time) {
    exists i :: 0 <= i < |claims| && ExpiresAt(claims[i], at)
  }

  /** In the pool there is a date to pick by exactly while somebody's quote waits, and it is the expiry of a
    * quote that was sent. */
  ghost predicate Dated(r: Request) {
    && (!r.routed ==> r.pickByAt.None?)
    && (r.status == ROUTED ==>
          && (r.pickByAt.Some? <==> SomeQuoted(r.claims))
          && (r.pickByAt.Some? ==> FromQuote(r.claims, r.pickByAt.value)))
  }

  lemma EndedQuote(c: Claim, outcome: Outcome, status: Quote, now: Time, at: Time)
    ensures ExpiresAt(End(c, outcome, status, now), at) <==> ExpiresAt(c, at)
    ensures !IsOpen(End(c, outcome, status, now))
  {
  }

  lemma SamePlaces(claims: seq<Claim>, after: seq<Claim>)
    requires |claims| == |after|
    requires forall i :: 0 <= i < |claims| ==>
      (IsOpen(after[i]) && after[i].quoted <==> IsOpen(claims[i]) && claims[i].quoted)
    requires forall i, at :: 0 <= i < |claims| ==> (ExpiresAt(after[i], at) <==> ExpiresAt(claims[i], at))
    ensures SomeQuoted(after) <==> SomeQuoted(claims)
    ensures forall at :: FromQuote(after, at) <==> FromQuote(claims, at)
  {
    if SomeQuoted(claims) {
      var i :| 0 <= i < |claims| && IsOpen(claims[i]) && claims[i].quoted;
      assert IsOpen(after[i]) && after[i].quoted;
    }
    forall at | FromQuote(claims, at)
      ensures FromQuote(after, at)
    {
      var i :| 0 <= i < |claims| && ExpiresAt(claims[i], at);
      assert ExpiresAt(after[i], at);
    }
    forall at | FromQuote(after, at)
      ensures FromQuote(claims, at)
    {
      var i :| 0 <= i < |claims| && ExpiresAt(after[i], at);
      assert ExpiresAt(claims[i], at);
    }
  }

  lemma JoinDated(r: Request, lawyer: Id, now: Time)
    requires Dated(r) && Join(r, lawyer, now).Moved?
    ensures Dated(Join(r, lawyer, now).request)
  {
    var claims, after := r.claims, r.claims + [Place(lawyer, now)];
    assert !after[|claims|].quoted;
    if SomeQuoted(claims) {
      var i :| 0 <= i < |claims| && IsOpen(claims[i]) && claims[i].quoted;
      assert IsOpen(after[i]) && after[i].quoted;
    }
    if r.pickByAt.Some? && r.status == ROUTED {
      var i :| 0 <= i < |claims| && ExpiresAt(claims[i], r.pickByAt.value);
      assert ExpiresAt(after[i], r.pickByAt.value);
    }
  }

  lemma DraftDated(r: Request, k: nat, amount: nat, expiresAt: Time, terms: Terms, now: Time)
    requires Valid(r) && Dated(r) && SaveDraft(r, k, amount, expiresAt, terms, now).Moved?
    ensures Dated(SaveDraft(r, k, amount, expiresAt, terms, now).request)
  {
    var after := SaveDraft(r, k, amount, expiresAt, terms, now).request;
    assert ClaimOk(r.claims[k]);
    assert !r.claims[k].quoted && !after.claims[k].quoted;
    hide Valid, ClaimOk, Price;
    SamePlaces(r.claims, after.claims);
  }

  lemma SendDated(r: Request, k: nat, terms: Terms, now: Time)
    requires Dated(r) && r.routed && Send(r, k, terms, now).Moved?
    ensures Dated(Send(r, k, terms, now).request)
  {
    hide Price;
    var after := Send(r, k, terms, now).request;
    var at := r.claims[k].quotation.value.expiresAt;
    assert IsOpen(after.claims[k]) && after.claims[k].quoted && ExpiresAt(after.claims[k], at);
    if r.pickByAt.Some? && r.pickByAt.value >= at {
      var i :| 0 <= i < |r.claims| && ExpiresAt(r.claims[i], r.pickByAt.value);
      assert i != k;
      assert ExpiresAt(after.claims[i], r.pickByAt.value);
    }
  }

  lemma EndClaimDated(r: Request, k: nat, outcome: Outcome, status: Quote, now: Time)
    requires Dated(r) && EndClaim(r, k, outcome, status, now).Moved?
    ensures Dated(EndClaim(r, k, outcome, status, now).request)
  {
    var after := EndClaim(r, k, outcome, status, now).request;
    var ended := End(r.claims[k], outcome, status, now);
    assert after.claims == r.claims[k := ended];
    forall at
      ensures ExpiresAt(ended, at) <==> ExpiresAt(r.claims[k], at)
    {
      EndedQuote(r.claims[k], outcome, status, now, at);
    }
    assert after.pickByAt == if SomeQuoted(after.claims) then r.pickByAt else None by {
      LeftQuoted(after.claims);
    }
    hide End;
    if SomeQuoted(after.claims) {
      var i :| 0 <= i < |after.claims| && IsOpen(after.claims[i]) && after.claims[i].quoted;
      assert IsOpen(r.claims[i]) && r.claims[i].quoted;
      var j :| 0 <= j < |r.claims| && ExpiresAt(r.claims[j], r.pickByAt.value);
      assert ExpiresAt(after.claims[j], r.pickByAt.value);
    }
  }

  lemma LeftQuoted(claims: seq<Claim>)
    ensures SomeQuoted(claims) <==> !forall i :: i in Open(claims) ==> !claims[i].quoted
  {
    if SomeQuoted(claims) {
      var i :| 0 <= i < |claims| && IsOpen(claims[i]) && claims[i].quoted;
      assert i in Open(claims);
    }
  }

  lemma ExpireAcceptedDated(r: Request, k: nat, now: Time)
    requires Valid(r) && ExpireAccepted(r, k, now).Moved?
    ensures Dated(ExpireAccepted(r, k, now).request)
  {
    OnlyAccepted(r, k);
    assert r.routed;
    hide Valid;
    var after := ExpireAccepted(r, k, now).request;
    forall i | 0 <= i < |after.claims|
      ensures !IsOpen(after.claims[i])
    {
      assert i == k || GivenUp(r.excluded, r.claims[i]);
    }
  }

  lemma GivingUpDated(r: Request, step: Step)
    requires Dated(r) && Attempt(r, step).Moved?
    requires step.DoRelease? || step.DoDecline? || step.DoLapse? || step.DoExpireSent? || step.DoWithdrawQuotation?
    ensures Dated(Apply(r, step))
  {
    hide Dated, EndClaim;
    match step {
      case DoRelease(k, now) => EndClaimDated(r, k, RELEASED, Quote.WITHDRAWN, now);
      case DoDecline(k, now) => EndClaimDated(r, k, DECLINED, REJECTED, now);
      case DoLapse(k, now) => EndClaimDated(r, k, LAPSED, Quote.WITHDRAWN, now);
      case DoExpireSent(k, now) => EndClaimDated(r, k, Outcome.NOT_CHOSEN, Quote.EXPIRED, now);
      case DoWithdrawQuotation(k, now) => EndClaimDated(r, k, RELEASED, Quote.WITHDRAWN, now);
    }
  }

  /** Steps that leave the request out of the pool, or every claim on it as it is. */
  lemma OtherStepsDated(r: Request, step: Step)
    requires Valid(r) && Dated(r) && Attempt(r, step).Moved?
    requires step.DoRoute? || step.DoCheck? || step.DoExclude? || step.DoOpenToAll? || step.DoClose? || step.DoAccept?
      || step.DoEngageUnpaid? || step.DoStartPayment? || step.DoWithdraw? || step.DoExpire?
    ensures Dated(Apply(r, step))
  {
    if step.DoOpenToAll? {
      assert forall i :: 0 <= i < |r.claims| && IsOpen(r.claims[i]) ==> i in Open(r.claims);
    }
    hide End, EndAll, Engage, ClaimOk, Placed, NobodyBack, PickByCovers;
  }

  /** Settling or failing to pay changes one attempt; it leaves the pool alone. */
  lemma PayingDated(r: Request, step: Step)
    requires Valid(r) && Dated(r) && Attempt(r, step).Moved? && (step.DoEndPayment? || step.DoSettlePayment?)
    ensures Dated(Apply(r, step))
  {
    var after := Apply(r, step);
    if r.status == ROUTED {
      assert after.status == ROUTED && after.pickByAt == r.pickByAt && after.routed == r.routed;
      assert after.claims[step.k].quoted == r.claims[step.k].quoted;
      assert after.claims[step.k].outcome == r.claims[step.k].outcome;
      assert after.claims[step.k].quotation.value.expiresAt == r.claims[step.k].quotation.value.expiresAt;
      SamePlaces(r.claims, after.claims);
    }
    hide Valid;
  }

  lemma RoutedInPool(r: Request)
    requires Valid(r)
    ensures r.status == ROUTED ==> r.routed
  {
  }

  lemma StepDated(r: Request, step: Step)
    requires Valid(r) && Dated(r)
    ensures Dated(Apply(r, step))
  {
    RoutedInPool(r);
    hide Dated, Valid;
    if Attempt(r, step).Moved? {
      match step {
        case DoJoin(lawyer, now) => JoinDated(r, lawyer, now);
        case DoSaveDraft(k, amount, expiresAt, terms, now) => DraftDated(r, k, amount, expiresAt, terms, now);
        case DoSend(k, terms, now) => SendDated(r, k, terms, now);
        case DoSaveAndSend(k, amount, expiresAt, terms, now) =>
          DraftDated(r, k, amount, expiresAt, terms, now);
          SendDated(SaveDraft(r, k, amount, expiresAt, terms, now).request, k, terms, now);
        case DoExpireAccepted(k, now) => ExpireAcceptedDated(r, k, now);
        case DoRelease(_, _) => GivingUpDated(r, step);
        case DoDecline(_, _) => GivingUpDated(r, step);
        case DoLapse(_, _) => GivingUpDated(r, step);
        case DoExpireSent(_, _) => GivingUpDated(r, step);
        case DoWithdrawQuotation(_, _) => GivingUpDated(r, step);
        case DoEndPayment(_, _, _) => PayingDated(r, step);
        case DoSettlePayment(_, _, _) => PayingDated(r, step);
        case _ => OtherStepsDated(r, step);
      }
    }
  }

  lemma {:induction false} RunDated(requestedLawyer: Option<Id>, steps: seq<Step>)
    ensures Dated(Run(requestedLawyer, steps))
  {
    hide Valid, Apply;
    if steps != [] {
      RunDated(requestedLawyer, steps[..|steps| - 1]);
      RunValid(requestedLawyer, steps[..|steps| - 1]);
      StepDated(Run(requestedLawyer, steps[..|steps| - 1]), steps[|steps| - 1]);
    }
  }

  lemma ReachableDated(r: Request)
    requires Reachable(r)
    ensures Dated(r)
  {
    var requestedLawyer, steps :| r == Run(requestedLawyer, steps);
    RunDated(requestedLawyer, steps);
  }

  /** When a request in the pool runs out: with quotes waiting, at the date to pick by, which is the expiry of a
    * quote that was sent and no earlier than that of any that waits; with lawyers on it but no quote, never;
    * with nobody on it, at the end of the window, unless it is only for the lawyer the client named. */
  lemma ExpiresExactly(r: Request, now: Time)
    requires Reachable(r) && r.status == ROUTED
    ensures SomeQuoted(r.claims) ==>
      && r.pickByAt.Some? && FromQuote(r.claims, r.pickByAt.value)
      && (forall i, at :: 0 <= i < |r.claims| && IsOpen(r.claims[i]) && ExpiresAt(r.claims[i], at) ==>
            at <= r.pickByAt.value)
      && (Expire(r, now).Moved? <==> r.pickByAt.value <= now)
    ensures !SomeQuoted(r.claims) ==>
      (Expire(r, now).Moved? <==> Open(r.claims) == {} && !r.requestedOnly && r.routingExpiresAt <= now)
  {
    ReachableValid(r);
    ReachableDated(r);
    if SomeQuoted(r.claims) {
      var i :| 0 <= i < |r.claims| && IsOpen(r.claims[i]) && r.claims[i].quoted;
      assert i in Open(r.claims);
      forall j, at | 0 <= j < |r.claims| && IsOpen(r.claims[j]) && ExpiresAt(r.claims[j], at)
        ensures at <= r.pickByAt.value
      {
        assert ClaimOk(r.claims[j]);
      }
    }
  }

  // ── Who may join ────────────────────────────────────────────────────────────────────────────

  /** A check and a join right after it bring a lawyer onto the request exactly when it is in the pool inside its
    * window with a place free, they are not out of it nor on it, and it is for them: they matched, now or
    * before, and it is not only for another, or they held it before. */
  lemma MayJoinExactly(r: Request, lawyer: Id, matches: bool, now: Time)
    requires Reachable(r)
    ensures Join(Apply(r, DoCheck(lawyer, matches)), lawyer, now).Moved? <==>
      && r.status == ROUTED && now < r.routingExpiresAt && |Open(r.claims)| < 3
      && lawyer !in r.excluded && !Holds(r, lawyer)
      && (lawyer in r.cleared || HasHeld(r, lawyer)
          || (matches && (r.requestedOnly ==> r.requestedLawyer == Some(lawyer))))
  {
    hide Reachable, Open, Holds;
    CheckClears(r, lawyer, matches);
  }

  lemma CheckClears(r: Request, lawyer: Id, matches: bool)
    ensures var after := Apply(r, DoCheck(lawyer, matches));
      && after == r.(cleared := after.cleared)
      && (lawyer in after.cleared <==> lawyer in r.cleared || IsFor(r, lawyer, matches))
      && (Holds(after, lawyer) <==> Holds(r, lawyer))
  {
  }

  /** A lawyer who is out of it and never held it is not shown it either. */
  lemma OutIsNotFor(r: Request, lawyer: Id, matches: bool)
    requires lawyer in r.excluded && !HasHeld(r, lawyer)
    ensures Check(r, lawyer, matches).Refused?
  {
  }

  /** Joining takes a place, for 24 hours from then, and nothing else. */
  lemma JoinTakesAPlace(r: Request, lawyer: Id, now: Time)
    requires Join(r, lawyer, now).Moved?
    ensures var after := Join(r, lawyer, now).request;
      && |after.claims| == |r.claims| + 1 && r.claims <= after.claims && Holds(after, lawyer)
      && Open(after.claims) == Open(r.claims) + {|r.claims|}
      && after.claims[|r.claims|].expiresAt == now + 24 * HOUR && !after.claims[|r.claims|].quoted
      && after.claims[|r.claims|].quotation.None?
  {
    var after := Join(r, lawyer, now).request;
    assert after.claims[|r.claims|].lawyer == lawyer && IsOpen(after.claims[|r.claims|]);
  }

  /** Who is out of a request stays out: no claim made later is theirs. */
  lemma {:induction false} OutForGood(requestedLawyer: Option<Id>, steps: seq<Step>, lawyer: Id, more: seq<Step>)
    requires lawyer in Run(requestedLawyer, steps).excluded
    ensures var r, later := Run(requestedLawyer, steps), Run(requestedLawyer, steps + more);
      && |r.claims| <= |later.claims| && lawyer in later.excluded
      && forall i :: |r.claims| <= i < |later.claims| ==> later.claims[i].lawyer != lawyer
  {
    hide Apply, Run, Grows, Valid, ClaimGrows;
    if more == [] {
      assert steps + more == steps;
    } else {
      var rest := more[..|more| - 1];
      OutForGood(requestedLawyer, steps, lawyer, rest);
      OneStepMore(requestedLawyer, steps, more);
      RunValid(requestedLawyer, steps + rest);
      StepLeavesOut(Run(requestedLawyer, steps + rest), lawyer, more[|more| - 1]);
    }
  }

  lemma StepLeavesOut(r: Request, lawyer: Id, step: Step)
    requires Valid(r) && lawyer in r.excluded
    ensures var after := Apply(r, step);
      && |r.claims| <= |after.claims| && lawyer in after.excluded
      && (forall i :: 0 <= i < |r.claims| ==> after.claims[i].lawyer == r.claims[i].lawyer)
      && forall i :: |r.claims| <= i < |after.claims| ==> after.claims[i].lawyer != lawyer
  {
    StepGrows(r, step);
    assert forall i :: 0 <= i < |r.claims| ==> ClaimGrows(r.claims[i], Apply(r, step).claims[i]);
    if !step.DoJoin? {
      OnlyJoiningAdds(r, step);
    }
    hide Valid, Grows, ClaimGrows;
  }

  lemma OnlyJoiningAdds(r: Request, step: Step)
    requires !step.DoJoin?
    ensures |Apply(r, step).claims| == |r.claims|
  {
    if GivesUp(step) {
      GivingUpAddsNone(r, step);
    } else {
      hide End, Engage, CancelPending, Price, PickBy, EndClaim;
    }
  }

  lemma GivingUpAddsNone(r: Request, step: Step)
    requires GivesUp(step)
    ensures |Apply(r, step).claims| == |r.claims|
  {
    hide End, HasQuotation, Open;
  }

  /** So a lawyer who passed is not on the request later, however it goes on. */
  lemma PassedStaysOut(requestedLawyer: Option<Id>, steps: seq<Step>, lawyer: Id, more: seq<Step>)
    ensures var r := Run(requestedLawyer, steps);
      var later := Run(requestedLawyer, steps + [DoExclude(lawyer)] + more);
      && lawyer in later.excluded
      && forall i :: |r.claims| <= i < |later.claims| ==> later.claims[i].lawyer != lawyer
  {
    Extend(requestedLawyer, steps, DoExclude(lawyer));
    OutForGood(requestedLawyer, steps + [DoExclude(lawyer)], lawyer, more);
  }

  // ── Who may quote, accept and pay ───────────────────────────────────────────────────────────

  /** A lawyer saves a quote while the place is theirs, inside its 24 hours, as long as they have sent none. */
  lemma MaySaveExactly(r: Request, k: nat, amount: nat, expiresAt: Time, terms: Terms, now: Time)
    requires Reachable(r)
    ensures SaveDraft(r, k, amount, expiresAt, terms, now).Moved? <==>
      r.status == ROUTED && k in Open(r.claims) && !r.claims[k].quoted && now < r.claims[k].expiresAt
  {
    ReachableValid(r);
    if k < |r.claims| {
      assert ClaimOk(r.claims[k]);
    }
    hide Price;
  }

  /** They send it then too, if it has not expired itself. */
  lemma MaySendExactly(r: Request, k: nat, terms: Terms, now: Time)
    requires Reachable(r)
    ensures Send(r, k, terms, now).Moved? <==>
      && r.status == ROUTED && k in Open(r.claims) && !r.claims[k].quoted && now < r.claims[k].expiresAt
      && r.claims[k].quotation.Some? && now < r.claims[k].quotation.value.expiresAt
  {
    ReachableValid(r);
    if k < |r.claims| {
      assert ClaimOk(r.claims[k]);
    }
    hide Price;
  }

  /** The client accepts any quote that waits and has not expired. */
  lemma MayAcceptExactly(r: Request, k: nat, now: Time)
    requires Reachable(r)
    ensures Accept(r, k, now).Moved? <==>
      && r.status == ROUTED && k in Open(r.claims) && r.claims[k].quoted && r.claims[k].quotation.Some?
      && now < r.claims[k].quotation.value.expiresAt
  {
    ReachableValid(r);
    if k < |r.claims| {
      assert ClaimOk(r.claims[k]);
    }
    hide EndAll;
  }

  /** Money taken counts once, whatever its attempt was marked; it hires exactly if the request still waits on that
    * quotation. */
  lemma MoneyCountsOnce(r: Request, k: nat, p: nat, now: Time)
    requires Reachable(r) && HasPayment(r, k, p)
    ensures var reply := SettlePayment(r, k, p, now);
      && (reply.Moved? <==> !TookMoney(r.claims[k].quotation.value.payments[p]))
      && (reply.Moved? ==>
            && HasPayment(reply.request, k, p) && TookMoney(reply.request.claims[k].quotation.value.payments[p])
            && SettlePayment(reply.request, k, p, now).Refused?
            && (reply.request.status != r.status <==> ConfirmedOn(r, k))
            && (ConfirmedOn(r, k) <==>
                  reply.request.status == Status.ENGAGED && reply.request.claims[k].quotation.value.payments[p].earned))
  {
    ReachableValid(r);
    if r.status == CONFIRMED && HasQuotation(r.claims[k], ACCEPTED) {
      OnlyAccepted(r, k);
    }
    if ConfirmedOn(r, k) {
      AcceptedOnlyWhenConfirmed(r, k);
    }
    assert ClaimOk(r.claims[k]);
    hide Reachable, Valid, Open;
  }

  /** Nobody is left paying for a quotation that expired. */
  lemma NobodyLeftPaying(r: Request, k: nat, p: nat)
    requires Reachable(r) && HasPayment(r, k, p) && HasQuotation(r.claims[k], Quote.EXPIRED)
    ensures !IsPending(r.claims[k].quotation.value.payments[p])
  {
    ReachableValid(r);
    assert ClaimOk(r.claims[k]);
  }

  // ── Back in the pool ────────────────────────────────────────────────────────────────────────

  /** In the pool with nobody on it, until then. */
  ghost predicate OnOffer(r: Request, until: Time) {
    r.status == ROUTED && Open(r.claims) == {} && r.pickByAt.None? && r.routingExpiresAt == until
  }

  /** Who it is for may join until then and no later, and it runs out then and no sooner, or never while it is
    * only for the lawyer the client named. */
  lemma OnOfferUntil(r: Request, until: Time, lawyer: Id, now: Time)
    requires Reachable(r) && OnOffer(r, until)
    ensures lawyer !in r.excluded && (r.requestedOnly ==> r.requestedLawyer == Some(lawyer)) ==>
      (Join(Apply(r, DoCheck(lawyer, true)), lawyer, now).Moved? <==> now < until)
    ensures Expire(r, now).Moved? <==> !r.requestedOnly && until <= now
  {
    NobodyHolds(r, lawyer);
    MayJoinExactly(r, lawyer, true, now);
  }

  lemma NobodyHolds(r: Request, lawyer: Id)
    requires Open(r.claims) == {}
    ensures !Holds(r, lawyer)
  {
    forall i | 0 <= i < |r.claims|
      ensures !IsOpen(r.claims[i])
    {
      assert i !in Open(r.claims);
    }
  }

  /** Each way a request gets into the pool with nobody on it, and for how long: as long as it is routed for, or
    * 48 hours when it is opened to all, when the last lawyer on it is gone, or when what was accepted is not
    * paid in time. */
  lemma PutOnOffer(r: Request, step: Step)
    requires Reachable(r) && Attempt(r, step).Moved?
    requires step.DoRoute? || step.DoOpenToAll? || step.DoExpireAccepted? || (GivesUp(step) && |Open(r.claims)| == 1)
    ensures OnOffer(Apply(r, step), step.now + if step.DoRoute? then step.window else 48 * HOUR)
    ensures step.DoOpenToAll? || GivesUp(step) ==> !Apply(r, step).requestedOnly
  {
    ReachableValid(r);
    match step {
      case DoRoute(_, _) =>
        ReachableDated(r);
        NobodyYet(r);
      case DoOpenToAll(_) =>
      case DoExpireAccepted(k, now) => EveryPlaceGone(r, k, now);
      case _ =>
        hide Valid, Dated, Reachable;
        GivenBackUntil(r, step);
    }
  }

  predicate GivesUp(step: Step) {
    step.DoRelease? || step.DoDecline? || step.DoLapse? || step.DoExpireSent? || step.DoWithdrawQuotation?
  }

  lemma NobodyYet(r: Request)
    requires Valid(r) && !r.routed
    ensures r.claims == [] && Open(r.claims) == {}
  {
  }

  lemma EveryPlaceGone(r: Request, k: nat, now: Time)
    requires Valid(r) && ExpireAccepted(r, k, now).Moved?
    ensures Open(ExpireAccepted(r, k, now).request.claims) == {}
  {
    OnlyAccepted(r, k);
    hide Valid;
    var after := ExpireAccepted(r, k, now).request;
    forall i | 0 <= i < |after.claims|
      ensures !IsOpen(after.claims[i])
    {
      assert i == k || GivenUp(r.excluded, r.claims[i]);
    }
  }

  lemma GivenBackUntil(r: Request, step: Step)
    requires GivesUp(step) && Attempt(r, step).Moved? && |Open(r.claims)| == 1
    ensures OnOffer(Apply(r, step), step.now + ROUTING_WINDOW) && !Apply(r, step).requestedOnly
  {
    hide EndClaim;
    match step {
      case DoRelease(k, now) => LastPlaceEnds(r, k, RELEASED, Quote.WITHDRAWN, now);
      case DoDecline(k, now) => LastPlaceEnds(r, k, DECLINED, REJECTED, now);
      case DoLapse(k, now) => LastPlaceEnds(r, k, LAPSED, Quote.WITHDRAWN, now);
      case DoExpireSent(k, now) => LastPlaceEnds(r, k, Outcome.NOT_CHOSEN, Quote.EXPIRED, now);
      case DoWithdrawQuotation(k, now) => LastPlaceEnds(r, k, RELEASED, Quote.WITHDRAWN, now);
    }
  }

  lemma LastPlaceEnds(r: Request, k: nat, outcome: Outcome, status: Quote, now: Time)
    requires EndClaim(r, k, outcome, status, now).Moved? && |Open(r.claims)| == 1
    ensures var after := EndClaim(r, k, outcome, status, now).request;
      OnOffer(after, now + ROUTING_WINDOW) && !after.requestedOnly
  {
    var after := EndClaim(r, k, outcome, status, now).request;
    assert k in Open(r.claims) && |Open(r.claims) - {k}| == 0;
    assert Open(after.claims) == Open(r.claims) - {k};
  }

  /** What an unquoted request in the pool keeps: it has no date to pick by and its window is open until at least
    * then. */
  ghost predicate Unquoted(r: Request, until: Time) {
    r.status == ROUTED && !SomeQuoted(r.claims) && r.pickByAt.None? && until <= r.routingExpiresAt
  }

  /** Not a quote sent, nor the client taking it back; nothing before `start`, and no sweep once the window is
    * over. */
  predicate LeavesInPool(step: Step, start: Time) {
    && !step.DoSend? && !step.DoSaveAndSend? && !step.DoWithdraw?
    && (step.DoExpire? ==> step.now < start + ROUTING_WINDOW)
    && (GivesUp(step) || step.DoOpenToAll? ==> start <= step.now)
  }

  lemma GivingUpUnquoted(r: Request, step: Step, start: Time)
    requires Unquoted(r, start + ROUTING_WINDOW) && GivesUp(step) && Attempt(r, step).Moved? && start <= step.now
    ensures Unquoted(Apply(r, step), start + ROUTING_WINDOW)
  {
    hide EndClaim, Unquoted;
    match step {
      case DoRelease(k, now) => EndClaimUnquoted(r, k, RELEASED, Quote.WITHDRAWN, now, start);
      case DoDecline(k, now) => EndClaimUnquoted(r, k, DECLINED, REJECTED, now, start);
      case DoLapse(k, now) => EndClaimUnquoted(r, k, LAPSED, Quote.WITHDRAWN, now, start);
      case DoExpireSent(k, now) => EndClaimUnquoted(r, k, Outcome.NOT_CHOSEN, Quote.EXPIRED, now, start);
      case DoWithdrawQuotation(k, now) => EndClaimUnquoted(r, k, RELEASED, Quote.WITHDRAWN, now, start);
    }
  }

  lemma EndClaimUnquoted(r: Request, k: nat, outcome: Outcome, status: Quote, now: Time, start: Time)
    requires Unquoted(r, start + ROUTING_WINDOW) && EndClaim(r, k, outcome, status, now).Moved? && start <= now
    ensures Unquoted(EndClaim(r, k, outcome, status, now).request, start + ROUTING_WINDOW)
  {
    var after := EndClaim(r, k, outcome, status, now).request;
    EndedQuote(r.claims[k], outcome, status, now, now);
    hide End;
    forall i | 0 <= i < |after.claims| && IsOpen(after.claims[i])
      ensures !after.claims[i].quoted
    {
      assert i != k && IsOpen(r.claims[i]);
    }
  }

  lemma AcceptNeedsQuote(r: Request, k: nat, now: Time)
    requires Valid(r) && Accept(r, k, now).Moved?
    ensures SomeQuoted(r.claims)
  {
    assert ClaimOk(r.claims[k]);
  }

  lemma StepUnquoted(r: Request, step: Step, start: Time)
    requires Valid(r) && Unquoted(r, start + ROUTING_WINDOW) && LeavesInPool(step, start)
    ensures Unquoted(Apply(r, step), start + ROUTING_WINDOW)
  {
    if Attempt(r, step).Moved? {
      if GivesUp(step) {
        GivingUpUnquoted(r, step, start);
      } else if step.DoAccept? {
        AcceptNeedsQuote(r, step.k, step.now);
      } else {
        hide ClaimOk, Placed, NobodyBack, PickByCovers, Price, Engage, CancelPending, End, EndAll;
        StillUnquoted(r, step, start);
      }
    }
  }

  lemma StillUnquoted(r: Request, step: Step, start: Time)
    requires Valid(r) && Unquoted(r, start + ROUTING_WINDOW) && LeavesInPool(step, start)
    requires Attempt(r, step).Moved? && !GivesUp(step) && !step.DoAccept?
    ensures Unquoted(Apply(r, step), start + ROUTING_WINDOW)
  {
    var after := Apply(r, step);
    assert r.routed;
    forall i | 0 <= i < |after.claims| && IsOpen(after.claims[i])
      ensures !after.claims[i].quoted
    {
      if i < |r.claims| {
        assert IsOpen(r.claims[i]) ==> !r.claims[i].quoted;
      }
    }
    hide ClaimOk, Placed, NobodyBack, PickByCovers, Price;
  }

  /** A request in the pool with no quote on it stays there, for at least the 48 hours it was put there for,
    * through anything but a quote being sent or the client taking it back. */
  lemma {:induction false} StaysInThePool(requestedLawyer: Option<Id>, steps: seq<Step>, start: Time, more: seq<Step>)
    requires Unquoted(Run(requestedLawyer, steps), start + ROUTING_WINDOW)
    requires forall step :: step in more ==> LeavesInPool(step, start)
    ensures Unquoted(Run(requestedLawyer, steps + more), start + ROUTING_WINDOW)
  {
    hide Unquoted, Apply, Run, Valid, LeavesInPool;
    if more == [] {
      assert steps + more == steps;
    } else {
      var rest := more[..|more| - 1];
      StaysInThePool(requestedLawyer, steps, start, rest);
      OneStepMore(requestedLawyer, steps, more);
      RunValid(requestedLawyer, steps + rest);
      StepUnquoted(Run(requestedLawyer, steps + rest), more[|more| - 1], start);
    }
  }

  lemma OfferUnquoted(r: Request, until: Time)
    requires OnOffer(r, until)
    ensures Unquoted(r, until)
  {
    forall i | 0 <= i < |r.claims|
      ensures !IsOpen(r.claims[i])
    {
      assert i !in Open(r.claims);
    }
  }

  /** So a request whose accepted quotation was not paid is good for another 48 hours: whatever happens but a
    * quote being sent or the client taking it back, it is still in the pool and no sweep ends it. */
  lemma AnotherChance(requestedLawyer: Option<Id>, steps: seq<Step>, k: nat, now: Time, more: seq<Step>, later: Time)
    requires ExpireAccepted(Run(requestedLawyer, steps), k, now).Moved? && later < now + 48 * HOUR
    requires forall step :: step in more ==> LeavesInPool(step, now)
    ensures var r := Run(requestedLawyer, steps + [DoExpireAccepted(k, now)] + more);
      r.status == ROUTED && Expire(r, later).Refused?
  {
    var r := Run(requestedLawyer, steps);
    assert Reachable(r);
    PutOnOffer(r, DoExpireAccepted(k, now));
    Extend(requestedLawyer, steps, DoExpireAccepted(k, now));
    hide Run, Apply, ExpireAccepted, LeavesInPool;
    OfferUnquoted(Run(requestedLawyer, steps + [DoExpireAccepted(k, now)]), now + 48 * HOUR);
    StaysInThePool(requestedLawyer, steps + [DoExpireAccepted(k, now)], now, more);
  }
}
