/**
 * One client request and the lawyers on it: every step that changes it, as a function from the request to
 * the request after it. A refused step is a transaction rolled back: it changes nothing.
 */
module Handoff {
  import opened Options
  import opened PlatformFee

  type Id = nat
  type Time = int

  const MAX_LAWYERS: nat := 3
  const HOUR: int := 60 * 60 * 1000
  const ROUTING_WINDOW: int := 48 * HOUR
  const CLAIM_HOLD: int := 24 * HOUR

  datatype Status = REQUESTED | ROUTED | CONFIRMED | ENGAGED | CLOSED | EXPIRED | WITHDRAWN
  datatype Outcome = RELEASED | LAPSED | DECLINED | NOT_CHOSEN | WITHDRAWN | ENGAGED
  datatype Quote = DRAFT | SENT | ACCEPTED | PAID | REJECTED | WITHDRAWN | EXPIRED | NOT_CHOSEN
  datatype PaymentStatus = PENDING | SUCCEEDED | FAILED | CANCELED

  /** One attempt at paying. `earned`: it put an earning in the lawyer's wallet. */
  datatype Payment = Payment(
    status: PaymentStatus, amount: nat, serviceFee: nat, earned: bool, startedAt: Time)

  datatype Quotation = Quotation(
    status: Quote, amount: nat, serviceFee: nat, expiresAt: Time, accepted: Option<nat>, payments: seq<Payment>,
    sentAt: Option<Time>, acceptedAt: Option<Time>, paidAt: Option<Time>)

  /** A quotation as it is first saved. */
  function Draft(amount: nat, serviceFee: nat, expiresAt: Time): Quotation {
    Quotation(DRAFT, amount, serviceFee, expiresAt, None, [], None, None, None)
  }

  /** A lawyer's place on the request: open while it has no outcome. */
  datatype Claim = Claim(
    lawyer: Id, outcome: Option<Outcome>, quoted: bool, claimedAt: Time, expiresAt: Time, endedAt: Option<Time>,
    quotation: Option<Quotation>)

  /** A place as it is taken. */
  function Place(lawyer: Id, now: Time): Claim {
    Claim(lawyer, None, false, now, now + CLAIM_HOLD, None, None)
  }

  /** `cleared`: lawyers whose matching check has passed at some time, and who may still join on it.
    * `routed`: whether the creating call has got to its second update. */
  datatype Request = Request(
    status: Status, requestedLawyer: Option<Id>, requestedOnly: bool, routingExpiresAt: Time, pickByAt: Option<Time>,
    excluded: set<Id>, claims: seq<Claim>, cleared: set<Id>, routed: bool)

  datatype Reply = Moved(request: Request) | Refused

  function New(requestedLawyer: Option<Id>): Request {
    Request(REQUESTED, requestedLawyer, requestedLawyer.Some?, 0, None, {}, [], {}, false)
  }

  // ── Claims and quotations ───────────────────────────────────────────────────────────────────

  predicate IsOpen(c: Claim) { c.outcome.None? }

  predicate QuotationOpen(q: Quotation) { q.status == DRAFT || q.status == SENT }

  predicate HasQuotation(c: Claim, status: Quote) { c.quotation.Some? && c.quotation.value.status == status }

  /** The places taken. */
  function Open(claims: seq<Claim>): set<nat> {
    set i: nat | i < |claims| && IsOpen(claims[i])
  }

  function CloseQuotation(c: Claim, status: Quote): Claim {
    if c.quotation.Some? && QuotationOpen(c.quotation.value)
    then c.(quotation := Some(c.quotation.value.(status := status)))
    else c
  }

  /** Ends the claim if it is open, and closes its quotation if that is open. */
  function End(c: Claim, outcome: Outcome, status: Quote, now: Time): Claim {
    CloseQuotation(if IsOpen(c) then c.(outcome := Some(outcome), endedAt := Some(now)) else c, status)
  }

  /** Every claim but `except` ends. */
  function EndAll(claims: seq<Claim>, except: int, outcome: Outcome, status: Quote, now: Time): seq<Claim> {
    seq(|claims|, i requires 0 <= i < |claims| =>
      if i == except then claims[i] else End(claims[i], outcome, status, now))
  }

  // ── Joining ─────────────────────────────────────────────────────────────────────────────────

  /** The second update of the creating call, whatever happened to the request since the first. */
  function Route(r: Request, now: Time, window: int): Reply {
    if r.routed then Refused else Moved(r.(status := ROUTED, routed := true, routingExpiresAt := now + window))
  }

  predicate HasHeld(r: Request, lawyer: Id) {
    exists i :: 0 <= i < |r.claims| && r.claims[i].lawyer == lawyer
  }

  /** The matching check a join starts with; `matches` is whether the lawyer takes cases like this one. */
  predicate IsFor(r: Request, lawyer: Id, matches: bool) {
    HasHeld(r, lawyer)
    || (lawyer !in r.excluded && matches && (r.requestedOnly ==> r.requestedLawyer == Some(lawyer)))
  }

  function Check(r: Request, lawyer: Id, matches: bool): Reply {
    if IsFor(r, lawyer, matches) then Moved(r.(cleared := r.cleared + {lawyer})) else Refused
  }

  predicate Holds(r: Request, lawyer: Id) {
    exists i :: 0 <= i < |r.claims| && r.claims[i].lawyer == lawyer && IsOpen(r.claims[i])
  }

  /** The join itself, under the request's lock, some time after the check. */
  function Join(r: Request, lawyer: Id, now: Time): Reply {
    if lawyer !in r.cleared || r.status != ROUTED || r.routingExpiresAt <= now || lawyer in r.excluded then Refused
    else if Holds(r, lawyer) then Refused
    else if |Open(r.claims)| >= MAX_LAWYERS then Refused
    else Moved(r.(claims := r.claims + [Place(lawyer, now)]))
  }

  /** A pass: the lawyer is not offered the request again. */
  function Exclude(r: Request, lawyer: Id): Reply { Moved(r.(excluded := r.excluded + {lawyer})) }

  /** A request nobody is on stops being only for the lawyer the client named. */
  function OpenToAll(r: Request, now: Time): Reply {
    if r.status != ROUTED || !r.requestedOnly || Open(r.claims) != {} then Refused
    else Moved(r.(requestedOnly := false, routingExpiresAt := now + ROUTING_WINDOW, pickByAt := None))
  }

  // ── Quoting ─────────────────────────────────────────────────────────────────────────────────

  function SaveDraft(r: Request, k: nat, amount: nat, expiresAt: Time, terms: Terms, now: Time): Reply {
    if r.status != ROUTED || k >= |r.claims| || !IsOpen(r.claims[k]) || r.claims[k].expiresAt <= now then Refused
    else if r.claims[k].quotation.Some? && r.claims[k].quotation.value.status != DRAFT then Refused
    else
      var q := Draft(amount, Price(amount, terms).serviceFee, expiresAt);
      Moved(r.(claims := r.claims[k := r.claims[k].(quotation := Some(q))]))
  }

  /** The later of the pick-by date and a sent quote's expiry. */
  function PickBy(at: Option<Time>, expiresAt: Time): Option<Time> {
    if at.None? || at.value < expiresAt then Some(expiresAt) else at
  }

  /** The draft goes to the client, priced again. */
  function Send(r: Request, k: nat, terms: Terms, now: Time): Reply {
    if r.status != ROUTED || k >= |r.claims| || !HasQuotation(r.claims[k], DRAFT) then Refused
    else
      var c, q := r.claims[k], r.claims[k].quotation.value;
      if q.expiresAt <= now || !IsOpen(c) || c.quoted || c.expiresAt <= now then Refused
      else
        var sent := q.(status := SENT, serviceFee := Price(q.amount, terms).serviceFee, sentAt := Some(now));
        Moved(r.(claims := r.claims[k := c.(quotation := Some(sent), quoted := true)],
                 pickByAt := PickBy(r.pickByAt, q.expiresAt)))
  }

  /** Draft and send in one transaction: both or neither. */
  function SaveAndSend(r: Request, k: nat, amount: nat, expiresAt: Time, terms: Terms, now: Time): Reply {
    match SaveDraft(r, k, amount, expiresAt, terms, now)
    case Moved(drafted) => Send(drafted, k, terms, now)
    case Refused => Refused
  }

  // ── A claim ending ──────────────────────────────────────────────────────────────────────────

  /** What follows: the lawyer is out, and with nobody left the request goes back in the pool. */
  function AfterEnded(r: Request, lawyer: Id, now: Time): Request {
    var left := Open(r.claims);
    var out := r.(excluded := r.excluded + {lawyer});
    var pooled := if left == {} then out.(routingExpiresAt := now + ROUTING_WINDOW, requestedOnly := false) else out;
    if forall i :: i in left ==> !r.claims[i].quoted then pooled.(pickByAt := None) else pooled
  }

  /** Ends one open claim of a routed request. */
  function EndClaim(r: Request, k: nat, outcome: Outcome, status: Quote, now: Time): Reply {
    if r.status != ROUTED || k >= |r.claims| || !IsOpen(r.claims[k]) then Refused
    else Moved(AfterEnded(r.(claims := r.claims[k := End(r.claims[k], outcome, status, now)]), r.claims[k].lawyer, now))
  }

  /** The lawyer gives the request back, quoted or not. */
  function Release(r: Request, k: nat, now: Time): Reply { EndClaim(r, k, RELEASED, Quote.WITHDRAWN, now) }

  /** The client declines a quote. */
  function Decline(r: Request, k: nat, now: Time): Reply {
    if k < |r.claims| && !r.claims[k].quoted then Refused else EndClaim(r, k, DECLINED, REJECTED, now)
  }

  /** The 24h ran out without a quote. */
  function Lapse(r: Request, k: nat, now: Time): Reply {
    if k < |r.claims| && (r.claims[k].quoted || r.claims[k].expiresAt > now) then Refused
    else EndClaim(r, k, LAPSED, Quote.WITHDRAWN, now)
  }

  /** The client did not accept a sent quotation in time. */
  function ExpireSent(r: Request, k: nat, now: Time): Reply {
    if k < |r.claims| && !(HasQuotation(r.claims[k], SENT) && r.claims[k].quotation.value.expiresAt <= now) then Refused
    else EndClaim(r, k, Outcome.NOT_CHOSEN, Quote.EXPIRED, now)
  }

  /** The lawyer takes back a sent quotation. */
  function WithdrawQuotation(r: Request, k: nat, now: Time): Reply {
    if k < |r.claims| && !HasQuotation(r.claims[k], SENT) then Refused
    else EndClaim(r, k, RELEASED, Quote.WITHDRAWN, now)
  }

  // ── Accepting and paying ────────────────────────────────────────────────────────────────────

  function Accept(r: Request, k: nat, now: Time): Reply {
    if r.status != ROUTED || k >= |r.claims| || !HasQuotation(r.claims[k], SENT) then Refused
    else
      var c, q := r.claims[k], r.claims[k].quotation.value;
      if q.expiresAt <= now || !IsOpen(c) then Refused
      else
        var taken := c.(quotation := Some(q.(status := ACCEPTED, accepted := Some(q.amount), acceptedAt := Some(now))));
        Moved(r.(status := CONFIRMED,
                 claims := EndAll(r.claims[k := taken], k, Outcome.NOT_CHOSEN, Quote.NOT_CHOSEN, now)))
  }

  function Engage(c: Claim, now: Time): Claim
    requires c.quotation.Some?
  {
    c.(outcome := if IsOpen(c) then Some(Outcome.ENGAGED) else c.outcome,
       quotation := Some(c.quotation.value.(status := PAID, paidAt := Some(now))))
  }

  /** A quotation with nothing to pay. */
  function EngageUnpaid(r: Request, k: nat, now: Time): Reply {
    if r.status != CONFIRMED || k >= |r.claims| || !HasQuotation(r.claims[k], ACCEPTED) then Refused
    else if r.claims[k].quotation.value.accepted != Some(0) then Refused
    else Moved(r.(status := Status.ENGAGED, claims := r.claims[k := Engage(r.claims[k], now)]))
  }

  predicate IsPending(p: Payment) { p.status == PENDING }

  /** A new attempt for the accepted amount, or the one already waiting. */
  function StartPayment(r: Request, k: nat, now: Time): Reply {
    if r.status != CONFIRMED || k >= |r.claims| || !HasQuotation(r.claims[k], ACCEPTED) then Refused
    else
      var q := r.claims[k].quotation.value;
      if q.accepted.None? || q.expiresAt <= now then Refused
      else if exists p :: p in q.payments && IsPending(p) then Moved(r)
      else
        var more := q.(payments := q.payments + [Payment(PENDING, q.accepted.value, q.serviceFee, false, now)]);
        Moved(r.(claims := r.claims[k := r.claims[k].(quotation := Some(more))]))
  }

  predicate HasPayment(r: Request, k: nat, p: nat) {
    k < |r.claims| && r.claims[k].quotation.Some? && p < |r.claims[k].quotation.value.payments|
  }

  function WithPayment(c: Claim, p: nat, payment: Payment): Claim
    requires c.quotation.Some? && p < |c.quotation.value.payments|
  {
    var q := c.quotation.value;
    c.(quotation := Some(q.(payments := q.payments[p := payment])))
  }

  /** An attempt that took no money. */
  function EndPayment(r: Request, k: nat, p: nat, declined: bool): Reply {
    if !HasPayment(r, k, p) || !IsPending(r.claims[k].quotation.value.payments[p]) then Refused
    else
      var payment := r.claims[k].quotation.value.payments[p];
      var ended := payment.(status := if declined then FAILED else CANCELED);
      Moved(r.(claims := r.claims[k := WithPayment(r.claims[k], p, ended)]))
  }

  /** Settles an attempt, whatever it was marked before, once. It engages the request only while that is still
    * waiting on this quotation; otherwise it came too late. */
  function SettlePayment(r: Request, k: nat, p: nat, now: Time): Reply {
    if !HasPayment(r, k, p) || r.claims[k].quotation.value.payments[p].status == SUCCEEDED then Refused
    else
      var engages := r.status == CONFIRMED && HasQuotation(r.claims[k], ACCEPTED);
      var payment := r.claims[k].quotation.value.payments[p].(status := SUCCEEDED, earned := engages);
      var c := WithPayment(r.claims[k], p, payment);
      Moved(r.(status := if engages then Status.ENGAGED else r.status,
               claims := r.claims[k := if engages then Engage(c, now) else c]))
  }

  /** An attempt that took money. */
  predicate TookMoney(p: Payment) { p.status == SUCCEEDED }

  function CancelPending(payments: seq<Payment>): seq<Payment> {
    seq(|payments|, i requires 0 <= i < |payments| =>
      if IsPending(payments[i]) then payments[i].(status := CANCELED) else payments[i])
  }

  /** The client did not pay the accepted quotation in time: back to the pool, without that lawyer. */
  function ExpireAccepted(r: Request, k: nat, now: Time): Reply {
    if r.status != CONFIRMED || k >= |r.claims| || !HasQuotation(r.claims[k], ACCEPTED) then Refused
    else
      var c, q := r.claims[k], r.claims[k].quotation.value;
      if (exists p :: p in q.payments && TookMoney(p)) || q.accepted.None? || q.expiresAt > now then Refused
      else
        var lost := c.(outcome := if IsOpen(c) then Some(Outcome.NOT_CHOSEN) else c.outcome,
                       endedAt := if IsOpen(c) then Some(now) else c.endedAt,
                       quotation := Some(q.(status := Quote.EXPIRED, payments := CancelPending(q.payments))));
        Moved(r.(status := ROUTED, routingExpiresAt := now + ROUTING_WINDOW, pickByAt := None,
                 excluded := r.excluded + {c.lawyer}, claims := r.claims[k := lost]))
  }

  // ── The request ending ──────────────────────────────────────────────────────────────────────

  /** The client takes the request back. */
  function Withdraw(r: Request, now: Time): Reply {
    if r.status != REQUESTED && r.status != ROUTED then Refused
    else Moved(r.(status := Status.WITHDRAWN, claims := EndAll(r.claims, -1, Outcome.WITHDRAWN, Quote.WITHDRAWN, now)))
  }

  predicate HasRunOut(r: Request, now: Time) {
    || (!r.requestedOnly && r.routingExpiresAt <= now && Open(r.claims) == {})
    || (r.pickByAt.Some? && r.pickByAt.value <= now)
  }

  function Expire(r: Request, now: Time): Reply {
    if r.status != ROUTED || !HasRunOut(r, now) then Refused
    else Moved(r.(status := Status.EXPIRED, claims := EndAll(r.claims, -1, Outcome.NOT_CHOSEN, Quote.EXPIRED, now)))
  }

  function Close(r: Request): Reply {
    if r.status != Status.ENGAGED then Refused else Moved(r.(status := CLOSED))
  }

  // ── Runs ────────────────────────────────────────────────────────────────────────────────────

  datatype Step =
    | DoRoute(now: Time, window: int)
    | DoCheck(lawyer: Id, matches: bool)
    | DoJoin(lawyer: Id, now: Time)
    | DoExclude(lawyer: Id)
    | DoOpenToAll(now: Time)
    | DoSaveDraft(k: nat, amount: nat, expiresAt: Time, terms: Terms, now: Time)
    | DoSend(k: nat, terms: Terms, now: Time)
    | DoSaveAndSend(k: nat, amount: nat, expiresAt: Time, terms: Terms, now: Time)
    | DoRelease(k: nat, now: Time)
    | DoDecline(k: nat, now: Time)
    | DoLapse(k: nat, now: Time)
    | DoExpireSent(k: nat, now: Time)
    | DoWithdrawQuotation(k: nat, now: Time)
    | DoAccept(k: nat, now: Time)
    | DoEngageUnpaid(k: nat, now: Time)
    | DoStartPayment(k: nat, now: Time)
    | DoEndPayment(k: nat, p: nat, declined: bool)
    | DoSettlePayment(k: nat, p: nat, now: Time)
    | DoExpireAccepted(k: nat, now: Time)
    | DoWithdraw(now: Time)
    | DoExpire(now: Time)
    | DoClose

  function Attempt(r: Request, step: Step): Reply {
    match step
    case DoRoute(now, window) => Route(r, now, window)
    case DoCheck(lawyer, matches) => Check(r, lawyer, matches)
    case DoJoin(lawyer, now) => Join(r, lawyer, now)
    case DoExclude(lawyer) => Exclude(r, lawyer)
    case DoOpenToAll(now) => OpenToAll(r, now)
    case DoSaveDraft(k, amount, expiresAt, terms, now) => SaveDraft(r, k, amount, expiresAt, terms, now)
    case DoSend(k, terms, now) => Send(r, k, terms, now)
    case DoSaveAndSend(k, amount, expiresAt, terms, now) => SaveAndSend(r, k, amount, expiresAt, terms, now)
    case DoRelease(k, now) => Release(r, k, now)
    case DoDecline(k, now) => Decline(r, k, now)
    case DoLapse(k, now) => Lapse(r, k, now)
    case DoExpireSent(k, now) => ExpireSent(r, k, now)
    case DoWithdrawQuotation(k, now) => WithdrawQuotation(r, k, now)
    case DoAccept(k, now) => Accept(r, k, now)
    case DoEngageUnpaid(k, now) => EngageUnpaid(r, k, now)
    case DoStartPayment(k, now) => StartPayment(r, k, now)
    case DoEndPayment(k, p, declined) => EndPayment(r, k, p, declined)
    case DoSettlePayment(k, p, now) => SettlePayment(r, k, p, now)
    case DoExpireAccepted(k, now) => ExpireAccepted(r, k, now)
    case DoWithdraw(now) => Withdraw(r, now)
    case DoExpire(now) => Expire(r, now)
    case DoClose => Close(r)
  }

  function Apply(r: Request, step: Step): Request {
    var reply := Attempt(r, step);
    if reply.Moved? then reply.request else r
  }

  /** Any steps, in any order, at any times, from a new request. */
  function Run(requestedLawyer: Option<Id>, steps: seq<Step>): Request {
    if steps == [] then New(requestedLawyer) else Apply(Run(requestedLawyer, steps[..|steps| - 1]), steps[|steps| - 1])
  }
}
