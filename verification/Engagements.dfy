/** A request and the wallets its payments go to, together: which payments become earnings. */
module Engagements {
  import opened Options
  import opened Sequences
  import opened HandoffInvariants
  import H = Handoff
  import G = HandoffSafety
  import R = Refunds
  import W = Wallets

  /** Attempt `p` at paying claim `k`'s quotation was recorded as payment `i` of `wallet`. */
  datatype Link = Link(k: nat, p: nat, wallet: nat, i: nat)

  datatype World = World(request: H.Request, wallets: map<nat, W.Books>, links: seq<Link>)

  /** `OnWallet` is anything else that happens to a wallet, payments of other requests included. */
  datatype Step =
    | OnRequest(step: H.Step)
    | Settle(k: nat, p: nat, now: H.Time, wallet: nat, availableAt: int)
    | OnWallet(wallet: nat, change: W.Step)

  function Start(requestedLawyer: Option<H.Id>): World { World(H.New(requestedLawyer), map[], []) }

  function BooksOf(w: World, wallet: nat): W.Books {
    if wallet in w.wallets then w.wallets[wallet] else W.EMPTY
  }

  function PaymentAt(r: H.Request, k: nat, p: nat): H.Payment
    requires H.HasPayment(r, k, p)
  {
    r.claims[k].quotation.value.payments[p]
  }

  /** One transaction: the payment, the request and, if it engages it, the earning. */
  function SettleTogether(w: World, k: nat, p: nat, now: H.Time, wallet: nat, availableAt: int): World {
    var settled := H.SettlePayment(w.request, k, p, now);
    if settled.Refused? then w
    else
      var payment, books := PaymentAt(settled.request, k, p), BooksOf(w, wallet);
      var paid := W.PayIn(books, payment.amount, payment.serviceFee, payment.earned, availableAt);
      if paid.Refused? then w
      else World(settled.request, w.wallets[wallet := paid.books], w.links + [Link(k, p, wallet, |books.payments|)])
  }

  function Apply(w: World, step: Step): World {
    match step
    case OnRequest(change) =>
      if change.DoSettlePayment? then w else w.(request := H.Apply(w.request, change))
    case Settle(k, p, now, wallet, availableAt) => SettleTogether(w, k, p, now, wallet, availableAt)
    case OnWallet(wallet, change) => w.(wallets := w.wallets[wallet := W.Apply(BooksOf(w, wallet), change)])
  }

  function Run(w: World, steps: seq<Step>): World {
    if steps == [] then w else Apply(Run(w, steps[..|steps| - 1]), steps[|steps| - 1])
  }

  // ── What every run keeps ────────────────────────────────────────────────────────────────────

  ghost predicate LinkOk(w: World, l: Link) {
    && H.HasPayment(w.request, l.k, l.p) && H.TookMoney(PaymentAt(w.request, l.k, l.p))
    && l.wallet in w.wallets && l.i < |w.wallets[l.wallet].payments|
    && Records(w.wallets[l.wallet].payments[l.i], PaymentAt(w.request, l.k, l.p))
  }

  /** The wallet's row of a payment: an earning exactly if the payment earned. */
  ghost predicate Records(row: R.Payment, payment: H.Payment) {
    row.amount == payment.amount && row.serviceFee == payment.serviceFee && (row.earning.Some? <==> payment.earned)
  }

  ghost predicate Linked(w: World, k: nat, p: nat) {
    exists a :: 0 <= a < |w.links| && w.links[a].k == k && w.links[a].p == p
  }

  ghost predicate LinksApart(links: seq<Link>) {
    forall a, b :: 0 <= a < b < |links| ==>
      && (links[a].k != links[b].k || links[a].p != links[b].p)
      && (links[a].wallet != links[b].wallet || links[a].i != links[b].i)
  }

  ghost predicate Joined(w: World) {
    && Reachable(w.request)
    && (forall wallet :: wallet in w.wallets ==> W.Sound(w.wallets[wallet]))
    && (forall a :: 0 <= a < |w.links| ==> LinkOk(w, w.links[a]))
    && LinksApart(w.links)
    && Complete(w)
  }

  /** No payment that took money is forgotten. */
  ghost predicate Complete(w: World) {
    forall k: nat, p: nat :: H.HasPayment(w.request, k, p) && H.TookMoney(PaymentAt(w.request, k, p)) ==>
      Linked(w, k, p)
  }

  // ── Steps of the request ────────────────────────────────────────────────────────────────────

  function PaymentsOf(c: H.Claim): seq<H.Payment> { if c.quotation.Some? then c.quotation.value.payments else [] }

  /** What took money had taken it before. */
  ghost predicate NothingTaken(c: H.Claim, d: H.Claim) {
    forall p :: 0 <= p < |PaymentsOf(d)| && H.TookMoney(PaymentsOf(d)[p]) ==>
      p < |PaymentsOf(c)| && H.TookMoney(PaymentsOf(c)[p])
  }

  ghost predicate NothingTakenAnywhere(r: H.Request, after: H.Request) {
    && |r.claims| <= |after.claims|
    && (forall i :: 0 <= i < |r.claims| ==> NothingTaken(r.claims[i], after.claims[i]))
    && forall i :: |r.claims| <= i < |after.claims| ==> PaymentsOf(after.claims[i]) == []
  }

  lemma EndTakesNothing(c: H.Claim, outcome: H.Outcome, status: H.Quote, now: H.Time)
    ensures PaymentsOf(H.End(c, outcome, status, now)) == PaymentsOf(c)
  {
  }

  lemma EndClaimTakesNothing(r: H.Request, k: nat, outcome: H.Outcome, status: H.Quote, now: H.Time)
    ensures var reply := H.EndClaim(r, k, outcome, status, now); reply.Moved? ==> NothingTakenAnywhere(r, reply.request)
  {
    if k < |r.claims| {
      EndTakesNothing(r.claims[k], outcome, status, now);
    }
    hide H.End, PaymentsOf;
  }

  lemma GivingUpTakesNothing(r: H.Request, step: H.Step)
    requires step.DoRelease? || step.DoDecline? || step.DoLapse? || step.DoExpireSent? || step.DoWithdrawQuotation?
    ensures NothingTakenAnywhere(r, H.Apply(r, step))
  {
    NothingDoneTakesNothing(r);
    hide H.EndClaim, NothingTakenAnywhere;
    match step {
      case DoRelease(k, now) => EndClaimTakesNothing(r, k, H.RELEASED, H.Quote.WITHDRAWN, now);
      case DoDecline(k, now) => EndClaimTakesNothing(r, k, H.DECLINED, H.REJECTED, now);
      case DoLapse(k, now) => EndClaimTakesNothing(r, k, H.LAPSED, H.Quote.WITHDRAWN, now);
      case DoExpireSent(k, now) => EndClaimTakesNothing(r, k, H.Outcome.NOT_CHOSEN, H.Quote.EXPIRED, now);
      case DoWithdrawQuotation(k, now) => EndClaimTakesNothing(r, k, H.RELEASED, H.Quote.WITHDRAWN, now);
    }
  }

  lemma NothingDoneTakesNothing(r: H.Request)
    ensures NothingTakenAnywhere(r, r)
  {
  }

  lemma EndingAllTakesNothing(r: H.Request, step: H.Step)
    requires step.DoWithdraw? || step.DoExpire? || step.DoAccept?
    ensures NothingTakenAnywhere(r, H.Apply(r, step))
  {
    forall c: H.Claim, outcome, status, now
      ensures PaymentsOf(H.End(c, outcome, status, now)) == PaymentsOf(c)
    {
      EndTakesNothing(c, outcome, status, now);
    }
    if step.DoAccept? && H.Attempt(r, step).Moved? {
      assert PaymentsOf(H.Apply(r, step).claims[step.k]) == PaymentsOf(r.claims[step.k]);
    }
    hide H.End, PaymentsOf;
  }

  lemma QuotingTakesNothing(r: H.Request, step: H.Step)
    requires step.DoSaveDraft? || step.DoSend? || step.DoSaveAndSend?
    ensures NothingTakenAnywhere(r, H.Apply(r, step))
  {
  }

  lemma PayingTakesNothing(r: H.Request, step: H.Step)
    requires step.DoEngageUnpaid? || step.DoStartPayment? || step.DoEndPayment? || step.DoExpireAccepted?
    ensures NothingTakenAnywhere(r, H.Apply(r, step))
  {
    hide NothingTaken;
    if H.Attempt(r, step).Moved? {
      OneClaimTakesNothing(r, step);
      forall c
        ensures NothingTaken(c, c)
      {
        SameTakesNothing(c);
      }
    } else {
      NothingDoneTakesNothing(r);
    }
  }

  lemma SameTakesNothing(c: H.Claim)
    ensures NothingTaken(c, c)
  {
  }

  lemma OneClaimTakesNothing(r: H.Request, step: H.Step)
    requires step.DoEngageUnpaid? || step.DoStartPayment? || step.DoEndPayment? || step.DoExpireAccepted?
    requires H.Attempt(r, step).Moved?
    ensures step.k < |r.claims| && NothingTaken(r.claims[step.k], H.Apply(r, step).claims[step.k])
  {
    hide NothingTaken, H.EngageUnpaid, H.StartPayment, H.EndPayment, H.ExpireAccepted;
    match step {
      case DoEngageUnpaid(k, now) => EngagingTakesNothing(r, k, now);
      case DoStartPayment(k, now) => StartingTakesNothing(r, k, now);
      case DoEndPayment(k, p, declined) => FailingTakesNothing(r, k, p, declined);
      case DoExpireAccepted(k, now) => ExpiringTakesNothing(r, k, now);
    }
  }

  ghost predicate KeepsUntaken(r: H.Request, after: H.Request, k: nat) {
    k < |r.claims| == |after.claims| && NothingTaken(r.claims[k], after.claims[k])
  }

  lemma EngagingTakesNothing(r: H.Request, k: nat, now: H.Time)
    requires H.EngageUnpaid(r, k, now).Moved?
    ensures KeepsUntaken(r, H.EngageUnpaid(r, k, now).request, k)
  {
  }

  lemma StartingTakesNothing(r: H.Request, k: nat, now: H.Time)
    requires H.StartPayment(r, k, now).Moved?
    ensures KeepsUntaken(r, H.StartPayment(r, k, now).request, k)
  {
  }

  lemma FailingTakesNothing(r: H.Request, k: nat, p: nat, declined: bool)
    requires H.EndPayment(r, k, p, declined).Moved?
    ensures KeepsUntaken(r, H.EndPayment(r, k, p, declined).request, k)
  {
  }

  lemma ExpiringTakesNothing(r: H.Request, k: nat, now: H.Time)
    requires H.ExpireAccepted(r, k, now).Moved?
    ensures KeepsUntaken(r, H.ExpireAccepted(r, k, now).request, k)
  {
  }

  lemma PlacingTakesNothing(r: H.Request, step: H.Step)
    requires step.DoRoute? || step.DoCheck? || step.DoJoin? || step.DoExclude? || step.DoOpenToAll? || step.DoClose?
    ensures NothingTakenAnywhere(r, H.Apply(r, step))
  {
  }

  lemma OnlySettlingTakes(r: H.Request, step: H.Step)
    requires !step.DoSettlePayment?
    ensures NothingTakenAnywhere(r, H.Apply(r, step))
  {
    hide NothingTakenAnywhere, H.Apply;
    match step {
      case DoRelease(_, _) => GivingUpTakesNothing(r, step);
      case DoDecline(_, _) => GivingUpTakesNothing(r, step);
      case DoLapse(_, _) => GivingUpTakesNothing(r, step);
      case DoExpireSent(_, _) => GivingUpTakesNothing(r, step);
      case DoWithdrawQuotation(_, _) => GivingUpTakesNothing(r, step);
      case DoWithdraw(_) => EndingAllTakesNothing(r, step);
      case DoExpire(_) => EndingAllTakesNothing(r, step);
      case DoAccept(_, _) => EndingAllTakesNothing(r, step);
      case DoSaveDraft(_, _, _, _, _) => QuotingTakesNothing(r, step);
      case DoSend(_, _, _) => QuotingTakesNothing(r, step);
      case DoSaveAndSend(_, _, _, _, _) => QuotingTakesNothing(r, step);
      case DoEngageUnpaid(_, _) => PayingTakesNothing(r, step);
      case DoStartPayment(_, _) => PayingTakesNothing(r, step);
      case DoEndPayment(_, _, _) => PayingTakesNothing(r, step);
      case DoExpireAccepted(_, _) => PayingTakesNothing(r, step);
      case _ => PlacingTakesNothing(r, step);
    }
  }

  /** Money taken stays taken, as it was. */
  lemma TakenStays(r: H.Request, after: H.Request, k: nat, p: nat)
    requires Valid(r) && G.Grows(r, after) && H.HasPayment(r, k, p) && H.TookMoney(PaymentAt(r, k, p))
    ensures H.HasPayment(after, k, p) && PaymentAt(after, k, p) == PaymentAt(r, k, p)
  {
    assert ClaimOk(r.claims[k]) && G.ClaimGrows(r.claims[k], after.claims[k]);
    var q := r.claims[k].quotation.value;
    assert q.status != H.DRAFT;
  }

  lemma RequestLinkStays(w: World, after: H.Request, l: Link)
    requires Valid(w.request) && G.Grows(w.request, after) && LinkOk(w, l)
    ensures LinkOk(w.(request := after), l)
  {
    TakenStays(w.request, after, l.k, l.p);
  }

  lemma StillComplete(w: World, after: H.Request)
    requires Complete(w) && NothingTakenAnywhere(w.request, after)
    ensures Complete(w.(request := after))
  {
    forall k: nat, p: nat | H.HasPayment(after, k, p) && H.TookMoney(PaymentAt(after, k, p))
      ensures Linked(w.(request := after), k, p)
    {
      assert k < |w.request.claims| ==> NothingTaken(w.request.claims[k], after.claims[k]);
      assert PaymentsOf(after.claims[k]) != [];
      assert H.HasPayment(w.request, k, p) && H.TookMoney(PaymentAt(w.request, k, p));
      assert Linked(w, k, p);
    }
  }

  lemma RequestKeepsJoined(w: World, step: H.Step)
    requires Joined(w) && !step.DoSettlePayment?
    ensures Joined(Apply(w, OnRequest(step)))
  {
    hide Reachable, Valid, G.Grows, H.Apply, LinkOk, NothingTakenAnywhere, Complete, W.Sound, LinksApart;
    var r, after := w.request, H.Apply(w.request, step);
    ReachableValid(r);
    StepReaches(r, step);
    G.StepGrows(r, step);
    OnlySettlingTakes(r, step);
    StillComplete(w, after);
    forall a | 0 <= a < |w.links|
      ensures LinkOk(w.(request := after), w.links[a])
    {
      RequestLinkStays(w, after, w.links[a]);
    }
  }

  lemma WalletKeepsJoined(w: World, wallet: nat, change: W.Step)
    requires Joined(w)
    ensures Joined(Apply(w, OnWallet(wallet, change)))
  {
    var books := BooksOf(w, wallet);
    EmptySound();
    W.StepKeeps(books, change);
    var next := Apply(w, OnWallet(wallet, change));
    hide W.Sound, W.Apply, W.Grown, Reachable, LinkOk, LinksApart, Complete;
    forall a | 0 <= a < |w.links|
      ensures LinkOk(next, w.links[a])
    {
      WalletLinkStays(w, wallet, W.Apply(books, change), w.links[a]);
    }
    SameRequestComplete(w, next);
  }

  lemma WalletLinkStays(w: World, wallet: nat, after: W.Books, l: Link)
    requires LinkOk(w, l) && W.Grown(BooksOf(w, wallet), after)
    ensures LinkOk(w.(wallets := w.wallets[wallet := after]), l)
  {
    if l.wallet == wallet {
      assert W.PaymentGrown(w.wallets[wallet].payments[l.i], after.payments[l.i]);
    }
  }

  lemma SameRequestComplete(w: World, next: World)
    requires Complete(w) && next.request == w.request && next.links == w.links
    ensures Complete(next)
  {
    forall k: nat, p: nat | H.HasPayment(next.request, k, p) && H.TookMoney(PaymentAt(next.request, k, p))
      ensures Linked(next, k, p)
    {
      assert Linked(w, k, p);
    }
  }

  lemma EmptySound()
    ensures W.Sound(W.EMPTY)
  {
  }

  // ── Settling ────────────────────────────────────────────────────────────────────────────────

  /** Settling changes that one attempt. */
  lemma OneTaken(r: H.Request, k: nat, p: nat, now: H.Time, m: nat, q: nat)
    requires H.SettlePayment(r, k, p, now).Moved?
    ensures var after := H.SettlePayment(r, k, p, now).request;
      && H.HasPayment(after, k, p) && H.TookMoney(PaymentAt(after, k, p)) && !H.TookMoney(PaymentAt(r, k, p))
      && (H.HasPayment(after, m, q) <==> H.HasPayment(r, m, q))
      && (H.HasPayment(r, m, q) && (m != k || q != p) ==> PaymentAt(after, m, q) == PaymentAt(r, m, q))
  {
  }

  lemma SettleKeepsJoined(w: World, k: nat, p: nat, now: H.Time, wallet: nat, availableAt: int)
    requires Joined(w)
    ensures Joined(Apply(w, Settle(k, p, now, wallet, availableAt)))
    ensures H.SettlePayment(w.request, k, p, now).Moved? ==>
      Apply(w, Settle(k, p, now, wallet, availableAt)).request == H.SettlePayment(w.request, k, p, now).request
  {
    var r := w.request;
    if H.SettlePayment(r, k, p, now).Moved? {
      var after := H.SettlePayment(r, k, p, now).request;
      assert after == H.Apply(r, H.DoSettlePayment(k, p, now));
      StepReaches(r, H.DoSettlePayment(k, p, now));
      OneTaken(r, k, p, now, k, p);
      ReachableValid(after);
      assert ClaimOk(after.claims[k]);
      EmptySound();
      var payment := PaymentAt(after, k, p);
      assert payment.serviceFee <= payment.amount;
      hide Reachable, Valid, H.SettlePayment, W.Sound, ClaimOk;
      RecordingKeepsJoined(w, after, k, p, now, wallet, availableAt);
    }
  }

  /** The world after a settled payment is recorded. */
  function Recorded(w: World, after: H.Request, k: nat, p: nat, wallet: nat, paid: W.Books): World {
    World(after, w.wallets[wallet := paid], w.links + [Link(k, p, wallet, |BooksOf(w, wallet).payments|)])
  }

  /** The books with one more payment, for what was taken. */
  ghost predicate PaidInto(books: W.Books, paid: W.Books, payment: H.Payment) {
    && |paid.payments| == |books.payments| + 1 && books.payments <= paid.payments
    && Records(paid.payments[|books.payments|], payment)
  }

  lemma OldLinkStays(w: World, after: H.Request, k: nat, p: nat, now: H.Time, wallet: nat, paid: W.Books, l: Link)
    requires H.SettlePayment(w.request, k, p, now) == H.Moved(after) && LinkOk(w, l)
    requires |BooksOf(w, wallet).payments| <= |paid.payments| && BooksOf(w, wallet).payments <= paid.payments
    ensures LinkOk(Recorded(w, after, k, p, wallet, paid), l) && (l.k != k || l.p != p)
    ensures l.wallet != wallet || l.i < |BooksOf(w, wallet).payments|
  {
    OneTaken(w.request, k, p, now, l.k, l.p);
    OneTaken(w.request, k, p, now, k, p);
    hide H.SettlePayment;
  }

  lemma NewLinkOk(w: World, after: H.Request, k: nat, p: nat, now: H.Time, wallet: nat, paid: W.Books)
    requires H.SettlePayment(w.request, k, p, now) == H.Moved(after)
    requires H.HasPayment(after, k, p) && PaidInto(BooksOf(w, wallet), paid, PaymentAt(after, k, p))
    ensures LinkOk(Recorded(w, after, k, p, wallet, paid), Link(k, p, wallet, |BooksOf(w, wallet).payments|))
  {
    OneTaken(w.request, k, p, now, k, p);
    hide H.SettlePayment;
  }

  lemma RecordedComplete(w: World, after: H.Request, k: nat, p: nat, now: H.Time, wallet: nat, paid: W.Books)
    requires Complete(w) && H.SettlePayment(w.request, k, p, now) == H.Moved(after)
    ensures Complete(Recorded(w, after, k, p, wallet, paid))
  {
    var next := Recorded(w, after, k, p, wallet, paid);
    forall m: nat, q: nat | H.HasPayment(after, m, q) && H.TookMoney(PaymentAt(after, m, q))
      ensures Linked(next, m, q)
    {
      OneTaken(w.request, k, p, now, m, q);
      if m == k && q == p {
        assert next.links[|w.links|].k == m && next.links[|w.links|].p == q;
      } else {
        assert Linked(w, m, q);
        LinkedStays(w, next, m, q);
      }
    }
  }

  lemma LinkedStays(w: World, next: World, k: nat, p: nat)
    requires Linked(w, k, p) && w.links <= next.links
    ensures Linked(next, k, p)
  {
    var a :| 0 <= a < |w.links| && w.links[a].k == k && w.links[a].p == p;
    assert next.links[a] == w.links[a];
  }

  lemma PayingIn(w: World, after: H.Request, k: nat, p: nat, now: H.Time, wallet: nat, availableAt: int)
    returns (paid: W.Books)
    requires W.Sound(BooksOf(w, wallet))
    requires H.SettlePayment(w.request, k, p, now) == H.Moved(after)
    requires H.HasPayment(after, k, p) && PaymentAt(after, k, p).serviceFee <= PaymentAt(after, k, p).amount
    ensures W.Sound(paid) && PaidInto(BooksOf(w, wallet), paid, PaymentAt(after, k, p))
    ensures Apply(w, Settle(k, p, now, wallet, availableAt)) == Recorded(w, after, k, p, wallet, paid)
  {
    hide W.Sound, H.SettlePayment;
    var payment, books := PaymentAt(after, k, p), BooksOf(w, wallet);
    W.PayInKeeps(books, payment.amount, payment.serviceFee, payment.earned, availableAt);
    paid := W.PayIn(books, payment.amount, payment.serviceFee, payment.earned, availableAt).books;
  }

  lemma RecordingKeepsJoined(w: World, after: H.Request, k: nat, p: nat, now: H.Time, wallet: nat, availableAt: int)
    requires Joined(w) && Reachable(after)
    requires H.SettlePayment(w.request, k, p, now) == H.Moved(after)
    requires H.HasPayment(after, k, p) && PaymentAt(after, k, p).serviceFee <= PaymentAt(after, k, p).amount
    ensures var next := Apply(w, Settle(k, p, now, wallet, availableAt)); Joined(next) && next.request == after
  {
    hide Reachable, W.Sound, W.PayIn, Apply, LinkOk, Complete, PaidInto, H.SettlePayment;
    var payment, books := PaymentAt(after, k, p), BooksOf(w, wallet);
    EmptySound();
    var paid := PayingIn(w, after, k, p, now, wallet, availableAt);
    var next := Recorded(w, after, k, p, wallet, paid);
    RecordedComplete(w, after, k, p, now, wallet, paid);
    NewLinkOk(w, after, k, p, now, wallet, paid);
    RowsGrow(books, paid, payment);
    forall a | 0 <= a < |w.links|
      ensures LinkOk(next, w.links[a]) && (w.links[a].k != k || w.links[a].p != p)
      ensures w.links[a].wallet != wallet || w.links[a].i < |books.payments|
    {
      OldLinkStays(w, after, k, p, now, wallet, paid, w.links[a]);
    }
  }

  lemma RowsGrow(books: W.Books, paid: W.Books, payment: H.Payment)
    requires PaidInto(books, paid, payment)
    ensures |books.payments| <= |paid.payments| && books.payments <= paid.payments
  {
  }

  lemma StepKeepsJoined(w: World, step: Step)
    requires Joined(w)
    ensures Joined(Apply(w, step))
  {
    match step {
      case OnRequest(change) =>
        if !change.DoSettlePayment? {
          RequestKeepsJoined(w, change);
        }
      case Settle(k, p, now, wallet, availableAt) => SettleKeepsJoined(w, k, p, now, wallet, availableAt);
      case OnWallet(wallet, change) => WalletKeepsJoined(w, wallet, change);
    }
  }

  lemma {:induction false} RunKeepsJoined(w: World, steps: seq<Step>)
    requires Joined(w)
    ensures Joined(Run(w, steps))
  {
    if steps != [] {
      RunKeepsJoined(w, steps[..|steps| - 1]);
      StepKeepsJoined(Run(w, steps[..|steps| - 1]), steps[|steps| - 1]);
    }
  }

  lemma StartJoined(requestedLawyer: Option<H.Id>)
    ensures Joined(Start(requestedLawyer))
  {
    assert H.New(requestedLawyer) == H.Run(requestedLawyer, []);
  }

  // ── What that means ─────────────────────────────────────────────────────────────────────────

  function Reached(requestedLawyer: Option<H.Id>, steps: seq<Step>): World { Run(Start(requestedLawyer), steps) }

  lemma ReachedJoined(requestedLawyer: Option<H.Id>, steps: seq<Step>)
    ensures Joined(Reached(requestedLawyer, steps))
  {
    StartJoined(requestedLawyer);
    RunKeepsJoined(Start(requestedLawyer), steps);
  }

  /** What a recorded payment of the request put in its wallet, if anything. */
  function EarningOf(w: World, l: Link): Option<R.Earning> {
    var rows := BooksOf(w, l.wallet).payments;
    if l.i < |rows| then rows[l.i].earning else None
  }

  /** `k` is the lawyer hired, on a quotation that was not free. */
  ghost predicate HiredForMoney(r: H.Request, k: nat) {
    && (r.status == H.Status.ENGAGED || r.status == H.CLOSED) && EngagedOn(r, k)
    && r.claims[k].quotation.Some? && r.claims[k].quotation.value.amount > 0
  }

  /** Link `a` is of a payment that took money, with its earning. */
  ghost predicate Earns(w: World, a: nat) {
    a < |w.links| && EarningOf(w, w.links[a]).Some?
  }

  /** An earning of the request is the hired lawyer's, for exactly what the accepted quotation leaves them, and
    * there is only one. */
  lemma EarningIsTheHired(requestedLawyer: Option<H.Id>, steps: seq<Step>, a: nat)
    requires Earns(Reached(requestedLawyer, steps), a)
    ensures var w := Reached(requestedLawyer, steps); var l := w.links[a];
      && (w.request.status == H.Status.ENGAGED || w.request.status == H.CLOSED) && EngagedOn(w.request, l.k)
      && H.HasQuotation(w.request.claims[l.k], H.PAID)
      && EarningOf(w, l).value.net == w.request.claims[l.k].quotation.value.serviceFee
    ensures forall b: nat :: Earns(Reached(requestedLawyer, steps), b) ==> b == a
  {
    var w := Reached(requestedLawyer, steps);
    ReachedJoined(requestedLawyer, steps);
    hide Reached, Reachable;
    EarningHired(w, a);
    forall b: nat | Earns(w, b)
      ensures b == a
    {
      EarningHired(w, b);
      G.EarnsOnce(w.request, w.links[a].k, w.links[a].p, w.links[b].k, w.links[b].p);
    }
  }

  lemma EarningHired(w: World, a: nat)
    requires Joined(w) && Earns(w, a)
    ensures var l := w.links[a];
      && H.HasPayment(w.request, l.k, l.p) && PaymentAt(w.request, l.k, l.p).earned
      && (w.request.status == H.Status.ENGAGED || w.request.status == H.CLOSED) && EngagedOn(w.request, l.k)
      && H.HasQuotation(w.request.claims[l.k], H.PAID)
      && EarningOf(w, l).value.net == w.request.claims[l.k].quotation.value.serviceFee
  {
    var l := w.links[a];
    assert LinkOk(w, l);
    var row := w.wallets[l.wallet].payments[l.i];
    RowOk(w, l);
    ReachableValid(w.request);
    EarnedMeansHired(w.request, l.k, l.p);
  }

  lemma RowOk(w: World, l: Link)
    requires Joined(w) && LinkOk(w, l)
    ensures R.PaymentOk(w.wallets[l.wallet].payments[l.i])
  {
  }

  lemma EarnedMeansHired(r: H.Request, k: nat, p: nat)
    requires Valid(r) && H.HasPayment(r, k, p) && PaymentAt(r, k, p).earned
    ensures (r.status == H.Status.ENGAGED || r.status == H.CLOSED) && EngagedOn(r, k)
    ensures H.HasQuotation(r.claims[k], H.PAID)
    ensures PaymentAt(r, k, p).serviceFee == r.claims[k].quotation.value.serviceFee
  {
    assert ClaimOk(r.claims[k]);
  }

  /** Link `a` is of a payment that was not for nothing, with its earning. */
  ghost predicate EarnsMoney(w: World, a: nat) {
    Earns(w, a) && BooksOf(w, w.links[a].wallet).payments[w.links[a].i].amount > 0
  }

  /** A request has an earning that is not for nothing exactly when it is engaged, or was until it closed, on a
    * quotation that was not free. */
  lemma EarnsExactlyWhenHired(requestedLawyer: Option<H.Id>, steps: seq<Step>)
    ensures var w := Reached(requestedLawyer, steps);
      (exists a: nat :: EarnsMoney(w, a)) <==> (exists k: nat :: HiredForMoney(w.request, k))
  {
    hide Reached, EarnsMoney, HiredForMoney;
    ReachedJoined(requestedLawyer, steps);
    EarnsOnlyWhenHired(Reached(requestedLawyer, steps));
    HiredEarns(Reached(requestedLawyer, steps));
  }

  lemma EarnsOnlyWhenHired(w: World)
    requires Joined(w)
    ensures (exists a: nat :: EarnsMoney(w, a)) ==> exists k: nat :: HiredForMoney(w.request, k)
  {
    hide Joined, EarnsMoney, HiredForMoney;
    if a: nat :| EarnsMoney(w, a) {
      MoneyIsTheHired(w, a);
      assert HiredForMoney(w.request, w.links[a].k);
    }
  }

  lemma HiredEarns(w: World)
    requires Joined(w)
    ensures (exists k: nat :: HiredForMoney(w.request, k)) ==> exists a: nat :: EarnsMoney(w, a)
  {
    hide Joined, EarnsMoney, HiredForMoney;
    if k: nat :| HiredForMoney(w.request, k) {
      var a := HiredHasEarning(w, k);
      assert EarnsMoney(w, a);
    }
  }

  lemma MoneyIsTheHired(w: World, a: nat)
    requires Joined(w) && EarnsMoney(w, a)
    ensures a < |w.links| && HiredForMoney(w.request, w.links[a].k)
  {
    EarningHired(w, a);
    var l := w.links[a];
    assert LinkOk(w, l);
    ReachableValid(w.request);
    assert ClaimOk(w.request.claims[l.k]);
  }

  lemma HiredPaid(r: H.Request, k: nat) returns (p: nat)
    requires Valid(r) && HiredForMoney(r, k)
    ensures H.HasPayment(r, k, p) && H.TookMoney(PaymentAt(r, k, p)) && PaymentAt(r, k, p).earned
    ensures PaymentAt(r, k, p).amount > 0
  {
    assert ClaimOk(r.claims[k]);
    var q := r.claims[k].quotation.value;
    p :| p < |q.payments| && q.payments[p].earned;
  }

  lemma HiredHasEarning(w: World, k: nat) returns (a: nat)
    requires Joined(w) && HiredForMoney(w.request, k)
    ensures EarnsMoney(w, a)
  {
    hide Reachable, W.Sound, LinksApart;
    ReachableValid(w.request);
    var p := HiredPaid(w.request, k);
    assert Linked(w, k, p);
    a :| 0 <= a < |w.links| && w.links[a].k == k && w.links[a].p == p;
    assert LinkOk(w, w.links[a]);
  }

  /** What settling a payment puts in the wallet it is for: an earning of the lawyer's part, held until then, if it
    * engages the request, and no earning otherwise. */
  lemma SettledInto(w: World, k: nat, p: nat, now: H.Time, wallet: nat, availableAt: int)
    requires Joined(w) && H.SettlePayment(w.request, k, p, now).Moved?
    ensures var next := Apply(w, Settle(k, p, now, wallet, availableAt));
      var l := Link(k, p, wallet, |BooksOf(w, wallet).payments|);
      && next.links == w.links + [l] && H.HasPayment(next.request, k, p)
      && EarningOf(next, l) ==
           if w.request.status == H.CONFIRMED && H.HasQuotation(w.request.claims[k], H.ACCEPTED)
           then
             var fee := PaymentAt(w.request, k, p).serviceFee;
             Some(R.Earning(fee, 0, R.EarningStatus.PENDING, false, availableAt, None))
           else None
  {
    SettleKeepsJoined(w, k, p, now, wallet, availableAt);
    var after := H.SettlePayment(w.request, k, p, now).request;
    OneTaken(w.request, k, p, now, k, p);
    ReachableValid(Apply(w, Settle(k, p, now, wallet, availableAt)).request);
    assert ClaimOk(after.claims[k]);
    var payment := PaymentAt(after, k, p);
    assert payment.serviceFee <= payment.amount;
    hide Joined, Valid, ClaimOk, Reachable, H.Engage;
  }

  /** Money that came too late to engage the request never becomes an earning. */
  lemma OrphanNeverEarns(requestedLawyer: Option<H.Id>, steps: seq<Step>, a: nat)
    requires var w := Reached(requestedLawyer, steps);
      && a < |w.links| && w.links[a].k < |w.request.claims|
      && w.request.claims[w.links[a].k].outcome != Some(H.Outcome.ENGAGED)
    ensures EarningOf(Reached(requestedLawyer, steps), Reached(requestedLawyer, steps).links[a]).None?
  {
    var w := Reached(requestedLawyer, steps);
    ReachedJoined(requestedLawyer, steps);
    hide Reached, Joined;
    if Earns(w, a) {
      EarningIsTheHired(requestedLawyer, steps, a);
    }
  }

  lemma {:induction false} StaysTaken(w: World, k: nat, p: nat, more: seq<Step>)
    requires Joined(w) && H.HasPayment(w.request, k, p) && H.TookMoney(PaymentAt(w.request, k, p))
    ensures H.HasPayment(Run(w, more).request, k, p) && H.TookMoney(PaymentAt(Run(w, more).request, k, p))
  {
    if more != [] {
      var rest := Run(w, more[..|more| - 1]);
      RunKeepsJoined(w, more[..|more| - 1]);
      StaysTaken(w, k, p, more[..|more| - 1]);
      hide Joined;
      StepGrowsRequest(rest, more[|more| - 1]);
      assert Valid(rest.request) by {
        JoinedValid(rest);
      }
      TakenStays(rest.request, Apply(rest, more[|more| - 1]).request, k, p);
    }
  }

  lemma JoinedValid(w: World)
    requires Joined(w)
    ensures Valid(w.request)
  {
    ReachableValid(w.request);
  }

  lemma StepGrowsRequest(w: World, step: Step)
    requires Joined(w)
    ensures G.Grows(w.request, Apply(w, step).request)
  {
    JoinedValid(w);
    hide G.Grows, Joined, Valid, H.Apply, H.SettlePayment, W.PayIn, W.Apply;
    G.NoStepGrows(w.request);
    match step {
      case OnRequest(change) => G.StepGrows(w.request, change);
      case Settle(k, p, now, wallet, availableAt) =>
        SettleKeepsJoined(w, k, p, now, wallet, availableAt);
        SettleIsAStep(w.request, k, p, now);
        G.StepGrows(w.request, H.DoSettlePayment(k, p, now));
      case OnWallet(_, _) =>
    }
  }

  lemma SettleIsAStep(r: H.Request, k: nat, p: nat, now: H.Time)
    ensures var settled := H.SettlePayment(r, k, p, now);
      settled.Moved? ==> settled.request == H.Apply(r, H.DoSettlePayment(k, p, now))
  {
  }

  /** A payment settled once changes nothing when its success is told again, at any time, for any wallet: no
    * second earning, however much has happened in between. */
  lemma SettledOnce(requestedLawyer: Option<H.Id>, steps: seq<Step>, settle: Step, more: seq<Step>, again: Step)
    requires settle.Settle?
      && H.SettlePayment(Reached(requestedLawyer, steps).request, settle.k, settle.p, settle.now).Moved?
    requires again.Settle? && again.k == settle.k && again.p == settle.p
    ensures var later := Run(Apply(Reached(requestedLawyer, steps), settle), more); Apply(later, again) == later
  {
    var w := Reached(requestedLawyer, steps);
    ReachedJoined(requestedLawyer, steps);
    StepKeepsJoined(w, settle);
    SettleKeepsJoined(w, settle.k, settle.p, settle.now, settle.wallet, settle.availableAt);
    OneTaken(w.request, settle.k, settle.p, settle.now, settle.k, settle.p);
    hide Reached, Joined, Apply;
    StaysTaken(Apply(w, settle), settle.k, settle.p, more);
    TakenRefuses(Run(Apply(w, settle), more), again);
  }

  lemma TakenRefuses(w: World, again: Step)
    requires again.Settle? && H.HasPayment(w.request, again.k, again.p)
    requires H.TookMoney(PaymentAt(w.request, again.k, again.p))
    ensures Apply(w, again) == w
  {
  }
}
