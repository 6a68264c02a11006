# Verified model of the lawyer hand-off backend

A Dafny 4.11 project that models the parts of this repository where mistakes would be costly and hard to see, and
proves what they promise. `dafny verify dfyconfig.toml` checks all of it.

## What is modelled

**The test-lawyer plan** (`scripts/seed-test-lawyers.ts`). A seeded generator, a Fisher-Yates shuffle, distinct
registration numbers, a quota of regulator combinations, weighted sampling of practice areas, and two greedy repair
passes, all on a hundred shared `Lawyer` objects. Loops stay loops and fields are updated in place.

- `Mulberry`, `Shuffles`, `RegistrationNumbers`, `SixDigitSupply`: the generator and what is drawn from it.
- `TestLawyers`, `Registration`, `AreaChoice`, `Coverage`, `ProTier`, `Planner`: the lawyers, the passes, and the plan
  as a whole. Every result holds from any state of the generator, so for every seed and whatever was drawn before.
  What is drawn is tied to the generator's own outputs: the shuffles, the numbers, the line-up, the deal, and which area
  each draw picks are functions of the state a pass starts from.

**The hand-off of a client request** (`src/swagger-client-handoff.ts` is the written contract; the transactions are in
`src/repositories`). `Handoff` has every step as a function from a request to the request after it; a refused step
changes nothing. A run is any steps in any order at any times, so also the interleavings of concurrent transactions.
A lawyer's matching check and their join are two steps, because they are not one transaction.
`HandoffInvariants` is what every run keeps, `HandoffSafety` what it may never do, `HandoffTimes` when things happened
and why places were lost, on every run whose times do not go back. `HandoffPool` is when each step may be taken, and how
long a request is on offer before it runs out. `HandoffHistory` goes the other way: whatever a row says now, some step
of the run said.

**The money**. `PlatformFee` splits a quote, `Refunds` is one payment with its refunds, disputes and earning,
`Wallets` is a payee's wallet with the append-only ledger every balance is summed from, `WalletSafety` is what
holds of it on every run, and `WalletHistory` what each step does to the balances and which step each row came from. `Webhooks` puts Stripe's deliveries in front of it, each looked up, applied and recorded in
separate steps. `Engagements` runs a request and the wallets together: which of its payments earn.

**Five smaller pieces**: the worker pool (`WorkerPool`), the trace-frame stripper (`TraceFrames`), token prices
(`TokenCost`), the role backfill (`RoleBackfill`) and the create-only seeders (`AreaSeeders`).

`Sequences`, `Filters`, `Arithmetic` and `Options` hold what several modules share.

## Where the code and what is said of it differ

The model follows the code. Each of these is proved with the exact condition under which the promise holds, and with a
run or an input on which it does not.

- A quotation is accepted "once" (`src/swagger-client-handoff.ts:862`): once per attempt at hiring. After an accepted
  quotation lapses unpaid the client accepts another (`AcceptedOnceExactlyIfNoneLapsed`, `AcceptedTwice`).
- "A partial refund comes out of the lawyer's fee and the platform fee is kept" (`src/swagger-client-handoff.ts:1770`):
  when a partial refund fails after the rest was refunded, the platform fee has been given back on a payment that has
  not (`FailingKeepsAllOrNothingExactly` for the step, `AllOrNothingOnEveryRunExactly` for runs,
  `PlatformFeeGivenBackOnAKeptPayment`).
- The refunded total can pass the amount paid when a refund still on its way goes through after the bank has taken the
  payment back (`SucceedingStaysWithinPaidExactly` for the step, `WithinPaidOnEveryRunExactly` for runs,
  `RefundedMoreThanPaid`).
- A webhook's services are each "idempotent, so what already applied isn't applied twice"
  (`src/services/stripe-webhook.service.ts:14-17`): so is the end of a refund or a payout, but a dispute's creation
  applied again after the dispute was decided disputes the payment once more, and a decision applied again after a new
  creation decides that one. An event recorded as handled is dropped before that (line 20), so it takes a delivery that
  failed after the change was made, or two deliveries past the check at once (`Webhooks.DeliveredAgainExactly` and
  `WorkedTwiceExactly`; `RetriedAfterTheDecision`, `AppliedThoughRecorded`).
- The rate for unpriced models is "the dearest in the table, so an unknown cost never undercounts"
  (`src/constants/llm-pricing.constants.ts:48-49`): not against gpt-4o when a call reads much more than it writes
  (`WhenTerraCovers`, `TerraUndercountsAReader`).
- Routing a new request "doesn't need transition()'s guard" (`src/repositories/client-request.repository.ts:211-213`):
  a request withdrawn between its creation and its routing comes back (`OverStaysOverUnlessUnrouted`,
  `WithdrawnComesBack`).
- After an accepted quotation expires, a request still only for the named lawyer is announced again but closed to
  everybody until it is opened to all (`JoinableAfterExpiryExactlyIfWider`, `NamedLawyerNotPaid`).
- Stripping trace frames once can join a new frame out of what was around an old one (`OnePassIsEnoughExactly`,
  `StripCanJoinAFrame`).
- With no worker (`n` below 1) the pool returns an array nobody filled (`AtTheEnd`).

Two more, which are only about words. The schema's note on `pickByAt` (`prisma/schema.prisma:1386-1387`) speaks of a
fixed window after the first quote; the code keeps the latest expiry of the quotes sent, which is what makes
`NoQuoteCutShort` true. "Pro goes to 5" (`scripts/seed-test-lawyers.ts:288`): to up to five, since a slot nobody fits
stays empty. The first never does (`TenSraEligible`). That another can is shown for a fair deal (`LssCanStayEmpty`), not
for a state of the generator that makes it: whether some seed does is left open.

## Conventions

Money is in minor units, times are in milliseconds, the generator's state is a 32-bit natural and a draw is that
natural over 2^32, so every comparison with a draw is made in whole numbers; the products it takes stay below 2^53,
where the source's doubles are exact as well. Rates are in thousandths of a dollar per million tokens. Rows are known
by their position, and lawyers and areas by an id. Random draws, clocks, what others do to the database meanwhile and
the payment provider's answers are inputs, free to be anything.

## Model

| member | source | states |
|---|---|---|
| Mulberry.Rng.Between | scripts/seed-test-lawyers.ts:130 | `int(rng, min, max)` is always within its bounds |
| Mulberry.AfterIsLinear | scripts/seed-test-lawyers.ts:119-128 | after any k draws the state is the first one plus k increments, modulo 2^32 |
| Mulberry.FullPeriod | scripts/seed-test-lawyers.ts:119-128 | the state is back where it was after k draws exactly when 2^32 divides k |
| Mulberry.EveryStateComesUp | scripts/seed-test-lawyers.ts:119-128 | every 32-bit state comes up within any 2^32 draws |
| Shuffles.Shuffle | scripts/seed-test-lawyers.ts:132-139 | the in-place shuffle returns the order that the generator's next outputs stand for, a permutation, and has drawn once for each item but the first |
| Shuffles.ShuffledIsPermutation | scripts/seed-test-lawyers.ts:132-139 | whatever the draws, no item is lost or repeated |
| Shuffles.ShuffledInjective | scripts/seed-test-lawyers.ts:132-139 | on distinct items different draws give different orders |
| Shuffles.EveryOrderIsDrawn | scripts/seed-test-lawyers.ts:132-139 | every order is given by some draws: with the line above, by exactly one, so none is favoured |
| RegistrationNumbers.UniqueNumbers | scripts/seed-test-lawyers.ts:140-145 | count distinct numbers of the right number of digits: the different ones among the generator's next outputs, in the order they first come up, and no output is drawn once there are enough; the loop ends because the generator runs through its period |
| RegistrationNumbers.PeriodDrainsSupply | scripts/seed-test-lawyers.ts:140-145 | after a whole period every number the generator can give has come up |
| RegistrationNumbers.DecimalInjective | scripts/seed-test-lawyers.ts:143 | different numbers have different strings |
| SixDigitSupply.SixDigitStates | scripts/seed-test-lawyers.ts:227 | the generator can give a hundred different six-digit numbers |
| TestLawyers.BaseLawyers | scripts/seed-test-lawyers.ts:184-218 | a hundred new lawyers in order, each laid out by number, with no areas |
| TestLawyers.SeventyVerified | scripts/seed-test-lawyers.ts:45 | seventy lawyers are verified |
| TestLawyers.TwelveNotAccepting | scripts/seed-test-lawyers.ts:53-55 | twelve of them are not accepting requests |
| TestLawyers.LayoutCounts | scripts/seed-test-lawyers.ts:45-55 | 15 pending, 5 rejected, 10 unsubmitted; 58 accepting, 5 paused, 4 off, 3 at capacity; three heavy ones, all verified and accepting, two of them on the Max tier |
| TestLawyers.ThreeMissEach | scripts/seed-test-lawyers.ts:57-68 | each field is missing from exactly three lawyers, none of whom has submitted |
| Registration.LineUp | scripts/seed-test-lawyers.ts:224-225 | everybody once, the verified first, each part in the order its own shuffle of the generator's next outputs gives |
| Registration.AssignRegistration | scripts/seed-test-lawyers.ts:221-235 | every deal is fair: guaranteed combinations go to the front of the line, the whole quota is dealt, numbers differ, and each lawyer holds what they were dealt less what they are missing; and it is the one deal that the generator's outputs from there give |
| Registration.EachComboItsCount | scripts/seed-test-lawyers.ts:76-92 | each combination goes to exactly as many lawyers as its count |
| Registration.ThreeVerifiedPerCombo | scripts/seed-test-lawyers.ts:77 | at least three of them are verified |
| Registration.GuaranteedPerJurisdiction | scripts/seed-test-lawyers.ts:222 | three guaranteed slots for each combination with the jurisdiction |
| Registration.EightCombosEach | scripts/seed-test-lawyers.ts:78-91 | every jurisdiction is in eight of the twelve combinations |
| Registration.TwelveAcceptingIn | scripts/seed-test-lawyers.ts:221-235 | after every deal at least twelve accepting lawyers are qualified in each jurisdiction |
| AreaChoice.FindIndex | scripts/seed-test-lawyers.ts:246-249 | the subtracting scan always finds an area, the one whose stretch of the total weight holds the draw |
| AreaChoice.FallsOnOne | scripts/seed-test-lawyers.ts:248 | that area is the only one |
| AreaChoice.EachItsWeight | scripts/seed-test-lawyers.ts:239 | of the whole draws below the total, an area mapped to family, employment, property, criminal or immigration law gets exactly three, any other exactly one |
| AreaChoice.LightShares | scripts/seed-test-lawyers.ts:243 | of all 2^32 draws, 30%, 35%, 20% and 15% give 1, 2, 3 and 4 areas |
| AreaChoice.SampleAreas | scripts/seed-test-lawyers.ts:244-250 | the areas are the ones the generator's next outputs fall on, each in the pool the earlier picks left, weighed by case type; they are different and exactly min(count, areas) of them, with one output each |
| AreaChoice.PickedOneWay | scripts/seed-test-lawyers.ts:244-250 | those outputs leave no other choice of areas |
| AreaChoice.GiveAreas | scripts/seed-test-lawyers.ts:240-251 | a lawyer's turn: the first output decides the count of a light lawyer, the next that of a heavy one, the ones after it the areas; whoever is missing them draws nothing |
| AreaChoice.AssignAreas | scripts/seed-test-lawyers.ts:237-252 | the turns follow one another on the generator's outputs; 1 to 4 areas each, 12 to 16 for the heavy, none for whoever is missing them |
| Coverage.Lightest | scripts/seed-test-lawyers.ts:254-257 | a candidate with the fewest areas, and of those the first in the order the generator's next outputs shuffle them into; none only if there is no candidate |
| Coverage.LeastHeld | scripts/seed-test-lawyers.ts:265-272 | the first mapped area that no other mapped area is held less than |
| Coverage.AddArea | scripts/seed-test-lawyers.ts:272 | one repair adds one holding, changes nobody else, and uncovers no pair and no area |
| Coverage.TopUp | scripts/seed-test-lawyers.ts:269-273 | one turn gives the least held mapped area to the lightest accepting lawyer qualified there who does not cover the pair, and changes nobody else, or there is nobody left to bring |
| Coverage.CoverPair | scripts/seed-test-lawyers.ts:269-273 | the loop ends within two repairs, with the pair covered exactly when enough accepting lawyers are qualified there |
| Coverage.CoverPairs | scripts/seed-test-lawyers.ts:259-276 | every pair is covered; the throw happens exactly when there is a case type and some jurisdiction has too few accepting lawyers |
| Coverage.GiveArea | scripts/seed-test-lawyers.ts:282-284 | one turn gives the area to one more verified lawyer, the lightest without it, and changes nobody else |
| Coverage.CoverAreas | scripts/seed-test-lawyers.ts:278-286 | every area has three verified holders and every covered pair is still covered |
| ProTier.FillSlot | scripts/seed-test-lawyers.ts:293-297 | the lawyer made Pro is the one with the lowest number who is on the standard tier, accepting, of the slot's regulator and with an unused combination; nobody only if nobody fits |
| ProTier.AssignPro | scripts/seed-test-lawyers.ts:288-299 | each of the five slots goes to the lowest-numbered lawyer who fits it given who got the slots before; it is empty only if nobody does; nobody else's tier changes |
| ProTier.AssignTiers | scripts/seed-test-lawyers.ts:288-299 | one to five Pros, one of them with the SRA, all accepting and not heavy, no two with one combination, and the Max tier as laid out |
| ProTier.TenSraEligible | scripts/seed-test-lawyers.ts:221-299 | after every deal at least ten accepting SRA lawyers may be made Pro, so the first slot is always filled |
| ProTier.RegulatorShares | scripts/seed-test-lawyers.ts:77 | after every deal 55 lawyers are of the SRA, 25 of the LSS and 20 of the LSNI |
| ProTier.EachRegulatorServed | scripts/seed-test-lawyers.ts:288-299 | a regulator with a lawyer who may be made Pro gets a Pro: each has a slot that comes before its combinations are used |
| ProTier.LssCanStayEmpty | scripts/seed-test-lawyers.ts:221-235 | among the fair deals is one that leaves no lawyer with the LSS who may be made Pro |
| ProTier.LssSlotsEmpty | scripts/seed-test-lawyers.ts:289-298 | after it both LSS slots stay empty: the pass makes five Pros only if every slot finds somebody |
| Planner.DealRegisters | scripts/seed-test-lawyers.ts:221-235 | after every deal numbers are distinct six-digit strings and a field is empty exactly when it is missing |
| Planner.Repair | scripts/seed-test-lawyers.ts:324-325 | the two repairs together leave every pair and every area covered and never touch an unverified lawyer |
| Planner.Plan | scripts/seed-test-lawyers.ts:311-329 | refused exactly with no area or an unmapped case type; otherwise, from every state of the generator, a good plan: covered, held, quotas, distinct numbers, fields empty exactly when missing, one to five Pros |
| Planner.GoodPlanCovers | scripts/seed-test-lawyers.ts:99-101 | in a good plan two accepting lawyers qualified there cover each jurisdiction and case type, and three verified ones hold each area |
| Planner.Shortfalls | scripts/seed-test-lawyers.ts:429-441 | the summary lists exactly the pairs that are short, so none when every pair is covered |
| Planner.Summarise | scripts/seed-test-lawyers.ts:441 | on a plan the coverage check never fails |
| HandoffInvariants.JoinKeeps | src/repositories/client-request-claim.repository.ts:92-104 | a join keeps every invariant: the cap, one place each, only the named lawyer |
| HandoffInvariants.DraftKeeps | src/repositories/quotation.repository.ts:72-84 | saving a draft keeps every invariant |
| HandoffInvariants.SendKeeps | src/repositories/quotation.repository.ts:87-101 | sending keeps every invariant, the pick-by date among them |
| HandoffInvariants.EndClaimKeeps | src/repositories/client-request-claim.repository.ts:43-80 | a release, decline, lapse, expiry or withdrawn quote keeps every invariant |
| HandoffInvariants.AcceptKeeps | src/repositories/quotation.repository.ts:170-190 | accepting leaves the request confirmed on that one claim with everybody else out |
| HandoffInvariants.EngageUnpaidKeeps | src/repositories/quotation.repository.ts:194-206 | engaging on nothing to pay keeps every invariant |
| HandoffInvariants.StartPaymentKeeps | src/repositories/quotation-payment.repository.ts:53-85 | starting to pay never opens a second attempt |
| HandoffInvariants.EndPaymentKeeps | src/repositories/quotation-payment.repository.ts:92-95 | an attempt that took no money keeps every invariant |
| HandoffInvariants.SettlePaymentKeeps | src/repositories/quotation-payment.repository.ts:104-153 | settling, in time or too late, keeps every invariant |
| HandoffInvariants.ExpireAcceptedKeeps | src/repositories/quotation.repository.ts:248-276 | an accepted quotation expiring puts the request back in the pool and keeps every invariant |
| HandoffInvariants.RoutingKeeps | src/repositories/client-request.repository.ts:214-250 | routing, clearing, passing, opening to all and closing keep every invariant |
| HandoffInvariants.ClosingKeeps | src/repositories/client-request.repository.ts:140-149 | withdrawing and expiring end everything that was open |
| HandoffInvariants.RunValid | src/swagger-client-handoff.ts:566-573 | every run, in any order of steps, keeps all of it |
| HandoffSafety.PlacesAreLimited | src/swagger-client-handoff.ts:566 | at most three lawyers on it, one and only the named one while it is only for them, whatever the interleaving of checks and joins |
| HandoffSafety.NeverHoldsItAgain | src/repositories/client-request-claim.repository.ts:36-53 | whoever released it, let it lapse or was declined has no later place on it in any continuation |
| HandoffSafety.RunGrows | src/repositories/quotation.repository.ts:164-168 | history only grows: ended claims stay ended as they were, and terms are fixed once sent and once accepted |
| HandoffSafety.OneStandsExactlyWhileTaken | src/swagger-client-handoff.ts:862 | at most one quotation stands accepted, and one does exactly while the request is confirmed, engaged or closed |
| HandoffSafety.AcceptancesAddUp | src/repositories/quotation.repository.ts:241-276 | every acceptance either lapsed unpaid or is the one that stands |
| HandoffSafety.AcceptedOnceExactlyIfNoneLapsed | src/swagger-client-handoff.ts:862 | an acceptance is the first exactly when none lapsed unpaid before |
| HandoffSafety.AcceptedTwice | src/repositories/quotation.repository.ts:248-276 | a run in which two quotations are accepted |
| HandoffSafety.EngagedMeansPaid | src/swagger-client-handoff.ts:900 | engaged means one hired lawyer whose accepted total was paid in full once or was zero, and nobody else on it |
| HandoffSafety.EarnsOnce | src/repositories/quotation-payment.repository.ts:97-153 | at most one payment of a request puts an earning in a wallet |
| HandoffSafety.PaysWhatWasAccepted | src/repositories/quotation-payment.repository.ts:69-82 | every attempt is for the accepted total with the quotation's own split |
| HandoffSafety.AcceptedExpiresOnTime | src/repositories/quotation.repository.ts:263-269 | the check for a payment that went through never stops the expiry |
| HandoffSafety.NoQuoteCutShort | src/repositories/quotation.repository.ts:149-154 | a request never expires under a quote that is still good |
| HandoffSafety.NothingLeftOpen | src/repositories/client-request.repository.ts:337-349 | once it is over or engaged no place and no quotation is left open |
| HandoffSafety.OverStaysOverUnlessUnrouted | src/repositories/client-request.repository.ts:211-219 | over stays over under every step except routing a request withdrawn before it was routed |
| HandoffSafety.WithdrawnComesBack | src/repositories/client-request.repository.ts:211-219 | the run in which that happens |
| HandoffSafety.JoinableAfterExpiryExactlyIfWider | src/repositories/quotation.repository.ts:251-261 | after an accepted quotation expires others can join exactly if the request had gone wider |
| HandoffSafety.NamedLawyerNotPaid | src/repositories/quotation.repository.ts:248-276 | a run to a request that had not: its named lawyer was accepted, is not paid, and it stays only for them |
| HandoffSafety.OpeningLetsThemIn | src/repositories/client-request.repository.ts:240-250 | opening it to all is then allowed and lets them in |
| HandoffTimes.RunTimely | src/repositories/client-request-claim.repository.ts:92-220 | on every run whose times do not go back the rows' times are in order, within the hold and the expiry, and each lost place has its reason |
| HandoffTimes.SentInsideTheHold | src/repositories/quotation.repository.ts:87-101 | every quotation ever sent went out within 24 hours of its lawyer joining, and before its own expiry |
| HandoffTimes.HiredInOrder | src/repositories/quotation-payment.repository.ts:53-153 | a lawyer hired joined, sent, was accepted before the expiry and was paid in that order, every attempt at paying started between acceptance and expiry |
| HandoffTimes.LostForAReason | src/repositories/client-request-claim.repository.ts:116-220 | a place lapsed only after its 24 hours without a quote, was declined only with one, and was passed over only because that quote ran out, another was accepted at that moment, or the request ran out |
| HandoffTimes.JoinedInWindow | src/repositories/client-request-claim.repository.ts:92-104 | whoever is on a routed request joined before its window ends, for 24 hours |
| HandoffTimes.PaidAfterExpiry | src/repositories/quotation-payment.repository.ts:97-153 | a run in which the payment arrives after the expiry and still engages the request |
| HandoffTimes.GivenBackToThePool | src/repositories/client-request-claim.repository.ts:36-53 | a claim ending frees one place, excludes the lawyer, and with nobody left opens the request to all for a fresh 48 hours |
| HandoffPool.ExpiresExactly | src/repositories/client-request.repository.ts:17-22 | on every run a request in the pool runs out with quotes waiting at its pick-by date, which is the expiry of a quote that was sent and no earlier than that of any waiting; with lawyers but no quote never; with nobody on it when its window ends, unless it is only for the named lawyer |
| HandoffPool.MayJoinExactly | src/repositories/client-request-claim.repository.ts:92-104 | a check and a join bring a lawyer on exactly when it is in the pool inside its window with fewer than three on it, they are not out of it nor on it, and it is for them |
| HandoffPool.JoinTakesAPlace | src/repositories/client-request-claim.repository.ts:100-102 | joining takes one place for 24 hours and changes no other |
| HandoffPool.OutIsNotFor | src/services/client-request-lawyer.service.ts:718 | a lawyer who is out of it and never held it is not shown it |
| HandoffPool.OutForGood | src/repositories/client-request-claim.repository.ts:94 | whoever is out of a request stays out on every continuation: no claim made later is theirs |
| HandoffPool.PassedStaysOut | src/repositories/client-request.repository.ts:397-402 | so a lawyer who passed is not on it later, however it goes on |
| HandoffPool.MaySaveExactly | src/repositories/quotation.repository.ts:72-76 | a quote is saved exactly while the place is the lawyer's, inside its 24 hours, with none sent |
| HandoffPool.MaySendExactly | src/repositories/quotation.repository.ts:87-96 | it is sent exactly then too, if one is saved that has not expired |
| HandoffPool.MayAcceptExactly | src/repositories/quotation.repository.ts:170-180 | the client accepts exactly the quotes that wait on a request in the pool and have not expired |
| HandoffPool.MoneyCountsOnce | src/repositories/quotation-payment.repository.ts:97-153 | money taken for an attempt settles exactly once, whatever the attempt was marked, and hires exactly if the request is confirmed on that quotation |
| HandoffPool.NobodyLeftPaying | src/repositories/quotation.repository.ts:272 | no attempt at paying for an expired quotation is left open |
| HandoffPool.PutOnOffer | src/repositories/quotation.repository.ts:248-261 | however a request gets into the pool with nobody on it, it is on offer until then: as long as it was routed for, or 48 hours when it is opened to all, when the last lawyer on it is gone, or when what was accepted is not paid |
| HandoffPool.OnOfferUntil | src/repositories/client-request.repository.ts:17-22 | on offer, who it is for may join exactly until then, and no sweep ends it sooner |
| HandoffPool.StaysInThePool | src/repositories/quotation.repository.ts:248-261 | with no quote on it, it stays in the pool for its 48 hours through anything but a quote being sent or the client taking it back |
| HandoffPool.AnotherChance | src/repositories/quotation.repository.ts:248-261 | so after an accepted quotation was not paid no sweep ends the request within 48 hours, on every such continuation |
| HandoffHistory.JoinedByAStep | src/repositories/client-request-claim.repository.ts:100-102 | every place was taken by a join of that lawyer at that time |
| HandoffHistory.EndedByAStep | src/repositories/client-request-claim.repository.ts:36-80 | a place ended as it says, when it says, because a step that ends it so came then |
| HandoffHistory.StandsByAStep | src/repositories/quotation.repository.ts:72-206 | every quotation has its status from a step that gives it |
| HandoffHistory.DraftedByAStep | src/repositories/quotation.repository.ts:72-84 | it is for the amount and expiry that its lawyer saved |
| HandoffHistory.PricedByAStep | src/repositories/quotation.repository.ts:66-69 | what it leaves the lawyer is the split by the terms of a step that saved or sent it |
| HandoffHistory.SentByAStep | src/repositories/quotation.repository.ts:87-92 | one sent went out by a step at that time and stands split by the terms of that step for ever after |
| HandoffHistory.AcceptedByAStep | src/repositories/quotation.repository.ts:170-190 | one accepted was accepted by the client at that time |
| HandoffHistory.PaidByAStep | src/repositories/quotation-payment.repository.ts:104-134 | one paid was paid, or engaged with nothing to pay, at that time |
| HandoffHistory.AttemptByAStep | src/repositories/quotation-payment.repository.ts:53-153 | every attempt at paying has its status from a step that gives it |
| HandoffHistory.MovedByAStep | src/repositories/client-request.repository.ts:140-219 | the request has its status from a step that gives it |
| HandoffHistory.PutOutByAStep | src/repositories/client-request-claim.repository.ts:43-80 | nobody is out of a request but a lawyer who passed or lost a place on it |
| Engagements.RunKeepsJoined | src/repositories/quotation-payment.repository.ts:97-153 | on every run of a request and all wallets together, each payment that took money is recorded once, in one wallet row with its amount and split, and with an earning exactly if it engaged the request |
| Engagements.EarningIsTheHired | src/repositories/quotation-payment.repository.ts:140-151 | an earning of the request is the hired claim's, equal to the service fee of its paid quotation, and the only one |
| Engagements.EarnsExactlyWhenHired | src/repositories/wallet.repository.ts:70-76 | the request has an earning on money exactly when it is engaged or closed on a quotation that is not free |
| Engagements.OrphanNeverEarns | src/repositories/quotation-payment.repository.ts:97-103 | money for a claim that is not the hired one never becomes an earning |
| Engagements.SettledOnce | src/repositories/quotation-payment.repository.ts:103-129 | a payment settled once changes nothing when told again, for any wallet, however much has happened in between |
| Engagements.SettledInto | src/repositories/quotation-payment.repository.ts:104-151 | settling writes one row in the wallet it names, with an earning of the service fee exactly if the request waits on that quotation, pending until the given time |
| PlatformFee.PriceIsTheSplit | src/repositories/quotation.repository.ts:64-69 | the two parts are the only ones that add up to the amount, with the platform's at least the minimum or the whole of it and, off those clamps, within half a unit of its share: platform first, lawyer second |
| PlatformFee.PriceGrows | src/constants/payout.constants.ts:40-43 | quoting more lowers neither part |
| PlatformFee.FeeWithin | src/constants/payout.constants.ts:35-43 | the fee is within the amount, at least the minimum or the whole amount, and off the clamps within half a unit of the exact share |
| PlatformFee.ShareIsNear | src/constants/payout.constants.ts:42 | rounding is half-up |
| PlatformFee.MoreForBoth | src/constants/payout.constants.ts:40-43 | quoting more lowers neither the fee nor what the lawyer receives |
| PlatformFee.SplittingSavesHalfAPennyEach | src/constants/payout.constants.ts:40-43 | splitting an amount into n quotes saves at most n / 2 minor units of fee, for every rate up to the whole |
| PlatformFee.SplittingBoundIsMet | src/constants/payout.constants.ts:18-43 | and that bound is reached at a rate an admin may set |
| Refunds.RefundsInARow | src/repositories/quotation-payment.repository.ts:166-187 | any number of refunds in a row are all accepted exactly when together they fit in the lawyer's fee that is left, or take all that is left with the ones before the last fitting there; what is left then depends only on their total |
| Refunds.WholeRefundTakesBoth | src/repositories/quotation-payment.repository.ts:161-181 | everything left gives back both fees; less takes nothing from the platform |
| Refunds.CreateRefundKeeps | src/repositories/quotation-payment.repository.ts:166-187 | creating a refund keeps the payment sound |
| Refunds.RefundFailedKeeps | src/repositories/quotation-payment.repository.ts:203-212 | a failed refund holds nothing any more |
| Refunds.RefundSucceededKeeps | src/repositories/quotation-payment.repository.ts:203-222 | a refund going through keeps the payment sound, the earning reversed by exactly its part |
| Refunds.DisputesKeep | src/repositories/quotation-payment.repository.ts:234-264 | opening, winning and losing a dispute keep the payment sound |
| Refunds.OpeningHolds | src/repositories/quotation-payment.repository.ts:230-240 | an opened dispute stops the release at any time and takes nothing; the payment reads disputed exactly unless it was wholly refunded |
| Refunds.WinningFrees | src/repositories/quotation-payment.repository.ts:241-256 | a dispute won lets the earning be released exactly when it is pending with its hold over, and the payment reads refunded exactly when all of it was given back, succeeded exactly when nothing was |
| Refunds.LosingTakesAll | src/repositories/quotation-payment.repository.ts:258-262 | a dispute lost takes back the whole payment and all of the earning, for good |
| Refunds.RefundGivesBack | src/repositories/quotation-payment.repository.ts:213-219 | a refund going through raises the total by its amount, and the payment reads refunded exactly when that reaches what was paid |
| Refunds.StatusSaysHowMuch | src/repositories/quotation-payment.repository.ts:213-219 | outside a dispute a sound payment reads refunded exactly when all of it was given back, partially refunded when part was |
| Refunds.NeverMoreThanPaid | src/repositories/quotation-payment.repository.ts:161-165 | refunds given or on their way never exceed what was paid |
| Refunds.RefundsAddUp | src/swagger-client-handoff.ts:1770 | what the client got, the lawyer keeps and the platform keeps add up to what was paid |
| Refunds.PlatformPartIsAllOrNone | src/swagger-client-handoff.ts:1770 | refunds hold none of the platform fee or all of it |
| Refunds.CreatingKeepsAllOrNothing | src/services/quotation-payment.service.ts:217-222 | creating a refund keeps the platform fee whole unless the payment is wholly given back |
| Refunds.SucceedingKeepsAllOrNothing | src/services/quotation-payment.service.ts:217-222 | so does one going through |
| Refunds.FailingKeepsAllOrNothingExactly | src/services/quotation-payment.service.ts:217-222 | one failing does exactly when it was for nothing, carried the platform fee, or no refund does |
| Refunds.PlatformFeeGivenBackOnAKeptPayment | src/repositories/quotation-payment.repository.ts:166-212 | a payment on which it does not |
| Refunds.SucceedingStaysWithinPaidExactly | src/repositories/quotation-payment.repository.ts:203-222 | a refund going through keeps the refunded total within what was paid exactly unless it is for money on a payment already marked refunded, which only a lost dispute brings about |
| Refunds.RefundedMoreThanPaid | src/repositories/quotation-payment.repository.ts:203-264 | a payment of 100 of which 140 is refunded: 40 on its way, dispute lost, then it goes through |
| Wallets.PayInKeeps | src/repositories/wallet.repository.ts:72-76 | a payment settling keeps ledger and rows in agreement |
| Wallets.ReleaseKeeps | src/repositories/wallet.repository.ts:171-189 | so does the end of a hold |
| Wallets.ReserveKeeps | src/repositories/wallet.repository.ts:196-226 | so does a withdrawal, under a new key or one used before |
| Wallets.SettleWithdrawalKeeps | src/repositories/wallet.repository.ts:262-292 | so does a withdrawal paid or failed |
| WalletHistory.PayoutEnds | src/repositories/wallet.repository.ts:262-292 | a payout that arrived moves its amount from reserved to withdrawn and reads paid, one that failed moves it back to available and reads failed, and no other bucket changes |
| WalletHistory.ReserveSetsAside | src/repositories/wallet.repository.ts:196-226 | a withdrawal under a new key moves its amount from available to reserved if it is at least the minimum and there, and does nothing otherwise |
| WalletHistory.SameKeySameAnswer | src/repositories/wallet.repository.ts:207-208 | under a used key it is answered and sets nothing aside |
| WalletHistory.ReleaseMakesAvailable | src/repositories/wallet.repository.ts:171-189 | the end of a hold moves exactly what is left of the earning from pending to available |
| WalletHistory.RefundEnds | src/repositories/quotation-payment.repository.ts:203-222 | a refund that went through gives its amount back and takes the lawyer's part from what is left, one that failed changes no balance |
| Wallets.ReversalKeeps | src/repositories/wallet.repository.ts:43-68 | so does writing an earning back out of the bucket it is in |
| Wallets.RefundSuccessKeeps | src/repositories/quotation-payment.repository.ts:213-221 | so does a refund going through |
| Wallets.DisputeLostKeeps | src/repositories/quotation-payment.repository.ts:258-262 | so does a dispute lost |
| Wallets.RunKeeps | src/repositories/wallet.repository.ts:78-84 | on every run each bucket of the ledger is what the rows say and no idempotency key is used twice |
| WalletSafety.BalancesAddUp | src/swagger-client-handoff.ts:477 | pending, available, reserved and withdrawn add up to what was earned less what was reversed |
| WalletSafety.OwesAtMostWhatLeft | src/swagger-client-handoff.ts:477 | only available can be negative, by no more than what was withdrawn or is on its way |
| WalletSafety.OnlyReversalsGoBelowZero | src/swagger-client-handoff.ts:477 | no other step takes available below zero or further below |
| WalletSafety.RefundAfterWithdrawal | src/repositories/quotation-payment.repository.ts:231-233 | runs in which a refund does |
| WalletSafety.PaidNoMoreThanReleased | src/swagger-client-handoff.ts:1713-1717 | on every run what has left the wallet or is on its way is never more than the earnings released so far |
| WalletSafety.WithdrawnWithinLimits | src/repositories/wallet.repository.ts:196-226 | on every run each withdrawal in the books comes from one step that asked for it, for at least the minimum and at most what was available there, under a key new there |
| WalletSafety.ReleasedNoEarlierThanDue | src/repositories/wallet.repository.ts:164-176 | on every run a released earning was released when its hold was over, and one that is available was released |
| WalletSafety.HeldUntilClosed | src/repositories/wallet.repository.ts:164-176 | an earning disputed before its release is not released on any continuation until the dispute is closed |
| WalletHistory.FreedByTheDecision | src/repositories/quotation-payment.repository.ts:241-264 | once its dispute is decided, and on any continuation without a new one, the earning is released exactly when it is pending with its hold over |
| WalletHistory.SettledByAStep | src/repositories/quotation-payment.repository.ts:104-151 | on every run each payment is what a step settled: its amount, split, whether it earned and its hold |
| WalletHistory.PayoutEndedAsTold | src/repositories/wallet.repository.ts:262-292 | a withdrawal reads paid only if a step said so, and failed only if one said that |
| WalletHistory.RefundEndedAsTold | src/repositories/quotation-payment.repository.ts:203-212 | so does a refund |
| WalletHistory.RefundAskedFor | src/repositories/quotation-payment.repository.ts:166-187 | a refund is for what a step asked for |
| WalletHistory.LostAsTold | src/repositories/quotation-payment.repository.ts:258-262 | a payment is taken back only if a step said its dispute was lost |
| WalletSafety.ReplaysChangeNothing | src/repositories/wallet.repository.ts:78-84 | a refund or withdrawal settled, a hold ended, a withdrawal asked for or a dispute lost changes nothing when sent again, whatever happened in between |
| WalletSafety.ReopeningBeforeClosing | src/repositories/quotation-payment.repository.ts:234-240 | a dispute opening sent again changes nothing as long as the dispute has not been closed |
| WalletSafety.OpeningChangesNothingExactly | src/repositories/quotation-payment.repository.ts:234-240 | in any books an opening changes nothing exactly when the payment is not there, or is disputed or wholly refunded with its earning, if any, disputed |
| WalletSafety.ReopeningExactly | src/repositories/quotation-payment.repository.ts:234-264 | after an opening and anything at all, applying it again changes nothing exactly when what it does is still in place |
| WalletSafety.ReopeningCanChange | src/repositories/quotation-payment.repository.ts:234-264 | so after a dispute was won the transaction run once more does change the books |
| WalletSafety.ClosingAgainExactly | src/repositories/quotation-payment.repository.ts:241-264 | a closing changes nothing exactly when the payment is not disputed |
| WalletSafety.ClosingAgainBeforeOpening | src/repositories/quotation-payment.repository.ts:241-264 | so one sent again, won or lost, changes nothing as long as no dispute was opened since |
| Webhooks.RecordedIsOver | src/services/stripe-webhook.service.ts:19-26 | an event recorded with no delivery of it under way is never applied again on any continuation, however often it comes |
| Webhooks.ArrivedUnrecorded | src/services/stripe-webhook.service.ts:20 | a delivery only gets past the check if its event was not recorded then |
| Webhooks.WorkedTwiceExactly | src/services/stripe-webhook.service.ts:14-17 | of two deliveries of one event, interleaved with anything, the second changes the books exactly when what the first did is no longer in place: never for a refund or a payout, and for a dispute only after it was decided, or created anew, in between |
| Webhooks.DeliveredAgainExactly | src/services/stripe-webhook.service.ts:19-26 | an event delivered again, after anything, changes nothing exactly when it was recorded or what it did is still in place; a delivery that went through recorded it |
| Webhooks.RetriedAfterTheDecision | src/services/stripe-webhook.service.ts:14-17 | a creation whose delivery failed after it was applied opens the dispute again when it is retried after the dispute was won |
| Webhooks.AppliedThoughRecorded | src/services/stripe-webhook.service.ts:20-24 | so does one delivered twice at once, although it is recorded by then |
| Webhooks.DeskSound | src/services/stripe-webhook.service.ts:19-34 | however events are delivered, the wallet stays sound |
| Webhooks.WorkedSays | src/services/stripe-webhook.service.ts:18-26 | applying an event leaves the books saying what it tells: the refund or payout ended as told, the dispute opened, won or lost |
| Webhooks.SaysForGood | src/services/stripe-webhook.service.ts:14-17 | for a refund or a payout they say so for ever, whatever comes after |
| Webhooks.RecordedWasWorked | src/services/stripe-webhook.service.ts:19-26 | an event is recorded only after a delivery of it was applied |
| WalletSafety.NothingRecordedTwice | src/repositories/wallet.repository.ts:19-25 | no key twice on one side of the ledger and no withdrawal key twice |
| WalletSafety.EveryPaymentAddsUp | src/swagger-client-handoff.ts:1770 | on every run every payment's refunds are within it and its parts add up |
| WalletSafety.AllOrNothingOnEveryRunExactly | src/services/quotation-payment.service.ts:217-222 | all along a run every payment has its platform fee wholly kept or is wholly given back, exactly when each refund that fails was for nothing, carried the fee, or no refund does |
| WalletSafety.WithinPaidOnEveryRunExactly | src/repositories/quotation-payment.repository.ts:203-264 | all along a run no payment is refunded more than was paid, exactly when no refund for money goes through on a payment already marked refunded |
| WorkerPool.EverySchedule | scripts/jev-option-order-benchmark.ts:58-70 | under every schedule items are called in order, each once, at most min(n, length) at a time, and no schedule is longer than two turns an item and one a worker |
| WorkerPool.AtTheEnd | scripts/jev-option-order-benchmark.ts:58-70 | every ended schedule filled every place with its item's answer exactly when there was a worker or nothing to do, after exactly that many turns |
| WorkerPool.AtMostNInFlight | scripts/jev-option-order-benchmark.ts:62 | calls without an answer are never more than the workers |
| WorkerPool.LimitIsReached | scripts/jev-option-order-benchmark.ts:58-70 | and a schedule exists in which any number up to the limit is under way at once |
| WorkerPool.Run | scripts/jev-option-order-benchmark.ts:58-70 | the loop over the shared counter and output, whoever runs next, ends in such a schedule |
| TraceFrames.StripUndoesEmit | scripts/run-benchmark.ts:50-52 | stripping a stream of texts and frames gives back the texts |
| TraceFrames.OneFrame | scripts/run-benchmark.ts:50-52 | so a text with one frame, in the markers as written, comes back as the text |
| TraceFrames.StripOnlyTakesOut | scripts/run-benchmark.ts:50-52 | any output is a subsequence of its input |
| TraceFrames.UnchangedExactlyWithoutFrames | scripts/run-benchmark.ts:50-52 | a stream is unchanged exactly when it has no closed frame: an unclosed one stays |
| TraceFrames.OnePassIsEnoughExactly | scripts/run-benchmark.ts:50-52 | a second pass over an emitted stream changes nothing exactly when the texts put together hold no frame |
| TraceFrames.OpensAcrossTexts | scripts/run-benchmark.ts:50-52 | such a frame opens across the end of a text, which ends in part of the opening marker |
| TraceFrames.OnePassIsEnough | scripts/run-benchmark.ts:50-52 | so one pass is enough when no text but the last breaks off inside an opening marker |
| TraceFrames.StripCanJoinAFrame | scripts/run-benchmark.ts:50-52 | taking a frame out of the middle of a marker leaves a frame |
| TokenCost.SnapshotCostsTheSame | src/constants/llm-pricing.constants.ts:59-67 | a dated snapshot costs what its model costs unless it is listed itself |
| TokenCost.OwnRowFirst | src/constants/llm-pricing.constants.ts:61-64 | a name with its own row has that price, else the row of its undated form |
| TokenCost.FirstWildcard | src/constants/llm-pricing.constants.ts:65-66 | with neither, the first wildcard for it in the order of the table |
| TokenCost.DateSuffixExactly | src/constants/llm-pricing.constants.ts:63 | a date suffix is a dash and four digits, then a dash and two, twice |
| TokenCost.JevFamily | src/constants/llm-pricing.constants.ts:59-67 | every model whose name starts with jev has the jev price |
| TokenCost.UnpricedExactly | src/constants/llm-pricing.constants.ts:61-67 | a name has no price exactly when no row is for it, for its undated form, or a wildcard for it |
| TokenCost.UnknownIsNeverFree | src/constants/llm-pricing.constants.ts:70-82 | a cost is 0 exactly for a listed model that was billed for no input and no output it charges for; an unknown model has no cost |
| TokenCost.EachTokenItsRate | src/constants/llm-pricing.constants.ts:78-81 | each further token costs exactly its own rate: input, cached input, or input again if the row gives no cached rate, and output |
| TokenCost.CachedAsFarAsItGoes | src/constants/llm-pricing.constants.ts:78 | a cached count below none counts as none, and one above the input as the input |
| TokenCost.CachingSavesIffCheaper | src/constants/llm-pricing.constants.ts:78-81 | more cached tokens never cost more exactly when the cached rate is no dearer |
| TokenCost.OneByOneCostsNoLessExactly | src/constants/llm-pricing.constants.ts:70-82 | for all counts and rates, costing calls one by one is no less than costing their summed counts exactly when the sum caches no fewer tokens at a rate no dearer, or no more at one no cheaper |
| TokenCost.WhenTerraCovers | src/constants/llm-pricing.constants.ts:39-50 | the unpriced rate covers every row of the table but gpt-4o, and that one exactly when 2 output is at least 0.5 uncached and 1.05 cached |
| TokenCost.TerraUndercountsAReader | src/constants/llm-pricing.constants.ts:48-50 | a call it does not cover |
| TokenCost.BudgetCoversUnpriced | src/services/llm-usage.service.ts:186-192 | charging the summed counts once at that rate covers what the calls cost under that condition |
| RoleBackfill.Database.Apply | scripts/backfill-lawyer-role.ts:54-68 | all saved accounts change or none, whatever happened since they were listed, and exactly when all are still USER |
| RoleBackfill.Database.Revert | scripts/backfill-lawyer-role.ts:42-52 | only saved accounts still LAWYER change, on the host the backup is from |
| RoleBackfill.Database.Targets | scripts/backfill-lawyer-role.ts:81-85 | the USER accounts, each once |
| RoleBackfill.CountsAllExactly | scripts/backfill-lawyer-role.ts:61-66 | the update's count equals the number of ids exactly when every one still has the role |
| RoleBackfill.OnlyThoseChange | scripts/backfill-lawyer-role.ts:2-3 | no other row changes, so an ADMIN never does |
| RoleBackfill.NothingLeft | scripts/backfill-lawyer-role.ts:3 | after an apply only accounts that became USER since are left, so with none a second finds nothing |
| RoleBackfill.RevertRestoresExactly | scripts/backfill-lawyer-role.ts:15 | undoing gives back the table the apply found exactly when the other rows were left alone and the saved ones are LAWYER or USER |
| RoleBackfill.ApplyThenRevert | scripts/backfill-lawyer-role.ts:42-68 | one after the other they leave the table as it was |
| AreaSeeders.Table.Seed | prisma/seeders/practice-area.seeder.ts:9-18 | the loops leave exactly the table one run makes |
| AreaSeeders.SeededExtends | prisma/seeders/practice-area.seeder.ts:5-8 | existing rows are unchanged and each added one sorts directly after the largest of its country, for an area nobody before had |
| AreaSeeders.NothingElseAdded | prisma/seeders/practice-area.seeder.ts:9-18 | every row added is a default of one of the countries |
| AreaSeeders.EveryDefaultThere | prisma/seeders/practice-area.seeder.ts:5-8 | every default of every country is there afterwards |
| AreaSeeders.SecondRunAddsNothing | prisma/seeders/practice-area.seeder.ts:12-13 | a second run changes nothing |
| AreaSeeders.StaysUnique | prisma/seeders/case-area.seeder.ts:5-9 | no area gets a second row, so the unique key is never broken |
| AreaSeeders.LastIsMaximum | prisma/seeders/practice-area.seeder.ts:14-15 | the sort order counted from is the country's largest, or -1 with no rows |
| AreaSeeders.SeedPracticeAreas | prisma/seeders/practice-area.seeder.ts:9-18 | all of this for the practice areas of the UK and the Philippines, matched by name whatever its case |
| AreaSeeders.SameNameExactly | prisma/seeders/practice-area.seeder.ts:12 | names match exactly when they have the same letters, each in either case |
| AreaSeeders.SeedCaseAreas | prisma/seeders/case-area.seeder.ts:10-18 | all of this for the case areas of both, matched by code |

## Left out

- Names, dates, languages, fees and the other details of a test lawyer (`scripts/seed-test-lawyers.ts:188-215`): draws that nothing checked depends on; the plan is proved from any state of the generator instead.
- Writing the plan to the database, looking up the tenant's tiers, deleting and cleaning (`scripts/seed-test-lawyers.ts:333-394`): storage.
- A lawyer's combination is kept as a record rather than its label; labels of different combinations differ.
- TestLawyers.BaseLawyers: leaves out those details, for the same reason.
- AreaSeeders.SeedPracticeAreas: folds ASCII letters only, where the database folds more.
- TokenCost.UnpricedExactly: takes the name already trimmed and in lower case, and a table without inherited keys.
- WorkerPool.Run: a call that rejects is not modelled; the one use catches every failure inside the call.
- RoleBackfill.Database.Apply: the backup is a value handed back, not a file.
- The request's legacy path: the per-case fee, its retry and its 48 hours (`src/repositories/client-request-claim.repository.ts:140-201`), and reassignment inside an organization.
- Statuses CLAIMED and QUOTED: shown to users, but no transaction of the modelled repositories stores them.
- Refunds.CreateRefundKeeps: the service also refuses a refund of a disputed or fully refunded payment before taking the lock; the model allows what the locked transaction allows, which is more.
- Whose wallet a payment goes to (the organization's or the lawyer's, `src/services/quotation-payment.service.ts:329-333`) is an input; so is when its hold ends.
- ProTier.LssCanStayEmpty: a deal the rules of the pass allow, without a generator state that draws it.
- Stripe's `payment_intent` events are modelled in `Engagements`, as a payment settling; `Webhooks` has those on refunds, disputes and payouts, each with the id it is recorded by. What one event asks of the other billing services is left out but for their failing.
- Wallets.RunKeeps: manual adjustments by staff have no code path here; a dispute's key is by its payment, as a dispute belongs to one.
- Reminders, announcements, notifications, audit, access grants, briefs, chat and AI budgets: they read the request and change nothing modelled.
- Matching itself (areas, jurisdiction, capacity) is an input of the check a join starts with.
- HTTP, queues, locks, Stripe and its webhooks: an answer is a step that may come at any time, any number of times.
