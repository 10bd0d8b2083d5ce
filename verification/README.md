# A verified model of the private inference network

The network lets members of a private laboratory run inference for each other and settles every obligation in integer
microcredits. This project models its accounting and the state machines around it, and proves what they promise.
`dafny verify dfyconfig.toml` checks everything.

## How it is organised

Every component comes as a specification on values (a state, and one function per step), lemmas about all steps and all
runs, and, where the program changes rows or objects in place, a class or a loop whose methods are proved to compute
exactly the specified state. A branch that raises or asserts is an explicit reply or `Fault` of the specification. Separate
modules (`StudyCalls`, `StudyLives`, `StudyMoments`, `StudyPlans`, `StudyContracts`, `LeaseCredits`, `FundTargets`,
`RenewalAnswers`, `SessionOutcomes`, `DeskOutcomes`, `CanonicalText`, `SseEvents`, `FrameSizes`, `HourlyRules`) say what
the specification itself does, in the fields of its states and in plain numbers, exactly when and exactly what. Where
a class method carries the source's assertion as its precondition (`HourlyPlan.Ledger` and several methods of
`Experiment`), its callers prove it: `HourlyStudy.Study.Run` and `StudyRuns.NeverFaults` show that none ever fires.

| part | files |
|---|---|
| Experimental ledger: promises, holds, charges, two-phase reversals | `StudyLedger`, `StudyOwnership`, `StudyCalls` |
| Discrete-event experiment | `EventStudy` (specification), `StudyRoles`, `StudySafety`, `StudySteps`, `StudyStart`, `StudyLease`, `StudyDay`, `StudyJobs`, `StudyRuns`, `StudyDuties`, `StudyEnds`, `StudyLives`, `StudyMoments`, `StudyPlans`, `StudyContracts`, `Experiment` (class) |
| Double-entry journal | `Journal`, `Postings` |
| Prices and shares | `Contracts`, `Quotients` |
| Readiness leases of a route, and of one node | `RouteLease`, `LeaseSafety`, `LeaseRuns`, `LeaseCredits`, `LeaseStatement`, `LeaseRow`; `NodeLease`, `NodeLeaseRuns` |
| Cooperative fund and its bounded renewals | `Refill`, `Cooperative`, `FundTargets`, `FundRuns`; `Acceptances`, `Renewals`, `RenewalSafety`, `RenewalAnswers`, `RenewalRuns`, `RenewalOffice` |
| Sessions, receipts, admission | `Sessions`, `SessionReceipts`, `SessionEnds`, `SessionOutcomes`, `Desk`, `DeskSafety`, `DeskRuns`, `DeskOutcomes`, `DeskStatement`, `Coordinator` |
| Capacity of complete routes | `Packing`, `PackingGains` |
| Canonical text | `Canonical`, `CanonicalText`, `CanonicalParser`, `CanonicalOrder` |
| Event-stream decoder (a restricted subset of section 9.2.6 of the HTML Living Standard, "Interpreting an event stream") | `Utf8`, `Sse`, `SseEvents`, `SseLimits`, `SseRoundTrip` |
| Framed private link | `Frames`, `FrameSizes` |
| Integrated economy study: hourly plan, recovery, runs of hours, allocation | `HourlyPlan`, `HourlyState`, `HourlyRules`, `HourlyRuns`, `HourlyStudy`, `LargestRemainder` |
| Sums over maps, selection and sorting | `MapSums`, `Selection` |

## Assumptions

- A database transaction is one atomic step; an error leaves everything as it was. Inputs have passed schema validation.
- The clock, the observations of nodes, the draws of the simulators and the answers of databases that are not modelled
  (which routes are ready, which offers a session may use) are parameters, arbitrary at every step. In `LeaseRuns` the
  clock may even run backwards.
- Hashes, signatures, capabilities and identifiers are opaque; a fresh identifier was never used before.
- An `Elsewhere` step lets unrelated parts of the system move money between steps. It never touches the
  accounts and keys that belong to the modelled part, as their names carry its identifier.
- `HourlyRuns.PolicyOk` asks for at least one account, one role per large route, a positive divisor, and `Study` for at
  least one day of shutdown reserve: with none, a day's cost could exceed the cash that is left.
- `StudySafety.Sound` states what the experiment needs of its parameters: positive durations, an initial cash not below
  the shutdown reserve, a fleet without duplicates, and ceilings and targets within a signed 64-bit amount.
- `DeskRuns.NobodyIsOvertakenTwice` assumes a strictly increasing admission clock. With equal times the order by
  creation time decides instead.

## Results that differ from what one might expect

- The ledger of the experiment does not look at a hold's purpose when it releases it, and does not refuse the continuity
  fund as a recipient. `StudyLedger.LawIsExact` gives the exact rule that callers must follow to keep the invariant.
  After a leg of a pending reversal was released, `StudyLedger.ReleasedLegFailsAudit` says exactly for which charges the
  posting makes the audit fail: for those with a burned part, for instance, as in `StudyLedger.ReleasedLegExample`. The
  experiment always follows the rule.
- Success of the stream decoder depends on how its input is cut. `Sse.SuccessDependsOnChunking` is an example, and
  `SseLimits.SucceedsHoweverCut` says exactly for which streams it does not.
- Packing is not monotone: the spare count can exceed the declared one (`Packing.OccupancyCanRaiseTheCount`), so
  `occupied_slots` is clamped at zero by the program for a reason. `Packing.SpareIsBounded` bounds the excess. It cannot
  happen when any two routes share all their domains or none (`PackingGains.SeparateIsMonotone`); for three routes
  `PackingGains.ThreeRoutesExactly` says exactly when it can, and `PackingGains.ClashCanGain` finds it in longer lists.
- The order of receipts never changes what a session costs, but it can change which failure is reported
  (`SessionReceipts.StateDependsOnOrder`): exactly when a stage receipt is invalid and the root reports that it was
  cancelled or interrupted (`SessionEnds.EndIsIndependentExactlyWhen`).
- The remark in the source that open commitments fit inside the six-hour horizon is true, with five hours to spare
  (`Cooperative.FloorNeverClamps`).
- Canonical text covers plain JSON only. Other objects, such as dates, print like an object without fields and are
  outside the model.

## Model

| member | source | states |
|---|---|---|
| `StudyRuns.NeverFaults` | benchmarks/python/network_ai_bench/economy.py:438-467 | For every sound parameter set, scenario and sequence of draws and after any number of events, no assertion of a handler has fired, no ledger call has raised, and the full invariant holds. |
| `StudyRuns.HandleKeeps` | benchmarks/python/network_ai_bench/economy.py:137-436 | Any single event handled in a valid world: no assertion fires and the invariant (tokens of pending events, holds of requests, reservations, contracts, cash) is kept. |
| `StudyRuns.EveryWorldAudits` | benchmarks/python/network_ai_bench/economy.py:421-461 | In every reachable world the ledger audit passes and cash is at least the shutdown reserve. |
| `StudyRuns.HoldsAreLiveRequests` | benchmarks/python/network_ai_bench/economy.py:253-366 | A usage hold exists if and only if its request is queued, running or under review, and it is of that request's owner and price. |
| `StudyRuns.RunIsBooked` | benchmarks/python/network_ai_bench/economy.py:291-344 | In every reachable world a run that has not ended has each node of its route reserved until exactly the run's end, within that node's contract. |
| `StudyRuns.NodesServeOneRun` | benchmarks/python/network_ai_bench/economy.py:291-344 | Two runs that have not ended share no node, and no reservation outlasts the contract of its node. |
| `StudyLives.RequestsLiveAsDrawn` | benchmarks/python/network_ai_bench/economy.py:253-384 | In every reachable world every request has the owner and the qualified model drawn for it and the price of that very model, and is in the stage its draws lead to at that time; a charge is recorded only for a finalized request, of exactly its price and owner, and always for one without a late refund, and a refund only for one with a late refund drawn. |
| `StudyLives.ArrivalIsQueuedExactlyWhen` | benchmarks/python/network_ai_bench/economy.py:253-289 | An arrival is queued if and only if the end is not reached, it is not retained, its model is qualified, the owner can pay that model's price, a quorum stands and operations are paid; the owner's balance then falls by that price and the deadline is pending, and otherwise nothing changes. |
| `StudyLives.RequestStartsExactlyWhen` | benchmarks/python/network_ai_bench/economy.py:291-318 | A queued request starts if and only if it is not overdue and enough nodes of its kind are under contract and free for its whole service; they are then taken until its completion, whose event stands at that instant with the outcome drawn for it. |
| `StudyLives.HandleLives` | benchmarks/python/network_ai_bench/economy.py:137-436 | Every event keeps every request as it was drawn: owner, model, price, stage and charge. |
| `StudyMoments.DeadlineGivesBack` | benchmarks/python/network_ai_bench/economy.py:320-326 | At its deadline a request that still waits gets its price back and leaves the queue; any other is left alone. |
| `StudyMoments.CompletionDecides` | benchmarks/python/network_ai_bench/economy.py:328-344 | A run that was cancelled or failed gives the price back; any other waits for its review, due exactly one review later. |
| `StudyMoments.CompletionFrees` | benchmarks/python/network_ai_bench/economy.py:328-333 | Exactly the nodes of the route whose reservation ends now become free. |
| `StudyMoments.ReviewSettles` | benchmarks/python/network_ai_bench/economy.py:346-366 | A review waits five minutes for a quorum; a detected fault gives the price back; otherwise exactly the request's price is dispensed, unit by unit, at the targets of the last lease, and a late refund is due in an hour exactly if drawn. |
| `StudyMoments.RefundIsApproved` | benchmarks/python/network_ai_bench/economy.py:368-377 | With a quorum a refund is approved exactly when the fund covers both parts and 64 bits the reissue, and posted five minutes later; it is tried again in an hour when not covered, and in five minutes without a quorum. |
| `StudyMoments.RefundIsPosted` | benchmarks/python/network_ai_bench/economy.py:379-384 | A posted refund gives its payer the whole charge back and nobody else anything. |
| `StudyMoments.ReadinessIsPaid` | benchmarks/python/network_ai_bench/economy.py:217-230 | A settled readiness payment gives the node the reward of its kind, and nobody else anything. |
| `StudyMoments.TargetsAre` | benchmarks/python/network_ai_bench/economy.py:124-132 | Floor: the core's reward over the least number of leases that cover six hours, or a review and a lease if that is longer. Working: at least a day of all contracts. Protected: three days of the core, when reserves are split. |
| `StudyMoments.CeilingIs` | benchmarks/python/network_ai_bench/economy.py:119-122 | The ceiling is 35 per cent of a week of the least hourly capacity among now and the days remembered. |
| `StudyMoments.SourceIs` | benchmarks/python/network_ai_bench/economy.py:166-177 | Each of the four answers, working capital, issuance, reserve or nobody, is given if and only if its stated condition on balances, floor, ceiling and necessity holds. |
| `StudyMoments.GroupsAreWhole` | benchmarks/python/network_ai_bench/economy.py:161-192 | A group is contracted as a whole or not at all, each contract lasts exactly one lease, and nobody else is contracted. |
| `StudyContracts.ContractIs` | benchmarks/python/network_ai_bench/economy.py:137-208 | A lease with a quorum, paid operations and an essential node lets the groups of the nodes it wants take their turns, each contracted whole by whoever pays it then or passed over; stability starts anew exactly when an essential node was left out; otherwise nobody is contracted. Its targets hold for the settlements that follow either way. |
| `StudyContracts.FundNodeIs` | benchmarks/python/network_ai_bench/economy.py:178-192 | One contract: for exactly one lease, used once more, its reward promised under the ceiling or held of the account that pays, its receipt due when the lease ends, and nothing else. |
| `StudyContracts.GroupsInOrder` | benchmarks/python/network_ai_bench/economy.py:161-164 | The small nodes wanted are groups of their own in their order, and the whole team of three is second in line; an incomplete team is no group. |
| `StudyMoments.SmallIsByUse` | benchmarks/python/network_ai_bench/economy.py:145-145 | Small nodes stand in order of use, and are exactly those online that are not large. |
| `StudyMoments.EssentialsAre` | benchmarks/python/network_ai_bench/economy.py:145-147 | The core is the least used small node and, when three are there, three of the team. |
| `StudyMoments.DayIsPaid` | benchmarks/python/network_ai_bench/economy.py:421-428 | A day's cost is paid, and operations are paid up to the next day, exactly when what remains covers the shutdown reserve. |
| `StudyPlans.WantedIs` | benchmarks/python/network_ai_bench/economy.py:148-154 | Without demand steering everyone useful is wanted; with it the core, and when more than one request waits, the reserve is full and a day was stable, the second and third small node, each exactly when working capital keeps the floor. |
| `StudyPlans.GrantIs` | benchmarks/python/network_ai_bench/economy.py:236-251 | An allocation is issued in full exactly when neither the ceiling nor the cap of its class is exceeded, and otherwise nothing changes. |
| `StudyPlans.BootstrapIs` | benchmarks/python/network_ai_bench/economy.py:232-251 | The treasury is allocated the most that keeps it within a nineteenth of what contributors were issued and the ceiling leaves, then the users the most within a forty-ninth; nothing when issuance is over or there is no quorum. |
| `StudyPlans.GrantUsersIs` | benchmarks/python/network_ai_bench/economy.py:243-251 | User i is granted the i-th of the even shares, each under the same ceiling. |
| `StudyPlans.DayBoundaryIs` | benchmarks/python/network_ai_bench/economy.py:395-436 | A day boundary before the end pays, trades, remembers the capacity, allocates and announces the next; at the end it does nothing. |
| `StudyPlans.LeaseStartIs` | benchmarks/python/network_ai_bench/economy.py:137-208 | A lease start drops every contract and exactly the reservations that ended, contracts, starts the waiting requests in order of their numbers, and announces the next lease. |
| `StudyPlans.InitialIs` | benchmarks/python/network_ai_bench/economy.py:41-76 | A study starts with nothing issued, held or promised, its operating cash, and exactly the drawn arrivals and the first day and lease as events. |
| `StudyDuties.NothingIsForgotten` | benchmarks/python/network_ai_bench/economy.py:137-436 | In every reachable world each unfinished duty (next day and lease, open readiness payment, queued, running or reviewed request, refund still due) has its event pending; a deadline event stands at the deadline itself. |
| `StudyDuties.HandleMoves` | benchmarks/python/network_ai_bench/economy.py:137-436 | Handling an event drops no other pending event, and whatever is owed afterwards either was owed before or has its event. |
| `StudyDuties.NobodyWaitsBeyondTheDeadline` | benchmarks/python/network_ai_bench/economy.py:320-326 | In every reachable world a queued request has not passed its deadline. |
| `StudyDuties.OnlyLaterDutiesRemain` | benchmarks/python/network_ai_bench/economy.py:438-467 | When the loop stops, every duty left has an event after the end: nothing due by then was skipped. |
| `StudyEnds.EveryRunEnds` | benchmarks/python/network_ai_bench/economy.py:438-467 | Whatever the draws, the event loop stops after finitely many events. |
| `StudyEnds.StepProgresses` | benchmarks/python/network_ai_bench/economy.py:438-467 | Each event moves the clock on or leaves fewer events due at the same instant. |
| `StudyLease.LeaseStartKeeps` | benchmarks/python/network_ai_bench/economy.py:137-208 | Both double-reservation assertions and the funding assertion hold at every lease start, and what later events rely on is established. |
| `StudyLease.SourceSuffices` | benchmarks/python/network_ai_bench/economy.py:165-177 | The source chosen for a group can pay for the whole group, whatever the order in which its nodes are funded. |
| `StudyLease.NothingRuns` | benchmarks/python/network_ai_bench/economy.py:137-141 | When a lease ends every run it hosted has ended, so clearing the contracts frees nothing in use. |
| `StudyLease.TargetsFit` | benchmarks/python/network_ai_bench/economy.py:124-132 | Floor, working target and protected target are valid 64-bit amounts for every crew of bounded size. |
| `StudyStart.RouteIsFree` | benchmarks/python/network_ai_bench/economy.py:291-304 | A chosen route has distinct nodes, all free and all under contract for the whole service time. |
| `StudyStart.StartWaitingKeeps` | benchmarks/python/network_ai_bench/economy.py:206-207 | Starting every waiting request in order of their numbers never fails and keeps the invariant. |
| `StudyJobs.UnbookKeeps` | benchmarks/python/network_ai_bench/economy.py:328-333 | A completion frees only reservations that end now, never a newer one. |
| `StudyJobs.ChargeKeeps` | benchmarks/python/network_ai_bench/economy.py:346-366 | The charge of a reviewed request is always settled from its own hold, whatever targets the last lease computed, and a late refund finds it reversible. |
| `StudyJobs.ReleaseKeeps` | benchmarks/python/network_ai_bench/economy.py:320-344 | Releasing the hold of a live request never raises and leaves the rest of the world valid. |
| `StudyDay.GrantUsersKeeps` | benchmarks/python/network_ai_bench/economy.py:244-251 | Every user grant is promised and issued, or declined, without raising: each user's balance grows by its whole share or not at all, and no other balance changes. |
| `StudyDay.SharesAreEven` | benchmarks/python/network_ai_bench/economy.py:244-247 | The shares of a grant add up to it, and no two of them differ by more than one unit. |
| `StudyDay.OperationsKeepCash` | benchmarks/python/network_ai_bench/economy.py:421-429 | Paying a day of operations keeps the cash identity and the shutdown reserve. |
| `StudyDay.DayBoundaryKeeps` | benchmarks/python/network_ai_bench/economy.py:395-436 | The audit and both cash assertions hold at every day boundary. |
| `StudySteps.PopKeeps` | benchmarks/python/network_ai_bench/economy.py:438-467 | The event taken from the heap finds what it relies on, and no other pending event has its token. |
| `StudyExperiment.First` | benchmarks/python/network_ai_bench/economy.py:78-80 | The earliest event, ties broken by serial number. |
| `StudyExperiment.Experiment.TryStart` | benchmarks/python/network_ai_bench/economy.py:291-318 | The method reaches exactly the specified world: route, reservation, stage and completion event. |
| `StudyExperiment.Experiment.FundGroups` | benchmarks/python/network_ai_bench/economy.py:165-192 | The loop over groups reaches exactly the specified world, without fault. |
| `StudyExperiment.Experiment.LeaseStart` | benchmarks/python/network_ai_bench/economy.py:137-208 | The whole lease start reaches exactly the specified world, without fault. |
| `StudyExperiment.Experiment.Bootstrap` | benchmarks/python/network_ai_bench/economy.py:232-251 | Treasury and grant allocations reach exactly the specified world, without fault. |
| `StudyExperiment.Experiment.DayBoundary` | benchmarks/python/network_ai_bench/economy.py:395-436 | The day boundary reaches exactly the specified world, without fault. |
| `StudyExperiment.Experiment.RequestArrival` | benchmarks/python/network_ai_bench/economy.py:253-289 | An arrival reaches exactly the specified world, without fault. `StudyLives.ArrivalIsQueuedExactlyWhen` and `StudyLives.RequestsLiveAsDrawn` say which one: the price is that of the model. |
| `StudyExperiment.Experiment.ReadySettle` | benchmarks/python/network_ai_bench/economy.py:217-230 | A readiness payment reaches exactly the specified world, without fault. |
| `StudyExperiment.Experiment.QueueDeadline` | benchmarks/python/network_ai_bench/economy.py:320-326 | A deadline reaches exactly the specified world, without fault. |
| `StudyExperiment.Experiment.RequestDone` | benchmarks/python/network_ai_bench/economy.py:328-344 | A completion reaches exactly the specified world, without fault. |
| `StudyExperiment.Experiment.UsageSettle` | benchmarks/python/network_ai_bench/economy.py:346-366 | A settlement reaches exactly the specified world, without fault. |
| `StudyExperiment.Experiment.RefundApprove` | benchmarks/python/network_ai_bench/economy.py:368-377 | A refund approval reaches exactly the specified world, without fault. |
| `StudyExperiment.Experiment.RefundPost` | benchmarks/python/network_ai_bench/economy.py:379-384 | A refund posting reaches exactly the specified world, without fault. |
| `StudyExperiment.Experiment.Run` | benchmarks/python/network_ai_bench/economy.py:438-467 | The event loop terminates in a world that some number of specified events leads to, and the audit passes there. |
| `StudyLedger.EveryRunAudits` | benchmarks/python/network_ai_bench/ledger.py:49-182 | After any lawful calls the audit passes, and every finalized charge has been credited back not at all, or once, to its payer, for exactly what it took. |
| `StudyOwnership.WealthMoves` | benchmarks/python/network_ai_bench/ledger.py:49-170 | What an account owns, free or held, changes only by issuance to it, readiness pay, settled charges and posted refunds, each by exactly its amount between exactly its parties. |
| `StudyOwnership.WealthIsItsHistory` | benchmarks/python/network_ai_bench/ledger.py:49-170 | Over any lawful run an account's wealth is the sum of those movements. |
| `StudyLedger.ApplyKeeps` | benchmarks/python/network_ai_bench/ledger.py:49-182 | Every lawful call keeps the full invariant, with the two issuance caps including pending promises and the burn identity. |
| `StudyLedger.LawIsExact` | benchmarks/python/network_ai_bench/ledger.py:97-100 | The rule on callers is exact for the invariant: a call keeps it if and only if it is lawful or changes nothing. |
| `StudyLedger.InvImpliesAudit` | benchmarks/python/network_ai_bench/ledger.py:172-182 | The invariant implies every assertion of the audit. |
| `StudyLedger.ReleasedLegFailsAudit` | benchmarks/python/network_ai_bench/ledger.py:161-182 | Once either leg of a pending reversal was released, posting it raises half way, and the audit then fails exactly when the charge had a burned part, or when the missing leg is the second and the first was not empty. |
| `StudyLedger.ReleasedLegExample` | benchmarks/python/network_ai_bench/ledger.py:97-100 | A concrete state with the full invariant from which releasing a reversal leg leads to a failed audit. |
| `StudyLedger.QuietCall` | benchmarks/python/network_ai_bench/ledger.py:49-109 | Only settling, approving and posting touch charges and reversals. |
| `StudyCalls.PromiseIs` | benchmarks/python/network_ai_bench/ledger.py:49-64 | When a promise raises, when it is declined for its ceiling or its class cap (in plain fractions), and the exact new state when it is recorded. |
| `StudyCalls.IssueIs` | benchmarks/python/network_ai_bench/ledger.py:66-84 | Issuing pays the recipient of the promise and counts its class; releasing forgets it; both close its identifier, and both raise exactly without one. |
| `StudyCalls.HoldIs` | benchmarks/python/network_ai_bench/ledger.py:86-95 | When a hold raises, when it is declined, and the exact balance and hold otherwise. |
| `StudyCalls.ReleaseIs` | benchmarks/python/network_ai_bench/ledger.py:97-109 | A release gives a hold back to its owner whatever its purpose; a readiness hold of the fund pays the recipient instead, and any other raises. |
| `StudyCalls.FinalizeIs` | benchmarks/python/network_ai_bench/ledger.py:111-140 | A settled charge is dispensed one unit at a time to the first of floor, reserve and working target that is not met in the order of the priority, the rest is burned, and exactly that is recorded as refundable. |
| `StudyCalls.ApproveIs` | benchmarks/python/network_ai_bench/ledger.py:142-159 | A reversal is approved exactly when both parts can be held again and the burned one reissued within 64 bits; its legs hold exactly those parts. |
| `StudyCalls.PostIs` | benchmarks/python/network_ai_bench/ledger.py:161-170 | A posted reversal gives its payer the whole charge and reissues exactly the burned part. |
| `StudyLedger.RefillIsRecycle` | benchmarks/python/network_ai_bench/ledger.py:118-134 | Each of the study's three priorities is the cooperative fund's refill rule with a floor or a reserve target already met. |
| `StudyLedger.Ledger.Promise` | benchmarks/python/network_ai_bench/ledger.py:49-64 | New state and answer are exactly those of the specification, including the issuance caps. |
| `StudyLedger.Ledger.ReleasePromise` | benchmarks/python/network_ai_bench/ledger.py:66-69 | New state and answer are exactly those of the specification. |
| `StudyLedger.Ledger.Hold` | benchmarks/python/network_ai_bench/ledger.py:86-95 | New state and answer are exactly those of the specification. |
| `StudyLedger.Ledger.Release` | benchmarks/python/network_ai_bench/ledger.py:97-100 | New state and answer are exactly those of the specification, which asks for no purpose. |
| `StudyLedger.Ledger.Issue` | benchmarks/python/network_ai_bench/ledger.py:71-84 | New state and answer are exactly those of the specification. |
| `StudyLedger.Ledger.PayReady` | benchmarks/python/network_ai_bench/ledger.py:102-109 | New state and answer are exactly those of the specification. |
| `StudyLedger.Ledger.FinalizeUsage` | benchmarks/python/network_ai_bench/ledger.py:111-140 | New state and answer are exactly those of the specification. |
| `StudyLedger.Ledger.ApproveReversal` | benchmarks/python/network_ai_bench/ledger.py:142-159 | New state and answer are exactly those of the specification. |
| `StudyLedger.Ledger.PostReversal` | benchmarks/python/network_ai_bench/ledger.py:161-170 | New state and answer are exactly those of the specification, even where the call raises half way. |
| `LeaseRuns.EveryRunKeeps` | apps/control-api/src/route-availability.ts:498-629 | After any actions the escrow is the budget less the members' payments while the window is open and nothing once closed, each pay is the exact share of the credited time, and the journal balances. |
| `LeaseRuns.WhatAMemberHas` | apps/control-api/src/route-availability.ts:511-586 | For each member: paid = floor(credited * maximum / span), 0 <= joint <= credited <= sample - started <= span, and paid in full exactly when the whole span was credited. |
| `LeaseRuns.NoStepFailsInside` | apps/control-api/src/route-availability.ts:522-571 | The projection checks and both postings succeed for every clock, including one that runs backwards, and for every observation. |
| `LeaseRuns.EachInstantOnce` | apps/control-api/src/route-availability.ts:505-523 | A step credits a member nothing or exactly the time since the previous sample, the latter only between two ready observations of one boot at most six seconds apart, and always then; samples never go back. |
| `LeaseCredits.SampleIs` | apps/control-api/src/route-availability.ts:498-601 | A look at a running window credits member i, and the window jointly, with exactly the time since the last sample, cut at the end, if and only if it was ready then, has not left, is up in the same boot and at most 6000 ms have passed; it is paid its share; and the window ends, drains or stays ready exactly as stated. |
| `LeaseCredits.CreditIsItsIntervals` | apps/control-api/src/route-availability.ts:498-601 | Over every run the credit of a member is the sum of the intervals it earned, and its pay the floor of its share of that. |
| `LeaseCredits.AcceptanceIs` | apps/control-api/src/route-availability.ts:246-379 | Every answer to an acceptance by its condition; only the last acceptance missing begins the window, for its whole duration from that moment. |
| `LeaseCredits.OfferEnds` | apps/control-api/src/route-availability.ts:381-432 | An untaken offer ends if and only if it expired or a party cancels it, and its whole budget returns to who funded it. |
| `LeaseCredits.RunningStep` | apps/control-api/src/route-availability.ts:381-601 | A running window is only looked at, and a party that cancels makes it drain and leaves, with its members of that provider. |
| `LeaseCredits.OfferIsMadeExactlyWhen` | apps/control-api/src/route-availability.ts:72-238 | An offer is made if and only if its budget fits 64 bits, fewer than four contracts are open, the route is ready, the shares divide into positive maxima and the funding account can pay. |
| `LeaseCredits.TransferExactlyWhen` | apps/control-api/src/ledger.ts:19-83 | A transfer under a new key is recorded if and only if the payer can afford it. |
| `LeaseRuns.PayIsIndependent` | apps/control-api/src/route-availability.ts:402-575 | In any two runs with the same sampling instants and the same observations of a member, that member earns the same, whatever the others' readiness, exits and restarts and whether the window drains. |
| `LeaseRuns.ClosedIsFinal` | apps/control-api/src/route-availability.ts:603-629 | Nothing about a closed window ever changes. |
| `LeaseRuns.OfferKeeps` | apps/control-api/src/route-availability.ts:134-191 | Every offer made escrows the whole budget and splits it into positive maxima that add up to it. |
| `LeaseStatement.JournalPaysWhatWasEarned` | apps/control-api/src/route-availability.ts:498-629 | From the offer on, whatever happens, the payments recorded in the journal give each provider exactly what its members have earned, and the refund of a closed window gives the rest back to whoever funded it. |
| `LeaseStatement.OfferStatement` | apps/control-api/src/route-availability.ts:134-176 | A new offer has an empty statement, and member i gets the node's provider and a maximum strictly within one unit of its exact share. |
| `LeaseStatement.LinesAreGains` | apps/control-api/src/route-availability.ts:533-558 | For every provider the payment lines of one sample add up to exactly what its members gained. |
| `LeaseRuns.DrainingIsOneWay` | apps/control-api/src/route-availability.ts:402-413 | A draining window never becomes active again; a member that left stays out, with its credit and pay unchanged. |
| `LeaseRuns.LeavingIsFinal` | apps/control-api/src/route-availability.ts:402-575 | Over any run, in every phase, a member that left stays out and is credited and paid nothing more. |
| `LeaseSafety.StepKeeps` | apps/control-api/src/route-availability.ts:246-629 | Every action keeps the invariant of the lease and its books. |
| `LeaseSafety.PayKeeps` | apps/control-api/src/route-availability.ts:556-571 | Paying what the members earned always succeeds, under a key never used before because the total grew. |
| `LeaseSafety.FullPay` | apps/control-api/src/route-availability.ts:522-532 | A member is paid in full if and only if the whole window was credited: rounding never completes a payment early. |
| `LeaseSafety.SampledOk` | apps/control-api/src/route-availability.ts:515-532 | One sample of one member is consistent with what it was paid before, and keeps its bounds. |
| `LeaseSafety.PayLinesValue` | apps/control-api/src/route-availability.ts:533-558 | The payment lines add up to exactly what the members gained. |
| `LeaseRow.SampleMembers` | apps/control-api/src/route-availability.ts:511-555 | The loop over the members computes the specified rows, lines, total and joint validity, and fails exactly when some projection is inconsistent; every row it returns is credited exactly the time since the last sample when its fields say so, and nothing otherwise. |
| `LeaseRow.Offer` | apps/control-api/src/route-availability.ts:72-238 | Lease and books after making an offer are exactly those of the specification, and unchanged when it is refused. |
| `LeaseRow.Row.Advance` | apps/control-api/src/route-availability.ts:498-601 | Row, books and answer after the call are exactly those of the specification, and unchanged when the transaction aborts; every member of a running window is credited and paid as `LeaseCredits.SampleIs` states in numbers. |
| `LeaseRow.Row.Cancel` | apps/control-api/src/route-availability.ts:381-432 | Row, books and answer after the call are exactly those of the specification. |
| `LeaseRow.Row.Accept` | apps/control-api/src/route-availability.ts:246-379 | Row, books and answer after the call are exactly those of the specification. |
| `LeaseRow.Row.Close` | apps/control-api/src/route-availability.ts:603-629 | Row, books and answer after the call are exactly those of the specification. |
| `NodeLease.AdvanceKeeps` | apps/control-api/src/availability.ts:247-332 | Every sample and cancellation of an open single-node lease succeeds; time is credited between two ready looks of one boot at most six seconds apart, exactly then and exactly the time up to the end; the provider gains exactly what the pay grew, the sponsor what closing returns, and no other account changes. |
| `NodeLeaseRuns.EveryRunKeeps` | apps/control-api/src/availability.ts:136-332 | Over any run of acceptances, samples, cancellations and outside postings: the escrow is the unpaid budget while the lease is open and nothing afterwards, the pay is the exact rate of the credited time, a closed lease never changes, and the lease's own postings gave the provider exactly what its pay grew, the sponsor what closing returned, and nobody else anything. |
| `NodeLeaseRuns.WholeLease` | apps/control-api/src/availability.ts:34-332 | From the offer on, whatever happens, the provider has been given floor(credited * rate / 1000) within the budget, the sponsor the rest once the lease is closed, and no other account anything. |
| `NodeLeaseRuns.OfferKeeps` | apps/control-api/src/availability.ts:34-135 | Every offer made escrows the whole budget, taken from the sponsor alone. |
| `NodeLeaseRuns.StepKeeps` | apps/control-api/src/availability.ts:136-332 | No step of any kind fails inside, and each pays exactly what it says. |
| `NodeLeaseRuns.EachInstantOnce` | apps/control-api/src/availability.ts:247-300 | A step credits nothing or exactly the time since the previous sample, the latter only between two ready looks of one boot at most six seconds apart, and always then. |
| `NodeLeaseRuns.StepIs` | apps/control-api/src/availability.ts:136-332 | Each step of a lease: who may take it, every answer by its condition, and the row it leaves. |
| `NodeLeaseRuns.OfferIsMadeExactlyWhen` | apps/control-api/src/availability.ts:34-135 | An offer is made if and only if its budget fits, fewer than four contracts are open, the node is available and the sponsor has the budget. |
| `NodeLease.Row.Accept` | apps/control-api/src/availability.ts:136-189 | Lease and answer after an acceptance are exactly those of the specification. |
| `NodeLease.Row.Cancel` | apps/control-api/src/availability.ts:190-205 | Lease, books and answer after a cancellation are exactly those of the specification. |
| `NodeLease.Row.Advance` | apps/control-api/src/availability.ts:247-332 | The method never fails and reaches exactly the specified lease and books. |
| `NodeLease.Transfer` | apps/control-api/src/availability.ts:267-322 | Moving part of the escrow to one account always succeeds, and moves exactly that. |
| `Contracts.SplitByBps` | packages/contracts/src/index.ts:229-249 | The loop returns the specified parts, and fails exactly for totals and shares that are not splittable. |
| `Contracts.PrefixesAreFloors` | packages/contracts/src/index.ts:229-249 | Every prefix of the payouts adds up to the rounded-down share of that prefix. |
| `Contracts.PartsExact` | packages/contracts/src/index.ts:229-249 | The payouts add up to the total. |
| `Contracts.PartsFair` | packages/contracts/src/index.ts:229-249 | Each payout is nonnegative and strictly within one unit of the exact share. |
| `Contracts.MergeKeepsPayouts` | packages/contracts/src/index.ts:229-249 | Merging two neighbours (or splitting one) changes nobody else's payout and keeps their sum. |
| `Contracts.CeilDivIsLeast` | packages/contracts/src/index.ts:251-255 | The result is the least number whose multiple covers the numerator. |
| `Contracts.QuoteCovers` | packages/contracts/src/index.ts:256-271 | A quote covers every usage within its limits: the charge exists and never exceeds the quoted maximum. |
| `Contracts.ChargeIsFree` | packages/contracts/src/index.ts:256-268 | A charge is zero exactly when nothing priced was used. |
| `Contracts.PriceIs` | packages/contracts/src/index.ts:256-268 | A charge is the least number of units that covers both token counts at their rates, and exists exactly when it fits 64 bits. |
| `Contracts.QuoteIs` | packages/contracts/src/index.ts:268-271 | A quote is the price of the whole context with the longest answer. |
| `Journal.PostedExactlyWhen` | apps/control-api/src/ledger.ts:19-83 | A posting succeeds if and only if its key is new, its entries cancel out over at least two accounts, and every account can pay its net amount, however often it appears. |
| `Journal.PostMovesExactly` | apps/control-api/src/ledger.ts:19-83 | Each balance changes by the sum of its entries, or nothing changes at all. |
| `Journal.PostKeeps` | apps/control-api/src/ledger.ts:19-83 | Every posting keeps the books: balances are the sums of their lines, each journal entry cancels out, no account but an issuer is overdrawn. |
| `Journal.ReplayChangesNothing` | apps/control-api/src/ledger.ts:24-36 | Replaying a business key changes nothing, whatever entries come with it. |
| `Journal.VerdictIs` | apps/control-api/src/ledger.ts:19-83 | Each refusal of a posting by its own condition, in the order of the checks. |
| `Journal.EmptyBooks` | apps/control-api/src/ledger.ts:19-83 | Books with any accounts, all empty, and nothing recorded satisfy the invariant. |
| `Journal.Ledger.Post` | apps/control-api/src/ledger.ts:19-83 | Books and verdict after the call are exactly those of the specification. |
| `Postings.AccountPays` | apps/control-api/src/ledger.ts:19-83 | A transfer an account can afford, under a new key, is always recorded and takes exactly its amount. |
| `Postings.DistributionPosts` | apps/control-api/src/ledger.ts:19-83 | Taking an amount from one account and giving all of it to others always succeeds when it is there. |
| `Refill.RecycleIsDispensing` | apps/control-api/src/cooperative.ts:23-36 | The closed form equals handing out the charge one microcredit at a time to the first of floor, reserve and working target that is not met, and burning otherwise. |
| `Refill.RecycleAdds` | apps/control-api/src/cooperative.ts:23-36 | Splitting a charge in two changes nothing while the targets stay. |
| `Refill.RecycleExact` | apps/control-api/src/cooperative.ts:23-36 | The charge is allocated exactly; it burns only when floor, reserve and working targets are all met. |
| `FundRuns.EveryUnitIsAccountedFor` | apps/control-api/src/cooperative.ts:396-895 | In every run of a new fund, working capital, reserve, burn and everything windows cost add up to what members contributed and unrefunded sessions paid, all of them nonnegative, and no target is ever clamped. |
| `FundRuns.NextAccounts` | apps/control-api/src/cooperative.ts:396-895 | Each contribution, offer, payment, closing, settlement and refund accounts for every unit it moves. |
| `Cooperative.FloorNeverClamps` | apps/control-api/src/cooperative.ts:78-81 | Open essential commitments never exceed one hour of the rate, so neither target is clamped and the floor keeps at least five hours. |
| `FundTargets.TargetsAre` | apps/control-api/src/cooperative.ts:78-81 | Floor, working and reserve target are 6 hours, 1 day and 3 days of the groups' rates, the first two less the commitments, never clamped. |
| `FundTargets.ExpansionOpensExactlyWhen` | apps/control-api/src/cooperative.ts:595-650 | An expansion opens if and only if the fund is NORMAL and supported, its route ready and unserved, the source is working capital, the reserve holds at least 3 * 86400 seconds of every group's rate, and working capital keeps 6 * 3600 less the commitments after paying. |
| `FundTargets.EssentialOpensExactlyWhen` | apps/control-api/src/cooperative.ts:595-665 | An essential window opens from working capital if and only if that can pay, from the reserve if and only if that can and working capital cannot. |
| `FundTargets.OfferIs` | apps/control-api/src/cooperative.ts:535-731 | Every answer to an offer by its condition, in the order of the checks, and the exact new fund of one that is made. |
| `FundTargets.SettlementIs` | apps/control-api/src/cooperative.ts:827-895 | A settlement puts nothing in working capital beyond six hours of rate less commitments until the reserve has three days, nothing beyond one day, and burns only when both are full; the division is recorded and nothing else changes. |
| `FundTargets.OnlyOneDivision` | apps/control-api/src/cooperative.ts:23-36 | Those priorities leave exactly one division of a charge. |
| `FundTargets.EveryRunFollowsTheTargets` | apps/control-api/src/cooperative.ts:396-895 | In every run of a fund the three priorities hold of every settlement and the two balances of every expansion. |
| `FundTargets.RefundIs` | apps/control-api/src/cooperative.ts:753-826 | Every answer to a refund by its condition; a granted one takes exactly what its settlement put into each account. |
| `FundTargets.ReturnsAre` | apps/control-api/src/cooperative.ts:46-91 | Closing a window returns what it did not pay to the account it came from, and a contribution goes where it is meant. |
| `FundTargets.HealthBegan` | apps/control-api/src/cooperative.ts:95-102 | The recorded start of health is that of the earliest look since which it was never interrupted. |
| `FundTargets.StateIs` | apps/control-api/src/cooperative.ts:95-120 | Each state of the fund if and only if its condition holds; NORMAL exactly when health began at least 86400000 ms ago. |
| `Cooperative.EssentialKeepsMargin` | apps/control-api/src/cooperative.ts:595-731 | Funding an essential window from working capital leaves working - floor exactly unchanged. |
| `Cooperative.ReserveKeepsWorking` | apps/control-api/src/cooperative.ts:652-665 | Funding from the reserve happens only when working capital cannot pay, leaves it alone and raises the margin by the budget. |
| `Cooperative.ExpansionKeepsFloor` | apps/control-api/src/cooperative.ts:641-650 | Funding an expansion leaves working capital at or above the floor and the reserve full and untouched. |
| `Cooperative.ClosingKeepsMargin` | apps/control-api/src/cooperative.ts:46-91 | Closing a current essential window keeps the margin: what returns was committed. |
| `Cooperative.RefundIsExact` | apps/control-api/src/cooperative.ts:753-826 | A refund succeeds exactly when both accounts can pay it, undoes its settlement exactly whatever happened in between, and happens once. |
| `Cooperative.BurnCoversRefund` | apps/control-api/src/cooperative.ts:753-826 | The burn account always covers the burned part of every settlement not yet refunded. |
| `Cooperative.NormalTakesADay` | apps/control-api/src/cooperative.ts:95-120 | The fund is NORMAL only after a whole day of uninterrupted health, at least 14400 looks at most six seconds apart. |
| `Cooperative.HealthIsUninterrupted` | apps/control-api/src/cooperative.ts:95-102 | The recorded start of health is the time of a look since which health was never interrupted. |
| `Cooperative.CooperativeFund.Targets` | apps/control-api/src/cooperative.ts:46-91 | The reductions over rows compute the three targets: 21600 and 86400 seconds of the rates less what is held, and 259200 seconds of them. |
| `Cooperative.CooperativeFund.Offer` | apps/control-api/src/cooperative.ts:535-731 | New fund and answer are exactly those of the specification, which `FundTargets.OfferIs` and `FundTargets.ExpansionOpensExactlyWhen` state in rates and seconds. |
| `Cooperative.CooperativeFund.RecycleSettlement` | apps/control-api/src/cooperative.ts:827-895 | New fund and allocation are exactly those of the specification, which `FundTargets.SettlementIs` states in rates and seconds. |
| `Cooperative.CooperativeFund.RefundConsumption` | apps/control-api/src/cooperative.ts:753-826 | New fund and answer are exactly those of the specification. |
| `SessionReceipts.ChargeIgnoresOrder` | apps/control-api/src/sessions.ts:647-962 | After any deliveries of root and stage receipts, in any order and with repetitions, before or after the root's claim, a settled session costs the full price if all receipts are valid and nothing otherwise. |
| `SessionReceipts.EveryOrderSettles` | apps/control-api/src/sessions.ts:647-962 | Once each receipt was delivered to unchanged nodes at least once, the session is settled, at that same price, in every order. |
| `SessionReceipts.EveryOrderSettlesOnceClaimed` | apps/control-api/src/sessions.ts:518-962 | A session is settled, at that same price, also when any receipts arrive before the root's claim, provided each is delivered after it as well. |
| `SessionEnds.EndIsIndependentExactlyWhen` | apps/control-api/src/sessions.ts:647-962 | The end of a launched session whose receipts are all delivered is the same in every order if and only if every stage receipt is valid or the root reports neither cancelled nor interrupted. |
| `SessionEnds.EndIgnoresOrder` | apps/control-api/src/sessions.ts:647-962 | Where the order does not matter, the session ends as failed when a stage receipt is invalid, as completed when all are valid, and otherwise as the root reports. |
| `SessionEnds.EndIgnoresOrderOnceClaimed` | apps/control-api/src/sessions.ts:518-962 | The end is that same one when some receipts arrive before the root's claim. |
| `SessionReceipts.StateDependsOnOrder` | apps/control-api/src/sessions.ts:715-962 | Only the price is independent: two orders of the same failing receipts end in different states, both free. |
| `SessionReceipts.DeliveryIsRecorded` | apps/control-api/src/sessions.ts:647-962 | A delivery is recorded unless the session is settled, and records are never lost. |
| `Sessions.ApplyKeeps` | apps/control-api/src/sessions.ts:399-1036 | Every step keeps the invariant, never refuses a valid receipt for its charge, and reports a settlement exactly when the session becomes terminal. |
| `Sessions.TerminalAbsorbs` | apps/control-api/src/sessions.ts:715-1036 | Terminal states are absorbing: nothing changes and nothing settles again. |
| `Sessions.ValidReceiptFitsHold` | apps/control-api/src/sessions.ts:919-932 | The charge of a valid receipt exists and never exceeds the hold. |
| `SessionOutcomes.StepIs` | apps/control-api/src/sessions.ts:399-1036 | Every step that is not a receipt charges an open session nothing: cancelling ends it as CANCELLED before the start and only asks for it afterwards, failing ends it as FAILED before the start and does nothing afterwards, reaping ends it as CANCELLED when that was asked and as INTERRUPTED otherwise, and a deadline as INTERRUPTED. |
| `SessionOutcomes.StageReceiptIs` | apps/control-api/src/sessions.ts:647-759 | Every answer to a stage receipt by its condition, and the end it brings. |
| `SessionOutcomes.RootReceiptIs` | apps/control-api/src/sessions.ts:858-962 | Every answer to a root receipt by its condition; it completes the session for its price exactly when it and every stage are good. |
| `SessionOutcomes.SettleRouteIs` | apps/control-api/src/sessions.ts:715-759 | A route ends by its receipts alone, unless all are in and a node has changed. |
| `SessionOutcomes.PriceIsCharged` | apps/control-api/src/sessions.ts:919-932 | A good receipt has exactly one price, the least number of units covering its tokens, and the hold covers it. |
| `SessionOutcomes.ApplyDelivers` | apps/control-api/src/sessions.ts:399-1036 | No step of any kind charges a session for anything but a recorded good delivery, at its exact price. |
| `DeskRuns.EveryStateBalances` | apps/control-api/src/sessions.ts:126-1036 | In every reachable state all lines cancel out, no account but an issuer is overdrawn, each user's held balance is the sum of the holds of its open sessions, no domain exceeds its slots, no user has more than four open sessions. |
| `DeskRuns.DeskStarts` | apps/control-api/src/sessions.ts:126-176 | A coordinator with empty accounts and no sessions satisfies every invariant that the runs start from. |
| `DeskRuns.SettledOnce` | apps/control-api/src/sessions.ts:760-857 | A posted settlement belongs to a terminal session, and from then on, in every later state, neither the session nor the settlement changes. |
| `DeskOutcomes.OnlyDeliveriesAreCharged` | apps/control-api/src/sessions.ts:126-1036 | In every run a session is charged only when it is COMPLETED, with a recorded good root receipt and good receipts of every stage of its route, and then exactly that receipt's price. |
| `DeskOutcomes.OnlyReceiptsCharge` | apps/control-api/src/sessions.ts:399-1036 | The only steps that ever charge a session are receipts, and they complete it. |
| `DeskOutcomes.NextIs` | apps/control-api/src/sessions.ts:233-1036 | What any action leaves of any session: untouched, its own next step, or its admission to the best offer. |
| `DeskRuns.NobodyIsOvertakenTwice` | apps/control-api/src/sessions.ts:262-275 | When a user is admitted again, every other user with a session that could be served was admitted in between. |
| `DeskRuns.AdmittedIsFirst` | apps/control-api/src/sessions.ts:262-275 | The session admitted belongs to the servable user whose last admission is longest ago. |
| `DeskOutcomes.AdmitIs` | apps/control-api/src/sessions.ts:233-397 | Every answer to an admission by its condition. A session in turn and covered goes to the first offer that is eligible and has room in every domain: its row then carries that offer's owner, members, domains and routing and the given deadline, and is otherwise unchanged. |
| `DeskOutcomes.AdmittedRunsOnItsOffer` | apps/control-api/src/sessions.ts:312-354 | In every run an admitted session was admitted on the first offer that could serve it then, and still runs on that offer. |
| `DeskOutcomes.SettlementsPayTheAdmittedOffer` | apps/control-api/src/sessions.ts:312-354 | In every run each charge that no pool paid for was distributed to the owner or members of the very offer the session was admitted on, four fifths by their shares and one fifth to the laboratory, the rest of the hold returned to the user. |
| `DeskOutcomes.CreateIs` | apps/control-api/src/sessions.ts:61-176 | A session is created if and only if its quote is current, its conversation fits, its user has fewer than four open ones within the elastic limit and can pay the hold; it then waits, on no node, for two minutes. |
| `DeskOutcomes.CreateNeedsAQuote` | apps/control-api/src/sessions.ts:61-176 | Nothing is created without a price that fits 64 bits. |
| `DeskRuns.TurnSince` | apps/control-api/src/sessions.ts:360-362 | A user's recorded turn is that of its last admission. |
| `DeskSafety.AdmitKeeps` | apps/control-api/src/sessions.ts:233-397 | Admission keeps all invariants, in particular every domain's slots over the whole route, and its expiry settlement cannot be refused. |
| `DeskSafety.CreateKeeps` | apps/control-api/src/sessions.ts:126-176 | Creating a session keeps all invariants: the hold is posted in full or the session is not created. |
| `DeskSafety.StepKeeps` | apps/control-api/src/sessions.ts:399-1036 | Every step of every session keeps all invariants, and its settlement cannot be refused by the ledger. |
| `DeskSafety.SettlementPosts` | apps/control-api/src/sessions.ts:769-841 | The settlement of a session with a positive hold is always recorded, empties exactly its hold and distributes exactly its charge. |
| `DeskSafety.PayoutExact` | apps/control-api/src/sessions.ts:780-812 | The payout of a charge adds up to it, and only credits. |
| `DeskSafety.SettlementPays` | apps/control-api/src/sessions.ts:769-812 | Account by account: the hold is emptied, the unused part returns, a fifth of an ordinary charge goes to the laboratory and each provider gets its part of the rest, a pool's charge goes to its three accounts, and nobody else is touched. |
| `DeskStatement.EverySettlementPaysRight` | apps/control-api/src/sessions.ts:760-857 | In every reachable state the journal lines of every settlement are, for every account, exactly what the final charge of that session calls for, with the pool allocation that the refill rule gives for the books just before the one action that settled it. |
| `DeskStatement.PoolIsRefilled` | apps/control-api/src/sessions.ts:769-812 | A pool's three lines are the refill rule's parts of the charge for the pool's balances and targets at that moment. |
| `Coordinator.SettleRoute` | apps/control-api/src/sessions.ts:715-759 | The loop form decides exactly as specified. |
| `Coordinator.AcceptStage` | apps/control-api/src/sessions.ts:647-714 | The statement form of a stage receipt decides exactly as specified. |
| `Coordinator.AcceptRoot` | apps/control-api/src/sessions.ts:858-962 | The statement form of a root receipt decides exactly as specified. |
| `Coordinator.SettleLines` | apps/control-api/src/sessions.ts:776-812 | The lines built one member at a time are the specified entries, and fail exactly where the split throws. |
| `Coordinator.Coordinator.Write` | apps/control-api/src/sessions.ts:760-857 | Sessions, books and outcome after writing a row are exactly those of the specification. |
| `Coordinator.Coordinator.Act` | apps/control-api/src/sessions.ts:399-1036 | Sessions, books and outcome after any step of a session are exactly those of the specification; `SessionOutcomes.StepIs` and `DeskOutcomes.OnlyDeliveriesAreCharged` say what it charges. |
| `Coordinator.Coordinator.Open` | apps/control-api/src/sessions.ts:126-176 | Sessions, books and outcome after creating a session are exactly those of the specification. |
| `Coordinator.Coordinator.AdmitNext` | apps/control-api/src/sessions.ts:233-397 | Sessions, books, turns and outcome after an admission are exactly those of the specification; `DeskOutcomes.AdmitIs` says on which offer and with which row. |
| `Coordinator.Coordinator.NextInTurn` | apps/control-api/src/sessions.ts:262-275 | One pass over the sessions finds the first servable one in turn, or none if there is none. |
| `Packing.Pack` | apps/control-api/src/capacity.ts:29-48 | The loop over a mutable map counts exactly what the greedy packing takes. |
| `Packing.GreedyIsRealised` | apps/control-api/src/capacity.ts:29-48 | The count is realised by a simultaneous admission within every domain's slots, after which no offered route fits. |
| `Packing.GreedyInOrder` | apps/control-api/src/capacity.ts:38-47 | Routes are taken in the order offered, each exactly as often as the routes before it leave room in its fullest domain. |
| `Packing.RemainingIs` | apps/control-api/src/capacity.ts:31-37 | A domain gives its slots, less the occupied ones only when they count, and never less than none. |
| `Packing.GreedyIsNearOptimal` | apps/control-api/src/capacity.ts:27-48 | No simultaneous admission is more than k times larger, k being the most domains of one route. |
| `Packing.GreedyIsMaximal` | apps/control-api/src/capacity.ts:29-48 | After packing, every route has a domain with nothing left. |
| `Packing.OccupancyCanRaiseTheCount` | apps/control-api/src/capacity.ts:27-50 | Packing is not monotone: a concrete case where occupying a domain raises the count. |
| `Packing.SpareIsBounded` | apps/control-api/src/capacity.ts:29-50 | The spare count is at most k times the declared one, hence never more when every route uses one domain. |
| `PackingGains.SeparateIsMonotone` | apps/control-api/src/capacity.ts:27-50 | When any two offered routes share all their domains or none, occupancy never raises the count, whatever the slots. |
| `PackingGains.ClashCanGain` | apps/control-api/src/capacity.ts:27-50 | Whenever one of the routes has two later ones that meet it in different domains and a further domain of its own, and every other route needs a domain elsewhere, there are slots and an occupancy for which the spare count exceeds the declared one. |
| `PackingGains.ThreeRoutesExactly` | apps/control-api/src/capacity.ts:27-50 | With three routes, occupancy can raise the count for some slots if and only if the first clashes with the other two in that way. |
| `Packing.CountIsZero` | apps/control-api/src/capacity.ts:29-48 | The count is zero exactly when every route has a domain with nothing left. |
| `Packing.LimitFourMeansRoom` | apps/control-api/src/capacity.ts:49-51 | The largest elastic limit is granted only when nobody waits and some complete route could start now. |
| `Packing.LimitIs` | apps/control-api/src/capacity.ts:49-51 | One while anybody else waits or nothing is configured, four when a complete route could start now, and two otherwise. |
| `CanonicalParser.CanonicalReads` | apps/control-api/src/security.ts:38-49 | A parser recovers the key-sorted value from the text followed by any delimiter. |
| `CanonicalParser.CanonicalIsInjective` | apps/control-api/src/security.ts:38-49 | Two plain values have the same text if and only if their key-sorted forms are equal. |
| `CanonicalOrder.TextForgetsOnlyKeyOrder` | apps/control-api/src/security.ts:38-49 | Two values have the same text if and only if they are equal up to the order of keys in objects at every depth, in a definition that mentions neither sorting nor text. |
| `CanonicalParser.InsertionOrderIsIrrelevant` | apps/control-api/src/security.ts:38-49 | Two objects with the same fields in any insertion order have the same text. |
| `CanonicalParser.OrderedIsUnique` | apps/control-api/src/security.ts:43-46 | Two ordered lists of the same fields with distinct keys are equal. |
| `CanonicalJson.CanonicalEquations` | apps/control-api/src/security.ts:38-49 | The text satisfies the source's recursion: sort the keys, print each value canonically, join with commas. |
| `CanonicalText.CanonicalIs` | apps/control-api/src/security.ts:38-49 | The text of every kind of value, written out: the keywords, numbers as they are, quoted strings, items joined by commas, fields of the sorted object. |
| `CanonicalText.KeysAscend` | apps/control-api/src/security.ts:43-46 | An object's fields are printed once each, in ascending order of their keys' code units. |
| `CanonicalText.PairIs` | apps/control-api/src/security.ts:38-49 | A surrogate pair is printed as it is. |
| `CanonicalText.NoControls` | apps/control-api/src/security.ts:38-49 | No control unit is ever printed. |
| `Sse.ChunkingIsIrrelevant` | crates/runtime-core/src/lib.rs:281-321 | Two chunkings of one stream whose pushes all succeed give the same events and the same leftover. |
| `Sse.BytewiseIsStrictest` | crates/runtime-core/src/lib.rs:281-321 | If one byte at a time succeeds, every chunking succeeds with the same result. |
| `SseLimits.SucceedsHoweverCut` | crates/runtime-core/src/lib.rs:281-321 | Every chunking of a stream succeeds if and only if no event, up to its separator's last byte, nor the leftover exceeds the limit, and every event is UTF-8. |
| `Sse.SuccessDependsOnChunking` | crates/runtime-core/src/lib.rs:309-319 | A concrete stream that passes in one push and fails when cut between its two line feeds. |
| `Sse.DrainContinues` | crates/runtime-core/src/lib.rs:287-321 | Decoding is incremental: what follows only ever sees what was left over. |
| `Sse.NextIsStable` | crates/runtime-core/src/lib.rs:291-305 | More bytes never move the end of an event. |
| `Sse.NextIsFirst` | crates/runtime-core/src/lib.rs:291-305 | The separator found is the least position at which either kind stands. |
| `SseEvents.DrainIs` | crates/runtime-core/src/lib.rs:287-321 | Without a blank line a push keeps at most 65536 bytes or fails; with one it fails exactly when that event is longer or not text, and otherwise emits what it says, unless empty, and goes on. |
| `SseEvents.EventSays` | crates/runtime-core/src/lib.rs:305-321 | An event printed with any mix of line ends says exactly the values of its data fields, in order, joined by line feeds, each without leading white space; every other line is ignored. |
| `SseEvents.OneTrimmed` | crates/runtime-core/src/lib.rs:312-318 | Only one string is a text without its leading white space. |
| `Sse.Decoder.Push` | crates/runtime-core/src/lib.rs:287-321 | The loop returns exactly the specified events and leftover, and the buffer stays within the limit after success. |
| `SseRoundTrip.PrintedEventsDecode` | crates/runtime-core/src/lib.rs:323-325 | One push of concatenated printed events returns exactly the printed values. |
| `SseRoundTrip.AnyChunkingDecodes` | crates/runtime-core/src/lib.rs:281-325 | However such a stream is cut, exactly the printed values come out. |
| `Utf8.RoundTrip` | crates/runtime-core/src/lib.rs:308-310 | Decoding the bytes of a string returns it. |
| `Utf8.CharacterIs` | crates/runtime-core/src/lib.rs:308-310 | The bytes of a character as section 3 of RFC 3629 lays them out, in numbers. |
| `Utf8.DecodesExactlyText` | crates/runtime-core/src/lib.rs:308-310 | Bytes are accepted if and only if they are the encoding of some text. |
| `Frames.FrameReads` | crates/link/src/lib.rs:137-150 | A frame within the limit reads back, whatever follows. |
| `Frames.ReadIsWritten` | crates/link/src/lib.rs:137-150 | Only a written frame reads: the bytes taken are its encoding. |
| `Frames.ResponseRoundTrips` | crates/link/src/lib.rs:311-336 | However the backend's stream was cut, empty items included, the whole body comes out and completes. |
| `Frames.TrailingIsRejected` | crates/link/src/lib.rs:401-419 | Bytes after the terminator are rejected. |
| `Frames.CutNeverCompletes` | crates/link/src/lib.rs:401-419 | No proper prefix of an encoding completes. |
| `Frames.CompletionIsPrefixFree` | crates/link/src/lib.rs:401-419 | No stream that completes is a proper prefix of another that does. |
| `Frames.CompletedIsFramed` | crates/link/src/lib.rs:401-419 | Whatever completes is exactly a terminated sequence of nonempty frames within the limit. |
| `FrameSizes.CompletesExactlyWhen` | crates/link/src/lib.rs:401-419 | A response completes if and only if it is a framed head of at most 8192 bytes, nonempty framed chunks of at most 16384 bytes and 8 MiB in all, and four zero bytes. |
| `FrameSizes.ReadIs` | crates/link/src/lib.rs:137-150 | What a reader makes of the next bytes, by their first four in big-endian order. |
| `FrameSizes.ServedIs` | crates/link/src/lib.rs:311-336 | A response is terminated if and only if its body is at most 8388608 bytes. |
| `Frames.UnterminatedNeverCompletes` | crates/link/src/lib.rs:311-336 | A response that is too long or interrupted never completes. |
| `Frames.ServeLoop` | crates/link/src/lib.rs:311-336 | The server's loop writes exactly the encoding of the body when it is within the limit, else the frames of a prefix without terminator. |
| `Frames.ReadLoop` | crates/link/src/lib.rs:401-419 | The proxy's loop returns exactly what the specification reads. |
| `HourlyPlan.CoreIsContracted` | docs/planning/evidence/simulate_integrated_economy.py:266-278 | Whenever the room covers the core's minimum promise, the selection contains the whole core, at full or reduced rates. |
| `HourlyPlan.SelectionIsAffordable` | docs/planning/evidence/simulate_integrated_economy.py:266-277 | Whatever is selected is affordable as a whole. |
| `HourlyRules.SelectionIsGreedy` | docs/planning/evidence/simulate_integrated_economy.py:266-277 | Providers are taken in order, each if and only if its reward still fits the room together with those taken before it. |
| `HourlyRules.BudgetIs` | docs/planning/evidence/simulate_integrated_economy.py:214-224 | The room of an hour is what its ceiling leaves above all credit and all promises; the reserve is liquid exactly when it is enabled. |
| `HourlyRules.CapacityIs` | docs/planning/evidence/simulate_integrated_economy.py:134-140 | Complete routes serve large work, small providers and left-over large ones compact work. |
| `HourlyRules.MinimumCoreIs` | docs/planning/evidence/simulate_integrated_economy.py:143-153 | The minimum core: the first small provider and as many large ones as a route needs, or one large one alone. |
| `HourlyRules.StateIs` | docs/planning/evidence/simulate_integrated_economy.py:256-315 | Each state of an hour if and only if its condition holds, the first obstacle deciding. |
| `HourlyRules.PayIs` | docs/planning/evidence/simulate_integrated_economy.py:256-315 | What an hour pays a provider: the cooperative part of its base rate when contracted, the whole rate of the core when defended, nothing otherwise. |
| `HourlyRules.FitsIs` | docs/planning/evidence/simulate_integrated_economy.py:229-234 | A route fits exactly when what must be newly issued for it, and the divisor's part of that, fit the room. |
| `HourlyPlan.PlanFits` | docs/planning/evidence/simulate_integrated_economy.py:279-285 | The promise of a plan never exceeds the room of the hour. |
| `HourlyPlan.Hour.Contract` | docs/planning/evidence/simulate_integrated_economy.py:264-299 | A NORMAL hour pays exactly the selected plan: every active provider its reward, the topups as planned, the core contained, under the ceiling, nothing left committed, no other account and no other hour's keys touched. |
| `HourlyPlan.Hour.Defend` | docs/planning/evidence/simulate_integrated_economy.py:300-313 | A defended hour pays each member of the core its base rate and nobody else anything, from the reserve through a hold that ends empty; the stock is unchanged. |
| `HourlyPlan.Hour.ServeBatch` | docs/planning/evidence/simulate_integrated_economy.py:380-390 | A served batch is released, or recycled up to the target and burned otherwise; nothing stays held. |
| `HourlyStudy.Study.Run` | docs/planning/evidence/simulate_integrated_economy.py:190-432 | Over any number of hours, whatever happens in them, at the end of each nothing is committed or held and the audit holds; an hour mints only when NORMAL, never raises the stock beyond its ceiling, pays nobody more than its state says, and is NORMAL only as the hours so far allow. |
| `HourlyStudy.Study.RunHour` | docs/planning/evidence/simulate_integrated_economy.py:190-432 | One hour, from deciding to forging, finds every assertion true and leaves what the next hour needs: fresh keys, existing accounts, queues without a served batch, cash that balances and is not negative, and issuance divided into rewards, topups and forged credit within their caps. |
| `HourlyStudy.NormalAfterStableHours` | docs/planning/evidence/simulate_integrated_economy.py:243-265 | In such a run an hour is NORMAL only when it and every required hour before it could afford a route. |
| `HourlyStudy.StockStaysBelow` | docs/planning/evidence/simulate_integrated_economy.py:211-299 | In such a run the stock never exceeds the opening stock and every ceiling met. |
| `HourlyStudy.EarnedIsPaid` | docs/planning/evidence/simulate_integrated_economy.py:264-396 | In such a run nobody ever has more than it started with and was paid: service only takes. |
| `HourlyStudy.Study.Pay` | docs/planning/evidence/simulate_integrated_economy.py:256-315 | The hour contracts, defends or pays nobody as its state says, no assertion about the core, the holds or the stock fires, and each provider gains exactly what the report says. |
| `HourlyStudy.Study.Decide` | docs/planning/evidence/simulate_integrated_economy.py:213-255 | The core chosen has distinct online providers, the target is the minimum core's rate for the required hours whatever core is affordable, and the watch moves by whether the core fits. |
| `HourlyStudy.Study.Forge` | docs/planning/evidence/simulate_integrated_economy.py:411-421 | Undetected forged credit is exactly what was drawn, within the allowance and under the ceiling, and otherwise nothing. |
| `HourlyRuns.Waiting.Serve` | docs/planning/evidence/simulate_integrated_economy.py:347-397 | The rounds execute at most the capacity, mint nothing, raise no owner's balance, raise the reserve at most to its target, never reuse a key, and serve each owner at most one unit a turn beyond its credit and, while capacity is left and it can pay, at least one unit a turn or all it asked. |
| `HourlyRuns.Waiting.ServeNext` | docs/planning/evidence/simulate_integrated_economy.py:358-396 | One turn serves from the first request of the line exactly the most that capacity, deficit and balance allow, and charges exactly its price or nothing. |
| `HourlyRuns.CoreIsOnline` | docs/planning/evidence/simulate_integrated_economy.py:143-153 | The minimum core has distinct providers that are online, and is empty only when nobody is. |
| `HourlyPlan.Ledger.Promise` | docs/planning/evidence/simulate_integrated_economy.py:59-62 | The commitment grows by the amount and the audit holds. |
| `HourlyPlan.Ledger.Issue` | docs/planning/evidence/simulate_integrated_economy.py:63-72 | The commitment becomes issuance, once per key, and the audit holds. |
| `HourlyState.AffordableCore` | docs/planning/evidence/simulate_integrated_economy.py:225-238 | The search returns the minimum core if it fits, else the cheapest provider if that fits, else the core; nothing fits if the result does not. |
| `HourlyState.DefenceIsExact` | docs/planning/evidence/simulate_integrated_economy.py:248-255 | The study is in defence exactly when some hour was unaffordable and fewer than the required hours have followed it. |
| `HourlyState.NormalCanContract` | docs/planning/evidence/simulate_integrated_economy.py:243-278 | A NORMAL hour's core fits the room, and every required hour since the last unaffordable one could afford a route. |
| `HourlyState.Watchman.Observe` | docs/planning/evidence/simulate_integrated_economy.py:248-255 | The two counters change exactly as specified. |
| `LargestRemainder.Allocate` | docs/planning/evidence/simulate_integrated_economy.py:83-91 | The parts add up to the amount, each is its quota or one more, and the extra units go to the largest leftovers. |
| `LargestRemainder.WithinOneUnit` | docs/planning/evidence/simulate_integrated_economy.py:83-91 | Each part is strictly within one unit of its exact share. |
| `LargestRemainder.Rank` | docs/planning/evidence/simulate_integrated_economy.py:83-91 | The sorting loop returns a permutation ordered by leftover and index. |
| `Acceptances.EveryAcceptanceCounts` | apps/control-api/src/route-availability.ts:246-379 | All of a window's providers accept, one transaction each, exactly when no clock reading shows the offer expired and the last one finds the capacities free, the window supported and the route ready; the window is then ACTIVE, accepted by exactly its providers on unchanged terms. |
| `Acceptances.StillOffered` | apps/control-api/src/route-availability.ts:246-379 | Before the last acceptance the window is only offered, and awaits exactly the providers left. |
| `Acceptances.OneAccepts` | apps/control-api/src/route-availability.ts:246-379 | One acceptance opens the window if it is the last one awaited, and otherwise only adds its provider. |
| `RenewalSafety.AttemptIsAllOrNothing` | apps/control-api/src/renewals.ts:548-809 | An attempt opens one complete window: funded from one source within its limit, numbered next, its lease ACTIVE, escrowed and accepted by exactly the providers of its route, each with one mandate that was in force, within its limit and lasting beyond the window's end; or it changes no money, counter, mandate, lease or record. `RenewalAnswers` says which. |
| `RenewalAnswers.AttemptIs` | apps/control-api/src/renewals.ts:548-809 | Every answer of an attempt by its condition, in the order of the checks: WaitingForAuthorizedSource and WaitingForFunds only when neither working capital nor the reserve covers the cost within its limit; and Done exactly when the first candidate that every provider lets can be offered, accepted and outlasted. |
| `RenewalAnswers.SourceIsDecided` | apps/control-api/src/renewals.ts:643-656 | A renewed window is paid from working capital if and only if that and its remaining limit cover the cost, and from the reserve if and only if working capital does not and the reserve and its limit do. |
| `RenewalAnswers.RenewIsDoneExactlyWhen` | apps/control-api/src/renewals.ts:669-787 | A chosen window opens if and only if it can be offered, every provider accepts in time, and every authority and mandate outlasts it. |
| `RenewalAnswers.CountingIsFinding` | apps/control-api/src/renewals.ts:669-697 | Counting as many mandates as distinct providers is finding one for every node of the route. |
| `RenewalAnswers.DoneIsRecorded` | apps/control-api/src/renewals.ts:779-809 | What a renewal records: one window more, its cost added to its source, its number, and nothing else of the authority. |
| `RenewalAnswers.DoneIsUsed` | apps/control-api/src/renewals.ts:783-787 | Exactly one mandate of each provider of the route is used once more. |
| `RenewalSafety.TakeUp` | apps/control-api/src/renewals.ts:764-778 | The acceptances of everyone mandated succeed exactly when each is granted, and leave the lease ACTIVE with its cost taken from the source. |
| `RenewalRuns.LimitsAlwaysHold` | apps/control-api/src/renewals.ts:613-656 | Over every run the gross commitments per source and the windows used are what the recorded windows add up to, and never exceed the authorization's limits. |
| `RenewalRuns.RecordedExactlyWhen` | apps/control-api/src/renewals.ts:158-484 | An authority or mandate is recorded if and only if its stated conditions hold, and otherwise nothing changes. |
| `RenewalRuns.RenewedWindowsAreCovered` | apps/control-api/src/renewals.ts:669-787 | Every window renewed in any run was accepted by exactly the providers of its route and stays covered by one mandate of each of them. |
| `RenewalRuns.RefundIsElsewhere` | apps/control-api/src/renewals.ts:613-656 | Closing a window is a move the invariants allow: the account that funded it gets back exactly the unpaid budget, no other account changes, and neither does any authority or mandate. |
| `RenewalRuns.EveryLeaseStepMoves` | apps/control-api/src/route-availability.ts:246-629 | Whatever happens to an opened lease keeps what renewals rely on: it is never offered again, and its acceptances and providers stay. |
| `RenewalRuns.NextKeeps` | apps/control-api/src/renewals.ts:158-524 | Authorizing, consenting, revoking, attempting and everything else keep all invariants. |
| `RenewalRuns.OfficeStarts` | apps/control-api/src/renewals.ts:158-324 | An empty fund with its routes and nothing authorized satisfies every invariant that the runs start from. |
| `RenewalSafety.OneForEach` | apps/control-api/src/renewals.ts:669-697 | As many covering mandates as distinct providers means exactly one for each. |
| `RenewalSafety.UsedCovers` | apps/control-api/src/renewals.ts:764-787 | Recording the usages covers exactly the providers of the mandates, and touches nothing else. |
| `RenewalOffice.RenewalOffice.FindRoute` | apps/control-api/src/renewals.ts:667-698 | The search returns the specified route and exactly the mandates that cover it. |
| `RenewalOffice.RenewalOffice.AcceptForAll` | apps/control-api/src/renewals.ts:764-778 | The loop of acceptances on the lease row reaches exactly the specified lease, and stops at the first refusal. |
| `RenewalOffice.RenewalOffice.UseMandates` | apps/control-api/src/renewals.ts:783-787 | The loop records exactly the specified usages. |
| `RenewalOffice.RenewalOffice.Attempt` | apps/control-api/src/renewals.ts:548-809 | Office, fund, books and status after the call are exactly those of the specification; an error leaves all as they were. `RenewalAnswers.AttemptIs` says when the status is Done and what it is otherwise. |

## Left out

- Packing.SpareIsBounded: one direction only. Which lists of more than three routes are monotone for every occupancy depends on whole chains of overlapping routes; `PackingGains` proves a condition under which they are, one under which they are not, and the exact one for three.
- NodeLeaseRuns.OfferKeeps: does not model the replay of an offer by its idempotency digest, which returns the earlier row unchanged.
- LeaseRuns.OfferKeeps: does not model the replay of an offer by its idempotency digest, which returns the earlier row unchanged.
- StudyDuties.OnlyLaterDutiesRemain: the event popped after the end, which the loop discards when it stops, is still counted as pending.
- HourlyStudy.Study.Run: takes the online providers, the ceiling and every draw as given; retention and departures are floating-point and decide only who is online. The commercial-money ledger is not modelled.
- RenewalSafety.AttemptIsAllOrNothing: the facts that approve an expansion (affiliations, operating support, 24-hour flows) are one boolean of the environment.
- CanonicalParser.CanonicalIsInjective: a number is its printed text; which decimal text a floating-point number prints as is not modelled.
- Sorting of journal lines by account, which only orders row locks.
- Exclusive resource-domain claims of open leases, kept by a database constraint.
- Metrics, counters, daily reports, percentiles, gates and cohort balances of both simulators.
- Economic departures and access weighting in the integrated study.
- Cryptography, passwords, capabilities, nonces, node identity checks, and the SQL, locking and retries underneath a transaction.
- Events written for auditing, which nothing reads back.
- HTTP routing, the web interface, QUIC endpoints, request heads and timeouts of the private link, and its role policy.
