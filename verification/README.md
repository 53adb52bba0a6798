# Revyn: a verified model of the recovery loop

Revyn watches a merchant's payment stream, decides what to do about each failed payment, abandoned
cart, failed renewal or overdue invoice, asks the policy gate, acts through a payment gateway, verifies
the outcome and books what it can claim as incremental. This project models that loop and the engines
around it in Dafny and proves what they guarantee.

`dafny verify dfyconfig.toml` checks the whole project.

## How the model is organised

| files | what they hold |
|---|---|
| `Domain`, `Rows` | enumerations, the intervention catalog, causes, the clock, the database rows |
| `Policy`, `Decision` | the gate over one action; pricing, choice and planning |
| `KeyStore`, `Gateway`, `Journey`, `Ledger` | the expiring key store, the gateway simulator, the journey state machine, the incremental ledger |
| `Recovery`, `Turns` | one journey's turn: as functions on values, and as a class that updates the loaded rows step by step |
| `Orchestrator`, `Queries`, `Service` | scan, tick and human decisions over the whole book: as functions on a `World`, and as a class that updates its tables in place |
| `RecoveryProofs`, `TurnShape`, `TurnLimits` | what a turn keeps and touches, when it raises, charges and closes, why turns end, how budgets hold |
| `Safety`, `Operations` | the invariant of the book, kept by every operation |
| `Raises`, `Locks`, `Rollbacks`, `Cycles` | when ticks raise, one owner per customer, what the rollback of a tick or of a scheduler's round leaves behind |
| `MandateBudget`, `Presentations` | the attempt limit per mandate, and the calls it counts |
| `Runs`, `Progress` | whole runs: what they keep, and how they end |
| `Counterexamples` | runs from an untouched book in which a promise of the loop fails |
| `Audit`, `MandateSlot`, `Metrics`, `Learning`, `Degradation`, `RootCauses`, `WhatIf` | the stand-alone engines |

The services change rows, a key store and a gateway in place, and so do the classes here. Each method is
proved equal to a function of the old state, and the theorems are about those functions. A ghost trace
records every call on the gateway together with the question the policy gate answered just before it.

A run is any sequence of scans, ticks, approvals, rejections, pauses, resumptions and stops from a book
nobody has worked on yet. Operations do not overlap, scans and ticks work on rows such as their queries
return, and what is approved or rejected is in the approval queue; operations may raise. What else a theorem
asks of a run is one of three things, each a condition on the rows before the operation:

- *orderly* (`Runs.Orderly`): one policy throughout, and no tick that charges a customer and then raises.
  Neither the clock nor the locks are restricted.
- *guarded* (`Runs.ScansGuarded`): no scan claims a customer one of whose open journeys has no live lock.
- *careful* (`Runs.Careful`): time does not run backwards, scans find locks that have not run out, only open
  journeys are stopped, and no tick that raises has closed a journey whose lock has time left.

The runs in `Counterexamples` are also what the queries return: every scan takes the largest unclaimed event,
every tick the two journeys that have waited longest, and time does not run backwards
(`Counterexamples.QueriedRun`). No two losses in them are worth the same.

Money is in paise, probabilities are reals, instants are microseconds.

## What the code does that its documentation does not say

Each of these is a lemma, or is built into the model as the code has it.

- A second journey can be opened for a customer, exactly when an open one has no live lock
  (`Locks.SecondOwnerIff`). There are three ways to get there. The lock lives 24 hours and a journey 72 by
  default (`Counterexamples.SecondOwnerAfterOneDay`; `Locks.TickMakesLocksLive` says how often ticks have to
  come for it not to happen). A tick that raises brings back the journeys it had closed, but not their
  locks (`Rollbacks.RollbackKeepsLocksIff`, `Counterexamples.SecondOwnerAfterRollback`). And stopping a journey
  that is already closed drops a lock it does not hold (`Locks.StopClosedKeepsLocksIff`,
  `Counterexamples.StoppedTwice`).
- A tick can raise (`Raises.AnyTickRaisesIff`); where nobody paused a journey, in exactly two situations about
  approved actions (`Raises.TickRaisesIff`, `Counterexamples.TickRaisesInARun`). The session is then rolled
  back, the key store and the gateway are not. If the tick had already charged somebody, the book no longer
  shows it (`Raises.RollbackKeepsInvIff`), and the next tick charges again (`Rollbacks.ChargedAgainIff`,
  `Counterexamples.ActionIsChargedTwice`): the reservation is held by the very action that is run again. The
  module says a retried tick can never charge twice.
- The scheduler scans and ticks in one session. If the tick raises, the journeys the scan had opened are gone,
  and their customers stay locked for 24 hours for journeys that were never stored
  (`Cycles.CycleLocksOutIff`, `Cycles.LockedOutWaits`, `Counterexamples.CycleLocksCustomerOut`).
- An action that needs a human's approval is never executed: approval does not exempt it from the re-check
  (`Runs.ExecutesKeepThePolicy`).
- The action that recovers the money is charged twice, when it executes and when it is booked
  (`Runs.RecoveryIsChargedTwice`, `Counterexamples.RetryIsPaidForTwice`).
- The promise follow-up can occur twice in a plan (`Decision.PlanDistinctIff`,
  `Counterexamples.FollowupIsPlannedTwice`).
- An audit log verifies only if no summary was longer than its column (`Audit.RecordedVerifiesIff`,
  `Audit.LongSummaryBreaks`).
- A route without earlier failures is its own baseline and is never found degraded (`Degradation.DegradedIff`).
- The what-if simulator never counts a futile retry as prevented, because a blocked action is never chosen
  (`WhatIf.Simulate`).
- The scan gates an event with the cause diagnosed earlier, not with the one it is about to diagnose
  (`Orchestrator.ScanBudget`); steps after the first are scheduled without a discount; the quiet-hours
  clock drops the minutes of the hour; and `EXECUTION_WINDOW_MISS` is not futile, although the repository's
  README lists it among the futile causes.

## Model

| member | source | states |
|---|---|---|
| Runs.ChargedAtMostOnce | backend/app/agents/executor.py:57-155 | In every orderly run, executes carry distinct idempotency keys, each matches an executed action of its journey and went out under an ALLOW for that instant, a timed-out one is followed at once by a state query, and the gateway is left with no unresolved key |
| Runs.NeverTwoOwners | backend/app/services/orchestrator.py:185-197 | In every guarded run, whatever raised or was charged twice on the way and whatever the clock did, no customer has two open journeys |
| Runs.LocksNameOpenJourneys | backend/app/services/idempotency.py:36-48 | In every orderly and careful run, while locks are live, a journey is open exactly when the store's lock names it |
| Runs.MandatesStayWithinLimit | backend/app/services/orchestrator.py:143-149 | In every orderly and guarded run the retries that went out for the events of a mandate, by however many journeys, are no more than the network's limit less the attempts it started with, and none if it started beyond it; its counter agrees |
| Runs.AttemptsAreCounted | backend/app/services/orchestrator.py:526-545 | In every orderly run a mandate's attempts are those it started with and one for every retry of its events that went out |
| Runs.JourneysStayWithinBudget | backend/app/services/policy.py:208-225 | In every orderly run the contacts, retries, offers and calls that went out for a journey, counted in the trace as on the row, stay within the policy less what came before, contacts keep the cooldown, and event and journey agree on contacts and cost |
| Runs.ExecutesKeepThePolicy | backend/app/services/orchestrator.py:582-604 | Every execute of an orderly run was within all limits of the policy, and nothing that needs an approval was ever executed |
| Runs.FewExecutes | backend/app/services/orchestrator.py:630-652 | In every orderly run a journey executes at most once per step of its plan, so at most four times |
| Runs.HoldoutUntouched | backend/app/services/orchestrator.py:168-175 | In every orderly run an event of the holdout never gets a journey, an execute or a ledger entry |
| Runs.BookingsAreSound | backend/app/agents/verifier.py:86-111 | In every orderly run every event gets at most one journey and is booked at most once, each booking is backed by a success the gateway reported for that journey's last action, gross and discount make up the amount, and the ledger's incremental total is gross less organic less cost |
| Runs.RecoveryIsChargedTwice | backend/app/agents/verifier.py:86-111 | In every orderly run a journey is recovered if and only if it is booked, and what it cost is what its executed actions cost and, exactly then, what its ledger entry says on top: the action that recovered the money is paid for twice, and the two sums differ unless the entry costs nothing, which no action without a negative discount does |
| Runs.JourneysRestLegally | backend/app/services/journey.py:16-119 | In orderly runs without pauses every journey rests in one of five states that matches its last action, its actions follow its plan, and its log is a connected walk through the transition table |
| Runs.StepKeepsAll | backend/app/services/orchestrator.py:126-808 | Every orderly operation, raising or not, keeps the safety invariant and the budgets; if it is guarded, single ownership and the mandate limits too; if it is careful, every lock that is still needed |
| Raises.TickRaisesIff | backend/app/services/orchestrator.py:518-530 | Where nobody paused a journey, a tick raises if and only if an approved action is turned down on its re-check with a plan step left, or a journey is still approved when it expires |
| Raises.AnyTickRaisesIff | backend/app/services/orchestrator.py:404-431 | Whether a tick raises can be told from the rows before it, paused and resumed journeys included: a due journey's turn has to start with a move the transition table lacks, or an approved journey will have expired |
| Raises.TickExecutesIff | backend/app/services/orchestrator.py:518-548 | A tick executes something if and only if, going by the rows before it, some due journey is allowed to execute and none before it is stuck |
| TurnShape.AnyTurnRaisesIff | backend/app/services/orchestrator.py:487-580 | The turn of any row, in order or not, raises if and only if the transition table does not let it begin, and only a turn that waits leaves a journey approved |
| TurnShape.ClosesIff | backend/app/services/orchestrator.py:550-580 | A turn closes its journey if and only if the money came or the last step of the plan has come to nothing, going by the rows, the gateway's faults and what was paid |
| Raises.RollbackKeepsInvIff | backend/app/core/db.py:38-46 | After a tick that raises and is rolled back on its own, as in the session of one request, the book is in order if and only if no due journey was to be charged before the first stuck one (or at all, if only expiry raises), going by the rows before the tick |
| Rollbacks.ChargedAgainIff | backend/app/agents/executor.py:1-72 | An action charged by a tick that raised is sent again by the next tick if and only if its turn comes up and the gate allows it again; the reservation never stops it |
| Rollbacks.ChargedTwice | backend/app/services/idempotency.py:1-29 | If two ticks in a row charge one journey and the first raises, one idempotency key is executed twice |
| Rollbacks.RollbackKeepsLocksIff | backend/app/services/orchestrator.py:654-658 | After a tick that raised, every open journey whose lock has time left still holds it if and only if the tick closed none such before it raised, going by the rows before the tick |
| Cycles.CycleKeepsInvIff | backend/app/workers/scheduler.py:58-62 | After a scheduler's round that raises and is rolled back, scan included, the book is in order if and only if nothing was to be charged before the raise, going by the rows after the scan |
| Cycles.CycleLocksOutIff | backend/app/workers/scheduler.py:58-62 | If the locks were in order before and the tick comes within a day of the scan, such a round leaves the customer of a journey it had opened locked, for the lifetime of the lock and for a journey that was never stored, if and only if the tick had not closed the journey before it raised |
| Cycles.CycleKeepsLocksSoundIff | backend/app/workers/scheduler.py:58-62 | After such a round every stored lock names an open journey of its customer if and only if every journey the scan had opened was closed before the raise |
| Cycles.LockedOutWaits | backend/app/services/orchestrator.py:185-197 | A scan of an event of a locked-out customer is a collision exactly until the lock has run out, and opens a journey afterwards |
| Counterexamples.ActionIsChargedTwice | backend/app/services/idempotency.py:1-29 | A run of two scans, one approval and two ticks under the default policy, all over what the queries return, in which one idempotency key is executed twice |
| Counterexamples.TickRaisesInARun | backend/app/services/orchestrator.py:518-530 | A run without pauses, all over what the queries return, that ends in a book in order on which the tick over the due journeys raises: a retry approved before the network's closed hours comes due in them |
| Counterexamples.SecondOwnerAfterRollback | backend/app/services/orchestrator.py:654-658 | A run, all over what the queries return, in which a customer gets a second open journey although no lock had run out, after a tick that closed the first was rolled back |
| Counterexamples.StoppedTwice | backend/app/services/orchestrator.py:796-808 | A run, all over what the queries return, in which stopping a closed journey takes away the lock of the open one that came after it |
| Counterexamples.RetryIsPaidForTwice | backend/app/agents/verifier.py:86-111 | A run of one scan and one tick, over what the queries return, that ends with one booking: the executed retry cost 200, the entry says 200, and the journey cost 400 |
| Counterexamples.CycleLocksCustomerOut | backend/app/workers/scheduler.py:58-62 | A round of the scheduler that raises and leaves a book in order in which nobody owns the customer of the event it had picked; every later scan of that event finds the customer taken until 24 hours after the round, and opens a journey from then on |
| Counterexamples.FollowupIsPlannedTwice | backend/app/engines/decision.py:358-366 | An overdue invoice whose plan has the promise follow-up twice |
| Raises.TurnGrantsNothing | backend/app/services/orchestrator.py:487-580 | A turn never leaves an action approved unless it was approved before and is not due yet |
| Locks.SecondOwnerIff | backend/app/services/orchestrator.py:185-201 | A scan that reaches the claim leaves a customer with two open journeys if and only if one of the customer's open journeys has no live lock; otherwise locks stay sound |
| Locks.UnguardedIff | backend/app/services/orchestrator.py:59-60 | An open journey has no live lock if and only if it has outlived it or has lost it, and while locks are kept only by outliving it |
| Locks.TickIsSound | backend/app/services/orchestrator.py:404-418 | A tick on any book, raising or not, leaves every stored lock with an open journey of its customer, and no customer with two |
| Counterexamples.SecondOwnerAfterOneDay | backend/app/services/orchestrator.py:59-60 | A run under the default policy, all over what the queries return: while the first journey waits a day for approval, a scan gives its customer a second one |
| Locks.ScanFinds | backend/app/services/orchestrator.py:136-201 | A scan opens exactly one journey for an event that reaches the claim while no open journey of its customer holds a live lock, collides exactly when one does, opens none otherwise, and leaves the event in the status that goes with the finding |
| Locks.LockedIffOpen | backend/app/services/idempotency.py:36-48 | While locks are live the store holds a customer's lock exactly when that customer has an open journey, and it names that journey |
| Locks.TickMakesLocksLive | backend/app/services/orchestrator.py:674-688 | After a tick no lock runs out for as long as the lock outlasts the journey's time to live |
| Locks.StopClosedKeepsLocksIff | backend/app/services/orchestrator.py:796-808 | Stopping a closed journey keeps every needed lock if and only if no open journey of its customer still counts on one |
| Locks.TickKeepsLocks | backend/app/services/orchestrator.py:654-672 | Ticks keep the lock invariant: locks go exactly with the journeys that close |
| Locks.ApplyKeepsLocks | backend/app/services/orchestrator.py:748-808 | So do rejections, stops of open journeys, pauses and resumptions |
| MandateBudget.TickKeepsBudget | backend/app/services/orchestrator.py:532-541 | Ticks keep every mandate within the limit although the gate only counts the journey's own presentations |
| MandateBudget.PlannedRetryHasRoom | backend/app/engines/decision.py:335-356 | A plan that retries was made while the mandate was below the limit |
| MandateBudget.OnePresentation | backend/app/engines/decision.py:335-356 | Once a journey has executed its retry there is none ahead |
| MandateBudget.ScanKeepsBudget | backend/app/services/orchestrator.py:126-204 | Scans that claim nobody with an unprotected journey keep every mandate within the limit and leave room for every retry they plan |
| Operations.TickKeepsInv | backend/app/services/orchestrator.py:404-418 | A tick that does not raise keeps the safety invariant of the whole book |
| Operations.ScanKeepsInv | backend/app/services/orchestrator.py:126-204 | So does a scan |
| Operations.ApproveKeepsInv | backend/app/services/orchestrator.py:723-746 | So does an approval from the queue, even if the journey was closed in the meantime |
| Operations.ApplyKeepsInv | backend/app/services/orchestrator.py:748-808 | So do rejections, stops, pauses and resumptions that do not raise |
| Operations.UnownedEvent | backend/app/services/orchestrator.py:168-175 | No journey works on an event that is in the holdout or still at risk |
| Operations.SettlesExactly | backend/app/services/orchestrator.py:690-719 | Exactly the aged holdout events are resolved, recovered in full if their customer paid unprompted and lost otherwise, and nothing else changes |
| Safety.LocalStepKeepsInv | backend/app/services/orchestrator.py:487-580 | A change confined to one journey, its event and its mandate keeps every other journey, the trace and the ledger in order |
| RecoveryProofs.AdvanceRests | backend/app/services/orchestrator.py:487-580 | Every turn that does not raise keeps the journey's invariants, stays within its footprint, and takes a legal state to a legal state |
| RecoveryProofs.ConcludeRests | backend/app/agents/verifier.py:86-111 | A confirmed recovery adds exactly one entry that adds up, releases the customer and closes the journey |
| TurnLimits.TurnRaisesIff | backend/app/services/orchestrator.py:518-530 | A turn raises if and only if an approved action is due, is blocked on the re-check and a plan step is left |
| TurnLimits.TurnsTerminate | backend/app/services/orchestrator.py:487-652 | Every turn that is not waiting strictly lowers the remaining steps and phases of its journey |
| TurnLimits.TurnsEnd | backend/app/services/orchestrator.py:487-652 | After as many turns as its measure, at most four for each step of its plan, a journey is closed or waits for a human, if no turn is held up by the clock and none raises, whatever other journeys do in between |
| Progress.JourneysComeToAnEnd | backend/app/services/orchestrator.py:404-652 | From any state a supervised orderly run can reach, whatever operations follow in whatever order: a journey nobody decides on that has had as many turns as its measure, at most four for each step of its plan and so at most sixteen, not counting turns the clock held up or a raise undid, is closed or waits for a human |
| TurnLimits.BudgetsHold | backend/app/services/policy.py:208-225 | No turn takes a journey beyond a budget of the policy or breaks the cooldown |
| TurnLimits.CountStep | backend/app/services/orchestrator.py:472-485 | A turn moves each counter by at most one, and only by executing an action that counts |
| Turns.Turn.AdvanceJourney | backend/app/services/orchestrator.py:487-580 | Taking a turn step by step gives exactly the specified cell, or raises exactly when the specification does, and then has left nothing behind outside the rows |
| Turns.Turn.ExecuteAction | backend/app/agents/executor.py:57-155 | Reserve, then call, then at most one query: the resulting rows, keys, gateway and trace |
| Turns.Turn.Reserve | backend/app/services/idempotency.py:23-29 | The action may go out if and only if nobody holds its key or it does so itself, it then holds it, and no live entry is lost |
| Turns.Turn.CallOut | backend/app/agents/executor.py:84-90 | One execute, followed by one state query exactly if it timed out |
| Turns.Turn.RunVerifier | backend/app/agents/verifier.py:38-60 | Verification from the verifying state never raises and ends pending, closed as recovered, replanned or closed as lost |
| Turns.Turn.BookRecovery | backend/app/agents/verifier.py:86-111 | One entry is added whose gross and discount make up the amount and whose parts add up, and journey and event both take its gross as recovered and its cost on top of theirs |
| Turns.Turn.ConsumeBudget | backend/app/services/orchestrator.py:472-548 | What one execution charges to journey, event and mandate keeps the three in step: contacts, money and presentations |
| Turns.Turn.MoveTo | backend/app/services/journey.py:93-119 | A transition is taken and logged exactly if the table allows it |
| Turns.Turn.NextStepOrCloseJourney | backend/app/services/orchestrator.py:630-652 | The next step is scheduled if there is one, otherwise the journey fails and closes and the event is lost |
| Service.OrchestratorService.RunTick | backend/app/services/orchestrator.py:404-431 | A tick over the due journeys, with the tables rolled back exactly if a step raised; keeps the invariant otherwise |
| Service.OrchestratorService.RunScan | backend/app/services/orchestrator.py:126-220 | A scan over the unclaimed events gives the specified world and a report of its findings, and keeps the invariant |
| Service.OrchestratorService.ScanEvent | backend/app/services/orchestrator.py:136-201 | What a scan does with one event, on every branch |
| Service.OrchestratorService.SettleControlCohort | backend/app/services/orchestrator.py:690-719 | Exactly the aged holdout events are resolved, each by one state query |
| Service.OrchestratorService.ExpireStale | backend/app/services/orchestrator.py:674-688 | Exactly the journeys past their time to live are expired, up to the first that raises |
| Service.OrchestratorService.ApproveAction | backend/app/services/orchestrator.py:723-746 | An approval from the queue; keeps the invariant |
| Service.OrchestratorService.RejectAction | backend/app/services/orchestrator.py:748-769 | A rejection closes the journey and releases the customer, or raises |
| Service.OrchestratorService.StopJourney | backend/app/services/orchestrator.py:796-808 | A stop blocks and closes an open journey and releases the customer |
| Service.ReportBalances | backend/app/services/orchestrator.py:65-88 | Every event a scan looked at is counted once: held out, blocked, idle, collided or started |
| Queries.DueJourneysAreABatch | backend/app/services/orchestrator.py:420-431 | The due query returns distinct open due journeys, within the limit, and leaves out none that waited longer |
| Queries.UnclaimedEventsAreABatch | backend/app/services/orchestrator.py:206-220 | The unclaimed query returns distinct events at risk that no open journey owns, within the limit, and leaves out none that is worth more |
| Policy.PolicyEngine.Evaluate | backend/app/services/policy.py:141-249 | The verdict and its reasons, in the order the rules are checked |
| Policy.BlockedIffBeyondLimits | backend/app/services/policy.py:161-227 | The gate blocks if and only if a limit of contacts, retries, mandate, window, notice, offers or calls is exceeded or automation is off |
| Policy.RelaxingNeverTightens | backend/app/services/policy.py:141-249 | A policy that permits at least as much, field by field, never gives a stricter verdict nor a new reason to block |
| Policy.AllowIsBelowApproval | backend/app/services/policy.py:232-244 | An ALLOW never covers a gateway action at or above the approval amount, too large a discount or an escalation to a human |
| Decision.DecideIsOptimal | backend/app/engines/decision.py:215-241 | The chosen option has the highest expected value of all viable ones, the first in catalog order; nothing is chosen exactly when none is viable |
| Decision.ChosenPaysForItself | backend/app/engines/decision.py:168-241 | With a positive floor, what the chosen action is expected to add covers its costs, discount, friction and penalty and the floor, and it is more likely to recover the money than doing nothing |
| Decision.FrictionGrows | backend/app/engines/decision.py:152-156 | The friction cost is never negative and never falls with a further contact or a more valuable customer |
| Decision.OfferWithinCap | backend/app/engines/decision.py:159-165 | Only the discount action discounts, within the merchant's cap, and a larger basket never gets a smaller offer |
| Decision.ChoiceIsMonotone | backend/app/engines/decision.py:168-241 | A policy at least as permissive, with the same discount cap and floors no higher, never lowers the chosen expected value |
| Decision.RankSorts | backend/app/engines/decision.py:215-241 | Ranking is a permutation into non-increasing expected value |
| Decision.FirstOfRankedIsBest | backend/app/engines/decision.py:215-241 | Sorting and taking the first viable option is the same as searching the unsorted list for the best |
| Decision.BuildPlan | backend/app/engines/decision.py:315-366 | The loop builds the specified plan |
| Decision.PlanIsSound | backend/app/engines/decision.py:315-366 | A plan has one to four steps, opens with the chosen action, and escalates only through allowed options that are worth something |
| Decision.PlanDistinctIff | backend/app/engines/decision.py:358-366 | The steps of a plan differ if and only if it is not an overdue invoice for which both the call and the promise follow-up are chosen or come first among the ranked candidates with contacts left |
| Decision.RetryPlannedOnce | backend/app/engines/decision.py:335-356 | A retry occurs at most once in a plan, and only if the gate did not block it |
| KeyStore.AnswersMatchHistory | backend/app/core/cache.py:26-62 | For every sequence of calls on a clock that does not run back, each answer is the one computed from the history alone, despite lazy purging |
| KeyStore.PurgeShowsWhenClockRunsBack | backend/app/core/cache.py:31-34 | On a clock that runs back the purge shows |
| KeyStore.TakenTwiceNeedsRelease | backend/app/core/cache.py:36-43 | Two successful sets of one key are separated by a delete or a full time to live |
| KeyStore.MemoryKeyStore.PurgeExpired | backend/app/core/cache.py:31-34 | Exactly the expired entries go |
| KeyStore.MemoryKeyStore.SetKeyIfAbsent | backend/app/core/cache.py:36-43 | A key is taken exactly if no live entry holds it |
| KeyStore.MemoryKeyStore.GetKey | backend/app/core/cache.py:45-55 | A value is found if and only if the entry is live; an expired entry is dropped, and no other entry changes |
| Gateway.RazorpaySimulator.Execute | backend/app/integrations/razorpay/simulator.py:95-123 | The unresolved keys grow by this one exactly on a timeout, a timeout comes exactly while faults are left, and only a retry is settled at once |
| Gateway.RazorpaySimulator.FetchState | backend/app/integrations/razorpay/simulator.py:125-150 | The key is no longer unresolved and no other changes; an unresolved one is settled by the injected outcome whatever the outside world says |
| Gateway.AskingResolves | backend/app/integrations/razorpay/simulator.py:95-150 | Asking after a timeout leaves nothing unresolved and gives the outcome fixed when the call timed out |
| Journey.MoveExtendsWalk | backend/app/services/journey.py:93-119 | A transition extends the log to a longer connected walk and changes nothing but state, log and times |
| Journey.WalkIsConnected | backend/app/services/journey.py:16-86 | Every logged step is in the table and starts where the one before it ended |
| Journey.ClosedOnlyAtEnd | backend/app/services/journey.py:85 | Closed is absorbing |
| Ledger.PooledRateIsHitsOverTotal | backend/app/engines/counterfactual.py:36-56 | Pooling the class rates by their sizes gives exactly all holdout conversions over all resolved holdout events |
| Ledger.RateIsProbability | backend/app/engines/counterfactual.py:32-34 | Every rate an estimate can fall back on is between zero and one |
| Ledger.EntryAddsUp | backend/app/services/ledger.py:32-50 | Organic share, cost and incremental of an entry make up its gross, and the organic share never exceeds it |
| Ledger.TotalsAddUp | backend/app/services/ledger.py:80-108 | Over the whole ledger incremental is gross less organic less cost |
| Audit.AuditTrail.Record | backend/app/services/audit.py:33-78 | An entry is appended that hashes the full summary and stores what fits |
| Audit.AuditTrail.VerifyChain | backend/app/services/audit.py:81-104 | Reports an intact chain and its head, or the first entry that does not fit |
| Audit.RecordedVerifiesIff | backend/app/services/audit.py:47-75 | A log that was only recorded to verifies if and only if no summary was cut, and breaks first at the first that was |
| Audit.PrefixVerifies | backend/app/services/audit.py:81-104 | Every prefix of a verifying log verifies |
| Audit.HeadDeterminesLog | backend/app/services/audit.py:81-104 | Two verifying logs with the same head hash are identical |
| Audit.EditIsNoticed | backend/app/services/audit.py:1-5 | An edit of one entry breaks the chain there or at the next entry; an edit of the last entry that recomputes its hash changes the head |
| MandateSlot.NextValidPresentationSlot | backend/app/engines/mandate.py:38-53 | The 96-step loop computes the specified search |
| MandateSlot.SlotIsFound | backend/app/engines/mandate.py:38-53 | Any 28 steps are enough, for every calendar with months of 28 to 31 days |
| MandateSlot.SlotIsValidAndLeast | backend/app/engines/mandate.py:38-53 | The slot is outside the peak window and in the salary window if asked, and no fewer half hours or days would do |
| MandateSlot.SlotPassesGate | backend/app/services/policy.py:185-189 | A retry in the slot passes the execution-window guard of every policy |
| MandateSlot.WindowAgreesWithGate | backend/app/engines/mandate.py:33-35 | The fractional-hour window and the gate's window are the same |
| Metrics.RocAuc | backend/app/ml/metrics.py:46-63 | The rank formula with ties averaged in place equals the share of correctly ordered pairs with ties counted half, whatever order the sort leaves ties in, and one half if a class is missing |
| Metrics.AverageTies | backend/app/ml/metrics.py:56-62 | After the in-place pass, twice each rank is one more than its wins against everybody |
| Metrics.PairWinsWithin | backend/app/ml/metrics.py:63 | Within one class every pair is decided once, which is what the formula subtracts |
| Metrics.AucIsShare | backend/app/ml/metrics.py:46-63 | The area is between zero and one |
| Learning.Learner.Bootstrap | backend/app/engines/learning.py:129-166 | Seeding gives exactly the posteriors of the totals of resolved history, and does nothing once something was learned |
| Learning.Learner.ObserveOutcome | backend/app/engines/learning.py:86-126 | One outcome adds one trial to its own cell, moves exactly the one weight it speaks for, and changes no other cell |
| Learning.BatchEqualsOnline | backend/app/engines/learning.py:86-166 | A seeded memory equals the one learned from the same history one outcome at a time |
| Learning.OrderDoesNotMatter | backend/app/engines/learning.py:86-126 | Outcomes may be learned in any order |
| Learning.PosteriorIsProper | backend/app/models/insight.py:37-39 | Every cell weighs six plus its trials and its mean is strictly between zero and one |
| Degradation.WindowTable.ReconcileWindows | backend/app/engines/degradation.py:164-223 | Afterwards every degraded scope has exactly one active window with the current figures and no other scope has one; the report is exactly the difference; earlier rows keep their history |
| Degradation.SecondCallIsSilent | backend/app/engines/degradation.py:164-223 | Where the active windows match the state already, the difference to report is empty |
| Degradation.WindowTable.ReconcileTwice | backend/app/engines/degradation.py:164-223 | Reconciling twice against one state reports nothing the second time |
| Degradation.DegradedIff | backend/app/engines/degradation.py:92-154 | A scope is degraded if and only if there were 60 recent attempts, one in twenty failed, there were earlier failures, and the rate is at least 1.9 times theirs |
| RootCauses.InvestigateCase | backend/app/engines/root_cause.py:72-119 | The four passes over one list of weights give the specified diagnosis |
| RootCauses.Weights.BoostCause | backend/app/engines/root_cause.py:122-123 | A listed weight is multiplied in place, an unlisted cause joins at the end |
| RootCauses.FinalWeightsProper | backend/app/engines/root_cause.py:126-216 | Through all passes weights stay positive, one per cause, and few |
| RootCauses.PosteriorIsRanking | backend/app/engines/root_cause.py:98-119 | The ranking sums to one and falls, its head is the diagnosis and the largest share, and it heads one to four candidates worth showing |
| RootCauses.DegradedRouteNeverLosesShare | backend/app/engines/root_cause.py:126-146 | Turning the route signal on, all else equal, never lowers the share of route degradation |
| WhatIf.Simulate | backend/app/engines/simulator.py:168-210 | Under every policy the counters add up to the book, blocked events are among the idle ones, and no presentation is wasted |
| WhatIf.SimulateLegacy | backend/app/engines/simulator.py:213-239 | The legacy workflow acts on everything and wastes exactly the retries whose cause is futile |
| WhatIf.Tally.Record | backend/app/engines/simulator.py:135-165 | Recording an option keeps interventions and idle events in balance with the events, contacts and approvals behind the interventions, and counts a waste exactly for a futile retry that was let through |
| WhatIf.NeverWasteful | backend/app/engines/simulator.py:146-155 | A retry that cannot succeed is never chosen under a policy |

## Left out

- One clock reading serves a whole operation; the source reads the clock at every step of it.
- Rows are values held in fields, and tables are indexed by row number; aliasing between loaded row objects is not modelled.
- Rows that tie in a query's order are taken in row order; expiry and settlement go through rows in row order.
- The gateway is the simulator. Its hashed recovery probability is a parameter: the set of keys the outside world has paid. The HTTP client, with its rejections, is not part of this model.
- The planning agents' predictions are parameters: diagnosed cause, organic probability, probability per action, learned rates. Feature vectors, calibrated predictors, LLM providers, prompts and messages are not part of this model.
- Audit entries, learning, notifications and captured promises are not threaded through the loop; audit and learning are modelled by themselves.
- SHA-256 and the idempotency digest are symbolic: equal only for equal inputs.
- Policy rows, the kill switch as an operation, sessions, Redis, API routes, dashboards and the frontend are not part of this model. The automation flag of a policy is.
- Floating-point rounding and display rounding; arithmetic on rates and weights is over reals. Evidence and rationale strings are not part of this model.
- `argsort` is a parameter of the ROC area: any order that sorts the scores.
- Runs.JourneysRestLegally: does not cover runs with pauses, because a journey resumed from a pause need not match its last action.
- Runs.NeverTwoOwners: asks that no scan claims a customer with an unprotected open journey; Locks.SecondOwnerIff says that it fails otherwise.
- Runs.ChargedAtMostOnce: asks that no tick charges and then raises; Rollbacks.ChargedAgainIff says that it fails otherwise.
- Raises.RollbackKeepsInvIff: speaks of a tick in a session of its own; Cycles.CycleKeepsInvIff speaks of the scheduler's, which also rolls back the scan.
- Cycles.Cycle: is not an operation of the runs. A journey lost with its scan gives its row number back, and later journeys may get it; ids in the source are never used again.
- Orchestrator.Approve: speaks of actions in the approval queue; the source approves any action it is given, and a second approval of one that was executed is not modelled.
- Progress.JourneysComeToAnEnd: does not say that a journey closes, because an approved high-value action is sent back to the approval queue each time it comes due.
- calibration_bins, Brier score, log loss, the playbook listing, friction_budget, explain and other look-ups are not part of this model, as they would only add easy members.
