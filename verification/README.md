# Verified model of the LIKI research platform

Dafny proofs about the deterministic core of a quantitative research platform: its double bookkeeping and spot
backtest, its lineage and sealed holdouts, its task scheduler, its event store, and the fenced protocols built on it.
`dafny verify dfyconfig.toml` checks the whole project.

The project is organised by component. A pure specification of each state and step comes first, the laws it keeps over
every history second, and the transactions or loops in the program's own imperative form, proved equal to the
specification, third.

| component | specification | laws | as it runs |
|---|---|---|---|
| ledgers | `Accounting`, `Reference` | `Agreement` | `Accounting.LedgerState`, methods of `Reference` |
| backtest | `Execution`, `Backtest` | `BacktestSafety`, `BacktestTheorems`, `Strategies`, `Attribution` | `Engine` |
| backtest report | `Packaging` | `Packaging` | methods of `Packaging` |
| lineage and holdouts | `Graphs`, `Research` | `Research` | `Research.ResearchStore` |
| scheduler | `Scheduling` | `SchedulingSafety`, `SchedulingTheorems` | `SchedulerStore` |
| event store | `EventStore` | `EventStore` | `AuditedStore` |
| paper account | `PaperTrading` | `PaperSafety`, `PaperTheorems`, `PaperCash`, `LateWriter` | `PaperService` |
| inference attempts | `Inference` | `Inference` | `InferenceStore` |
| temporal splits | `TemporalSplits` | `TemporalSplits` | methods of `TemporalSplits` |
| gates | `GateProgression` | `GateProgression`, `HardInvalidity` | `Evaluator` |
| reverse stress | `ReverseStress` | `ReverseStress` | `ReverseStress` |
| delivery | `Delivery` | `Delivery` | `Delivery.Outbox` |

Conventions. Decimals are reals, so the claims are about exact arithmetic. Timestamps are integers, and the current
time is an input to each step that never runs backwards. Each database table is a map, sequence or set; each
transaction is one atomic step that either commits or changes nothing, because the program serialises its
transactions on one advisory lock. Generated identifiers are inputs; a clash with a stored one is refused, as the
unique keys do. Database constraints (self edges, duplicate dependencies, nonnegative balances) are modelled where a
transaction relies on them. Content hashes are arbitrary functions and nothing assumes they are injective: the theorem
about audited logs names the two clashing events, or the event that hashes to the genesis marker, inside the logs.

Where a hoped-for law fails, the project proves by how much:

- Keeping every final and reconciled inference cost within its own reservation does not keep the request within its
  cap (`Inference.ReservationsDoNotBoundReconciliation`); `Inference.CapHoldsExactly` gives the missing check, exact
  over whole histories.
- The paper cash balance continues from the row with the latest transaction start, not the last row written, so a
  transaction that starts early and writes late is forgotten (`LateWriter.LateWriterIsForgotten`);
  `PaperCash.CashIsExactExactlyWhen` gives the exact condition over every history and `PaperCash.GrowingStampsBalance`
  a sufficient one on stamps alone.
- A gate that does not pass may fail or be merely borderline depending on the order of its rules
  (`GateProgression.FailureDependsOnRuleOrder`, exact in `GateProgression.OrderMattersExactly`).
- Hard invalidity does not always fail a gate: at gate 11 a hard-invalid report without a sealed verdict is blocked, and
  a blocked candidate may enter again (`HardInvalidity.HardInvalidityCanBlock`, exact in
  `GateProgression.HardInvalidityFailsExactly`). The decision code does this on every input that reaches it; the
  verifier issues reports for gates 0 to 5 only so far (liki/verification.py:87-94), so such a call is still refused for
  want of verified evidence. Gate 12 before its forward horizon does the same. The third override, a producer who is
  also the creator, cannot arise while only researchers register candidates (liki/research.py:61) and only other
  roles produce trusted evidence (liki/evaluation.py:207-208).
- Realized profit alone may differ between the two bookkeepings while lots are open (`Agreement.RealizedMayDiffer`,
  exact in `Agreement.RealizedAgreesExactly`).

## Model

| member | source | states |
|---|---|---|
| `Accounting.LedgerState.Apply` | liki/finance/accounting.py:83-104 | One fill updates the moving-average ledger in place to exactly the specified book, or is refused (repeated fill id, orphaned cost decomposition) and changes nothing |
| `Accounting.AcceptedExactlyWhen` | liki/finance/accounting.py:83-113 | A fill sequence is accepted exactly when ids are distinct and no decomposition is orphaned; cash, position, fees and costs are then the plain totals over the fills |
| `Accounting.BasisMoves` | liki/finance/accounting.py:90-99 | Opening, adding, reducing, closing and reversing all move the value held at the average price by the fill's notional plus the profit it realizes |
| `Reference.CloseLots` | liki/finance/reference.py:30-42 | The inner loop that pops and rewrites lots from the front computes the specified first-in-first-out matching and its profit |
| `Reference.IndependentlyReconcile` | liki/finance/reference.py:11-46 | The whole reconciler, loop by loop, reports the specified tally, and refuses exactly a repeated fill id |
| `Agreement.FifoClosedForm` | liki/finance/reference.py:28-42 | After any fills the open lots are the larger side's purchases or sales without their oldest matched units, and realized profit is the value of the oldest matched sales less that of the oldest matched purchases: an order-free closed form of the loop |
| `Agreement.OpenLotsOneSided` | liki/finance/reference.py:30-42 | Open lots are never zero and never on both sides |
| `Agreement.LedgersAgree` | liki/finance/backtest.py:235-238 | For every accepted fill sequence and mark the two bookkeepings agree on cash, position, fees, costs, equity and total profit, so the disagreement branch is unreachable |
| `Agreement.RealizedAgreesWhenFlat` | liki/finance/reference.py:30-46 | When the position is flat the two realized profits are equal |
| `Agreement.RealizedMayDiffer` | liki/finance/accounting.py:90-97 | Inputs on which they differ: two purchases at different prices and one sale; the exact condition is the next row |
| `Agreement.RealizedAgreesExactly` | liki/finance/backtest.py:235-238 | For every accepted fill sequence the two realized profits are equal exactly when what first-in-first-out leaves open and what pro-rata closing leaves open cost the same, both being functions of the fills alone |
| `Agreement.AverageIsProRata` | liki/finance/accounting.py:83-99 | The moving-average ledger is exactly the lot ledger that closes every open lot pro rata |
| `Execution.FloorToFacts` | liki/finance/types.py:204-205 | Rounding down to an increment yields a multiple, never grows the amount, loses less than one increment and is idempotent |
| `Execution.NormalizedFacts` | liki/finance/contracts.py:75-85 | A normalized order is the same order with a lot-multiple quantity no larger and less than one lot smaller, and stays valid |
| `Execution.ExecutionIsSafe` | liki/finance/backtest.py:176-210 | Whatever is executed is positive, a lot multiple, within the order, the bar's remaining liquidity, the limit, the venue band, the minimums, cash after all costs, and inventory; fill-or-kill executes whole and post-only never takes |
| `Engine.WorkOrder` | liki/finance/backtest.py:159-234 | Working one pending order, with its checks, fill, booking, expiry and rejection path, does what the step specification says |
| `Engine.RunBar` | liki/finance/backtest.py:126-244 | One bar of the event loop, in place on the ledger, equals the specified step |
| `Engine.Run` | liki/finance/backtest.py:100-247 | The whole replay, from sorting to end-of-tape cancellation, returns the specified outcome or the specified halt |
| `BacktestSafety.SettleKeeps` | liki/finance/backtest.py:211-225 | Booking a fill moves one order only, and that order never fills past its normalized quantity |
| `BacktestSafety.LiquidityShared` | liki/finance/backtest.py:157-219 | Fills of one bar share that bar's participation-limited liquidity and no other bar's |
| `BacktestSafety.AfterKeeps` | liki/finance/backtest.py:125-244 | After every bar of every run: cash and position nonnegative, position a lot multiple, every order row, pending entry and observation consistent, and the books never disagree |
| `BacktestTheorems.CompletedReplayIsSafe` | liki/finance/backtest.py:100-247 | Whatever the tape and program, a completed replay kept cash and position nonnegative, stayed within each bar's liquidity, ended every order filled, cancelled or rejected with fills at most its quantity, and no replay halts on disagreeing books |
| `BacktestTheorems.ReplayIgnoresInputOrder` | liki/finance/backtest.py:104-111 | Two orderings of the same bars give the same replay |
| `BacktestTheorems.NoAnticipation` | liki/finance/backtest.py:125-143 | Tapes that agree before bar k and on its time alone give the same intents through k and the same state before it, also when one or both runs halt at bar k on its prices |
| `Strategies.StrategyStaysWithinQuantity` | liki/backtest_gate.py:28-41 | A pinned strategy never holds more than its quantity, never has two orders out, and no outstanding buy can take it past its quantity |
| `Strategies.ReplayedStrategyStaysWithinQuantity` | liki/finance/backtest.py:131-143 | Every reported observation of a pinned strategy's replay lies between nothing and its quantity |
| `Attribution.CostsExplainProfit` | liki/finance/backtest.py:198-239 | After every bar, equity plus all fee, spread, slippage and impact paid is starting cash plus what carried inventory earned at mid and mark |
| `Attribution.NetPlusCostsIsGross` | liki/backtest_gate.py:152-156 | For every replayed quote tape, net profit plus total cost is the sum over bars of position times the next mid move |
| `Packaging.HoldingTimes` | liki/backtest_gate.py:157-173 | The in-place lot queue, never popped while empty, yields the specified holdings |
| `Packaging.SellQueue` | liki/backtest_gate.py:163-171 | The matching loop terminates and always finds a lot to match |
| `Packaging.QueueIsFirstInFirstOut` | liki/backtest_gate.py:157-173 | The queue is the purchases without their oldest sold units; holdings total the units sold and their unit-time is moments sold less moments the oldest units were bought |
| `Packaging.HoldingsAccountForEveryUnit` | liki/backtest_gate.py:157-173 | For every completed replay: uncensored quantities total the sells, censored ones the final position, and no duration is negative |
| `Packaging.Scenarios` | liki/backtest_gate.py:174-182 | Each window yields its slice, or the report is refused exactly when some window holds no observation |
| `Packaging.InsideIsAStretch` | liki/backtest_gate.py:176-179 | On a rising tape a half-open window covers one unbroken stretch of observations |
| `Packaging.CoveringSlicesSumToNet` | liki/backtest_gate.py:174-182 | Adjoining windows that cover the tape have slice profits summing to net profit |
| `Graphs.Closure` | liki/research.py:173-192 | The recursive closure query computes exactly the reachable nodes |
| `Research.ResearchStore.RegisterObject` | liki/research.py:59-75 | Registration inserts the object, its edges and inherited tags, or fails for the specified reason and changes nothing |
| `Research.ResearchStore.DeclareTrial` | liki/research.py:77-98 | A trial is recorded, replayed or refused exactly as specified |
| `Research.ResearchStore.Ask` | liki/research.py:151-195 | A sealed query returns the recorded answer, or passes every exposure check and records one, or fails unchanged |
| `Research.ExposuresStayExclusive` | liki/research.py:163-191 | In every reachable state exposed strategies of a holdout have disjoint ancestor closures and different families, and exposures equal the counter and stay within budget |
| `Research.AncestorsNeverChange` | liki/research.py:59-71 | No later operation adds or removes an ancestor of a registered object |
| `Research.RelativesAreRefusedForever` | liki/research.py:173-184 | Once a relative has been shown a holdout, a request of another strategy related to it is refused after every later history |
| `Research.DescendantsAreMarked` | liki/research.py:70-74 | Every descendant of an exposed strategy carries the sealed tag, registered before the exposure or after |
| `Research.AnswersAreFinal` | liki/research.py:156-161 | A strategy has one answer per holdout: asked again after any later history, it gets that answer with nothing changed, or is refused |
| `Research.RetriesChangeNoScience` | liki/research.py:80-92 | Infrastructure retries repeat the recorded trial they name, and every exposure had been declared by a trial that is no retry |
| `SchedulerStore.Scheduler.Enqueue` | liki/scheduler.py:66-106 | Queues new work with its funding and dependencies, returns a task already doing the same work, or fails unchanged |
| `SchedulerStore.Scheduler.AddDependency` | liki/scheduler.py:108-122 | Adds the edge after the cycle query, or fails unchanged |
| `SchedulerStore.Scheduler.Claim` | liki/scheduler.py:124-167 | The limit count, candidate filter, lane protection and ranking loops start exactly the specified run |
| `SchedulerStore.Scheduler.Finish` | liki/scheduler.py:176-197 | Finishing under a live fence completes, hibernates or quarantines its task; anything else changes nothing |
| `SchedulerStore.Scheduler.Recover` | liki/scheduler.py:199-213 | The recovery loop expires exactly the overdue leases and counts them |
| `SchedulingSafety.HistoryKeeps` | liki/scheduler.py:53-213 | Acyclicity, readiness, lease, retry, budget and limit invariants hold after every history |
| `SchedulingTheorems.RefusedExactlyForCycles` | liki/scheduler.py:112-116 | Among queued tasks of one campaign an edge is refused exactly when it would close a cycle |
| `SchedulingTheorems.SomeTaskIsReady` | liki/scheduler.py:134-138 | Unfinished work waiting only on itself always contains a task whose dependencies are done |
| `SchedulingTheorems.CompletedIsForever` | liki/scheduler.py:176-213 | A completed task stays completed |
| `SchedulingTheorems.CompletesAfterDependencies` | liki/scheduler.py:134-138 | A task completes only by a successful finish while running, and its dependencies had completed before |
| `SchedulingTheorems.BudgetsAreConserved` | liki/scheduler.py:80-93 | A campaign's allocation equals what its tasks keep and what its roots were given, within budget; each task's child allocation equals its children's budgets, within its own |
| `SchedulingTheorems.LeasesAndRetriesAreBounded` | liki/scheduler.py:128-165 | At most max_retries + 1 runs per task, one unreleased lease exactly while running, and live leases within the class limit |
| `SchedulingTheorems.ReleasedFenceIsDead` | liki/scheduler.py:169-197 | A released fence never finishes or extends anything again |
| `SchedulingTheorems.ClaimPicksReadyAndBest` | liki/scheduler.py:134-149 | The claimed task is ready and unbeaten in its pool |
| `AuditedStore.Store.Transition` | liki/store.py:72-129 | Appends and projects in one step, replays a recorded key, or fails unchanged |
| `AuditedStore.Store.Audit` | liki/store.py:159-186 | The audit loop and the projection comparison return the specified report or error |
| `EventStore.AuditAcceptsExactly` | liki/store.py:159-186 | The audit accepts exactly the logs whose every event links, hashes, shows its gate and counts its version correctly and whose projections are the last words |
| `EventStore.EveryHistoryAudits` | liki/store.py:72-129 | Any calls in any order, retried or not, leave a log that audits clean with gap-free versions and projections equal to the fold |
| `EventStore.RetriesAddNothing` | liki/store.py:88-92 | A retried operation key returns success unchanged for the same request hash and is refused for another, at any later time |
| `EventStore.NoLostUpdate` | liki/store.py:93-96 | Of two callers who read the same version the second is refused as a concurrent modification, whatever calls come in between and however often it retries, as long as nobody else uses its operation key |
| `EventStore.HeadFixesHistory` | liki/store.py:164-175 | Two genuine logs with one head hash are the same log field by field, unless the two logs themselves hold two different events with one hash or an event that hashes to the genesis marker |
| `EventStore.VerifiedHeadFixesTheStore` | liki/store.py:159-186 | Two stores that audit clean with one head have the same log and the same projections, unless their own events clash in that way |
| `PaperService.ReplayLedger` | liki/paper_service.py:381-388 | Replays the market by both bookkeepings with the new fill last; the disagreement branch never runs |
| `PaperService.PaperStore.Submit` | liki/paper_service.py:257-293 | Accepts a checked order with its reservation, answers a repeat, or fails unchanged |
| `PaperService.PaperStore.RecordFill` | liki/paper_service.py:343-405 | Stores the fill, position, cash entry, reservation and order state together, or fails unchanged |
| `PaperService.PaperStore.Cancel` | liki/paper_service.py:407-429 | Cancels a working order and frees exactly its working amount |
| `PaperService.PaperStore.MarkUnknown` | liki/paper_service.py:323-341 | Only a transition the lifecycle allows leads to reconciliation, and the reservation is kept |
| `PaperService.PaperStore.Reconcile` | liki/paper_service.py:216-241 | The restart barrier decides activity from data validity, unresolved orders and global latches |
| `PaperService.PaperStore.EmergencyStop` | liki/paper_service.py:457-520 | Latches, cancels every risk-increasing order in scope and sends every active run back to the barrier |
| `PaperService.PaperStore.Release` | liki/paper_service.py:522-551 | Only an owner ends a latch, and nothing becomes active by it |
| `PaperSafety.HistoryKeeps` | liki/paper_service.py:187-563 | Reservation, fill, position, pool and latch invariants hold after every history |
| `PaperTheorems.RiskIsConservedAndBounded` | liki/paper_service.py:279-292 | Every reservation is its working, position and released parts, pools never exceed the pinned limit, orders filled what their fills say, and positions are the summed signed fills |
| `PaperTheorems.StepFollowsLifecycle` | liki/finance/execution.py:96-106 | Stored orders move only along the transition table and terminal orders never change |
| `PaperTheorems.OrdersResumeOnlyAfterReleaseAndReconcile` | liki/paper_service.py:457-551 | Between a global stop and the next order accepted for a run lie the owner's release of that stop and then a successful reconciliation of that run |
| `PaperTheorems.StopLeavesOnlyUnknown` | liki/paper_service.py:494-519 | A stop leaves no working risk-increasing order in scope except those being reconciled, and frees their working risk |
| `PaperTheorems.StopHolds` | liki/paper_service.py:593-599 | While the latch holds nothing else in its scope ever works again |
| `PaperTheorems.StoppedUntilReleased` | liki/paper_service.py:457-551 | From a stop until that latch is released the latch holds, and no risk-increasing order in its scope works except those that were being reconciled when it came |
| `PaperCash.GrowingStampsBalance` | liki/paper_service.py:393-395 | If cash stamps grow with the writing order, every balance is the running total |
| `PaperCash.BalancedExactly` | liki/paper_service.py:393-395 | The newest-stamp rule keeps every balance equal to the running total exactly when, at each entry, the deltas written after the most recently stamped row cancel out |
| `LateWriter.LateWriterIsForgotten` | liki/paper_service.py:393-395 | A legal history of six operations: three fills of one order, each costing 1, stamped 2, 1 and 3, leave a stored balance of -2 |
| `PaperCash.CashIsExactWhenStampsGrow` | liki/paper_service.py:393-395 | Every history whose stamps grow keeps exact balances |
| `PaperCash.CashIsExactExactlyWhen` | liki/paper_service.py:343-405 | In every history the stored balances are the running totals exactly when no entry skips anything in that sense |
| `PaperCash.BalancesAreReplays` | liki/paper_service.py:381-395 | In every history each stored market replays without a refusal and the cash written for a run in a currency is the sum of the full replays of its markets; under growing stamps the latest stored balance is that sum too, and on books that skipped nothing so far it is exactly when nothing is skipped now |
| `InferenceStore.RequestRow.ClaimAttempt` | liki/inference_service.py:167-211 | A claim takes the next number and fence unless the request is answered or someone holds a live lease |
| `InferenceStore.RequestRow.ReserveCost` | liki/inference_service.py:213-232 | Reserves within the cap, declines, or fails unchanged |
| `InferenceStore.RequestRow.FinishAttempt` | liki/inference_service.py:234-275 | Settles the attempt once, as current or as a late duplicate, and moves reservation to accrual |
| `InferenceStore.RequestRow.ReconcileAttemptCost` | liki/inference_service.py:370-400 | Corrects a finished attempt's cost and reports whether it matched |
| `InferenceStore.RequestRow.MarkDecisionUseful` | liki/inference_service.py:402-422 | Promotes only the accepted attempt that is the request's answer |
| `Inference.CostsAndFencesAreExact` | liki/inference_service.py:167-275 | Reserved and accrued are exact sums over unfinished and finished attempts, fences count claims, one live lease at most, one answering attempt at most |
| `Inference.AnswerIsFinal` | liki/inference_service.py:241-262 | The completed attempt is written once |
| `Inference.OldFenceIsDead` | liki/inference_service.py:242-248 | After a newer claim an older attempt is never accepted |
| `Inference.CapHoldsExactly` | liki/inference_service.py:213-400 | A whole history stays within its cap at every moment exactly when each settlement of an open attempt and each new correction of a closed one exceeds the attempt's recorded cost by no more than the room then left under the cap |
| `Inference.CapHoldsThroughout` | liki/inference_service.py:213-400 | If no cost exceeds what was last reserved or recorded for its attempt, the cap holds over every history |
| `Inference.ReservationsDoNotBoundReconciliation` | liki/inference_service.py:370-400 | Keeping costs within their own reservations is not enough: six operations commit 18 under a cap of 10 |
| `TemporalSplits.PurgedKfold` | liki/statistics/validation.py:30-51 | The generator refuses exactly the invalid configurations and otherwise returns the specified folds |
| `TemporalSplits.CpcvSplits` | liki/statistics/validation.py:54-79 | The combinatorial generator returns one specified split per choice of test groups |
| `TemporalSplits.GroupsPartition` | liki/statistics/validation.py:39-43 | The boundaries cut the observations into consecutive pieces, each observation in exactly one |
| `TemporalSplits.FoldsPartitionTheTape` | liki/statistics/validation.py:40-50 | Every observation is tested by exactly one fold |
| `TemporalSplits.FoldTrainsExactly` | liki/statistics/validation.py:44-48 | A fold trains on exactly the observations outside its embargo whose events miss its test window |
| `TemporalSplits.FoldLeaksNothingExactly` | liki/statistics/validation.py:43-48 | A fold is leak free exactly when its embargo reaches the tape's end or outlasts every test event |
| `TemporalSplits.SplitTrainsExactly` | liki/statistics/validation.py:60-78 | A combinatorial split trains on exactly the observations outside every embargo whose events cover no moment of a selected group |
| `TemporalSplits.SplitLeaksNothingExactly` | liki/statistics/validation.py:60-78 | A combinatorial split leaks nothing exactly when every later observation that overlaps a test event is itself tested, embargoed, or has an event running into a later test moment |
| `TemporalSplits.EmbargoStopsLeaks` | liki/statistics/validation.py:30-51 | When no event is longer than the embargo no fold leaks |
| `TemporalSplits.EmbargoStopsLeaksAcrossGroups` | liki/statistics/validation.py:54-79 | The same for any set of test groups |
| `TemporalSplits.OneTestGroupIsKfold` | liki/statistics/validation.py:54-79 | With one test group the combinatorial splits are the purged folds |
| `TemporalSplits.GroupsAreTestedEqually` | liki/statistics/validation.py:62-65 | There are as many splits as choices of groups and every group is tested equally often |
| `Evaluator.DecideGate` | liki/evaluation.py:217-252 | The cascade of reassigned decisions and the rule loop compute the specified verdict |
| `Evaluator.CandidateStore.Gate` | liki/evaluation.py:170-261 | A gate call replays, refuses or writes exactly the specified candidate, log entry and operation |
| `Evaluator.CandidateStore.Reenter` | liki/evaluation.py:97-139 | Re-entry resets exactly a blocked candidate onto a new valid snapshot |
| `GateProgression.PassesExactly` | liki/evaluation.py:217-252 | A gate passes exactly when all its evidence stands and every metric is clear of its thresholds by more than the tolerance |
| `GateProgression.PassIgnoresRuleOrder` | liki/evaluation.py:239-252 | Reordering the rules never makes or unmakes a pass |
| `GateProgression.RulesFailExactly` | liki/evaluation.py:239-252 | From a pass the rules fail exactly when some metric is out of band and every earlier rule was clear |
| `GateProgression.FailureDependsOnRuleOrder` | liki/evaluation.py:248-252 | An input on which the order decides: the same rules and metrics fail one way and are borderline the other; the exact condition is the next row |
| `GateProgression.OrderMattersExactly` | liki/evaluation.py:239-252 | The same rules can be listed so that they fail and so that they do not exactly when some rule is out of band and some other one is neither clear nor out of band |
| `GateProgression.HardInvalidityFailsExactly` | liki/evaluation.py:221-234 | Hard invalidity fails the gate exactly when no later ceiling speaks over it, always below gate 10 |
| `HardInvalidity.HardInvalidityCanBlock` | liki/evaluation.py:192-234 | A history on which it does not fail: gates 0 to 10 pass, gate 11 sees a hard-invalid report that is not a sealed verdict and is recorded as blocked, and the candidate enters again on another snapshot |
| `GateProgression.StateProvesThePath` | liki/evaluation.py:192-199 | In every history, a candidate in the state of gate g has exactly g + 1 decisions since it last entered, the k-th a pass of gate k under its one snapshot |
| `GateProgression.EndsAreFinal` | liki/evaluation.py:192-199 | Failure and the borderline frontier are absorbing |
| `ReverseStress.LossGrows` | liki/portfolio.py:435-451 | The loss, feedback included, never falls as severity grows |
| `ReverseStress.ReverseStressSearch` | liki/portfolio.py:476-514 | The bisection's severity breaches and nothing 2^-80 below it does; it reports unreachable exactly when nothing in the range breaches |
| `Delivery.Outbox.Quarantine` | liki/outbox.py:77-83 | The loop quarantines exactly the expired leases of the topics |
| `Delivery.Outbox.ClaimNext` | liki/outbox.py:70-94 | Quarantines lost leases, then leases the ready row available longest |
| `Delivery.Outbox.FinishDelivery` | liki/outbox.py:104-142 | Settles a live lease, replays the same report, or refuses unchanged |
| `Delivery.SendsAndReceiptsAreBounded` | liki/outbox.py:84-142 | At most five sends per row, one receipt exactly for a delivered notification and none for other topics, no shared lease token |
| `Delivery.EndedIsFinal` | liki/outbox.py:70-142 | Delivered and quarantined rows never change |
| `Delivery.LostSendIsNeverRepeated` | liki/outbox.py:76-83 | An unanswered expired lease is never sent again nor counted as delivered |
| `Delivery.OldTokenIsDead` | liki/outbox.py:113-125 | A superseded token never finishes its row |
| `Delivery.FinishingTwice` | liki/outbox.py:113-132 | A lease is settled once: after any later history the same report returns the same status and changes nothing, another is refused, and both are refused once the row was leased anew, which only a row left pending can be |

## Left out

- Decimal rounding at 28 digits, and the float evaluation of `np.linspace`: boundaries are the exact floor of i*n/k.
- SQL text, connections, row-level security, credentials, migrations and token hashing: only the atomic effect of each transaction is kept.
- Pydantic validation beyond its bounds: bounds appear as `Valid` predicates and preconditions.
- Reason strings of order events and rejections: the events keep order, time and state; rejections keep their kind.
- The comparison of a computed fee with its own formula (liki/finance/backtest.py:196-197): in exact arithmetic it cannot fail, so it is not a branch of the model.
- Derivative, cross-currency and non-spot contracts: the program refuses them before a replay or run starts; instruments here are spot in one currency.
- The library sort is modelled as a stable insertion by timestamp, proved sorted and a permutation.
- Drawdown, tail loss, turnover and capacity figures of the report, and ranking of dominant failure paths in reverse stress.
- Fill identifiers that collide because an order id itself contains the separator: they are refused by the ledger like any repeated id.
- Operation keys shared across kinds of aggregates in the event log: each component keeps the keys it derives itself, so a key reused by another component is not modelled.
- Trial rows are kept by trial id only; their free-form operation keys, memory claims and retrieval ranking are not modelled.
- Task statuses the scheduler never writes (failed, killed and the two blocked ones), its activity label, and the allocator's decision records.
- Two database clocks: the scheduler, inference and delivery services read both the application's and the database's time; one nondecreasing clock stands for both.
- Equal stamps in the cash ledger: the query does not say which row it prefers; the model takes the one written first, and the positive result asks for growing stamps.
- `realized_pnl` across different paper orders filled at one time: the stored replay order depends on per-order sequence numbers; cash, position and equity are claimed.
- The paper simulator adapter, which turns a snapshot into a fill and then takes the modelled fill path.
- Provider adapters, circuits, manifests and the second storage backend of inference; one request is modelled at a time.
- A finish that names another request's attempt: `finish_attempt` looks the attempt up by its id alone (liki/inference_service.py:238-241), so it would move cost between requests. The model assumes callers pair an attempt with its own request.
- Snapshot creation, evidence verification and signatures of the evaluator: evidence arrives with the facts the gate reads.
- Notification records and receipts beyond the delivery row they belong to; outbox ids are integers in place of text for their order.
- Sequential z-tests, walk-forward splits, allocation, covariance, bootstrap and ruin simulation.
- HTTP, messaging, exchange and dashboard layers, backup and recovery.
