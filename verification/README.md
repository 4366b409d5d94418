# Verified model of the betting-capital engine

The repository stakes a simulated bankroll on football matches. Five pieces of
code describe that one idea: an event-time engine with wakes, lanes and a
waiting queue; a batch replay with an auditable ledger; a vectorised Monte
Carlo; a study path; and a persistent runtime of atomic transactions. Around
them stand a quota scheduler, a two-provider result protocol, a Pareto selector
of candidates, restartable bootstrap shards, week-block resampling, and metrics
read off an event ledger.

This project models those pieces in Dafny and proves what they promise: what
every step keeps, what whole runs conserve, that a fast form computes what a
simple form computes, that engines agree, and what an order of inputs cannot
change. Where a promise fails, the exact condition under which it holds is
proved instead.

Code that changes fields in place is a class or a method over arrays, proved
against functions on values; the properties are proved about those functions.
`hide` statements inside proofs only keep the solver's view small.

## Files

- `Common`, `Sums`, `Ordering`: options, finite sums, and sorting by rank with identity as the last tie-break.
- `Policies`: the seven staking policies.
- `Drawdowns`: what a running peak and a running drawdown say of the equities they were taken from.
- `EventPath`, `EventInvariants`, `EventCompletion`, `NoLookahead`, `WorkConservation`, `PlacementOrder`, `EventLedger`, `RecoveryAccounting`, `EventRun`, `EventReport`: the event-time engine.
- `Decisions`, `Replay`, `ReplayRows`, `SequenceLengths`, `LedgerMetrics`: the batch replay.
- `Simulation`, `SimulationRun`, `SimulationRefinesReplay`, `StressedScenarios`, `DrawnDecisions`: the Monte Carlo, its state vectors, its refinement of the replay, and what stress does.
- `Study`, `StudySafety`, `StudyLedger`, `Agreement`: the study path, and the agreement of three engines.
- `Runtime`, `RuntimeSafety`, `RuntimeResults`, `RuntimeRefinement`, `RuntimeFollowsEvents`: the persistent bankroll, and its refinement of the event-time engine.
- `ObservedMetrics`, `MetricsMeaning`, `TraceReconciles`, `Medians`, `Selector`, `SelectorMeaning`, `Shards`, `Resampling`: the experiments, and the audit of every trace against its own path.
- `Admission`, `PlannerReserve`, `ResultProvider`, `ResultConflicts`: quota admission, the reserve behind it, and the result protocol.

`dafny verify dfyconfig.toml` checks everything.

## Numbers and time

Money, prices and probabilities are exact reals; instants are whole
microseconds in UTC. ROUND_CEILING is kept where the code rounds on purpose.
Identities are integers of which only equality and order matter.

## Where the code and its promises part

- Settling from the policy memory stored at placement (football/capital/runtime.py:842) is settling from the live memory in every run exactly when two recovery positions can never be open at once, or no first bet can ever be placed: `RuntimeRefinement.StoredIsLiveIff`. With two lanes and a recovery policy the second of two losses erases the first: `RuntimeRefinement.LostUpdate`. The provisioned recovery configurations use one lane.
- A fixture payload that is not terminal overwrites a terminal match (football/sync.py:533-548): `ResultProvider.SyncKeeps` gives the exact condition, `ResultProvider.LivePayloadOverwrites` the failure.
- The circuit breaker on admitted calls (football/capture/planner.py:577-590) reserves nothing: what it does to a critical item depends only on how many calls were admitted in front (`Admission.BreakerRefuses`). In the order the planner makes, critical items come first and no optional item ever takes a critical item's call (`Admission.SortedProtects`). Only a list in another order, which football/capture/planner.py:86 never leaves and football/capture/executor.py:152 keeps, would let that happen: `Admission.UnsortedTakes` says exactly when.
- A request larger than the bankroll ends the replay, while the study path passes over it and the event-time engine lets it wait until it expires. On every sequential stream the event-time engine and the study path end alike; the replay's verdict is theirs exactly when every request was covered or bets have ended anyway (`Agreement.EnginesAgree`). `Agreement.ReplayStopsShort` is a stream, with a lag of 120 minutes and a study settlement two hours after kickoff, on which the replay stops at 100 and the other two win 10.
- The reserve (football/quota.py:313-342) foresees every fixture refresh of the plan made from the same facts, but of the final quotes it misses those of matches that were captured before for another kickoff: the plan asks by match and kickoff (football/capture/planner.py:421-427), the reserve by match alone (football/quota.py:249-254). `PlannerReserve.PlanForeseen` gives the exact condition, `PlannerReserve.DelayedUnforeseen` a delayed match. Within one plan this harms no critical item, since they come first.
- The length of a closed recovery sequence (football/capital/policies.py:111-122) is the step of the request that closed it, and all bets of one instant share a step. It counts the bets settled since the sequence began whenever no two bets stand in one batch, which football/capital/replay.py:36-39 demands of recovery policies (`SequenceLengths.LengthsCount`); a batch counts right for every result if and only if it has at most one bet (`SequenceLengths.CountsRightIff`).

## Model

| member | source | states |
|---|---|---|
| Ordering.Sort | football/experiments/capital_events.py:151-154 | sorting by repeated extraction of the least row yields the one order that rank and identity allow |
| Ordering.OrderUnique | football/experiments/capital_events.py:82-84 | a strict total order: any sorted listing of the same identities is the same listing |
| Policies.Ceiling | football/capital/policies.py:150-152 | the least integer that is not below the amount |
| Policies.RequestSound | football/capital/policies.py:67-275 | every policy's request is non-negative, capped exactly when it applies less than it asks, positive whenever it may be, and only a capped policy terminates |
| Policies.SettleFits | football/capital/policies.py:111-127 | settling keeps the recovery memory well formed |
| EventInvariants.SettleOneCash | football/experiments/capital_events.py:155-186 | releasing a reserve and booking its result keeps reserves equal to the open stakes and covered by equity |
| EventInvariants.PlaceWithCash | football/experiments/capital_events.py:201-271 | every branch of a placement turn keeps cash safe |
| EventInvariants.StepInv | football/experiments/capital_events.py:147-276 | one wake keeps cash, lanes, clock, and one status for each opportunity that has arrived |
| EventInvariants.PlayInv | football/experiments/capital_events.py:147-276 | all of that holds after any number of wakes |
| EventCompletion.WakesIncrease | football/experiments/capital_events.py:147-150 | wakes happen at strictly increasing instants |
| EventCompletion.FallsSilent | football/experiments/capital_events.py:114-116 | twice as many wakes as opportunities are enough: the loop ends |
| EventCompletion.PathComplete | football/experiments/capital_events.py:277-285 | every opportunity ends with exactly one final status, nothing is open or waiting, nothing is reserved |
| EventCompletion.CashSafety | football/experiments/capital_events.py:136-145 | at every moment reserves are the open stakes, lie between zero and equity, drawdown lies in [0, 1], and depletion means no equity and nothing open |
| NoLookahead.NoLookaheadUntil | football/experiments/capital_events.py:147-276 | wake by wake, two opportunity sets with the same past stay in the same state |
| NoLookahead.NoLookahead | football/experiments/capital_events.py:147-276 | whole runs: the state after all wakes up to t depends only on executions and settled outcomes up to t |
| NoLookahead.SeenSometime | football/experiments/capital_events.py:147-276 | every path comes to a moment at which all its wakes up to t are over |
| NoLookahead.SamePastSameState | football/experiments/capital_events.py:147-276 | so for every t, two opportunity sets with the same past up to t both reach t, in the same state |
| WorkConservation.WorkConserving | football/experiments/capital_events.py:187-252 | an executable bet expires for capacity if and only if at every wake of its window its turn found all lanes full or a fresh request above the available cash, and the path went on |
| PlacementOrder.TurnsByValue | football/experiments/capital_events.py:194-201 | in the ledger of every path, of two turns at one instant the first belongs to the bet with the larger product of probability and price, on a tie to the earlier kickoff, then to the smaller identity |
| PlacementOrder.NeverOvertaken | football/experiments/capital_events.py:201-252 | a bet that finds every lane taken is never overtaken by a worse one: whatever is placed at that instant was better and came first |
| EventLedger.PathTells | football/experiments/capital_events.py:155-283 | in the ledger of every whole path each settlement closes an earlier placement at the lag after kickoff, by the result of the match, and hands it to the policy; settlements stand in order of time and identity; every placement is settled; stakes, total and cap hits are those of the placements; what still waits expires in order of kickoff |
| RecoveryAccounting.EveryRequestCloses | football/capital/policies.py:139-254 | what a win now would earn for the open sequence: at least the target under full recovery, the target less shortfall times odds when capped, the target less the given-up share of the losses when partial |
| RecoveryAccounting.PathAudited | football/experiments/capital_events.py:155-162 | equity is the initial bankroll plus every realised result, and carried loss plus equity is the initial bankroll plus the gains of closed sequences |
| RecoveryAccounting.OneLaneSequences | football/experiments/capital_events.py:155-162 | with one lane every won settlement of every path was priced by the memory it settles |
| RecoveryAccounting.PricedWins | football/experiments/capital_events.py:174-182 | each won settlement in such a ledger closed its sequence at exactly its price |
| RecoveryAccounting.SequenceEarns | football/capital/policies.py:117-158 | with one lane the target fixed by the first bet of a sequence is the target of every bet up to the win that closes it, and that win is measured against it |
| RecoveryAccounting.PotentialNeverFalls | football/capital/policies.py:117-158 | under full recovery with one lane, equity plus accumulated loss never falls |
| EventRun.EventRun.SettleDue | football/experiments/capital_events.py:151-186 | the settlement loop on the fields does what the settlement of one wake is specified to do |
| EventRun.EventRun.Place | football/experiments/capital_events.py:201-271 | one placement turn on the fields |
| EventRun.EventRun.HandleWake | football/experiments/capital_events.py:147-276 | one whole wake on the fields |
| EventRun.EventRun.ExpireRest | football/experiments/capital_events.py:277-283 | late expiry and the open underwater spell |
| EventRun.RunToEnd | football/experiments/capital_events.py:87-283 | the wake loop over groups and scheduled instants computes the specified path |
| EventRun.RunEventPath | football/experiments/capital_events.py:87-310 | the report of that path, or the reason the input is refused; structural completeness always holds |
| EventRun.UniqueCount | football/experiments/capital_events.py:97-98 | as many identities as opportunities exactly when no identity is repeated |
| EventRun.ListingOrderIrrelevant | football/experiments/capital_events.py:87-310 | listing the opportunities in another order changes neither the trace nor any metric; the loops see the list only through its identities, each wake sorting by a strict total order (Ordering.OrderUnique, EventRun.RunToEnd) |
| EventReport.ReportMeans | football/experiments/capital_events.py:286-310 | the return and the yield of every path are the profit in its ledger over the initial bankroll and over all it staked; it is ruined exactly without equity, and passes exactly with equity and a policy that never gave up |
| EventReport.CandidateMeans | football/experiments/capital_events.py:32-36 | a candidate is accepted exactly with its policy's version and a positive number of lanes |
| EventReport.VersionsTell | football/capital/policies.py:13-21 | two policies share a version exactly when they are of the same kind |
| Decisions.NoFlaw | football/capital/replay.py:15-30 | a validated basis has no flawed decision |
| Decisions.GroupingKeepsAll | football/capital/replay.py:60-63 | grouping by time loses and reorders nothing |
| Decisions.GroupingBatches | football/capital/replay.py:60-63 | each batch has one time and neighbouring batches differ |
| Replay.AskAll | football/capital/replay.py:64-71 | all requests of a batch see the same bankroll and memory |
| Replay.SettleAll | football/capital/replay.py:118-132 | the settlement loop of one batch |
| Replay.RunBatch | football/capital/replay.py:63-155 | one batch stops, fails for lack of capital, or settles together |
| Replay.RunReplay | football/capital/replay.py:60-155 | the batch loop with its early exits is the fold over all batches |
| Replay.TerminatedStays | football/capital/replay.py:88-89 | once stopped, later batches change nothing |
| Replay.ReplayDecisions | football/capital/replay.py:42-155 | a list of decisions is replayed exactly when it is usable |
| ReplayRows.EveryBatch | football/capital/replay.py:60-155 | every batch adds one row for each slot: all standing as asked when the policy gives up, all unstaked when the requests exceed the bankroll, and otherwise all paid from the bankroll in front of the batch, the memory passing from slot to slot |
| SequenceLengths.LengthsCount | football/capital/policies.py:111-122 | over every replay with at most one bet in a batch, each closed length is the number of bets settled since the sequence began |
| SequenceLengths.CountsRightIff | football/capital/replay.py:118-132 | a batch counts its bets right for every result if and only if it has at most one |
| LedgerMetrics.LedgerTotals | football/capital/metrics.py:21-37 | largest stake and ratio, cap hits, ruin flag and total of a ledger |
| LedgerMetrics.WorstFall | football/capital/metrics.py:39-57 | peak and drawdown over the bankroll after each batch |
| LedgerMetrics.LosingStreak | football/capital/metrics.py:59-67 | the longest run of lost stakes |
| LedgerMetrics.LongestAttained | football/capital/metrics.py:59-67 | the reported streak is a run of lost stakes that occurs in the ledger |
| LedgerMetrics.LongestBounds | football/capital/metrics.py:59-67 | no run of lost stakes in the ledger is longer |
| LedgerMetrics.MaxStakeIsMax | football/capital/metrics.py:21-28 | the reported stake bounds every stake and is one of them, unless nothing was staked |
| LedgerMetrics.DeterministicMetrics | football/capital/metrics.py:13-75 | all of these together |
| LedgerMetrics.DrawdownCovers | football/capital/metrics.py:45-57 | no later bankroll lies below its kept share, one minus the drawdown, of any earlier one |
| LedgerMetrics.ReplayConserves | football/capital/replay.py:118-152 | the bankroll is the initial one plus every profit and loss in the ledger |
| Simulation.ScenarioBets | football/capital/simulation.py:87-112 | stress and draws change which bets win, not how many there are |
| SimulationRun.Vectors.AskOne | football/capital/simulation.py:87-117 | the vector of answers to one bet, and the cap counters |
| SimulationRun.Vectors.SettleRecovery | football/capital/simulation.py:254-276 | the masked memory updates, path by path |
| SimulationRun.Vectors.AskAll | football/capital/simulation.py:81-121 | the request loop of a batch, every path asked from its own state before the batch |
| SimulationRun.Vectors.TakeAll | football/capital/simulation.py:130-165 | the settlement loop of a batch on every path |
| SimulationRun.Vectors.RunBatch | football/capital/simulation.py:79-179 | one batch on all vectors is one batch on each path alone |
| SimulationRun.RunBatches | football/capital/simulation.py:63-179 | path i depends on its own draws only |
| SimulationRun.Simulate | football/capital/simulation.py:32-179 | which inputs are refused and why; otherwise every path is computed |
| SimulationRun.RefusalMeans | football/capital/simulation.py:32-62 | a simulation is refused exactly for its decisions, their probabilities, the bankroll, the number of paths or the stress, the first of these deciding |
| SimulationRefinesReplay.RequestsAgree | football/capital/simulation.py:204-251 | the vectorised request is the policy's own request |
| SimulationRefinesReplay.PathIsReplay | football/capital/simulation.py:79-179 | for every policy, stress and draws, a path ends with the bankroll, termination, ruin, cap hits, largest stake, largest ratio and drawdown of the replay of its scenario |
| SimulationRefinesReplay.SimulationIsReplay | football/capital/simulation.py:32-179 | the same for every path of a validated list of decisions |
| DrawnDecisions.CalmPathIsReplay | football/capital/simulation.py:32-179 | without stress path i reports what replaying the same decisions reports when each has the outcome drawn for it; those decisions are a valid basis |
| SimulationRefinesReplay.NoStress | football/capital/stress.py:25-34 | without stress a path sees the quoted price and probability |
| StressedScenarios.StressMeans | football/capital/stress.py:25-34 | a bet wins under stress if and only if its draw lies below its probability by more than the loss of probability and its place among the bets lies outside the forced losses; a unit won pays the quoted odds less the haircut |
| StressedScenarios.HarsherWinsLess | football/capital/simulation.py:87-117 | for the same draws, what is won under a harsher stress is won under a milder one, at no smaller odds |
| StressedScenarios.BetsCounted | football/capital/simulation.py:87-112 | the place of a bet counts every bet in front of it |
| Study.StudyRun.SettleDueRows | football/capital/studies.py:179-229 | the settlement loop of the study path |
| Study.StudyRun.ConsiderCandidate | football/capital/studies.py:240-328 | every branch of one candidate's turn |
| Study.StudyRun.RunPath | football/capital/studies.py:163-329 | the whole study path, from sorting to the last settlement |
| StudySafety.StudySafe | football/capital/studies.py:163-329 | before every candidate and at the end, reserves are the open stakes and covered by equity, lanes are respected, equity is the initial bankroll plus the profits in the ledger, and every placement is counted once |
| StudyLedger.EveryTurn | football/capital/studies.py:240-328 | just before its turn everything due is settled; the candidate then gets its one answer, and is refused for lack of cash exactly when the request exceeds the initial bankroll plus all recorded profits less the stakes still open |
| StudyLedger.StudyTells | football/capital/studies.py:163-329 | the ledger of every whole path: candidates from best to worst, no settlement early or overtaken, every placement settled exactly once by the result of its place, the memory passing from settlement to settlement, peak and drawdown those of the recorded equities, and active until the first row that stops it |
| Agreement.ReplayAgrees | football/capital/replay.py:60-155 | on a sequential stream of bets and NO_BET decisions the replay is the plain fold up to the first request the bankroll does not cover, and stops there |
| Agreement.StreamBatches | football/capital/replay.py:33-63 | the decisions of such a stream are a valid basis, one in each batch |
| Agreement.StudyAgrees | football/capital/studies.py:239-329 | the study path is that fold over the whole stream, which passes over a request it cannot fund |
| Agreement.EventAgrees | football/experiments/capital_events.py:147-276 | so is the event-time path, whatever its lag, as long as each bet settles before the next decision |
| Agreement.EnginesAgree | football/capital/studies.py:163-329 | event-time and study path always end with the same equity, memory and verdict; the replay has the same money when every request was covered, and the same verdict exactly then or when bets have ended |
| Agreement.ReplayStopsShort | football/capital/replay.py:91-113 | a stream, with the code's own lag and study settlement, on which the replay has stopped at 100 and the other two end at 110 |
| Runtime.Runtime.PlaceCandidate | football/capital/runtime.py:455-672 | one placement transaction on the stored rows, branch by branch |
| Runtime.Runtime.SettlePosition | football/capital/runtime.py:831-909 | one settlement transaction on the stored rows |
| RuntimeSafety.PlaceKept | football/capital/runtime.py:597-672 | a placement keeps rows linked and money straight, and never leaves negative cash |
| RuntimeSafety.SettleKept | football/capital/runtime.py:831-909 | so does a settlement, which fails only on a foreign result or an unknown position |
| RuntimeSafety.OnePositionPerMatch | football/capital/runtime.py:471-475 | linked rows hold at most one position for a match |
| RuntimeSafety.EveryRunSafe | football/capital/runtime.py:455-909 | over every interleaving: reserves are the open stakes, equity is the initial bankroll plus realised results, lanes are respected, one position per match, and neither invariant error occurs |
| RuntimeSafety.RunForward | football/capital/runtime.py:471-475 | final states never leave, settled positions never change, ruin and peaks never go back |
| RuntimeSafety.SettledOnce | football/capital/runtime.py:842-843 | a settled position is not settled again |
| RuntimeResults.AttemptAnswered | football/capital/runtime.py:455-672 | every attempt on every reachable account, answered from its rows: a final state stands, a waiting one uses the evidence stored for it, and every refusal names its reason, evidence and instant |
| RuntimeResults.SettledFromPlacement | football/capital/runtime.py:831-881 | whatever happened in between, a settlement releases and pays the stake that the placement asked for, and hands the result to the policy with the memory of the placement; a void result moves no money and brings that memory back |
| RuntimeResults.VoidUndoes | football/capital/runtime.py:851-854 | with one lane, placing a bet and then finding its match void gives back equity, reserve and memory, for every policy |
| RuntimeResults.RunPeaks | football/capital/runtime.py:879-885 | after every run the peaks are the largest equity and reserve the account ever had, and the drawdown is the largest share by which equity ever fell below an earlier one |
| RuntimeResults.RunEnds | football/capital/runtime.py:886-893 | every run is active until it has no equity and may not restart, or a capped policy gives up, and says which |
| RuntimeRefinement.StoredIsLive | football/capital/runtime.py:849-881 | with one lane or a stateless policy, settling from the stored memory is settling from the live one in every run |
| RuntimeRefinement.LostUpdate | football/capital/runtime.py:848-881 | two recovery positions open at once, both lost: the stored memory forgets the first loss |
| RuntimeRefinement.StoredIsLiveIff | football/capital/runtime.py:848-881 | the two agree in every run if and only if there is one lane, a stateless policy, or no first bet can be afforded |
| RuntimeFollowsEvents.PlaceMirrors | football/capital/runtime.py:455-672 | one placement call does to the stored rows what one turn of the engine does, on every branch |
| RuntimeFollowsEvents.SettleMirrors | football/capital/runtime.py:831-909 | one settlement call, from the stored memory, does what one settlement of the engine does |
| RuntimeFollowsEvents.PlayFollows | football/capital/runtime.py:455-909 | after any number of wakes of any path some run of calls in order of time stands where the engine stands, opportunity by opportunity |
| RuntimeFollowsEvents.RuntimeFollows | football/capital/runtime.py:455-909 | every whole path is a run of calls in order of time, each offering an opportunity that has executed or reporting a result that is due: same equity, reserve and memory, and the same fate for every opportunity, with one lane or a policy without memory |
| ObservedMetrics.Walk.Advance | football/experiments/economic_metrics.py:36-47 | closes every day up to the target and accrues the reserve exactly |
| ObservedMetrics.Walk.Read | football/experiments/economic_metrics.py:49-65 | the first thing wrong with a row, or the step function and the extremes extended by it |
| ObservedMetrics.DeriveObserved | football/experiments/economic_metrics.py:14-114 | exactly the asked number of closes, each the equity after the last event strictly before it, the time integral of the reserve, and the extremes; or the first figure of the report that the ledger does not bear out |
| ObservedMetrics.Walk.Reconcile | football/experiments/economic_metrics.py:83-114 | the report against the walk, figure by figure, in the order of the code |
| ObservedMetrics.CloseMeans | football/experiments/economic_metrics.py:20-47 | that last event is the latest instant, and the last ledger row at that instant |
| ObservedMetrics.CloseInitially | football/experiments/economic_metrics.py:23-47 | without an earlier event a close is the initial equity |
| MetricsMeaning.FallsMean | football/experiments/economic_metrics.py:36-47 | each daily fall is the share of the highest close so far by which the close lies below it |
| MetricsMeaning.CloseIsDaily | football/experiments/economic_metrics.py:31-45 | the k-th close is the equity at the end of the k-th whole day, before what happens at that instant |
| MetricsMeaning.BoundsMean | football/experiments/economic_metrics.py:60-61 | the least equity and cash and the largest reserve are those of the rows and of the start |
| MetricsMeaning.AreasAdd | football/experiments/economic_metrics.py:36-47 | the area of the reserve over a time is the sum of the areas over its parts |
| MetricsMeaning.ReturnMeans | football/experiments/economic_metrics.py:93-96 | the return is the gain in units of the initial equity |
| MetricsMeaning.MeanOfConstant | football/experiments/economic_metrics.py:134 | the mean over whole days of a reserve that does not change is that reserve |
| MetricsMeaning.DrawdownMeans | football/experiments/economic_metrics.py:61-68 | the peak is the largest settled equity, and the drawdown the largest share by which a settled equity ever lies below an earlier one |
| MetricsMeaning.SpellsMean | football/experiments/economic_metrics.py:69-80 | the underwater time is the longest time from a settled row below the peak to a later one with nothing at the peak in between, and the recovery time the longest of these that ends at the peak |
| TraceReconciles.PlayReconciles | football/experiments/capital_events.py:155-271 | after any number of wakes the ledger bears out equity, reserve, peak, drawdown, least cash, largest reserve and underwater time |
| TraceReconciles.TracePasses | football/experiments/economic_metrics.py:49-114 | every trace of the engine inside the horizon passes every check of the audit, the duration exactly when closing an open underwater spell at the given terminal instant or at the last wake makes no difference |
| Admission.Admit | football/capture/planner.py:525-594 | the admission loop rewrites the items in place as specified |
| Admission.RevalidateUnderLock | football/capture/executor.py:88-157 | revalidation followed by admission under the fresh quota |
| Admission.WithinBudget | football/capture/planner.py:525-594 | at most as many calls planned as are left and as the circuit breaker allows; the reserve's total stays the sum of its parts |
| Admission.OnlyShrinks | football/capture/planner.py:535-586 | admission only turns planned items away |
| Admission.StaleEpoch | football/capture/planner.py:531-570 | in a stale epoch at most one call is planned, and it is critical |
| Admission.BudgetSpent | football/capture/planner.py:525-594 | after any admission what is left of quota and attempts is what the basis granted less the calls planned |
| Admission.OptionalNeverStarves | football/capture/planner.py:556-594 | when the reserve foresees the critical work, an optional admission never makes a later critical item be refused for quota |
| Admission.BreakerRefuses | football/capture/planner.py:572-590 | for any list, basis and reserve: a planned critical item is refused by the breaker, or for quota, exactly by the number of calls admitted in front of it |
| Admission.BreakerUnmet | football/capture/planner.py:577-590 | a plan no larger than the breaker's allowance meets no refusal by it |
| Admission.ForeseenFate | football/capture/planner.py:556-594 | the fate of a critical item that the reserve foresaw, from the quota and the counts of planned items in front of it |
| Admission.SortedCriticalFirst | football/capture/planner.py:86-87 | the planner's sort keys put planned critical items first, wherever unplanned ones stand |
| Admission.SortedProtects | football/capture/planner.py:86-87 | in that order a critical item fares as if there were no optional items |
| Admission.UnsortedTakes | football/capture/planner.py:577-590 | in any other order an optional item takes a foreseen critical item's call exactly when the breaker's allowance lies between the two counts |
| PlannerReserve.PlanCounts | football/capture/planner.py:279-458 | planned fixture refreshes never exceed the fixture reserve; planned quotes differ from the quotes owed by recaptures and spare ones |
| PlannerReserve.OwedIsAsked | football/quota.py:217-257 | of a match whose quote nobody has touched, the reserve holds back a final quote if and only if none was captured and a plan made at some later instant of the epoch asks for it |
| PlannerReserve.FixturesExact | football/quota.py:186-215 | before anything was tried, the reserve holds back exactly the fixture refreshes that the plan asks for |
| PlannerReserve.QuoteItemsMore | football/capture/planner.py:346-458 | every enabled match that kicks off within the horizon gets one item, priced at one call exactly when it is asked for |
| PlannerReserve.StatusMeans | football/capture/planner.py:346-458 | an untouched quote is due from ten until two minutes before kickoff, early before that and missed after it |
| PlannerReserve.PlanForeseen | football/quota.py:313-342 | the reserve foresees the plan, in any order, exactly when quotes owed but not asked for make up for those of matches captured before for another kickoff |
| PlannerReserve.DelayedUnforeseen | football/quota.py:249-254 | a delayed match whose second quote is planned without any reserve |
| Admission.AdmitAgain | football/capture/executor.py:152-157 | admitting an admitted list again under the same quota changes nothing |
| Admission.RevalidationShrinks | football/capture/executor.py:88-157 | under the lock the plan can only shrink, and stays within the fresh quota |
| Admission.RevalidationMeans | football/capture/executor.py:93-149 | a planned item survives revalidation exactly when its window is open, its identity stands and its match still needs it; otherwise it costs nothing and says why |
| Admission.ResultCheckFirst | football/quota.py:262-278 | a result is looked up at the first three-minute wake at or after its deadline, an overdue one now |
| Medians.ThresholdDropsLargest | football/experiments/economic_selector.py:49-56 | the least leave-one-out median is the median without one largest value |
| Medians.ThresholdForgets | football/experiments/economic_selector.py:53-56 | the threshold does not depend on the order of the values |
| Medians.SomeMeetThreshold | football/experiments/economic_selector.py:53-56 | some value meets it |
| Medians.ScaleForgets | football/experiments/economic_selector.py:59-65 | neither does the scale depend on the order |
| Medians.ScaleMeans | football/experiments/economic_selector.py:59-65 | the scale is the largest of the interquartile range by linear interpolation, the median deviation from the median, and the tolerance |
| Selector.Select | football/experiments/economic_selector.py:68-325 | exactly one candidate is chosen and every other one is told why not |
| Selector.OneWinner | football/experiments/economic_selector.py:207-281 | there is only one winner |
| Selector.WinnerOnFrontier | football/experiments/economic_selector.py:207-230 | with a positive return the winner has the best tier and nobody in it dominates the winner |
| Selector.OffFrontier | football/experiments/economic_selector.py:213-230 | every row of the tier off the frontier is dominated by a row on it |
| Selector.WinnerInBudget | football/experiments/economic_selector.py:231-265 | the winner meets the risk budget when anyone does and then has the best return among those; otherwise it exceeds the budget least |
| Selector.WinnerForgetsOrder | football/experiments/economic_selector.py:207-281 | the winner does not depend on the order of the candidates |
| Selector.SelectionForgetsOrder | football/experiments/economic_selector.py:68-281 | the same for the candidates themselves: listing them in another order selects the same one |
| Selector.ReasonMeans | football/experiments/economic_selector.py:306-325 | what each reason for not being selected says about a row |
| SelectorMeaning.RowMeans | football/experiments/economic_selector.py:164-190 | a row states the least return, the greatest drawdown and the greatest tail loss of its candidate, each of which occurs, and the best tier that this worst case merits |
| SelectorMeaning.WinnerAffordable | football/experiments/economic_selector.py:213-252 | if anyone on the frontier is affordable, the winner is, and comes before every other affordable one by return, loss, drawdown, placements and index |
| SelectorMeaning.WinnerLeast | football/experiments/economic_selector.py:253-266 | if nobody there is affordable, the winner exceeds the robust budget least, in units of the frontier's spread, and comes first among those who exceed it as little |
| SelectorMeaning.WinnerIdle | football/experiments/economic_selector.py:267-282 | without a positive return a row that breaks even wins if there is one, and the best row otherwise |
| Shards.Workspace.Execute | football/experiments/capital_runner.py:358-380 | what is there is verified, what is missing is computed, nothing is overwritten |
| Shards.Workspace.Collect | football/experiments/capital_runner.py:423-461 | gap filling ends in a contiguous chain over the whole range |
| Shards.Reduce | football/experiments/capital_runner.py:399-420 | a chain reduces to the scores of the whole range |
| Shards.ChainIsBootstrap | football/experiments/capital_runner.py:399-420 | joining a chain is the bootstrap of its range |
| Shards.Workspace.DesignScores | football/experiments/capital_runner.py:423-462 | resuming succeeds exactly when shards are intact, disjoint and estimable, and then equals one run from scratch |
| Resampling.WeeksAhead | football/experiments/capital_analysis.py:21-25 | whole weeks later it is the same moment of the week |
| Resampling.CalendarCovers | football/experiments/capital_analysis.py:28-35 | every opportunity executes in a week of the calendar |
| Resampling.CalendarTight | football/experiments/capital_analysis.py:28-35 | the calendar begins and ends with a week in which something executes |
| Resampling.DrawMeans | football/experiments/capital_analysis.py:38-47 | a draw is valid exactly when its blocks are as few as fill the calendar and each of them fits into it |
| Resampling.SourceAt | football/experiments/capital_analysis.py:66-68 | each destination week is taken from its block's start plus its place in the block |
| Resampling.SampledPath | football/experiments/capital_analysis.py:57-81 | the bucket and translation loops compute the sampled path |
| Resampling.BootstrapPath | football/experiments/capital_analysis.py:38-81 | for every valid draw: one source week for each destination, unique copies, each in its destination week with its offset and time to kickoff, as many as the chosen weeks hold |
| ResultProvider.ResultDesk.RecordReport | football/result_provider.py:154-309 | one report recorded on the stored rows, branch by branch |
| ResultConflicts.ContradictionsNoticed | football/result_provider.py:125-309 | a report gets a conflict exactly when it recants the provider's own latest result without converging, differs from the other provider's thirty minutes after the first row, or is overruled by the match; it stays pending exactly when it differs earlier or from the other side; only an undisputed authoritative terminal report touches the match, and how |
| ResultConflicts.ReportFiled | football/result_provider.py:205-284 | a new report becomes one row of its own content, authoritative exactly when nothing contradicts it and in conflict exactly when the verdict says so; other rows change at most the doubt about the first one |
| ResultConflicts.ReportRefiled | football/result_provider.py:205-284 | a report stored before gets no second row; its row only gains a conflict |
| ResultConflicts.PayloadMeans | football/sync.py:484-548 | a terminal payload never touches a terminal match: a different regulation result is recorded as a report, the same one not at all |
| ResultProvider.ResultDesk.SyncPayload | football/sync.py:485-548 | one fixture payload against the stored match |
| ResultProvider.RecordKeeps | football/result_provider.py:187-309 | recording clears no conflict, regains no authority and never changes a terminal result |
| ResultProvider.SyncKeeps | football/sync.py:485-548 | a terminal match keeps its result under a sync exactly when the payload is terminal, whatever it says |
| ResultProvider.LivePayloadOverwrites | football/sync.py:533-548 | a live payload does overwrite a terminal match |
| ResultProvider.FlagsOneWay | football/result_provider.py:187-309 | over any sequence of reports and syncs conflicts stay and authority is never regained |
| ResultProvider.TerminalStays | football/result_provider.py:266-309 | over any sequence without a live payload a terminal status, outcome and regulation score never change |
| ResultProvider.ResultsLastIff | football/sync.py:485-548 | over any sequence terminal results last if and only if no live payload reaches a terminal match |
| ResultProvider.AuthorityAgrees | football/result_provider.py:266-309 | under the same condition every authoritative terminal result agrees with the match, and so with every other one |

## Left out

- Decimal context rounding, stored column precision and binary floating point: exact reals are used throughout, so the reconciliation checks that exist only for rounding are not modelled.
- Traces: counters by event kind, JSON forms, hashes, source and competition identifiers, audit texts and diagnostics are not part of the model; the ledger keeps the economic facts.
- Configuration parsing of policies, candidates and stress: valid configurations are inputs.
- A missing model probability reads as zero for policies that do not use one.
- Simulate: tail level, drawdown thresholds and the distribution statistics are not modelled; random draws are an arbitrary matrix.
- DeterministicMetrics: durations, amounts, sequence distributions and return ratios are not modelled, and the incomplete-sequence count is carried by the replay only.
- Study.StudyRun.RunPath: the result of a placed candidate is an arbitrary function of the candidate and of how many were placed before it, which covers canonical results and draws alike.
- Runtime.Runtime.PlaceCandidate: admission reasons and clock readings are inputs of each call, selected prices are above one, and creation times, audit copies of cash and result-check scheduling are not modelled; `settle_observation` only repeats `settle_position`.
- The completed, degraded and historical states of a runtime configuration are set elsewhere and are not part of this model.
- DeriveObserved: weekly losses, tail averages and concentration are not modelled; the terminal instant is an input.
- TraceReconciles: the traces are those of football/experiments/capital_events.py; the variant with a depletion gate in football/experiments/integrated_events.py is not part of this model.
- Select: tail means and bootstrap medians of the score matrices are inputs of each candidate, warnings and publication fields are not modelled.
- Shards.Workspace.DesignScores: file locks, JSON and hashing are replaced by a seal that, when intact, guarantees the content.
- RuntimeFollowsEvents.RuntimeFollows: a configuration that may be restarted goes on with an empty bankroll, where the engine stops, so nothing is said about its calls after that.
- EventRun.RunEventPath: counters by event kind, the least and mean stake and the ledger hash of the report are not modelled.
- PlannerReserve: stored rows are given as facts, the lists are built by functions, and plans restricted to one match, purpose or window are not modelled.
- Admission: provider clients and the execution of admitted items are not modelled.
- ResultProvider: normalisation of BSD payloads, identity mapping and provenance texts are not modelled; a match has one stored row.
- Time zones: Lima is five hours behind UTC; of the planner's sort only its first key, the priority class, is modelled, because admission is proved for any order.
- Locks, queues, HTTP, the admin, views and publication of artifacts.
