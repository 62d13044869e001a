# A Dafny model of the incident lab control plane

The lab lets one learner start an exercise, diagnose an injected fault, mitigate it and have the
outcome graded. This project models the Go code that decides all of that, in Dafny, and proves what
it promises over every run:

| file | component |
|---|---|
| `Runtime.dfy`, `RuntimeManager.dfy` | the exercise lifecycle and grading: as functions on values, and as a class whose methods are the sections under the manager's lock |
| `RuntimeInvariant.dfy`, `RuntimeTheorems.dfy` | the invariant of every reachable installation, and the theorems that follow |
| `RuntimePaths.dfy`, `Attainment.dfy` | what a learner can attain |
| `AlertOrder.dfy`, `VerdictExpression.dfy` | the order of alert verdicts, and the expression they belong to |
| `Outcomes.dfy`, `Grades.dfy`, `Deployed.dfy` | when each operation succeeds and what it leaves, what a check decides and pays, and what is deployed, in numbers |
| `RuntimeLab.dfy`, `NonFinite.dfy` | what is deployed while a run is active, and where values that are not finite get in |
| `Lab.dfy`, `Incidents.dfy` | the deployed lab as the runtime controls it, and what the deployed faults do to requests |
| `Progression.dfy`, `Ledger.dfy` | the XP ledger and its theorems |
| `History.dfy`, `Progress.dfy` | the bounded run history and the checklist store |
| `Scenarios.dfy` | catalog validation and loading |
| `Traffic.dfy`, `Terminal.dfy` | the single-process traffic controller and the terminal agent, as interleaved threads |
| `DemoSettings.dfy`, `DemoGate.dfy`, `DemoFailures.dfy`, `DemoStorm.dfy`, `DemoOverlap.dfy` | the fault-injecting service: settings and gate, numbered failures and retries, overlapping callers |
| `Apilb.dfy` | the load balancer |
| `Common.dfy`, `Division.dfy` | options, IEEE comparisons, counting, sorting, division |

`dafny verify dfyconfig.toml` checks the whole project.

## How to read it

Code that updates an object in place is a class. Each method is one section under a lock, and its
`ensures` equates the whole new state (`View()`) with a function of the old one; the theorems are
about those functions. Concurrency is a state machine: one event per atomic step, and every
interleaving is a list of events. `Runtime.Reachable` ranges over every mix of the manager's
operations, alert-worker steps, failing or half-failing control calls, failing file writes and
process restarts, with fresh run identifiers.

The outside world is a parameter. A control call is accepted, lost (it takes effect, the caller sees
an error) or refused; a metrics query is a value with an error flag; a file write succeeds or not.
Floating-point values are reals with three special values that keep the IEEE comparison rules.

## Where the code does less than its shape suggests

- One sample that is not finite keeps the run history from being written for the next 99 adds, since
  the encoder rejects it (`History.NonFiniteBlocksFile`, `History.NonFiniteLeaves`). A check whose
  latency query returns no number adds one (`NonFinite.NoLatencyBlocksHistory`); the exact condition
  is `NonFinite.CheckSavesIff`.
- A failed chmod or write of the checklist file is swallowed, because `err` is shadowed; the store
  then does not open again. `Progress.ReopenIff` gives the exact condition.
- With two backends, an odd ticket from 2^63 on has a negative index and panics
  (`LoadBalancer.TargetInRangeIff`).
- Validation accepts an availability objective, a traffic rate, a minimum offered rate or an error
  probability that is not a number (`Scenarios.ObjectivesIff`, `Scenarios.TrafficValidIff`,
  `Scenarios.RateIff`, `Scenarios.ErrorRateIff`); a service exercise with such an objective can never
  be passed, and every other exercise can (`Attainment.PassableIff`, `NonFinite.NeverPassed`).
- The alert grade does not force the incident evaluation before the recovery one
  (`AlertOrder.AlertOrderNotForced`). A run that is never in its incident phase while `alertCleared`
  holds passes in order only (`AlertOrder.PassedInOrder`), and an incident call makes a pass in the
  wrong order possible, without a further incident call, exactly when `alertCleared` held before it
  (`AlertOrder.BackwardsIff`).
- A passed alert exercise can rest on verdicts of an expression that is no longer the recorded one. A
  run whose alert was never replaced by a different one cannot (`VerdictExpression.PassedWithOne`).
  The first replacement makes it possible, without a further one, exactly when some phase already has
  the verdict a pass needs or a worker of the run is waiting for its query
  (`VerdictExpression.StaleIff`; `VerdictExpression.LeftoverIff` for any call that sets an alert).
- A passed alert exercise can owe its quiet baseline and its cleared recovery to failed queries
  (`VerdictExpression.FailedQueriesPass`).
- A started service exercise reports the baseline phase while its incident is deployed
  (`Deployed.StartDeploys`, `Outcomes.StartIff`), and a reset leaves one backend after the three CPU exercises
  (`RuntimeTheorems.ResetDetermines`). A capacity change to two backends reports recovery while the
  CPU work of the incident is still deployed (`RuntimeLab.CapacityRecovery`).
- The dependency calls that are completed obey the failure count exactly while no two calls overlap,
  or every call fails (`DemoOverlap.OverlapIff`); the numbered ones always do
  (`DemoStorm.StormTheorem`).

## Model

| member | source | states |
|---|---|---|
| `RuntimeTheorems.HistoryBacked` | internal/server/runtime.go:400-432 | in every reachable installation each history record, in memory or on disk, scores 0, or scores 75 at least and has an award of the same run and scenario with no lower score, saved in the profile file |
| `Grades.CheckRecords` | internal/server/runtime.go:400-432 | a check keeps the last hundred of the old records and one new one: the run, its exercise, the outcome reported, the availability and latency of the three query answers, and the score reported if the award was saved and 0 otherwise |
| `Grades.CheckSaves` | internal/server/runtime.go:411-425 | the award is saved exactly when the check passed outside file-forensics and the run already has an award or the file can be written |
| `Grades.SavedRecord` | internal/server/runtime.go:400-432 | in every reachable installation a passed check whose award is saved leaves a last record of this run, passed, that scores 75 + max(0, 25 - 5 per hint) |
| `Grades.PassIff` | internal/server/runtime.go:340-399 | a check passes exactly when the diagnosis fits and the exercise is achieved: file evidence; or an alert set, quiet in baseline, fired in the incident and cleared in recovery; or the one mitigation and recovery on record and the three objectives reached by the query answers |
| `Grades.ServicePassIff` | internal/server/runtime.go:340-399 | in every reachable installation, for answers and objectives that are numbers, a service exercise passes if and only if the diagnosis fits, a mitigation is on record, total >= the minimum, good >= objective * total and 1000 * p95 <= the latency objective |
| `Grades.BreakdownIs` | internal/server/runtime.go:436-465 | the four parts of the score a check reports, passed or not, each with its condition |
| `Grades.CheckPays` | internal/server/runtime.go:411-425 | the first award of a run that passes and can be written adds one award of the score reported, pays the improvement on the best score, and adds exactly the earned badges not held; every other check pays nothing and leaves the profile alone |
| `RuntimeTheorems.CheckGrades` | internal/server/runtime.go:400-425 | a passed check outside file-forensics scores 75 + max(0, 25 - 5 per hint), so 75 to 100; every other check scores 0, earns nothing and leaves the profile alone; a pass implies the matching diagnosis |
| `RuntimeInvariant.ExactGrade` | internal/server/runtime.go:436-465 | the four-part score of a passing run collapses to 75 plus the precision left |
| `RuntimeTheorems.ScoresNeverIncrease` | internal/server/runtime.go:304-434 | within a run, over any events in between, a later passed check never scores more than an earlier one |
| `RuntimeTheorems.HintsOnlyGrow` | internal/server/runtime.go:304-316 | while a run is active its revealed hints are only extended, in order |
| `RuntimeTheorems.HintsInOrder` | internal/server/runtime.go:304-316 | the revealed hints are 0, 1, 2, ... each once |
| `RuntimeTheorems.RunNeverReturns` | internal/server/runtime.go:110-154 | a run that has ended is never active again |
| `RuntimeTheorems.XPBound` | internal/server/runtime.go:414-425 | every profile the runtime builds has at most 100 XP per completed scenario and 1200 in all, the rank of its XP, never the last rank, and equals its file |
| `Attainment.XPBoundReached` | internal/server/runtime.go:110-434 | the bound is exact: from any idle reachable moment, if the twelve exercises that award XP can be passed, a learner can complete them all and hold 1200 XP |
| `Attainment.PassableIff` | internal/server/runtime.go:340-434 | from any idle reachable moment an exercise of the catalog can be passed if and only if it is not a service exercise whose availability objective is not a number |
| `NonFinite.UncomparableAccepted` | internal/scenario/scenario.go:207-264 | validation accepts, under every required id, a definition whose availability objective is not a number |
| `NonFinite.NeverPassed` | internal/server/runtime.go:359-399 | a catalog of such definitions is accepted, and no check of its service exercises ever passes |
| `NonFinite.CheckSavesIff` | internal/server/runtime.go:426-432 | a check saves the history exactly when the file system allows it, its availability and latency are finite, and so are the 99 records before it |
| `NonFinite.NoLatencyBlocksHistory` | internal/server/runtime.go:510-520 | a check whose latency query returns no number is not saved, nor is any of the next 99 records |
| `RuntimeTheorems.AlertFlags` | internal/server/runtime.go:272-302 | each alert flag of the active run is the verdict of the last evaluation written for its phase of this run, cleared being the negation |
| `RuntimeTheorems.FlagChange` | internal/server/runtime.go:286-299 | an alert flag changes only by the write of a worker of this run, for the phase the flag belongs to, while that phase is current |
| `RuntimeTheorems.PassedAlert` | internal/server/runtime.go:363-368 | a passed alert exercise had in this run a baseline query that failed or answered zero, an incident query that answered something else, and a recovery query that failed or answered zero, each the last of its phase |
| `RuntimeTheorems.FiringIsAnswered` | internal/server/runtime.go:522-530 | in every reachable installation a verdict fired if and only if its query answered without error and not with zero; a NaN fires |
| `Outcomes.RecordOutcome` | internal/server/runtime.go:285-299 | a worker whose run and phase are current sets the flag of that phase, and no other, by whether its query answered and not with zero, and sleeps again or leaves after the twelfth evaluation; any other worker leaves and changes nothing |
| `Outcomes.WakeOutcome` | internal/server/runtime.go:276-284 | a worker that wakes goes on with the recorded expression exactly if its run and phase are current and an alert is set |
| `AlertOrder.OrderedUnlessRelapsed` | internal/server/runtime.go:210-302 | in every reachable installation, of every run that never was in its incident phase after recovery had been seen, all incident verdicts were written before all recovery verdicts |
| `AlertOrder.PassedInOrder` | internal/server/runtime.go:210-302 | a passed alert exercise had its firing incident verdict before its cleared recovery verdict, each the last of its phase, unless the run was at an earlier moment in its incident phase while `alertCleared` held |
| `AlertOrder.StruckIff` | internal/server/runtime.go:210-302 | the guard a caller can check: a step brings a run into its incident phase while `alertCleared` holds if and only if it is a successful incident call on a run with `alertCleared` |
| `AlertOrder.RelapseIff` | internal/server/runtime.go:210-240 | the guard a caller can check: a step makes a run relapse if and only if it is a successful incident call on a run whose recovery has been seen |
| `AlertOrder.BackwardsIff` | internal/server/runtime.go:210-302 | let a successful incident call be made for an active alert run of a reachable installation: some continuation that contains no further incident call passes a check with its last recovery verdict before its last incident verdict if and only if `alertCleared` held before the call |
| `AlertOrder.BackwardsFrom` | internal/server/runtime.go:210-302 | from any active alert run of a reachable installation the run can be continued to pass every check with its last recovery verdict before its last incident verdict |
| `AlertOrder.AlertOrderNotForced` | internal/server/runtime.go:210-240 | there is a reachable installation that passes every check although its last recovery verdict was written before its last incident verdict |
| `VerdictExpression.OneExpression` | internal/server/runtime.go:272-338 | in every reachable installation, an active run whose alert was never replaced by a different one has verdicts of its recorded expression only |
| `VerdictExpression.PassedWithOne` | internal/server/runtime.go:363-368 | so the three verdicts a passed alert exercise of such a run rests on are of its recorded expression |
| `VerdictExpression.EditIff` | internal/server/runtime.go:318-338 | the guard a caller can check: a step edits the active run if and only if it sets an alert, successfully, other than the one that is set |
| `VerdictExpression.LeftoverIff` | internal/server/runtime.go:272-338 | let an alert be set successfully for any active run of a reachable installation: some continuation in which no other alert is set passes a check on a verdict of another expression if and only if, before the call, the last verdict of some phase was of another expression and what a pass needs, or a query with another expression was on its way |
| `VerdictExpression.StaleIff` | internal/server/runtime.go:272-338 | let an alert be set successfully for an active run that was never edited: some continuation in which no other alert is set passes a check on a verdict of another expression if and only if the alert set is a different one and, before the call, the baseline was observed quiet, `alertFired` or `alertCleared` held, or a worker of the run was waiting for its query |
| `VerdictExpression.StaleFrom` | internal/server/runtime.go:272-338 | from any active alert run of a reachable installation the run can pass every check on a verdict of another expression than the recorded one |
| `VerdictExpression.FailedQueriesPass` | internal/server/runtime.go:522-530 | from any active alert run the run can pass every check with its quiet baseline and its cleared recovery both owed to failed queries |
| `RuntimeTheorems.WorkersBounded` | internal/server/runtime.go:276-277 | an alert worker evaluates at most twelve times |
| `RuntimeTheorems.DiagnosisGate` | internal/server/runtime.go:156-257 | every intervention is the exercise's single legal one, interventions imply recovery, recovery of an alert exercise is on its record, and recovery or file evidence implies an earlier moment of this run with a matching diagnosis |
| `RuntimeTheorems.MitigationNeedsDiagnosis` | internal/server/runtime.go:249-257 | no step adds an intervention, recovery or file evidence to a run whose diagnosis does not match; at most one intervention is added |
| `RuntimeTheorems.PassedMitigation` | internal/server/runtime.go:359-405 | a passed check outside file-forensics had its legal mitigation recorded; every passed check had a matching diagnosis earlier and has one now |
| `RuntimeTheorems.StartForgets` | internal/server/runtime.go:110-141 | successful starts of one exercise after any two pasts deploy the same lab and the same run; a gateway that is not configured stays as each found it |
| `Deployed.StartDeploys` | internal/server/runtime.go:110-141 | a successful start leaves the incident settings of its exercise, as numbers for each of the thirteen, and a healthy lab in the two alert exercises |
| `Deployed.FailedStartHeals` | internal/server/runtime.go:128-141 | a start that fails at its traffic call, and whose undo is accepted, leaves no fault behind |
| `Deployed.PhaseHolds` | internal/server/runtime.go:210-240 | a successful phase change leaves the incident settings of the exercise, or none, as numbers |
| `Deployed.InterventionHolds` | internal/server/runtime.go:179-208 | a successful intervention leaves no fault, an open gateway and the backends of the exercise |
| `Deployed.FaultToRemove` | internal/server/runtime.go:179-240 | from a deployed incident a recovery or an intervention changes the lab in every exercise but file-forensics, and blocked-traffic without a gateway |
| `Deployed.ResetHolds` | internal/server/runtime.go:143-154 | a successful reset leaves no fault, no traffic, and one backend exactly after a CPU exercise |
| `Deployed.AppliedExactly` | internal/server/runtime.go:579-630 | the lab after any pattern of accepted, lost and refused calls: each call made and not refused takes effect, and the first not accepted is the last one made |
| `Outcomes.StartIff` | internal/server/runtime.go:110-141 | a start succeeds exactly when idle, in the catalog and with every call accepted; it then leaves a fresh run, and otherwise none; the lab is given for every pattern of replies |
| `Outcomes.ResetIff` | internal/server/runtime.go:143-154 | a reset succeeds exactly when every call is accepted; otherwise the run stays active |
| `Outcomes.RestartIs` | internal/server/runtime.go:68-92 | in every reachable installation a restart ends the run and its workers, keeps the lab and the profile, and takes the history back to the last hundred records of its file |
| `Outcomes.CapacityIff` | internal/server/runtime.go:156-177 | a capacity change succeeds exactly in the two capacity exercises under their diagnosis, for one or two backends and an accepted call; only the second backend is a mitigation |
| `Outcomes.InterveneIff` | internal/server/runtime.go:179-208 | an intervention succeeds exactly for the eight triples of exercise, diagnosis and action, with every call accepted, and records itself |
| `Outcomes.PhaseIff` | internal/server/runtime.go:210-240 | a phase change succeeds exactly for the three phases, recovery only under one of the thirteen fitting diagnoses, with every call accepted; the whole new run and the worker are given |
| `Outcomes.DiagnosisIff` | internal/server/runtime.go:259-270 | a diagnosis, right or wrong, is recorded exactly with a note of 10 to 2000 bytes |
| `Outcomes.EvidenceIff` | internal/server/runtime.go:484-495 | file evidence counts exactly in file-forensics under its diagnosis |
| `Outcomes.HintsShown` | internal/server/runtime.go:304-316 | from a successful start on, over any events in between, k requests for a hint have shown the first k hints, or all of them |
| `Outcomes.AlertIff` | internal/server/runtime.go:318-338 | an alert is set exactly in an alert exercise under its diagnosis, for a well-formed expression whose query answers, and is evaluated at once only in the baseline phase |
| `RuntimeTheorems.InterventionHeals` | internal/server/runtime.go:179-208 | a mitigation that succeeds leaves all services healthy and the gateway open |
| `RuntimeTheorems.ResetDetermines` | internal/server/runtime.go:143-154 | a successful reset leaves no run, traffic or fault and an open gateway; one backend exactly after the three CPU exercises |
| `RuntimeLab.NothingForeign` | internal/server/runtime.go:110-240 | in every reachable installation, over all lost and refused calls, while a run is active each service is healthy or holds this exercise's own faults, a configured gateway blocks only in blocked-traffic, one backend is active only in a CPU exercise, and only this run's traffic flows |
| `RuntimeLab.ReportedIsDeployed` | internal/server/runtime.go:179-240 | after a successful phase change or intervention, and until the next operation that makes control calls, the lab is what the exercise and the reported phase ask for |
| `RuntimeLab.CapacityKeepsFaults` | internal/server/runtime.go:156-177 | a successful capacity change sets the number of backends and leaves every injected fault as it was; with two backends it reports recovery |
| `RuntimeLab.CapacityRecovery` | internal/server/runtime.go:168-175 | the recovery reported after a change to two backends is not the deployed one, and the services are healthy if and only if they were before |
| `RuntimeLab.ApplyOwn` | internal/server/runtime.go:579-630 | an application that stops anywhere leaves nothing that is foreign to its exercise |
| `RuntimeTheorems.LoadedConfig` | internal/server/runtime.go:68-92 | the lookup table built from an accepted catalog holds each required exercise under its own identifier, validated |
| `RuntimeInvariant.StepKeeps` | internal/server/runtime.go:110-495 | every operation, worker step, failure and restart keeps the four-part invariant, under fresh run identifiers |
| `RuntimeInvariant.ReachableInv` | internal/server/runtime.go:57-92 | the invariant holds in every reachable installation |
| `RuntimeManager.Manager.Start` | internal/server/runtime.go:110-141 | the method has the effect and outcome of the start function, which `Outcomes.StartIff` and `Deployed.StartDeploys` decide, for every pattern of replies |
| `RuntimeManager.Manager.Reset` | internal/server/runtime.go:143-154 | same for reset |
| `RuntimeManager.Manager.SetCapacity` | internal/server/runtime.go:156-177 | same for a capacity change |
| `RuntimeManager.Manager.Intervene` | internal/server/runtime.go:179-208 | same for an intervention |
| `RuntimeManager.Manager.SetPhase` | internal/server/runtime.go:210-240 | same for a phase change |
| `RuntimeManager.Manager.RequireDiagnosis` | internal/server/runtime.go:249-257 | succeeds exactly when a diagnosis is recorded and matches |
| `RuntimeManager.Manager.SetDiagnosis` | internal/server/runtime.go:259-270 | records diagnosis and note exactly when the note has 10 to 2000 bytes and a known run is active |
| `RuntimeManager.Manager.Schedule` | internal/server/runtime.go:272-277 | adds one worker for the active run and the phase |
| `RuntimeManager.Manager.Wake` | internal/server/runtime.go:278-284 | a worker leaves when its run, phase or expression is gone, and otherwise reads the expression |
| `RuntimeManager.Manager.Record` | internal/server/runtime.go:285-299 | the method writes what the evaluation function writes, which `Outcomes.RecordOutcome` decides |
| `RuntimeManager.Manager.RevealHint` | internal/server/runtime.go:304-316 | reveals the next hint while there is one |
| `RuntimeManager.Manager.SetAlert` | internal/server/runtime.go:318-338 | accepts a well-formed expression of a diagnosed alert exercise whose query works, and schedules a worker in the baseline |
| `RuntimeManager.Manager.Check` | internal/server/runtime.go:340-434 | report, profile and history after a check are those of the check function, which `Grades.PassIff`, `Grades.CheckRecords` and `Grades.CheckPays` decide, with failing stores |
| `RuntimeManager.HasIntervention` | internal/server/runtime.go:501-508 | finds an action exactly when it was recorded |
| `RuntimeManager.Manager.MarkFileEvidence` | internal/server/runtime.go:484-495 | credits file evidence to a diagnosed file-forensics run only |
| `RuntimeManager.Manager.ApplyState` | internal/server/runtime.go:579-630 | the control calls are made in order and stop at the first failure, leaving the lab of the apply function, which `Deployed.AppliedExactly` gives in numbers |
| `Lab.ApplyOkIff` | internal/server/runtime.go:579-630 | an application succeeds exactly when every call it makes is accepted, as no payload is out of range |
| `Lab.PayloadsAcceptable` | internal/server/runtime.go:609-629 | every state the runtime sends is one the services accept |
| `Incidents.RetryStormAmplifies` | internal/server/runtime.go:599-600 | under the retry-storm faults, from any counter s, k sequential requests all succeed while the counter moves to m + floor((m-1)/4), where m = s - floor(s/5) + k |
| `Incidents.DnsFailureIsTotal` | internal/server/runtime.go:597-598 | under the dns-failure faults no dependency call ever succeeds |
| `Incidents.BurnRateFailsAFifth` | internal/server/runtime.go:603-604 | under the slo-burn-rate faults an API fails floor(n/5) of its first n requests |
| `Incidents.PoolAdmitsFour` | internal/server/runtime.go:593-594 | with the connection-pool limit deployed and nothing in flight at first, until the limit is changed at most four requests of an API are past its gate at once, and none is refused by it while at most four are in flight |
| `Incidents.PoolReachesFour` | internal/server/runtime.go:593-594 | and on some schedule exactly four are past the gate at once |
| `Ledger.LedgerTheorem` | internal/progression/progression.go:71-113 | after any awards, failed persists and restarts from an empty profile: awards are the first saved call of each run, XP is the sum of best clamped scores and of all XP amounts returned, memory equals the file |
| `Ledger.RankIff` | internal/progression/progression.go:160-171 | the four ranks by XP; and the next rank named is that at the XP named, the least above the present XP at which the rank changes |
| `Ledger.OpenedIs` | internal/progression/progression.go:45-61 | opening a file takes over what it holds and ranks it anew; without a file the profile is empty |
| `Ledger.OrderIndependence` | internal/progression/progression.go:71-113 | any reordering of the successful awards of distinct runs ends in the same XP, rank, best scores and completed list |
| `Ledger.XPNeverDecreases` | internal/progression/progression.go:71-113 | no step lowers XP or takes back an award, badge or completed scenario |
| `Ledger.CreditedConsistent` | internal/progression/progression.go:80-107 | one award keeps the profile the exact summary of its award list |
| `Ledger.SummaryFromMultiset` | internal/progression/progression.go:86-107 | two consistent profiles with the same awards in any order agree in XP, rank, best scores and completed list |
| `Ledger.AddBadgesDistinct` | internal/progression/progression.go:101-106 | badges are kept, every earned badge is held afterwards, and no badge is held twice |
| `Progression.Store.Award` | internal/progression/progression.go:71-113 | memory, file, reply and XP of one award call, including repeated runs and failed persists |
| `Progression.Store.Open` | internal/progression/progression.go:45-61 | opening takes the stored profile and recomputes its rank |
| `Progression.RunAwarded` | internal/progression/progression.go:75-79 | finds a run exactly when it has an award |
| `Progression.EarnBadges` | internal/progression/progression.go:101-106 | adds the earned badges that are not held |
| `Progression.Contains` | internal/progression/progression.go:193-200 | finds a value exactly when it is listed |
| `Progression.BadgeHeld` | internal/progression/progression.go:202-209 | finds a badge exactly when its id is held |
| `History.StoreIsWindow` | internal/history/history.go:30-84 | over any adds, failed persists and reopens, memory is the last 100 of all records since the saved ones, and the file the last 100 at the last successful persist |
| `History.OpenedIsWindow` | internal/history/history.go:30-46 | opening a file this store wrote starts such a window |
| `History.OpenedIs` | internal/history/history.go:30-46 | opening a file keeps its last hundred records |
| `History.AddSavesIff` | internal/history/history.go:54-84 | an add reaches the file exactly when the file system allows it and the kept records are finite; then a reopen gives the same memory |
| `History.NonFiniteBlocksFile` | internal/history/history.go:57-64 | after a sample that is not finite none of the next 99 adds is saved |
| `History.NonFiniteLeaves` | internal/history/history.go:57-64 | the hundredth finite add after it is saved |
| `History.Store.Open` | internal/history/history.go:30-46 | memory is the last 100 stored records |
| `History.Store.Add` | internal/history/history.go:54-84 | memory changes first, the file only on success |
| `History.Marshal` | internal/history/history.go:61-64 | encoding fails exactly when some kept sample is not finite |
| `Progress.Normalize` | internal/progress/store.go:113-130 | succeeds exactly on at most 100 steps within 0..999, with the strictly increasing list of the input's elements |
| `Progress.CanonicalUnique` | internal/progress/store.go:113-130 | that list is determined by the set of steps, whatever the map's iteration order |
| `Progress.CanonicalIdempotent` | internal/progress/store.go:113-130 | a canonical list is its own canonical form |
| `Progress.Store.Put` | internal/progress/store.go:65-111 | memory, file and reply of a put, for every pattern of file-system results; a failed put changes nothing |
| `Progress.PutIff` | internal/progress/store.go:65-111 | a put reports success exactly for a slug of 1 to 63 characters, at most 100 steps from 0 to 999 and 16000 bytes of notes, when directory, temporary file, close and rename succeed; otherwise nothing changes |
| `Progress.OpenRecords` | internal/progress/store.go:29-56 | opening checks every stored id and step list |
| `Progress.OpenIff` | internal/progress/store.go:29-56 | a file opens exactly when it is absent, or complete with only valid identifiers and step lists, whose canonical forms and notes are then served |
| `Progress.PutsKeepCanonicalRecords` | internal/progress/store.go:29-111 | over any puts and restarts, from no file or any whole one, the process serves exactly as long as no restart found a torn file; then memory holds for each id the canonical form of the last successful put, and the file the same map unless that put tore it |
| `Progress.OpenReproduces` | internal/progress/store.go:44-55 | a fully written file opens to the same records |
| `Progress.ReopenIff` | internal/progress/store.go:94-110 | after any such history a restart reproduces memory if and only if the last successful put had its chmod and write succeed |
| `Progress.SwallowedWriteError` | internal/progress/store.go:97-103 | a put that reports success although its write failed, after which the store does not open |
| `Scenarios.Load` | internal/scenario/scenario.go:141-183 | loading succeeds exactly on definitions that all validate, without duplicates, covering the thirteen required ids, and keeps their order |
| `Scenarios.Read` | internal/scenario/scenario.go:161-176 | the first loop rejects an undecodable, invalid or repeated definition |
| `Scenarios.AllPresent` | internal/scenario/scenario.go:177-181 | the second loop decides whether every required id is present |
| `Scenarios.ValidIds` | internal/scenario/scenario.go:207-216 | validated definitions have required ids |
| `Scenarios.CatalogBijection` | internal/scenario/scenario.go:161-182 | an accepted catalog is in bijection with the thirteen required ids |
| `Scenarios.ByIdComplete` | internal/server/runtime.go:76-79 | the lookup table has exactly the required ids, each mapped to its own definition |
| `Scenarios.TrafficValidIff` | internal/scenario/scenario.go:266-295 | a traffic section is accepted exactly when it encodes one of three shapes with durations within an hour and rates in bounds or not a number, the spike's peak being allowed negative infinity above a baseline that is not a number |
| `Scenarios.FaultIff` | internal/scenario/scenario.go:297-346 | a fault is accepted exactly with the target and the range of its kind |
| `Scenarios.ValidIff` | internal/scenario/scenario.go:207-264 | a definition is accepted exactly with this schema, one of the thirteen identifiers, text wherever it is asked for, one bounded traffic shape, bounded faults and objectives, a known grading, a hint and a diagram |
| `Scenarios.RateIff` | internal/scenario/scenario.go:251-256 | a rate, among them the minimum offered rate, is accepted exactly when it is in (0, 1000] or not a number |
| `Scenarios.ObjectivesIff` | internal/scenario/scenario.go:245-247 | objectives are accepted exactly with an availability in (0, 1] or not a number, and a latency in (0, 60000] |
| `Scenarios.ErrorRateIff` | internal/scenario/scenario.go:306-309 | an error-rate fault is accepted exactly with no work units and a probability in (0, 1] or not a number |
| `Traffic.OneProcess` | traffic/controller.go:195-250 | in every interleaving at most one process is unreaped and it is the active run's |
| `Traffic.ReleaseTestHolds` | traffic/controller.go:241-250 | the slot comparison in the reaper never fails |
| `Traffic.DoneClosedOnce` | traffic/controller.go:241-250 | a done channel is closed at most once, after its run left the slot and was reaped |
| `Traffic.StopIsFinal` | traffic/controller.go:252-288 | the run a completed stop observed is never active again, and reaped |
| `Traffic.ShutdownIsFinal` | traffic/controller.go:314-323 | after a shutdown that returned nil every process is reaped and none is ever started |
| `Traffic.DrainCanFinish` | traffic/controller.go:269-288 | a stop that has killed its process is at most six enabled steps from returning |
| `Traffic.CallCanReturn` | traffic/controller.go:269-288 | wherever a stop stands, if its signals are delivered it can return without error by steps of its own and of its run alone, at most five of each |
| `Traffic.RunSchedule` | traffic/controller.go:241-250 | in every schedule a run's distance from its closed channel falls by one with each of its own moves and by nothing else, so it makes at most five |
| `Traffic.CallSchedule` | traffic/controller.go:269-288 | in every schedule a stop makes at most five steps |
| `Traffic.StepKeeps` | traffic/controller.go:195-323 | every atomic step keeps the invariant on slot, reapers and calls |
| `Traffic.Controller.Start` | traffic/controller.go:195-239 | closed, then busy, then a failed spawn are refused and change nothing; otherwise, and only then, it answers started and the slot holds a new run that is alive, unreaped and armed, with its reaper waiting and its channel open |
| `Traffic.StartIff` | traffic/controller.go:195-239 | as a step: a run is added exactly on an open controller with an empty slot whose process spawns |
| `Traffic.SlotComesFree` | traffic/controller.go:241-250 | from every open state the end of the process and at most three sections of its reaper free the slot, and then the next start that spawns succeeds |
| `Traffic.StopStops` | traffic/controller.go:252-288 | a stop, time limit or shutdown that has returned without error has ended the run that was in the slot when it began, or the run of the timer, over any steps in between |
| `Traffic.CallFailsIff` | traffic/controller.go:269-288 | in every schedule a call returns an error if and only if one of its signals failed |
| `Traffic.WaitAfterAsking` | traffic/controller.go:269-288 | in every schedule the wait for a process starts only once it has been asked to terminate |
| `Traffic.KillAfterExpiry` | traffic/controller.go:269-288 | and a process is killed only when that wait has expired |
| `Traffic.FinishedNeedsNoSignal` | traffic/controller.go:269-273 | a stop of a run whose channel is closed sends no signal |
| `Traffic.TimeLimitOnce` | traffic/controller.go:232-250 | the time limit of a run begins at most one stop of it, and none once its reaper has stopped the timer |
| `Traffic.Controller.Release` | traffic/controller.go:244-248 | gives back the slot of its own run |
| `Traffic.Controller.HandleStop` | traffic/controller.go:252-262 | reads the slot under the lock |
| `Traffic.Controller.ShutDown` | traffic/controller.go:314-323 | closes the controller and reads the slot in one section |
| `Terminal.SessionCap` | internal/terminal/terminal.go:87-139 | unreaped shells <= handlers holding a slot = active <= 2, and active <= the wait-group count, in every interleaving |
| `Terminal.ArriveIff` | internal/terminal/terminal.go:87-96 | an arrival gets a slot exactly on an open agent with fewer than two taken |
| `Terminal.ArrivalServed` | internal/terminal/terminal.go:87-139 | on an open agent with a free slot the next arrival can come to have a live shell by its own steps, one more than there were |
| `Terminal.TwoAtOnce` | internal/terminal/terminal.go:87-139 | the cap is reached: two sessions can be served at once |
| `Terminal.SlotsComeBack` | internal/terminal/terminal.go:87-139 | from every open state the cancellations and steps of the handlers inside lead to an open agent with nobody inside |
| `Terminal.FailureLeaves` | internal/terminal/terminal.go:97-152 | in every schedule a handler whose upgrade, shell or set-up failed is on its way out for good |
| `Terminal.CloseIff` | internal/terminal/terminal.go:58-67 | closing cancels the registered sessions and no others |
| `Terminal.ClosedCancels` | internal/terminal/terminal.go:58-67 | once closed, every handler with a shell or still able to start one has been cancelled, and slots and wait group only shrink |
| `Terminal.ClosedKeepsOut` | internal/terminal/terminal.go:105-111 | a handler not registered when the flag went up never starts a shell |
| `Terminal.CloseIsFinal` | internal/terminal/terminal.go:58-67 | when Close has returned there are no handlers, sessions or shells, then and in every continuation |
| `Terminal.EveryScheduleEnds` | internal/terminal/terminal.go:58-216 | from a closed agent on, every schedule contains at most as many handler steps as the handlers had left |
| `Terminal.CanMove` | internal/terminal/terminal.go:58-139 | while the wait group of a closed agent is not empty, some handler can take its next step |
| `Terminal.CloseCanReturn` | internal/terminal/terminal.go:58-139 | from any closed state the handlers' own enabled steps empty the wait group |
| `Terminal.PendingCloseReturns` | internal/terminal/terminal.go:58-67 | and then each pending close returns, by steps of handlers and its own alone |
| `Terminal.StepKeeps` | internal/terminal/terminal.go:58-216 | every atomic step keeps the invariant, and after close the counters only fall |
| `Terminal.Agent.Arrive` | internal/terminal/terminal.go:87-95 | admits exactly when open and below the cap |
| `Terminal.Agent.Register` | internal/terminal/terminal.go:105-111 | registers exactly when still open |
| `Terminal.Agent.Unregister` | internal/terminal/terminal.go:112 | leaves the session table |
| `Terminal.Agent.FreeSlot` | internal/terminal/terminal.go:96 | gives back one slot |
| `Terminal.Agent.Close` | internal/terminal/terminal.go:58-65 | raises the flag and cancels every registered session, no other |
| `DemoGate.GateTheorem` | internal/demo/demo.go:202-230 | whatever limits are set meanwhile, the in-flight counter is the true number of requests, and those past the gate never exceed the limit the latest of them sampled |
| `DemoGate.GateBound` | internal/demo/demo.go:202-230 | from a quiet moment on, while the limit stays M > 0, at most M requests are past the gate at once |
| `DemoGate.CheckDecides` | internal/demo/demo.go:222-230 | a request passes the gate if and only if the limit it sampled is 0 or no more requests are in flight, itself included, than that limit |
| `DemoGate.GateAdmits` | internal/demo/demo.go:202-230 | from a quiet moment with limit M > 0 none is refused by the gate while at most M are in flight |
| `DemoGate.GateReached` | internal/demo/demo.go:202-230 | and on some schedule exactly M are past the gate at once |
| `DemoGate.LimitTakes` | internal/demo/demo.go:202-230 | after a limit is set and until the next one is, every request that had not sampled the limit samples this one, under every interleaving |
| `DemoFailures.APIFailures` | internal/demo/demo.go:239-249 | an API fails exactly floor(n/k) of the sequence numbers 1..n |
| `DemoFailures.DependencyFailures` | internal/demo/demo.go:239-249 | a dependency fails exactly floor(n/k) + floor(n/d) - floor(n/lcm(k,d)) of them |
| `DemoFailures.CallDependency` | internal/demo/demo.go:268-321 | the retry loop has the outcome, attempts and counter of its specification for any network behaviour |
| `DemoFailures.FirstSuccess` | internal/demo/demo.go:268-321 | for any network a call succeeds if and only if one of its attempts does, stops at the first that does, and uses one number for each attempt that is not dropped |
| `DemoFailures.RetryServes` | internal/demo/demo.go:239-321 | from any counter, k sequential requests all succeed in at most two attempts each, and use up exactly k served numbers, the last one included |
| `DemoFailures.RetryAmplification` | internal/demo/demo.go:268-321 | from any counter s, k sequential requests move it to exactly m + floor((m-1)/(d-1)), where m = s - floor(s/d) + k; from a fresh counter they make k + floor((k-1)/(d-1)) calls |
| `DemoStorm.AnyInterleaving` | internal/demo/demo.go:239-321 | the counting invariant of retrying callers, while attempts overlap, replies are lost or spoiled, and others are numbered in between |
| `DemoStorm.StormTheorem` | internal/demo/demo.go:239-321 | N attempts numbered from counter s contain exactly floor((s+N)/d) - floor(s/d) failures; every other one satisfied a caller, is on its way to one or was spoiled; attempts are at most (retries+1) times the callers, and a caller gives up only after retries+1 |
| `DemoStorm.LandedStorm` | internal/demo/demo.go:239-321 | with nothing in the air and nothing lost, A completed attempts contain exactly floor((s+A)/d) - floor(s/d) failures, and the others satisfied one caller each |
| `DemoOverlap.OverlapIff` | internal/demo/demo.go:239-321 | from any counter, the completed calls of all runs with at most m attempts in the air obey the failure count at every moment if and only if m <= 1 or every call fails |
| `DemoOverlap.SequentialObeys` | internal/demo/demo.go:239-321 | while attempts do not overlap, the completed ones contain exactly floor((s+A)/d) - floor(s/d) failures at every moment, whatever is dropped or spoiled |
| `DemoOverlap.OverlapBreaks` | internal/demo/demo.go:239-321 | for every d >= 2 and every counter, two overlapping attempts can break that count |
| `DemoOverlap.CompletedFirst` | internal/demo/demo.go:239-321 | the smallest such run: of two overlapping calls the failing one is answered first, so one completed call contains one failure where the count says none |
| `DemoSettings.Service.UpdateState` | internal/demo/demo.go:344-382 | an update is applied exactly when both mandatory fields are present and all are in range; a memory size of 0 frees the leak |
| `DemoSettings.Service.GrowMemory` | internal/demo/demo.go:408-414 | adds a block below the cap of 256 |
| `DemoSettings.FullUpdateDetermines` | internal/demo/demo.go:352-376 | a full update in range leaves exactly the settings it names |
| `DemoSettings.AcceptableIff` | internal/demo/demo.go:335-388 | an update is accepted exactly when it names the CPU work and the failure interval and each field named is in its range, in numbers |
| `DemoSettings.UpdatesMerge` | internal/demo/demo.go:335-388 | one accepted update after another comes to their merge, the later value where both name a field; a rejected one changes nothing |
| `DemoSettings.LeakIsFirstAsked` | internal/demo/demo.go:371-376 | the blocks held are the first 256 asked for since the last update to 0 |
| `DemoSettings.LeakBounded` | internal/demo/demo.go:408-414 | leaked memory stays within 256 blocks and 256 GB, and settings within their ranges |
| `LoadBalancer.TargetInRangeIff` | internal/apilb/apilb.go:162-164 | a ticket has a backend, among the counted ones, exactly when one backend is counted, or it is below 2^63, or even |
| `LoadBalancer.RoundRobin` | internal/apilb/apilb.go:162-164 | of n consecutive tickets below 2^63 one backend takes all, and each of two takes half |
| `LoadBalancer.EveryRequestServed` | internal/apilb/apilb.go:136-164 | until 2^63 tickets, no interleaving of requests and any number of capacity changes repeats a ticket or leaves a request that took one without a backend |
| `LoadBalancer.SteadyCapacity` | internal/apilb/apilb.go:156-164 | below 2^63 tickets, while the capacity stays n, every request that has loaded no other count goes to the backend of its ticket modulo n, under every interleaving |
| `LoadBalancer.CapacityTakes` | internal/apilb/apilb.go:136-154 | a capacity of 1 or 2 takes effect at once and leaves the requests under way alone; any other value changes nothing |
| `LoadBalancer.Balancer.UpdateState` | internal/apilb/apilb.go:136-154 | the capacity changes exactly on 1 or 2 |
| `LoadBalancer.Balancer.TakeTicket` | internal/apilb/apilb.go:162-164 | takes the next ticket with wrap-around and computes its index in signed arithmetic |

## Left out

- `internal/server/server.go`, `internal/server/runtime_http.go`, `cmd/*`: HTTP routing, headers, static files and the decoding of JSON and YAML are plumbing; decoded values are the inputs.
- Prometheus, PromQL and the scoping of an alert expression to a run: a query is an arbitrary value with an error flag.
- Processes, terminals, signals and pid reuse are abstract states; waiting, timers and time stamps are events without a clock.
- Rounding and overflow of floating point: values are reals, NaN and the two infinities.
- The file system: a persist replaces the file or leaves it, encoding and decoding are exact, and unreadable or undecodable profile and history files (a failed open) are not modelled; nil and empty slices are one value. The checklist store is the exception: its file-system calls are modelled one by one.
- A control call that times out takes effect at once or never, not later; run identifiers are fresh, so the shared fallback identifier used when no randomness is available is not covered.
- The two-second overall budget of the dependency retry loop appears only as dropped or spoiled attempts; a request that is numbered after its caller has given up is not modelled.
- The demo service's request counter is unbounded; it would wrap after 2^64 requests.
- `internal/policy/policy.go` appears only as its blocked flag.
- White space beyond ASCII, U+0085 and U+00A0 in the blank-text checks; a character of a note, of notes or of an alert expression stands for one byte.
- CPU burning, latency waiting, message decoding and resizing of terminals, feedback texts: no property beyond what is stated.
- RuntimeManager.Manager.Check: asks that the active exercise be in the catalog, which `RuntimeInvariant.ReachableInv` shows of every reachable installation.
- LoadBalancer.EveryRequestServed: stops at 2^63 tickets, because beyond them the property is false of the code, as `LoadBalancer.TargetInRangeIff` shows.
- The load profile and the scenario name sent with a traffic start: the traffic slot of the lab holds the run alone.
- Traffic.CallCanReturn, Traffic.SlotComesFree, Terminal.CloseCanReturn, Terminal.SlotsComeBack: that a way out is taken needs a fair scheduler and a process that ends; what holds of every schedule is in `Traffic.RunSchedule`, `Traffic.CallSchedule` and `Terminal.EveryScheduleEnds`.
