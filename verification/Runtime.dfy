/** The exercise lifecycle and its grading (internal/server/runtime.go) as functions on
    values: one function for each operation that holds the manager's lock, and two for the
    locked sections of an alert worker. */
module Runtime {
  import opened Wrappers
  import opened Floats
  import opened Scenarios
  import opened Lab
  import History
  import Progression

  datatype Diagnosis =
    | Unrecorded   // the empty string
    | ApiCapacity | UserImpact | ErrorBudgetBurn | DependencyCause | Concurrency | LatencyCause
    | ServiceDiscovery | RetryAmplification | MemoryGrowth | FeedbackLoop | FileOwner | NetworkPolicy
    | OtherDiagnosis(text: string)

  datatype Action =
    | HorizontalCapacity | AlertRecovery
    | DependencyRecovery | PoolRecovery | LatencyBudget | DnsRecovery | RetryBudget | ReplaceCapacity
    | StabilizePolicy | NetworkPolicyRecovery
    | OtherAction(text: string)

  datatype Run = Run(id: string, scenario: ScenarioId, running: bool, phase: Phase, hints: seq<int>,
                     alertExpression: string, alertFired: bool, alertCleared: bool, alertBaseline: bool,
                     alertBaselineObserved: bool, incidentSeen: bool, recoverySeen: bool,
                     interventions: seq<Action>, fileEvidenceSeen: bool, diagnosis: Diagnosis, note: string)

  // An alert worker sleeps, or holds the expression it read and waits for the query.
  datatype Point = Sleeping | Querying(expression: string) | Finished

  datatype Worker = Worker(runID: string, phase: Phase, attempts: nat, point: Point)

  const ATTEMPTS := 12

  datatype Sys = Sys(active: Option<Run>, lab: Lab.State, profile: Progression.State,
                     history: History.State, workers: seq<Worker>)

  datatype Config = Config(catalog: map<ScenarioId, Scenario>, gateway: bool)

  // The catalog comes from an accepted load.
  ghost predicate ValidConfig(c: Config) {
    && (forall id :: id in c.catalog <==> Required(id))
    && forall id :: id in c.catalog ==> c.catalog[id].id == id
  }

  // A metrics query returns a value, and may report an error beside it.
  datatype Query = Query(value: Float, failed: bool)

  datatype Done = Done(sys: Sys, ok: bool)

  /// Starting and resetting
  /// ----------------------

  predicate AlertExercise(id: ScenarioId) {
    id.UsefulAlerts? || id.SloBurnRate?
  }

  predicate AlertRun(s: Sys) {
    s.active.Some? && AlertExercise(s.active.value.scenario)
  }

  function NewRun(runID: string, id: ScenarioId): Run {
    Run(runID, id, false, Baseline, [], "", false, false, false, false, false, false, [], false, Unrecorded, "")
  }

  datatype StartReplies = StartReplies(stop: Reply, baseline: Replies, incident: Replies, traffic: Reply, undo: Replies)

  function Start(c: Config, s: Sys, id: ScenarioId, runID: string, r: StartReplies): Done {
    if s.active.Some? || id !in c.catalog then Done(s, false) else
    var stopped := StopTraffic(s.lab, r.stop);
    if !r.stop.Accepted? then Done(s.(lab := stopped), false) else
    var baseline := Apply(stopped, None, Baseline, c.gateway, r.baseline);
    if !baseline.ok then Done(s.(lab := baseline.lab), false) else
    var incident := if AlertExercise(id) then baseline
                    else Apply(baseline.lab, Some(id), Incident, c.gateway, r.incident);
    if !incident.ok then Done(s.(lab := incident.lab), false) else
    var lab := StartTraffic(incident.lab, runID, r.traffic);
    if !r.traffic.Accepted?
    then Done(s.(lab := Apply(lab, Some(id), Baseline, c.gateway, r.undo).lab), false)
    else Done(s.(active := Some(NewRun(runID, id).(running := true)), lab := lab), true)
  }

  function ActiveScenario(s: Sys): Option<ScenarioId> {
    if s.active.Some? then Some(s.active.value.scenario) else None
  }

  function Reset(c: Config, s: Sys, stop: Reply, r: Replies): Done {
    var stopped := StopTraffic(s.lab, stop);
    if !stop.Accepted? then Done(s.(lab := stopped), false) else
    var baseline := Apply(stopped, ActiveScenario(s), Baseline, c.gateway, r);
    if !baseline.ok then Done(s.(lab := baseline.lab), false)
    else Done(s.(lab := baseline.lab, active := None), true)
  }

  /// Diagnosis and mitigation
  /// ------------------------

  function Expected(id: ScenarioId): Diagnosis {
    match id
    case CpuSaturation => ApiCapacity
    case UsefulAlerts => UserImpact
    case SloBurnRate => ErrorBudgetBurn
    case VerticalHorizontal => ApiCapacity
    case DependencyBottleneck => DependencyCause
    case ConnectionPool => Concurrency
    case LatencySlo => LatencyCause
    case DnsFailure => ServiceDiscovery
    case RetryStorm => RetryAmplification
    case MemoryLeak => MemoryGrowth
    case AutoscalerOscillation => FeedbackLoop
    case FileForensics => FileOwner
    case BlockedTraffic => NetworkPolicy
    case Unknown(_) => Unrecorded
  }

  predicate DiagnosisCorrect(r: Run) {
    Expected(r.scenario) == r.diagnosis
  }

  // The gate in front of every mitigation.
  predicate Diagnosed(r: Run) {
    r.diagnosis != Unrecorded && DiagnosisCorrect(r)
  }

  predicate DiagnosedRun(s: Sys) {
    s.active.Some? && Diagnosed(s.active.value)
  }

  // The exercise an intervention is allowed in.
  function Allowed(action: Action): Option<ScenarioId> {
    match action
    case DependencyRecovery => Some(DependencyBottleneck)
    case PoolRecovery => Some(ConnectionPool)
    case LatencyBudget => Some(LatencySlo)
    case DnsRecovery => Some(DnsFailure)
    case RetryBudget => Some(RetryStorm)
    case ReplaceCapacity => Some(MemoryLeak)
    case StabilizePolicy => Some(AutoscalerOscillation)
    case NetworkPolicyRecovery => Some(BlockedTraffic)
    case _ => None
  }

  function SetCapacity(s: Sys, backends: int, reply: Reply): Done {
    if s.active.None? then Done(s, false) else
    var r := s.active.value;
    if !(r.scenario.CpuSaturation? || r.scenario.VerticalHorizontal?) || !Diagnosed(r)
       || (backends != 1 && backends != 2) then Done(s, false) else
    var lab := s.lab.(backends := PutBackends(s.lab.backends, backends, reply));
    if !BackendsOk(backends, reply) then Done(s.(lab := lab), false)
    else if backends == 1 then Done(s.(lab := lab), true)
    else Done(s.(lab := lab,
                 active := Some(r.(interventions := r.interventions + [HorizontalCapacity],
                                   phase := Recovery, recoverySeen := true))), true)
  }

  function Intervene(c: Config, s: Sys, action: Action, replies: Replies): Done {
    if s.active.None? then Done(s, false) else
    var r := s.active.value;
    if !Diagnosed(r) || Allowed(action) != Some(r.scenario) then Done(s, false) else
    var applied := Apply(s.lab, Some(r.scenario), Recovery, c.gateway, replies);
    if !applied.ok then Done(s.(lab := applied.lab), false)
    else Done(s.(lab := applied.lab,
                 active := Some(r.(phase := Recovery, recoverySeen := true,
                                   interventions := r.interventions + [action]))), true)
  }

  function NewWorker(r: Run, phase: Phase): Worker { Worker(r.id, phase, 0, Sleeping) }

  // The run after a phase change whose calls succeeded.
  function PhaseRun(r: Run, phase: Phase): Run {
    r.(phase := phase, incidentSeen := r.incidentSeen || phase.Incident?, recoverySeen := r.recoverySeen || phase.Recovery?,
       interventions := if phase.Recovery? && AlertExercise(r.scenario) then r.interventions + [AlertRecovery]
                        else r.interventions)
  }

  function SetPhase(c: Config, s: Sys, phase: Phase, replies: Replies): Done {
    if s.active.None? then Done(s, false) else
    var r := s.active.value;
    if (phase.Recovery? && !Diagnosed(r)) || phase.OtherPhase? then Done(s, false) else
    var applied := Apply(s.lab, Some(r.scenario), phase, c.gateway, replies);
    if !applied.ok then Done(s.(lab := applied.lab), false)
    else Done(s.(lab := applied.lab, active := Some(PhaseRun(r, phase)),
                 workers := if phase.Baseline? then s.workers else s.workers + [NewWorker(r, phase)]), true)
  }

  // A character of the note stands for one byte.
  function SetDiagnosis(s: Sys, diagnosis: Diagnosis, note: string): Done {
    if s.active.None? then Done(s, false) else
    var r := s.active.value;
    if r.scenario.Unknown? || |note| < 10 || |note| > 2000 then Done(s, false)
    else Done(s.(active := Some(r.(diagnosis := diagnosis, note := note))), true)
  }

  function MarkFileEvidence(s: Sys): Done {
    if s.active.None? then Done(s, false) else
    var r := s.active.value;
    if !r.scenario.FileForensics? || !Diagnosed(r) then Done(s, false)
    else Done(s.(active := Some(r.(fileEvidenceSeen := true))), true)
  }

  /// Hints and alerts
  /// ----------------

  function RevealHint(c: Config, s: Sys): Done {
    if s.active.None? then Done(s, false) else
    var r := s.active.value;
    if r.scenario in c.catalog && |r.hints| < |c.catalog[r.scenario].hints|
    then Done(s.(active := Some(r.(hints := r.hints + [|r.hints|]))), true)
    else Done(s, true)
  }

  predicate ExpressionOk(expression: string) {
    0 < |expression| <= 500
    && forall i :: 0 <= i < |expression| ==> expression[i] != ';' && expression[i] != '\n' && expression[i] != '\r'
  }

  function SetAlert(s: Sys, expression: string, query: Query): Done {
    if s.active.None? then Done(s, false) else
    var r := s.active.value;
    if !AlertExercise(r.scenario) || !Diagnosed(r) || !ExpressionOk(expression) || query.failed then Done(s, false)
    else Done(s.(active := Some(r.(alertExpression := expression)),
                 workers := if r.phase.Baseline? then s.workers + [NewWorker(r, Baseline)] else s.workers), true)
  }

  // Whether a worker still evaluates its own phase of its own run.
  predicate Current(s: Sys, w: Worker) {
    s.active.Some? && s.active.value.id == w.runID && s.active.value.phase == w.phase
  }

  function SetWorker(s: Sys, i: nat, w: Worker): Sys
    requires i < |s.workers|
  {
    s.(workers := s.workers[i := w])
  }

  // The first locked section of an evaluation.
  function Wake(s: Sys, i: nat): Sys {
    if i >= |s.workers| || !s.workers[i].point.Sleeping? then s else
    var w := s.workers[i];
    if !Current(s, w) || s.active.value.alertExpression == ""
    then SetWorker(s, i, w.(point := Finished))
    else SetWorker(s, i, w.(point := Querying(s.active.value.alertExpression)))
  }

  // A failed query counts as not firing, and so does a zero value; a NaN fires.
  predicate Fires(query: Query) { !query.failed && query.value != ZERO }

  // A verdict sets the flags of its own phase.
  function RecordVerdict(r: Run, phase: Phase, fired: bool): Run {
    var baseline := !phase.Incident? && !phase.Recovery?;
    r.(alertFired := if phase.Incident? then fired else r.alertFired,
       alertCleared := if phase.Recovery? then !fired else r.alertCleared,
       alertBaseline := if baseline then fired else r.alertBaseline,
       alertBaselineObserved := baseline || r.alertBaselineObserved)
  }

  // The second locked section, after the query returned.
  function Record(s: Sys, i: nat, query: Query): Sys {
    if i >= |s.workers| || !s.workers[i].point.Querying? then s else
    var w := s.workers[i];
    if !Current(s, w) then SetWorker(s, i, w.(point := Finished))
    else
      var next := w.(attempts := w.attempts + 1, point := if w.attempts + 1 < ATTEMPTS then Sleeping else Finished);
      SetWorker(s, i, next).(active := Some(RecordVerdict(s.active.value, w.phase, Fires(query))))
  }

  /// Checking
  /// --------

  datatype Evidence = Evidence(availability: Float, p95: Float, count: Float)

  // The three service queries; their errors are ignored, their values are not.
  function ServiceEvidence(good: Query, total: Query, p95: Query): Evidence {
    Evidence(if Positive(total.value) then Divide(good.value, total.value) else ZERO,
             Thousand(p95.value), total.value)
  }

  predicate MeetsObjectives(item: Scenario, e: Evidence) {
    && AtLeast(e.availability, item.objectives.availability)
    && AtLeast(FromInt(item.objectives.p95LatencyMS), e.p95)
    && AtLeast(e.count, FromInt(item.grading.minimumRequests))
  }

  predicate ServiceRecovered(r: Run, action: Action, item: Scenario, e: Evidence) {
    action in r.interventions && r.recoverySeen && MeetsObjectives(item, e)
  }

  predicate AlertUseful(r: Run) {
    && r.alertExpression != "" && r.alertBaselineObserved && !r.alertBaseline
    && r.incidentSeen && r.recoverySeen && r.alertFired && r.alertCleared
  }

  // The outcome of an exercise, before the diagnosis is looked at.
  predicate Achieved(r: Run, item: Scenario, e: Evidence) {
    match r.scenario
    case CpuSaturation => ServiceRecovered(r, HorizontalCapacity, item, e)
    case UsefulAlerts => AlertUseful(r)
    case SloBurnRate => AlertUseful(r)
    case VerticalHorizontal => ServiceRecovered(r, HorizontalCapacity, item, e)
    case DependencyBottleneck => ServiceRecovered(r, DependencyRecovery, item, e)
    case ConnectionPool => ServiceRecovered(r, PoolRecovery, item, e)
    case LatencySlo => ServiceRecovered(r, LatencyBudget, item, e)
    case DnsFailure => ServiceRecovered(r, DnsRecovery, item, e)
    case RetryStorm => ServiceRecovered(r, RetryBudget, item, e)
    case MemoryLeak => ServiceRecovered(r, ReplaceCapacity, item, e)
    case AutoscalerOscillation => ServiceRecovered(r, StabilizePolicy, item, e)
    case FileForensics => r.fileEvidenceSeen
    case BlockedTraffic => ServiceRecovered(r, NetworkPolicyRecovery, item, e)
    case Unknown(_) => false
  }

  predicate Passes(r: Run, item: Scenario, e: Evidence) {
    Achieved(r, item, e) && DiagnosisCorrect(r)
  }

  datatype Breakdown = Breakdown(evidence: int, mitigation: int, verification: int, precision: int)

  function Score(r: Run, item: Scenario, e: Evidence): Breakdown {
    Breakdown(
      if DiagnosisCorrect(r) then 25 else 0,
      if r.fileEvidenceSeen || |r.interventions| > 0 || r.recoverySeen then 25 else 0,
      if item.id.FileForensics? && r.fileEvidenceSeen then 25
      else if AlertExercise(item.id) then
        if r.alertBaselineObserved && !r.alertBaseline && r.alertFired && r.alertCleared then 25 else 0
      else if MeetsObjectives(item, e) then 25 else 0,
      if 25 - 5 * |r.hints| < 0 then 0 else 25 - 5 * |r.hints|)
  }

  function Sum(b: Breakdown): int {
    b.evidence + b.mitigation + b.verification + b.precision
  }

  // The score a check reports.
  function FinalScore(r: Run, item: Scenario, e: Evidence): int {
    if !Passes(r, item, e) || item.id.FileForensics? then 0 else Sum(Score(r, item, e))
  }

  const EVIDENCE_FIRST := Progression.Badge("evidence-first", "Evidence First")
  const NARROW_FIX := Progression.Badge("narrow-fix", "Narrow Fix")
  const CLEAN_RECOVERY := Progression.Badge("clean-recovery", "Clean Recovery")
  const SIGNAL_BUILDER := Progression.Badge("signal-builder", "Signal Builder")

  function Badges(r: Run, item: Scenario): seq<Progression.Badge> {
    (if DiagnosisCorrect(r) then [EVIDENCE_FIRST] else [])
    + (if |r.hints| == 0 && |r.interventions| == 1 then [NARROW_FIX] else [])
    + (if r.recoverySeen then [CLEAN_RECOVERY] else [])
    + (if AlertExercise(item.id) then [SIGNAL_BUILDER] else [])
  }

  // What the outside world contributes to a check.
  datatype CheckInput = CheckInput(good: Query, total: Query, p95: Query, profileIO: bool, historyIO: bool)

  predicate Awards(r: Run, item: Scenario, e: Evidence) {
    Passes(r, item, e) && !item.id.FileForensics?
  }

  function AwardCall(r: Run, item: Scenario, e: Evidence, io: bool): Progression.Call {
    Progression.Call(r.id, Name(r.scenario), FinalScore(r, item, e), Badges(r, item), io)
  }

  // The score that enters history: only one whose award is in the saved profile.
  function HistoryScore(r: Run, item: Scenario, e: Evidence, profile: Progression.State, io: bool): int {
    if Awards(r, item, e) && Progression.Succeeds(profile, AwardCall(r, item, e, io))
    then FinalScore(r, item, e) else 0
  }

  datatype CheckReport = Idle | Report(passed: bool, score: int, breakdown: Breakdown, xp: int,
                                       profileSaved: bool, historySaved: bool)

  datatype Checked = Checked(sys: Sys, report: CheckReport)

  function HistoryRecord(r: Run, item: Scenario, e: Evidence, profile: Progression.State, io: bool): History.Record {
    History.Record(r.id, Name(r.scenario), Passes(r, item, e), e.availability, e.p95,
                   HistoryScore(r, item, e, profile, io))
  }

  function Check(c: Config, s: Sys, input: CheckInput): Checked {
    if s.active.None? || s.active.value.scenario !in c.catalog then Checked(s, Idle) else
    var r := s.active.value;
    var item := c.catalog[r.scenario];
    var e := ServiceEvidence(input.good, input.total, input.p95);
    var call := AwardCall(r, item, e, input.profileIO);
    var awards := Awards(r, item, e);
    var record := HistoryRecord(r, item, e, s.profile, input.profileIO);
    var history := History.Added(s.history, record, input.historyIO);
    Checked(s.(profile := if awards then Progression.Awarded(s.profile, call) else s.profile, history := history),
            Report(Passes(r, item, e), FinalScore(r, item, e), Score(r, item, e),
                   if awards then Progression.Returned(s.profile, call) else 0,
                   awards && Progression.Succeeds(s.profile, call),
                   History.AllEncodable(history.memory) && input.historyIO))
  }

  predicate PassesCheck(c: Config, s: Sys, input: CheckInput) {
    Check(c, s, input).report.Report? && Check(c, s, input).report.passed
  }

  // A new process opens the two files; the lab keeps running.
  function Restart(s: Sys): Sys {
    Sys(None, s.lab, Progression.Opened(s.profile.disk), History.Opened(s.history.disk), [])
  }

  /// Events
  /// ------

  datatype Event =
    | StartEvent(id: ScenarioId, runID: string, start: StartReplies)
    | ResetEvent(stop: Reply, replies: Replies)
    | CapacityEvent(backends: int, reply: Reply)
    | InterveneEvent(action: Action, replies: Replies)
    | PhaseEvent(phase: Phase, replies: Replies)
    | DiagnosisEvent(diagnosis: Diagnosis, note: string)
    | FileEvidenceEvent
    | HintEvent
    | AlertEvent(expression: string, query: Query)
    | CheckEvent(input: CheckInput)
    | WakeEvent(i: nat)
    | RecordEvent(i: nat, query: Query)
    | RestartEvent

  function Step(c: Config, s: Sys, e: Event): Sys {
    match e
    case StartEvent(id, runID, r) => Start(c, s, id, runID, r).sys
    case ResetEvent(stop, r) => Reset(c, s, stop, r).sys
    case CapacityEvent(n, reply) => SetCapacity(s, n, reply).sys
    case InterveneEvent(action, r) => Intervene(c, s, action, r).sys
    case PhaseEvent(phase, r) => SetPhase(c, s, phase, r).sys
    case DiagnosisEvent(d, note) => SetDiagnosis(s, d, note).sys
    case FileEvidenceEvent => MarkFileEvidence(s).sys
    case HintEvent => RevealHint(c, s).sys
    case AlertEvent(expression, q) => SetAlert(s, expression, q).sys
    case CheckEvent(input) => Check(c, s, input).sys
    case WakeEvent(i) => Wake(s, i)
    case RecordEvent(i, q) => Record(s, i, q)
    case RestartEvent => Restart(s)
  }

  // What a worker wrote: the verdict of one evaluation, the expression the worker had read
  // for it, and the answer its query gave.
  datatype Verdict = Verdict(runID: string, phase: Phase, expression: string, fired: bool, answer: Query)

  function Written(s: Sys, e: Event): Option<Verdict> {
    if e.RecordEvent? && e.i < |s.workers| && s.workers[e.i].point.Querying? && Current(s, s.workers[e.i])
    then
      var w := s.workers[e.i];
      Some(Verdict(w.runID, w.phase, w.point.expression, Fires(e.query), e.query))
    else None
  }

  /// Whole histories
  /// ---------------

  // A system with its past: the states it went through, the run identifiers handed out,
  // and the verdicts written, oldest first.
  datatype Past = Past(now: Sys, states: seq<Sys>, used: set<string>, verdicts: seq<Verdict>)

  function Next(c: Config, p: Past, e: Event): Past {
    Past(Step(c, p.now, e), p.states + [p.now],
         if e.StartEvent? then p.used + {e.runID} else p.used,
         if Written(p.now, e).Some? then p.verdicts + [Written(p.now, e).value] else p.verdicts)
  }

  // Identifiers handed out by start are fresh.
  predicate Fresh(p: Past, e: Event) {
    e.StartEvent? ==> e.runID !in p.used
  }

  // A lab and two stores without files.
  function Initial(lab: Lab.State): Past {
    Past(Sys(None, lab, Progression.Opened(None), History.Opened(None), []), [], {}, [])
  }

  ghost predicate Leads(c: Config, p: Past, events: seq<Event>, q: Past)
    decreases |events|
  {
    if events == [] then p == q
    else Fresh(p, events[0]) && Leads(c, Next(c, p, events[0]), events[1..], q)
  }

  // Every state an installation can get into from its first start, over any mix of
  // operations, worker steps, failing calls and stores, and restarts.
  ghost predicate Reachable(c: Config, p: Past) {
    ValidConfig(c) && exists lab, events :: Leads(c, Initial(lab), events, p)
  }
}
