/** The runtime manager and its run as objects updated in place. Each method is one section
    under the manager's lock, proved against the function of module Runtime that specifies
    it; replies of the lab, query results and file-system results are parameters. */
module RuntimeManager {
  import opened Wrappers
  import opened Floats
  import opened Scenarios
  import opened Lab
  import DemoSettings
  import opened Runtime
  import History
  import Progression

  class RunState {
    var id: string
    var scenario: ScenarioId
    var running: bool
    var phase: Phase
    var hints: seq<int>
    var alertExpression: string
    var alertFired: bool
    var alertCleared: bool
    var alertBaseline: bool
    var alertBaselineObserved: bool
    var incidentSeen: bool
    var recoverySeen: bool
    var interventions: seq<Action>
    var fileEvidenceSeen: bool
    var diagnosis: Diagnosis
    var note: string

    function View(): Run
      reads this
    {
      Run(id, scenario, running, phase, hints, alertExpression, alertFired, alertCleared, alertBaseline,
          alertBaselineObserved, incidentSeen, recoverySeen, interventions, fileEvidenceSeen, diagnosis, note)
    }

    constructor (runID: string, scenario: ScenarioId)
      ensures View() == NewRun(runID, scenario)
    {
      this.id, this.scenario := runID, scenario;
      running, phase, hints, alertExpression := false, Baseline, [], "";
      alertFired, alertCleared, alertBaseline, alertBaselineObserved := false, false, false, false;
      incidentSeen, recoverySeen, interventions, fileEvidenceSeen := false, false, [], false;
      diagnosis, note := Unrecorded, "";
    }
  }

  class Manager {
    const config: Config
    const history: History.Store
    const profile: Progression.Store
    var active: RunState?
    var lab: Lab.State
    var workers: seq<Worker>

    function View(): Sys
      reads this, active, history, profile
    {
      Sys(if active == null then None else Some(active.View()), lab, profile.View(), history.View(), workers)
    }

    function ActiveId(): Option<ScenarioId>
      reads this, active
    {
      if active == null then None else Some(active.scenario)
    }

    // A new process: both files are opened, and no run is active.
    constructor (config: Config, lab: Lab.State, profileFile: Option<Progression.Profile>,
                 historyFile: Option<seq<History.Record>>)
      ensures View() == Sys(None, lab, Progression.Opened(profileFile), History.Opened(historyFile), [])
      ensures this.config == config && fresh(history) && fresh(profile)
    {
      this.config := config;
      history := new History.Store.Open(historyFile);
      profile := new Progression.Store.Open(profileFile);
      active, this.lab, workers := null, lab, [];
    }

    /// Control calls
    /// -------------

    method StopTraffic(r: Reply) returns (ok: bool)
      modifies this`lab
      ensures lab == Lab.StopTraffic(old(lab), r) && (ok <==> r.Accepted?)
    {
      if !r.Refused? {
        lab := lab.(traffic := None);
      }
      return r.Accepted?;
    }

    method StartTraffic(runID: string, r: Reply) returns (ok: bool)
      modifies this`lab
      ensures lab == Lab.StartTraffic(old(lab), runID, r) && (ok <==> r.Accepted?)
    {
      if !r.Refused? {
        lab := lab.(traffic := Some(runID));
      }
      return r.Accepted?;
    }

    // One settings update of an API endpoint.
    method PutApi(endpoint: nat, wanted: DemoSettings.Settings, r: Reply) returns (ok: bool)
      requires endpoint < 2
      modifies this`lab
      ensures lab == if endpoint == 0 then old(lab).(api1 := PutSettings(old(lab).api1, wanted, r))
                     else old(lab).(api2 := PutSettings(old(lab).api2, wanted, r))
      ensures ok <==> PutOk(wanted, r)
    {
      if endpoint == 0 {
        lab := lab.(api1 := PutSettings(lab.api1, wanted, r));
      } else {
        lab := lab.(api2 := PutSettings(lab.api2, wanted, r));
      }
      return PutOk(wanted, r);
    }

    method ApplyState(phase: Phase, r: Replies) returns (ok: bool)
      modifies this`lab
      ensures Applied(lab, ok) == Apply(old(lab), ActiveId(), phase, config.gateway, r)
    {
      var id := ActiveId();
      var api := ApiFaults(phase, id);
      for endpoint := 0 to 2
        invariant ActiveId() == id
        invariant endpoint >= 1 ==> PutOk(api, r.api1)
        invariant endpoint == 2 ==> PutOk(api, r.api2)
        invariant endpoint == 0 ==> lab == old(lab)
        invariant endpoint == 1 ==> lab == old(lab).(api1 := PutSettings(old(lab).api1, api, r.api1))
        invariant endpoint == 2 ==> lab == old(lab).(api1 := PutSettings(old(lab).api1, api, r.api1),
                                                    api2 := PutSettings(old(lab).api2, api, r.api2))
      {
        ok := PutApi(endpoint, api, if endpoint == 0 then r.api1 else r.api2);
        if !ok {
          return;
        }
      }
      var dependency := DependencyFaults(phase, id);
      lab := lab.(dependency := PutSettings(lab.dependency, dependency, r.dependency));
      if !PutOk(dependency, r.dependency) {
        return false;
      }
      if config.gateway {
        if !r.gateway.Refused? {
          lab := lab.(blocked := Blocks(phase, id));
        }
        if !r.gateway.Accepted? {
          return false;
        }
      }
      var backends := 2;
      if CpuScenario(id) {
        backends := 1;
      }
      lab := lab.(backends := PutBackends(lab.backends, backends, r.balancer));
      return BackendsOk(backends, r.balancer);
    }

    /// Starting and resetting
    /// ----------------------

    method Start(id: ScenarioId, runID: string, r: StartReplies) returns (ok: bool)
      modifies this, active
      ensures Done(View(), ok) == Runtime.Start(config, old(View()), id, runID, r)
    {
      hide Apply;
      if active != null || id !in config.catalog {
        return false;
      }
      ok := StopTraffic(r.stop);
      if !ok {
        return;
      }
      ok := ApplyState(Baseline, r.baseline);
      if !ok {
        return;
      }
      active := new RunState(runID, id);
      ok := Launch(r);
      if ok {
        active.running := true;
      } else {
        active := null;
      }
    }

    // Deploy the incident of the active run, unless it is an alert exercise, and start
    // its traffic.
    method Launch(r: StartReplies) returns (ok: bool)
      requires active != null
      modifies this`lab
      ensures var id := active.scenario;
        var incident := if AlertExercise(id) then Applied(old(lab), true)
                        else Apply(old(lab), Some(id), Incident, config.gateway, r.incident);
        var started := Lab.StartTraffic(incident.lab, active.id, r.traffic);
        && (ok <==> incident.ok && r.traffic.Accepted?)
        && lab == if !incident.ok then incident.lab
                  else if ok then started
                  else Apply(started, Some(id), Baseline, config.gateway, r.undo).lab
    {
      hide Apply;
      if !AlertExercise(active.scenario) {
        ok := ApplyState(Incident, r.incident);
        if !ok {
          return;
        }
      }
      ok := StartTraffic(active.id, r.traffic);
      if !ok {
        var undone := ApplyState(Baseline, r.undo);
      }
    }

    method Reset(stop: Reply, r: Replies) returns (ok: bool)
      modifies this
      ensures Done(View(), ok) == Runtime.Reset(config, old(View()), stop, r)
    {
      hide Apply;
      ok := StopTraffic(stop);
      if !ok {
        return;
      }
      ok := ApplyState(Baseline, r);
      if ok {
        active := null;
      }
    }

    /// Diagnosis and mitigation
    /// ------------------------

    method RequireDiagnosis() returns (ok: bool)
      ensures ok <==> active != null && Diagnosed(active.View())
    {
      if active == null || active.diagnosis == Unrecorded {
        return false;
      }
      return Expected(active.scenario) == active.diagnosis;
    }

    method SetCapacity(backends: int, reply: Reply) returns (ok: bool)
      modifies this, active
      ensures Done(View(), ok) == Runtime.SetCapacity(old(View()), backends, reply)
    {
      hide Diagnosed;
      if active == null || (active.scenario != CpuSaturation && active.scenario != VerticalHorizontal) {
        return false;
      }
      ok := RequireDiagnosis();
      if !ok {
        return;
      }
      if backends != 1 && backends != 2 {
        return false;
      }
      lab := lab.(backends := PutBackends(lab.backends, backends, reply));
      if !BackendsOk(backends, reply) {
        return false;
      }
      if backends == 2 {
        Mitigated(HorizontalCapacity);
      }
    }

    // What a mitigation that took effect records about the run.
    method Mitigated(action: Action)
      requires active != null
      modifies active
      ensures active.View() == old(active.View()).(phase := Recovery, recoverySeen := true,
                                                  interventions := old(active.interventions) + [action])
    {
      active.phase := Recovery;
      active.recoverySeen := true;
      active.interventions := active.interventions + [action];
    }

    method Intervene(action: Action, r: Replies) returns (ok: bool)
      modifies this, active
      ensures Done(View(), ok) == Runtime.Intervene(config, old(View()), action, r)
    {
      hide Apply, Diagnosed;
      if active == null {
        return false;
      }
      ok := RequireDiagnosis();
      if !ok {
        return;
      }
      if Allowed(action) != Some(active.scenario) {
        return false;
      }
      ok := ApplyState(Recovery, r);
      if ok {
        Mitigated(action);
      }
    }

    method SetPhase(phase: Phase, r: Replies) returns (ok: bool)
      modifies this, active
      ensures Done(View(), ok) == Runtime.SetPhase(config, old(View()), phase, r)
    {
      hide Apply, Diagnosed;
      if active == null {
        return false;
      }
      if phase == Recovery {
        ok := RequireDiagnosis();
        if !ok {
          return;
        }
      }
      if phase != Baseline && phase != Incident && phase != Recovery {
        return false;
      }
      ok := ApplyState(phase, r);
      if !ok {
        return;
      }
      EnterPhase(phase);
    }

    // What a phase change records about the run, once the lab has followed it.
    method EnterPhase(phase: Phase)
      requires active != null && !phase.OtherPhase?
      modifies this`workers, active
      ensures active.View() == PhaseRun(old(active.View()), phase)
      ensures workers == if phase.Baseline? then old(workers) else old(workers) + [NewWorker(old(active.View()), phase)]
    {
      active.phase := phase;
      if phase == Incident {
        active.incidentSeen := true;
        Schedule(Incident);
      }
      if phase == Recovery {
        active.recoverySeen := true;
        if AlertExercise(active.scenario) {
          active.interventions := active.interventions + [AlertRecovery];
        }
        Schedule(Recovery);
      }
    }

    method SetDiagnosis(diagnosis: Diagnosis, note: string) returns (ok: bool)
      modifies active
      ensures Done(View(), ok) == Runtime.SetDiagnosis(old(View()), diagnosis, note)
    {
      if active == null {
        return false;
      }
      if active.scenario.Unknown? || |note| < 10 || |note| > 2000 {
        return false;
      }
      active.diagnosis, active.note := diagnosis, note;
      return true;
    }

    method MarkFileEvidence() returns (ok: bool)
      modifies active
      ensures Done(View(), ok) == Runtime.MarkFileEvidence(old(View()))
    {
      if active == null || active.scenario != FileForensics {
        return false;
      }
      ok := RequireDiagnosis();
      if ok {
        active.fileEvidenceSeen := true;
      }
    }

    /// Hints and alerts
    /// ----------------

    method RevealHint() returns (ok: bool, hints: seq<int>)
      modifies active
      ensures Done(View(), ok) == Runtime.RevealHint(config, old(View()))
      ensures ok ==> active != null && hints == active.hints
    {
      if active == null {
        return false, [];
      }
      if active.scenario in config.catalog {
        var next := |active.hints|;
        if next < |config.catalog[active.scenario].hints| {
          active.hints := active.hints + [next];
        }
      }
      return true, active.hints;
    }

    method SetAlert(expression: string, query: Query) returns (ok: bool)
      modifies this, active
      ensures Done(View(), ok) == Runtime.SetAlert(old(View()), expression, query)
    {
      hide Diagnosed;
      if active == null || !AlertExercise(active.scenario) {
        return false;
      }
      ok := RequireDiagnosis();
      if !ok {
        return;
      }
      if !ExpressionOk(expression) {
        return false;
      }
      if query.failed {
        return false;
      }
      active.alertExpression := expression;
      if active.phase == Baseline {
        Schedule(Baseline);
      }
    }

    // A new alert worker for the active run.
    method Schedule(phase: Phase)
      requires active != null
      modifies this`workers
      ensures workers == old(workers) + [Worker(active.id, phase, 0, Sleeping)]
    {
      workers := workers + [Worker(active.id, phase, 0, Sleeping)];
    }

    // A worker wakes: it leaves, or reads the expression and releases the lock.
    method Wake(i: nat)
      requires i < |workers| && workers[i].point.Sleeping?
      modifies this`workers
      ensures View() == Runtime.Wake(old(View()), i)
    {
      var w := workers[i];
      if active == null || active.id != w.runID || active.phase != w.phase || active.alertExpression == "" {
        workers := workers[i := w.(point := Finished)];
        return;
      }
      var expression := active.alertExpression;
      workers := workers[i := w.(point := Querying(expression))];
    }

    // Its query has returned: it takes the lock again and writes the verdict, or leaves.
    method Record(i: nat, query: Query)
      requires i < |workers| && workers[i].point.Querying?
      modifies this`workers, active
      ensures View() == Runtime.Record(old(View()), i, query)
    {
      var w := workers[i];
      var fired := !query.failed && query.value != ZERO;
      if active == null || active.id != w.runID || active.phase != w.phase {
        workers := workers[i := w.(point := Finished)];
        return;
      }
      WriteVerdict(w.phase, fired);
      var attempts := w.attempts + 1;
      workers := workers[i := w.(attempts := attempts, point := if attempts < ATTEMPTS then Sleeping else Finished)];
    }

    method WriteVerdict(phase: Phase, fired: bool)
      requires active != null
      modifies active
      ensures active.View() == RecordVerdict(old(active.View()), phase, fired)
    {
      if phase == Incident {
        active.alertFired := fired;
      } else if phase == Recovery {
        active.alertCleared := !fired;
      } else {
        active.alertBaseline := fired;
        active.alertBaselineObserved := true;
      }
    }

    /// Checking
    /// --------

    // The active exercise is always one of the catalog: Start takes it from there, and
    // RuntimeInvariant.IdsInv keeps it.
    method Check(input: CheckInput) returns (report: CheckReport)
      requires active != null ==> active.scenario in config.catalog
      modifies history, profile
      ensures Checked(View(), report) == Runtime.Check(config, old(View()), input)
    {
      if active == null {
        return Idle;
      }
      hide Passes, FinalScore, Runtime.Score, Runtime.Badges, ServiceEvidence, Name, Progression.Awarded,
           Progression.Returned, Progression.Succeeds, History.AllEncodable, History.Added;
      var r := active.View();
      var e := ServiceEvidence(input.good, input.total, input.p95);
      var item := config.catalog[active.scenario];
      var passed, score, breakdown := Grade(r, item, e);
      var saved, xp := false, 0;
      if passed && item.id != FileForensics {
        var badges := BadgesOf(r, item);
        var call := Progression.Call(active.id, Name(active.scenario), score, badges, input.profileIO);
        assert call == AwardCall(r, item, e, input.profileIO);
        var reply;
        reply, xp, saved := profile.Award(call);
        if !saved {
          xp := 0;
        }
      }
      var historyScore := 0;
      if saved {
        historyScore := score;
      }
      var added := history.Add(History.Record(active.id, Name(active.scenario), passed, e.availability, e.p95, historyScore),
                               input.historyIO);
      report := Report(passed, score, breakdown, xp, saved, added);
    }
  }

  method Grade(r: Run, item: Scenario, e: Evidence) returns (passed: bool, score: int, breakdown: Breakdown)
    ensures passed <==> Passes(r, item, e)
    ensures score == FinalScore(r, item, e) && breakdown == Score(r, item, e)
  {
    hide Achieved, DiagnosisCorrect;
    passed := Outcome(r, item, e);
    if passed && !DiagnosisCorrect(r) {
      passed := false;
    }
    breakdown := ScoreOf(r, item, e);
    score := Sum(breakdown);
    if !passed || item.id == FileForensics {
      score := 0;
    }
  }

  method ScoreOf(r: Run, item: Scenario, e: Evidence) returns (breakdown: Breakdown)
    ensures breakdown == Score(r, item, e)
  {
    var diagnosis, mitigation, verification := 0, 0, 0;
    if DiagnosisCorrect(r) {
      diagnosis := 25;
    }
    if r.fileEvidenceSeen || |r.interventions| > 0 || r.recoverySeen {
      mitigation := 25;
    }
    if item.id == FileForensics && r.fileEvidenceSeen {
      verification := 25;
    } else if AlertExercise(item.id) {
      if r.alertBaselineObserved && !r.alertBaseline && r.alertFired && r.alertCleared {
        verification := 25;
      }
    } else if MeetsObjectives(item, e) {
      verification := 25;
    }
    var precision := 25 - 5 * |r.hints|;
    if precision < 0 {
      precision := 0;
    }
    return Breakdown(diagnosis, mitigation, verification, precision);
  }

  // The switch over the exercises.
  method Outcome(r: Run, item: Scenario, e: Evidence) returns (achieved: bool)
    ensures achieved <==> Achieved(r, item, e)
  {
    var action := HorizontalCapacity;
    match r.scenario {
      case CpuSaturation =>
      case VerticalHorizontal =>
      case UsefulAlerts => return AlertUseful(r);
      case SloBurnRate => return AlertUseful(r);
      case DependencyBottleneck => action := DependencyRecovery;
      case ConnectionPool => action := PoolRecovery;
      case LatencySlo => action := LatencyBudget;
      case DnsFailure => action := DnsRecovery;
      case RetryStorm => action := RetryBudget;
      case MemoryLeak => action := ReplaceCapacity;
      case AutoscalerOscillation => action := StabilizePolicy;
      case FileForensics => return r.fileEvidenceSeen;
      case BlockedTraffic => action := NetworkPolicyRecovery;
      case Unknown(_) => return false;
    }
    var applied := HasIntervention(r, action);
    return applied && r.recoverySeen && MeetsObjectives(item, e);
  }

  method HasIntervention(r: Run, action: Action) returns (found: bool)
    ensures found <==> action in r.interventions
  {
    for i := 0 to |r.interventions|
      invariant action !in r.interventions[..i]
    {
      if r.interventions[i] == action {
        return true;
      }
    }
    return false;
  }

  method BadgesOf(r: Run, item: Scenario) returns (badges: seq<Progression.Badge>)
    ensures badges == Badges(r, item)
  {
    badges := [];
    if DiagnosisCorrect(r) {
      badges := badges + [EVIDENCE_FIRST];
    }
    if |r.hints| == 0 && |r.interventions| == 1 {
      badges := badges + [NARROW_FIX];
    }
    if r.recoverySeen {
      badges := badges + [CLEAN_RECOVERY];
    }
    if AlertExercise(item.id) {
      badges := badges + [SIGNAL_BUILDER];
    }
  }
}
