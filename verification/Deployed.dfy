/** What is deployed, in numbers: the settings, the gateway and the backends that a start, a
    phase change or an intervention leaves for each of the thirteen exercises. */
module Deployed {
  import opened Wrappers
  import opened DemoSettings
  import opened Scenarios
  import opened Lab
  import opened Runtime

  // One settings record for both APIs, one for the dependency, the gateway and the balancer.
  datatype Target = Target(api: Settings, dependency: Settings, blocked: bool, backends: int)

  const ZEROS := Settings(0, 0, 0, 0, 0, 0, 0)

  // The incident of each exercise. The fields of a settings record are CPU work, failure
  // interval, latency, dependency failure interval, retries, concurrency limit and memory.
  function IncidentLab(id: ScenarioId): Target {
    match id
    case CpuSaturation => Target(Settings(1000000, 0, 0, 0, 0, 0, 0), ZEROS, false, 1)
    case VerticalHorizontal => Target(Settings(1000000, 0, 0, 0, 0, 0, 0), ZEROS, false, 1)
    case AutoscalerOscillation => Target(Settings(1000000, 0, 0, 0, 0, 0, 0), ZEROS, false, 1)
    case UsefulAlerts => Target(Settings(2000000, 5, 0, 0, 0, 0, 0), ZEROS, false, 2)
    case SloBurnRate => Target(Settings(0, 5, 0, 0, 0, 0, 0), ZEROS, false, 2)
    case DependencyBottleneck => Target(ZEROS, Settings(0, 0, 300, 0, 0, 0, 0), false, 2)
    case LatencySlo => Target(ZEROS, Settings(0, 0, 300, 0, 0, 0, 0), false, 2)
    case DnsFailure => Target(ZEROS, Settings(0, 0, 0, 1, 0, 0, 0), false, 2)
    case RetryStorm => Target(Settings(0, 0, 0, 0, 3, 0, 0), Settings(0, 0, 0, 5, 0, 0, 0), false, 2)
    case ConnectionPool => Target(Settings(0, 0, 0, 0, 0, 4, 0), ZEROS, false, 2)
    case MemoryLeak => Target(Settings(0, 0, 0, 0, 0, 0, 2), ZEROS, false, 2)
    case BlockedTraffic => Target(ZEROS, ZEROS, true, 2)
    case FileForensics => Target(ZEROS, ZEROS, false, 2)
    case Unknown(_) => Target(ZEROS, ZEROS, false, 2)
  }

  // No fault; one backend in the three CPU exercises and two in every other.
  function HealthyLab(id: ScenarioId): Target {
    Target(ZEROS, ZEROS, false, if id.CpuSaturation? || id.VerticalHorizontal? || id.AutoscalerOscillation? then 1 else 2)
  }

  // The lab holds the target; a gateway that is not configured is left out.
  predicate Holds(lab: Lab.State, t: Target, gateway: bool) {
    && (lab.api1, lab.api2, lab.dependency, lab.backends) == (t.api, t.api, t.dependency, t.backends)
    && (gateway ==> lab.blocked == t.blocked)
  }

  // Every call an application makes is accepted.
  predicate AllAccepted(gateway: bool, r: Replies) {
    r.api1.Accepted? && r.api2.Accepted? && r.dependency.Accepted? && (gateway ==> r.gateway.Accepted?) && r.balancer.Accepted?
  }

  // The target of a phase of an exercise, or of none.
  function Wanted(id: Option<ScenarioId>, phase: Phase): Target {
    if id.None? then HEALTHY_LAB else if phase.Incident? then IncidentLab(id.value) else HealthyLab(id.value)
  }

  const HEALTHY_LAB := Target(ZEROS, ZEROS, false, 2)

  // The lab after the calls for a target: to the two APIs, the dependency, the gateway if
  // there is one, and the balancer, in this order. Each call that is made and not refused
  // takes effect, and the first that is not accepted is the last one made.
  function Sent(lab: Lab.State, w: Target, gateway: bool, r: Replies): Lab.State {
    var services := r.api1.Accepted? && r.api2.Accepted? && r.dependency.Accepted?;
    Lab.State.State(
      if r.api1.Refused? then lab.api1 else w.api,
      if !r.api1.Accepted? || r.api2.Refused? then lab.api2 else w.api,
      if !r.api1.Accepted? || !r.api2.Accepted? || r.dependency.Refused? then lab.dependency else w.dependency,
      if !gateway || !services || r.gateway.Refused? then lab.blocked else w.blocked,
      if !services || (gateway && !r.gateway.Accepted?) || r.balancer.Refused? then lab.backends else w.backends,
      lab.traffic)
  }

  // Whether it succeeds or stops half way, an application sends the target of its exercise
  // and phase, and it succeeds exactly when every call it makes is accepted.
  lemma AppliedExactly(lab: Lab.State, id: Option<ScenarioId>, phase: Phase, gateway: bool, r: Replies)
    ensures Apply(lab, id, phase, gateway, r) == Applied(Sent(lab, Wanted(id, phase), gateway, r), AllAccepted(gateway, r))
  {
    var api, dependency := ApiFaults(phase, id), DependencyFaults(phase, id);
    WantedCalls(id, phase);
    PutTakes(lab.api1, api, r.api1);
    PutTakes(lab.api2, api, r.api2);
    PutTakes(lab.dependency, dependency, r.dependency);
    BackendsTake(id, lab.backends, r.balancer);
    hide ApiFaults, DependencyFaults, PutSettings, PutOk, PutBackends, BackendsOk, Wanted, Blocks, Backends, ValidSettings;
  }

  lemma PutTakes(current: Settings, wanted: Settings, r: Reply)
    requires ValidSettings(wanted)
    ensures PutSettings(current, wanted, r) == (if r.Refused? then current else wanted)
    ensures PutOk(wanted, r) <==> r.Accepted?
  {
    FullUpdateDetermines(current, wanted);
  }

  // What the five calls ask for.
  lemma WantedCalls(id: Option<ScenarioId>, phase: Phase)
    ensures var w, n := Wanted(id, phase), Backends(id);
      && ApiFaults(phase, id) == w.api && DependencyFaults(phase, id) == w.dependency
      && ValidSettings(w.api) && ValidSettings(w.dependency)
      && Blocks(phase, id) == w.blocked && n == w.backends
  {
    if id.Some? {
      match id.value { case _ => }
    }
  }

  lemma BackendsTake(id: Option<ScenarioId>, current: int, r: Reply)
    ensures var n := Backends(id);
      PutBackends(current, n, r) == (if r.Refused? then current else n) && (BackendsOk(n, r) <==> r.Accepted?)
  {}

  // A successful start leaves the incident of its exercise, and a healthy lab with two
  // backends in the two alert exercises; the traffic is the new run's.
  lemma StartDeploys(c: Config, s: Sys, id: ScenarioId, runID: string, r: StartReplies)
    requires Start(c, s, id, runID, r).ok
    ensures var lab := Start(c, s, id, runID, r).sys.lab;
      && Holds(lab, if id.UsefulAlerts? || id.SloBurnRate? then HEALTHY_LAB else IncidentLab(id), c.gateway)
      && lab.traffic == Some(runID) && (!c.gateway ==> lab.blocked == s.lab.blocked)
  {
    StartLab(c, s, id, runID, r);
    hide Start, IncidentLab, HealthyLab;
  }

  function Stopped(lab: Lab.State, r: Reply): Lab.State {
    if r.Refused? then lab else lab.(traffic := None)
  }

  // What a start that is allowed sends: it stops the traffic, sends a healthy lab, the incident
  // of the exercise unless it is an alert exercise, and the new traffic, each if the one before
  // succeeded; and when the traffic fails it sends the healthy lab of the exercise.
  function StartSent(lab: Lab.State, id: ScenarioId, runID: string, gateway: bool, r: StartReplies): Lab.State {
    var stopped := Stopped(lab, r.stop);
    if !r.stop.Accepted? then stopped else
    var healthy := Sent(stopped, HEALTHY_LAB, gateway, r.baseline);
    if !AllAccepted(gateway, r.baseline) then healthy else
    var alerts := id.UsefulAlerts? || id.SloBurnRate?;
    var faulty := if alerts then healthy else Sent(healthy, IncidentLab(id), gateway, r.incident);
    if !alerts && !AllAccepted(gateway, r.incident) then faulty else
    var busy := if r.traffic.Refused? then faulty else faulty.(traffic := Some(runID));
    if r.traffic.Accepted? then busy else Sent(busy, HealthyLab(id), gateway, r.undo)
  }

  lemma StartLab(c: Config, s: Sys, id: ScenarioId, runID: string, r: StartReplies)
    ensures var d := Start(c, s, id, runID, r);
      && d.sys.lab == (if s.active.Some? || id !in c.catalog then s.lab else StartSent(s.lab, id, runID, c.gateway, r))
      && (d.ok <==>
            && s.active.None? && id in c.catalog && r.stop.Accepted? && AllAccepted(c.gateway, r.baseline)
            && (id.UsefulAlerts? || id.SloBurnRate? || AllAccepted(c.gateway, r.incident)) && r.traffic.Accepted?)
  {
    var stopped := StopTraffic(s.lab, r.stop);
    AppliedExactly(stopped, None, Baseline, c.gateway, r.baseline);
    var healthy := Apply(stopped, None, Baseline, c.gateway, r.baseline).lab;
    AppliedExactly(healthy, Some(id), Incident, c.gateway, r.incident);
    var faulty := if AlertExercise(id) then healthy else Apply(healthy, Some(id), Incident, c.gateway, r.incident).lab;
    AppliedExactly(StartTraffic(faulty, runID, r.traffic), Some(id), Baseline, c.gateway, r.undo);
    hide Apply, Sent, AllAccepted, IncidentLab, HealthyLab;
  }

  // So a start that fails at its last call, the traffic, and can undo leaves no fault behind.
  lemma FailedStartHeals(c: Config, s: Sys, id: ScenarioId, runID: string, r: StartReplies)
    requires s.active.None? && id in c.catalog && r.stop.Accepted?
    requires AllAccepted(c.gateway, r.baseline) && AllAccepted(c.gateway, r.incident) && AllAccepted(c.gateway, r.undo)
    requires !r.traffic.Accepted?
    ensures var d := Start(c, s, id, runID, r);
      && !d.ok && Holds(d.sys.lab, HealthyLab(id), c.gateway)
      && d.sys.lab.traffic == if r.traffic.Lost? then Some(runID) else None
  {
    StartLab(c, s, id, runID, r);
    hide Start, IncidentLab, HealthyLab;
  }

  // A phase change or an intervention that is allowed sends the target of its phase.
  lemma PhaseLab(c: Config, s: Sys, phase: Phase, r: Replies)
    ensures var lab := SetPhase(c, s, phase, r).sys.lab;
      lab == if s.active.Some? && (phase.Baseline? || phase.Incident? || (phase.Recovery? && Diagnosed(s.active.value)))
             then Sent(s.lab, Wanted(Some(s.active.value.scenario), phase), c.gateway, r) else s.lab
    ensures SetPhase(c, s, phase, r).ok ==> s.active.Some? && AllAccepted(c.gateway, r)
  {
    if s.active.Some? {
      AppliedExactly(s.lab, Some(s.active.value.scenario), phase, c.gateway, r);
    }
    hide Apply, Sent, AllAccepted, Diagnosed, Wanted;
  }

  lemma InterventionLab(c: Config, s: Sys, action: Action, r: Replies)
    ensures var lab := Intervene(c, s, action, r).sys.lab;
      lab == if s.active.Some? && Diagnosed(s.active.value) && Allowed(action) == Some(s.active.value.scenario)
             then Sent(s.lab, HealthyLab(s.active.value.scenario), c.gateway, r) else s.lab
    ensures Intervene(c, s, action, r).ok ==>
      s.active.Some? && AllAccepted(c.gateway, r) && Diagnosed(s.active.value) && Allowed(action) == Some(s.active.value.scenario)
  {
    if s.active.Some? {
      AppliedExactly(s.lab, Some(s.active.value.scenario), Recovery, c.gateway, r);
    }
    hide Apply, Sent, AllAccepted, Diagnosed, Allowed, HealthyLab;
  }

  // A successful phase change leaves the incident, or no fault; an intervention no fault.
  lemma PhaseHolds(c: Config, s: Sys, phase: Phase, r: Replies)
    requires SetPhase(c, s, phase, r).ok
    ensures s.active.Some?
    ensures var lab, id := SetPhase(c, s, phase, r).sys.lab, s.active.value.scenario;
      && Holds(lab, Wanted(Some(id), phase), c.gateway)
      && lab.traffic == s.lab.traffic && (!c.gateway ==> lab.blocked == s.lab.blocked)
  {
    PhaseLab(c, s, phase, r);
    PhaseAllowed(c, s, phase, r);
    hide SetPhase, IncidentLab, HealthyLab, Diagnosed;
  }

  lemma PhaseAllowed(c: Config, s: Sys, phase: Phase, r: Replies)
    ensures SetPhase(c, s, phase, r).ok ==> !phase.OtherPhase? && (phase.Recovery? ==> Diagnosed(s.active.value))
  {
    hide Apply, Diagnosed;
  }

  lemma InterventionHolds(c: Config, s: Sys, action: Action, r: Replies)
    requires Intervene(c, s, action, r).ok
    ensures s.active.Some?
    ensures var lab, id := Intervene(c, s, action, r).sys.lab, s.active.value.scenario;
      && Holds(lab, HealthyLab(id), c.gateway)
      && lab.traffic == s.lab.traffic && (!c.gateway ==> lab.blocked == s.lab.blocked)
  {
    InterventionLab(c, s, action, r);
    hide Intervene, HealthyLab, Diagnosed, Allowed;
  }

  // So from a deployed incident a recovery, or an intervention, has something to remove in
  // every exercise but file-forensics, and but blocked-traffic without a gateway.
  lemma FaultToRemove(c: Config, s: Sys, action: Action, r: Replies)
    requires s.active.Some? && Required(s.active.value.scenario)
    requires Holds(s.lab, IncidentLab(s.active.value.scenario), c.gateway)
    ensures var id := s.active.value.scenario;
      var faulty := !id.FileForensics? && (id.BlockedTraffic? ==> c.gateway);
      && (SetPhase(c, s, Recovery, r).ok ==> (SetPhase(c, s, Recovery, r).sys.lab != s.lab <==> faulty))
      && (Intervene(c, s, action, r).ok ==> (Intervene(c, s, action, r).sys.lab != s.lab <==> faulty))
  {
    if SetPhase(c, s, Recovery, r).ok {
      PhaseHolds(c, s, Recovery, r);
    }
    if Intervene(c, s, action, r).ok {
      InterventionHolds(c, s, action, r);
    }
    hide SetPhase, Intervene;
    match s.active.value.scenario { case _ => }
  }

  // A reset stops the traffic and then sends the healthy lab of the exercise that is active.
  lemma ResetLab(c: Config, s: Sys, stop: Reply, r: Replies)
    ensures var d := Reset(c, s, stop, r);
      var stopped := Stopped(s.lab, stop);
      && d.sys.lab == (if stop.Accepted? then Sent(stopped, Wanted(ActiveScenario(s), Baseline), c.gateway, r) else stopped)
      && (d.ok <==> stop.Accepted? && AllAccepted(c.gateway, r))
  {
    AppliedExactly(StopTraffic(s.lab, stop), ActiveScenario(s), Baseline, c.gateway, r);
    hide Apply, Sent, AllAccepted, Wanted;
  }

  // So a successful one leaves no fault, no traffic, and one backend after a CPU exercise.
  lemma ResetHolds(c: Config, s: Sys, stop: Reply, r: Replies)
    requires Reset(c, s, stop, r).ok
    ensures var lab := Reset(c, s, stop, r).sys.lab;
      && Holds(lab, if s.active.Some? then HealthyLab(s.active.value.scenario) else HEALTHY_LAB, c.gateway)
      && lab.traffic.None? && (!c.gateway ==> lab.blocked == s.lab.blocked)
  {
    ResetLab(c, s, stop, r);
    hide Reset, HealthyLab;
  }
}
