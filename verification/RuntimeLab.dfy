/** What is deployed while a run is active, over every history of lost and refused calls. */
module RuntimeLab {
  import opened Wrappers
  import opened Floats
  import opened Scenarios
  import DemoSettings
  import opened Lab
  import opened Runtime
  import opened RuntimeInvariant
  import opened RuntimeTheorems

  predicate OwnApi(s: DemoSettings.Settings, id: ScenarioId) {
    s == DemoSettings.HEALTHY || s == ApiFaults(Incident, Some(id))
  }

  predicate OwnDependency(s: DemoSettings.Settings, id: ScenarioId) {
    s == DemoSettings.HEALTHY || s == DependencyFaults(Incident, Some(id))
  }

  predicate OwnBackends(n: int, id: ScenarioId) {
    n == 2 || (n == 1 && CpuScenario(Some(id)))
  }

  // Each service is healthy or holds this exercise's own faults; a configured gateway is
  // closed, and one backend is active, only in the exercises that ask for it.
  predicate OwnLab(c: Config, lab: Lab.State, id: ScenarioId) {
    && OwnApi(lab.api1, id) && OwnApi(lab.api2, id) && OwnDependency(lab.dependency, id)
    && (c.gateway && lab.blocked ==> id.BlockedTraffic?)
    && OwnBackends(lab.backends, id)
  }

  // The only traffic is this run's.
  predicate OwnTraffic(lab: Lab.State, r: Run) {
    lab.traffic.Some? ==> lab.traffic.value == r.id
  }

  predicate LabInv(c: Config, s: Sys) {
    s.active.Some? ==> OwnLab(c, s.lab, s.active.value.scenario) && OwnTraffic(s.lab, s.active.value)
  }

  lemma PutOwn(phase: Phase, id: ScenarioId, current: DemoSettings.Settings, r: Reply)
    ensures OwnApi(current, id) ==> OwnApi(PutSettings(current, ApiFaults(phase, Some(id)), r), id)
    ensures OwnDependency(current, id) ==> OwnDependency(PutSettings(current, DependencyFaults(phase, Some(id)), r), id)
  {
    PayloadsAcceptable(phase, Some(id));
    DemoSettings.FullUpdateDetermines(current, ApiFaults(phase, Some(id)));
    DemoSettings.FullUpdateDetermines(current, DependencyFaults(phase, Some(id)));
    assert phase.Incident? || (ApiFaults(phase, Some(id)) == DemoSettings.HEALTHY && DependencyFaults(phase, Some(id)) == DemoSettings.HEALTHY);
    hide ApiFaults, DependencyFaults, DemoSettings.Updated, DemoSettings.ValidSettings;
  }

  lemma BackendsOwn(id: ScenarioId, current: int, r: Reply)
    ensures OwnBackends(current, id) ==> OwnBackends(PutBackends(current, Backends(Some(id)), r), id)
  {}

  // An application that stops anywhere leaves nothing foreign.
  lemma ApplyOwn(c: Config, lab: Lab.State, id: ScenarioId, phase: Phase, r: Replies)
    requires OwnLab(c, lab, id)
    ensures var t := Apply(lab, Some(id), phase, c.gateway, r).lab; OwnLab(c, t, id) && t.traffic == lab.traffic
  {
    PutOwn(phase, id, lab.api1, r.api1);
    PutOwn(phase, id, lab.api2, r.api2);
    PutOwn(phase, id, lab.dependency, r.dependency);
    BackendsOwn(id, lab.backends, r.balancer);
    hide ApiFaults, DependencyFaults, PutSettings, PutBackends, PutOk, BackendsOk, OwnApi, OwnDependency, OwnBackends, Backends;
  }

  lemma StartedOwn(c: Config, s: Sys, id: ScenarioId, runID: string, r: StartReplies)
    requires LabInv(c, s)
    ensures LabInv(c, Start(c, s, id, runID, r).sys)
  {
    var d := Start(c, s, id, runID, r);
    StartDetermines(c, s, id, runID, r);
    if s.active.Some? {
      assert d.sys == s;
    } else if d.ok {
      assert d.sys.active.value.scenario == id && d.sys.active.value.id == runID;
      hide Start;
    }
  }

  lemma ResetOwn(c: Config, s: Sys, stop: Reply, r: Replies)
    requires LabInv(c, s)
    ensures LabInv(c, Reset(c, s, stop, r).sys)
  {
    if s.active.Some? {
      ApplyOwn(c, StopTraffic(s.lab, stop), s.active.value.scenario, Baseline, r);
    }
    hide Apply, OwnApi, OwnDependency, OwnBackends;
  }

  lemma CapacityOwn(c: Config, s: Sys, backends: int, reply: Reply)
    requires LabInv(c, s)
    ensures LabInv(c, SetCapacity(s, backends, reply).sys)
  {
    hide OwnApi, OwnDependency, Diagnosed;
  }

  lemma InterveneOwn(c: Config, s: Sys, action: Action, r: Replies)
    requires LabInv(c, s)
    ensures LabInv(c, Intervene(c, s, action, r).sys)
  {
    if s.active.Some? {
      ApplyOwn(c, s.lab, s.active.value.scenario, Recovery, r);
    }
    var t := Intervene(c, s, action, r);
    hide Apply, OwnLab, Diagnosed, Allowed;
    if !t.ok {
      assert t.sys.active == s.active;
    }
  }

  lemma PhaseOwn(c: Config, s: Sys, phase: Phase, r: Replies)
    requires LabInv(c, s)
    ensures LabInv(c, SetPhase(c, s, phase, r).sys)
  {
    if s.active.Some? {
      ApplyOwn(c, s.lab, s.active.value.scenario, phase, r);
      PhaseFrame(s.active.value, phase);
    }
    hide Apply, OwnLab, Diagnosed, PhaseRun;
  }

  // The operations that make control calls.
  predicate Touches(e: Event) {
    e.StartEvent? || e.ResetEvent? || e.CapacityEvent? || e.InterveneEvent? || e.PhaseEvent?
  }

  // The others leave the lab, whose run it is, and its phase alone.
  ghost predicate SameLab(s: Sys, t: Sys) {
    && t.lab == s.lab
    && (t.active.Some? ==>
          && s.active.Some? && t.active.value.id == s.active.value.id
          && t.active.value.scenario == s.active.value.scenario && t.active.value.phase == s.active.value.phase)
  }

  lemma WorkersSameLab(s: Sys, i: nat, query: Query)
    ensures SameLab(s, Wake(s, i)) && SameLab(s, Record(s, i, query))
  {
    if i < |s.workers| && s.active.Some? {
      VerdictFrame(s.active.value, s.workers[i].phase, Fires(query));
    }
    hide Fires, RecordVerdict;
  }

  lemma Untouched(c: Config, s: Sys, e: Event)
    requires !Touches(e)
    ensures SameLab(s, Step(c, s, e))
  {
    hide Diagnosed, ExpressionOk, Check, Wake, Record;
    match e {
      case CheckEvent(input) => CheckFollows(c, s, input);
      case WakeEvent(i) => WorkersSameLab(s, i, Query(NaN, true));
      case RecordEvent(i, query) => WorkersSameLab(s, i, query);
      case _ =>
    }
  }

  lemma UntouchedOwn(c: Config, s: Sys, e: Event)
    requires LabInv(c, s) && !Touches(e)
    ensures LabInv(c, Step(c, s, e))
  {
    hide OwnLab, Step;
    Untouched(c, s, e);
  }

  lemma LabKept(c: Config, s: Sys, e: Event)
    requires LabInv(c, s)
    ensures LabInv(c, Step(c, s, e))
  {
    hide LabInv, Start, Reset, SetCapacity, Intervene, SetPhase;
    match e {
      case StartEvent(id, runID, r) => StartedOwn(c, s, id, runID, r);
      case ResetEvent(stop, r) => ResetOwn(c, s, stop, r);
      case CapacityEvent(n, reply) => CapacityOwn(c, s, n, reply);
      case InterveneEvent(action, r) => InterveneOwn(c, s, action, r);
      case PhaseEvent(phase, r) => PhaseOwn(c, s, phase, r);
      case _ => UntouchedOwn(c, s, e);
    }
  }

  lemma {:induction false} LeadsLab(c: Config, p: Past, events: seq<Event>, q: Past)
    requires LabInv(c, p.now) && Leads(c, p, events, q)
    ensures LabInv(c, q.now)
    decreases |events|
  {
    if events != [] {
      hide Step, LabInv, Fresh;
      LabKept(c, p.now, events[0]);
      LeadsLab(c, Next(c, p, events[0]), events[1..], q);
    }
  }

  // Whatever calls were lost or refused, and whatever was deployed before: while a run is
  // active, each API and the dependency is healthy or holds this exercise's own faults, a
  // configured gateway blocks only in blocked-traffic, one backend is active only in a CPU
  // exercise, and no other run's traffic flows.
  lemma NothingForeign(c: Config, p: Past)
    requires Reachable(c, p) && p.now.active.Some?
    ensures OwnLab(c, p.now.lab, p.now.active.value.scenario) && OwnTraffic(p.now.lab, p.now.active.value)
  {
    var lab, events :| Leads(c, Initial(lab), events, p);
    assert LabInv(c, Initial(lab).now);
    hide Leads, Initial, OwnLab;
    LeadsLab(c, Initial(lab), events, p);
  }

  /// The reported phase and the deployed one
  /// ---------------------------------------

  // The lab is what the run's exercise and reported phase ask for; a gateway that is not
  // configured is left out.
  predicate PhaseDeployed(c: Config, lab: Lab.State, r: Run) {
    var id := Some(r.scenario);
    && lab == Deployment(id, r.phase, lab.blocked, lab.traffic)
    && (c.gateway ==> lab.blocked == Blocks(r.phase, id))
  }

  predicate DeployedInv(c: Config, s: Sys) {
    s.active.Some? ==> PhaseDeployed(c, s.lab, s.active.value)
  }

  // A phase change, or an intervention, that reports success.
  predicate Deploys(c: Config, s: Sys, e: Event) {
    (e.PhaseEvent? && SetPhase(c, s, e.phase, e.replies).ok) || (e.InterveneEvent? && Intervene(c, s, e.action, e.replies).ok)
  }

  lemma DeploysPhase(c: Config, s: Sys, e: Event)
    requires Deploys(c, s, e)
    ensures Step(c, s, e).active.Some? && DeployedInv(c, Step(c, s, e))
  {
    if e.PhaseEvent? {
      PhaseDeploys(c, s, e.phase, e.replies);
      PhaseFrame(s.active.value, e.phase);
      hide Apply, Diagnosed, Deployment, PhaseRun;
    } else {
      ApplyDetermines(s.lab, ActiveScenario(s), Recovery, c.gateway, e.replies);
      hide Apply, Diagnosed, Deployment, Allowed;
    }
  }

  lemma {:induction false} UntouchedLab(c: Config, p: Past, events: seq<Event>, q: Past)
    requires DeployedInv(c, p.now) && Leads(c, p, events, q)
    requires forall i :: 0 <= i < |events| ==> !Touches(events[i])
    ensures DeployedInv(c, q.now)
    decreases |events|
  {
    if events != [] {
      hide Step, Fresh, Deployment, Blocks;
      Untouched(c, p.now, events[0]);
      UntouchedLab(c, Next(c, p, events[0]), events[1..], q);
    }
  }

  // After a successful phase change or intervention, and until the next operation that
  // makes control calls, the lab is what the exercise and the reported phase ask for.
  lemma ReportedIsDeployed(c: Config, p: Past, e: Event, events: seq<Event>, q: Past)
    requires Deploys(c, p.now, e) && Leads(c, Next(c, p, e), events, q)
    requires forall i :: 0 <= i < |events| ==> !Touches(events[i])
    ensures q.now.active.Some? ==> PhaseDeployed(c, q.now.lab, q.now.active.value)
  {
    hide PhaseDeployed, Step, Leads, Deploys;
    DeploysPhase(c, p.now, e);
    UntouchedLab(c, Next(c, p, e), events, q);
  }

  // A successful capacity change sets the number of backends and leaves every injected
  // fault as it found it; with two backends it reports the recovery phase all the same.
  lemma CapacityKeepsFaults(s: Sys, backends: int, reply: Reply)
    requires SetCapacity(s, backends, reply).ok
    ensures var t := SetCapacity(s, backends, reply).sys;
      && (backends == 1 || backends == 2) && t.lab == s.lab.(backends := backends)
      && s.active.Some? && t.active.Some?
      && t.active.value.phase == (if backends == 2 then Recovery else s.active.value.phase)
  {
    hide Diagnosed;
  }

  predicate Healthy(lab: Lab.State) {
    lab.api1 == lab.api2 == lab.dependency == DemoSettings.HEALTHY
  }

  // So after a change to two backends a CPU exercise reports a recovery that is not the
  // deployed one, which has one backend; and its services are healthy, as a recovery asks,
  // if and only if they were so before.
  lemma CapacityRecovery(c: Config, s: Sys, reply: Reply)
    requires SetCapacity(s, 2, reply).ok
    ensures var t := SetCapacity(s, 2, reply).sys;
      && t.active.Some? && t.active.value.phase.Recovery? && !PhaseDeployed(c, t.lab, t.active.value)
      && (Healthy(t.lab) <==> Healthy(s.lab))
  {
    CapacityKeepsFaults(s, 2, reply);
    hide Diagnosed;
  }
}
