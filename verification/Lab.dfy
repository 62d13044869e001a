/** The deployed lab as the runtime controls it (internal/server/runtime.go, applyState,
    startTraffic and stopTraffic): two API services, the dependency, the policy gateway,
    the balancer, and the traffic slot. */
module Lab {
  import opened Wrappers
  import opened DemoSettings
  import opened Scenarios
  import LoadBalancer

  // The result of one control call: it succeeds, it takes effect but its reply is lost or
  // is an error, or it has no effect and returns an error.
  datatype Reply = Accepted | Lost | Refused

  datatype Replies = Replies(api1: Reply, api2: Reply, dependency: Reply, gateway: Reply, balancer: Reply)

  datatype Phase = Baseline | Incident | Recovery | OtherPhase(text: string)

  datatype State = State(api1: Settings, api2: Settings, dependency: Settings, blocked: bool,
                         backends: int, traffic: Option<string>)

  // The lab after a sequence of control calls, and whether all of them succeeded.
  datatype Applied = Applied(lab: State, ok: bool)

  predicate Took(r: Reply) { !r.Refused? }

  // A settings update as the service itself treats it.
  predicate PutOk(wanted: Settings, r: Reply) { Acceptable(Full(wanted)) && r.Accepted? }

  function PutSettings(current: Settings, wanted: Settings, r: Reply): Settings {
    if Took(r) then Updated(current, Full(wanted)) else current
  }

  predicate BackendsOk(backends: int, r: Reply) { (backends == 1 || backends == 2) && r.Accepted? }

  function PutBackends(current: int, wanted: int, r: Reply): int {
    if Took(r) then LoadBalancer.Updated(LoadBalancer.State(current, 0), Some(wanted)).active else current
  }

  function ApiFaults(phase: Phase, id: Option<ScenarioId>): Settings {
    if !phase.Incident? || id.None? then HEALTHY
    else match id.value
      case CpuSaturation => HEALTHY.(cpuWork := 1000000)
      case VerticalHorizontal => HEALTHY.(cpuWork := 1000000)
      case AutoscalerOscillation => HEALTHY.(cpuWork := 1000000)
      case UsefulAlerts => HEALTHY.(cpuWork := 2000000, failureEvery := 5)
      case ConnectionPool => HEALTHY.(maxConcurrency := 4)
      case RetryStorm => HEALTHY.(retries := 3)
      case MemoryLeak => HEALTHY.(memoryMB := 2)
      case SloBurnRate => HEALTHY.(failureEvery := 5)
      case _ => HEALTHY
  }

  function DependencyFaults(phase: Phase, id: Option<ScenarioId>): Settings {
    if !phase.Incident? || id.None? then HEALTHY
    else match id.value
      case DependencyBottleneck => HEALTHY.(latencyMS := 300)
      case LatencySlo => HEALTHY.(latencyMS := 300)
      case DnsFailure => HEALTHY.(dependencyFailureEvery := 1)
      case RetryStorm => HEALTHY.(dependencyFailureEvery := 5)
      case _ => HEALTHY
  }

  predicate Blocks(phase: Phase, id: Option<ScenarioId>) {
    phase.Incident? && id == Some(BlockedTraffic)
  }

  predicate CpuScenario(id: Option<ScenarioId>) {
    id == Some(CpuSaturation) || id == Some(VerticalHorizontal) || id == Some(AutoscalerOscillation)
  }

  function Backends(id: Option<ScenarioId>): int {
    if CpuScenario(id) then 1 else 2
  }

  // Apply a phase: the calls are made in order and the first failure ends it.
  function Apply(lab: State, id: Option<ScenarioId>, phase: Phase, gateway: bool, r: Replies): Applied {
    var api := ApiFaults(phase, id);
    var l1 := lab.(api1 := PutSettings(lab.api1, api, r.api1));
    if !PutOk(api, r.api1) then Applied(l1, false) else
    var l2 := l1.(api2 := PutSettings(l1.api2, api, r.api2));
    if !PutOk(api, r.api2) then Applied(l2, false) else
    var dependency := DependencyFaults(phase, id);
    var l3 := l2.(dependency := PutSettings(l2.dependency, dependency, r.dependency));
    if !PutOk(dependency, r.dependency) then Applied(l3, false) else
    var l4 := if gateway && Took(r.gateway) then l3.(blocked := Blocks(phase, id)) else l3;
    if gateway && !r.gateway.Accepted? then Applied(l4, false) else
    var l5 := l4.(backends := PutBackends(l4.backends, Backends(id), r.balancer));
    Applied(l5, BackendsOk(Backends(id), r.balancer))
  }

  function StopTraffic(lab: State, r: Reply): State {
    if Took(r) then lab.(traffic := None) else lab
  }

  function StartTraffic(lab: State, runID: string, r: Reply): State {
    if Took(r) then lab.(traffic := Some(runID)) else lab
  }

  /// What a successful application leaves
  /// ------------------------------------

  // The lab a phase of an exercise asks for, whatever was deployed before.
  function Deployment(id: Option<ScenarioId>, phase: Phase, blocked: bool, traffic: Option<string>): State {
    State.State(ApiFaults(phase, id), ApiFaults(phase, id), DependencyFaults(phase, id), blocked, Backends(id), traffic)
  }

  // Every payload the runtime sends is one the services accept.
  lemma PayloadsAcceptable(phase: Phase, id: Option<ScenarioId>)
    ensures ValidSettings(ApiFaults(phase, id)) && ValidSettings(DependencyFaults(phase, id))
    ensures Backends(id) == 1 || Backends(id) == 2
  {
    if id.Some? && phase.Incident? {
      match id.value { case _ => }
    }
  }

  // A successful application leaves the target of its scenario and phase, independent
  // of what was deployed; only a gateway that is not configured, and traffic, stay as
  // they were.
  lemma ApplyDetermines(lab: State, id: Option<ScenarioId>, phase: Phase, gateway: bool, r: Replies)
    requires Apply(lab, id, phase, gateway, r).ok
    ensures Apply(lab, id, phase, gateway, r).lab ==
            Deployment(id, phase, if gateway then Blocks(phase, id) else lab.blocked, lab.traffic)
  {
    FullUpdateDetermines(lab.api1, ApiFaults(phase, id));
    FullUpdateDetermines(lab.api2, ApiFaults(phase, id));
    FullUpdateDetermines(lab.dependency, DependencyFaults(phase, id));
  }

  // It succeeds exactly when every call it makes does.
  lemma ApplyOkIff(lab: State, id: Option<ScenarioId>, phase: Phase, gateway: bool, r: Replies)
    ensures Apply(lab, id, phase, gateway, r).ok <==>
      && r.api1.Accepted? && r.api2.Accepted? && r.dependency.Accepted?
      && (gateway ==> r.gateway.Accepted?) && r.balancer.Accepted?
  {
    PayloadsAcceptable(phase, id);
  }
}
