/** When each operation of the runtime succeeds, and what it leaves: every condition and every
    new value in terms of the caller's input, the run before, and the replies of the lab. */
module Outcomes {
  import opened Wrappers
  import opened Floats
  import opened Scenarios
  import opened Lab
  import opened Runtime
  import opened RuntimeInvariant
  import opened RuntimePaths
  import opened RuntimeTheorems
  import opened Counting
  import History
  import Ledger
  import opened Deployed

  // The diagnosis that fits each exercise.
  const DIAGNOSES: set<(ScenarioId, Diagnosis)> :=
    {(CpuSaturation, ApiCapacity), (VerticalHorizontal, ApiCapacity), (UsefulAlerts, UserImpact),
     (SloBurnRate, ErrorBudgetBurn), (DependencyBottleneck, DependencyCause), (ConnectionPool, Concurrency),
     (LatencySlo, LatencyCause), (DnsFailure, ServiceDiscovery), (RetryStorm, RetryAmplification),
     (MemoryLeak, MemoryGrowth), (AutoscalerOscillation, FeedbackLoop), (FileForensics, FileOwner),
     (BlockedTraffic, NetworkPolicy)}

  // The exercises an intervention heals, with the diagnosis it asks for.
  const CURES: set<(ScenarioId, Diagnosis, Action)> :=
    {(DependencyBottleneck, DependencyCause, DependencyRecovery), (ConnectionPool, Concurrency, PoolRecovery),
     (LatencySlo, LatencyCause, LatencyBudget), (DnsFailure, ServiceDiscovery, DnsRecovery),
     (RetryStorm, RetryAmplification, RetryBudget), (MemoryLeak, MemoryGrowth, ReplaceCapacity),
     (AutoscalerOscillation, FeedbackLoop, StabilizePolicy), (BlockedTraffic, NetworkPolicy, NetworkPolicyRecovery)}

  predicate Fits(r: Run) { (r.scenario, r.diagnosis) in DIAGNOSES }

  // A run that has just been started.
  predicate Untouched(r: Run, id: ScenarioId, runID: string) {
    r == Run(runID, id, true, Baseline, [], "", false, false, false, false, false, false, [], false, Unrecorded, "")
  }

  lemma FitsIff(r: Run)
    ensures Diagnosed(r) <==> Fits(r)
  {
    match r.scenario { case _ => }
  }

  lemma CuresIff(r: Run, action: Action)
    ensures Diagnosed(r) && Allowed(action) == Some(r.scenario) <==> (r.scenario, r.diagnosis, action) in CURES
  {
    match action { case _ => }
  }

  /// Starting and resetting
  /// ----------------------

  // A start succeeds exactly on an idle runtime, for an exercise of the catalog, with every
  // call accepted; the alert exercises make no incident calls. It leaves a fresh run; a
  // start that fails leaves none, and all that either touches beside is the lab.
  lemma StartIff(c: Config, s: Sys, id: ScenarioId, runID: string, r: StartReplies)
    ensures var d := Start(c, s, id, runID, r);
      var open := s.active.None? && id in c.catalog;
      && (d.ok <==>
            && open && r.stop.Accepted? && AllAccepted(c.gateway, r.baseline)
            && (id.UsefulAlerts? || id.SloBurnRate? || AllAccepted(c.gateway, r.incident)) && r.traffic.Accepted?)
      && d.sys == s.(lab := if open then StartSent(s.lab, id, runID, c.gateway, r) else s.lab, active := d.sys.active)
      && (if d.ok then d.sys.active.Some? && Untouched(d.sys.active.value, id, runID) else d.sys.active == s.active)
  {
    StartLab(c, s, id, runID, r);
    hide Apply, StartSent, AllAccepted;
  }

  // A reset succeeds exactly when every call is accepted; otherwise the run stays active.
  lemma ResetIff(c: Config, s: Sys, stop: Reply, r: Replies)
    ensures var d := Reset(c, s, stop, r);
      var stopped := Stopped(s.lab, stop);
      && (d.ok <==> stop.Accepted? && AllAccepted(c.gateway, r))
      && d.sys == s.(active := if d.ok then None else s.active,
                     lab := if stop.Accepted? then Sent(stopped, Wanted(ActiveScenario(s), Baseline), c.gateway, r) else stopped)
  {
    ResetLab(c, s, stop, r);
    hide Apply, Sent, AllAccepted, Wanted;
  }

  // In every reachable installation a restart ends the run and its workers, leaves the lab and
  // the profile as they are, and takes the history back to what the file holds.
  lemma RestartIs(c: Config, p: Past)
    requires Reachable(c, p)
    ensures var t := Restart(p.now);
      && t.active.None? && t.workers == [] && t.lab == p.now.lab && t.profile == p.now.profile
      && t.history.disk == p.now.history.disk
      && t.history.memory == History.LastHundred(if p.now.history.disk.Some? then p.now.history.disk.value else [])
  {
    hide Reachable, Inv, IdsInv, AlertInv, GateInv, Ledger.Consistent, AwardsGraded, AllBacked, OwnAward;
    ReachableInv(c, p);
    InvParts(p);
    Ledger.StandingKnown(p.now.profile.profile);
    History.OpenedIs(p.now.history.disk);
  }

  /// Diagnosis and mitigation
  /// ------------------------

  // A capacity change succeeds exactly in the two CPU capacity exercises, diagnosed, for one
  // or two backends; only the second backend counts as a mitigation.
  lemma CapacityIff(s: Sys, backends: int, reply: Reply)
    ensures var d := SetCapacity(s, backends, reply);
      var open := s.active.Some? && (s.active.value.scenario.CpuSaturation? || s.active.value.scenario.VerticalHorizontal?)
                  && s.active.value.diagnosis.ApiCapacity? && (backends == 1 || backends == 2);
      && (d.ok <==> open && reply.Accepted?)
      && d.sys == s.(lab := s.lab.(backends := if open && !reply.Refused? then backends else s.lab.backends),
                     active := if d.ok && backends == 2 then Some(Mitigates(s.active.value, HorizontalCapacity)) else s.active)
  {}

  // What a mitigation changes about a run.
  function Mitigates(r: Run, action: Action): Run {
    r.(phase := Recovery, recoverySeen := true, interventions := r.interventions + [action])
  }

  // An intervention succeeds exactly where it heals the exercise under the diagnosis that fits.
  lemma InterveneIff(c: Config, s: Sys, action: Action, r: Replies)
    ensures var d := Intervene(c, s, action, r);
      var open := s.active.Some? && (s.active.value.scenario, s.active.value.diagnosis, action) in CURES;
      && (d.ok <==> open && AllAccepted(c.gateway, r))
      && d.sys == s.(active := if d.ok then Some(Mitigates(s.active.value, action)) else s.active,
                     lab := if open then Sent(s.lab, HealthyLab(s.active.value.scenario), c.gateway, r) else s.lab)
  {
    if s.active.Some? {
      CuresIff(s.active.value, action);
      AppliedExactly(s.lab, Some(s.active.value.scenario), Recovery, c.gateway, r);
    }
    hide Apply, Diagnosed, Allowed, CURES, Sent, AllAccepted, HealthyLab;
  }

  // A phase change succeeds exactly for the three phases, recovery only with the diagnosis
  // that fits; it records the phase, and in an alert exercise recovery is the mitigation.
  lemma PhaseIff(c: Config, s: Sys, phase: Phase, r: Replies)
    ensures var d := SetPhase(c, s, phase, r);
      var open := s.active.Some? && (phase.Baseline? || phase.Incident? || (phase.Recovery? && Fits(s.active.value)));
      && (d.ok <==> open && AllAccepted(c.gateway, r))
      && d.sys == s.(active := d.sys.active, workers := d.sys.workers,
                     lab := if open then Sent(s.lab, Wanted(Some(s.active.value.scenario), phase), c.gateway, r) else s.lab)
      && (if !d.ok then d.sys.active == s.active && d.sys.workers == s.workers
          else d.sys.active.Some? && Entered(s.active.value, phase, d.sys.active.value)
               && d.sys.workers == s.workers + if phase.Baseline? then [] else [Worker(s.active.value.id, phase, 0, Sleeping)])
  {
    if s.active.Some? {
      FitsIff(s.active.value);
      AppliedExactly(s.lab, Some(s.active.value.scenario), phase, c.gateway, r);
    }
    hide Apply, Diagnosed, Fits, Sent, AllAccepted, Wanted;
  }

  // What entering a phase changes about a run.
  ghost predicate Entered(r: Run, phase: Phase, q: Run) {
    var alerts := r.scenario.UsefulAlerts? || r.scenario.SloBurnRate?;
    match phase
    case Incident => q == r.(phase := Incident, incidentSeen := true)
    case Recovery => q == r.(phase := Recovery, recoverySeen := true,
                             interventions := r.interventions + if alerts then [AlertRecovery] else [])
    case _ => q == r.(phase := Baseline)
  }

  // A diagnosis, right or wrong, is recorded with a note of 10 to 2000 bytes.
  lemma DiagnosisIff(s: Sys, diagnosis: Diagnosis, note: string)
    ensures var d := SetDiagnosis(s, diagnosis, note);
      && (d.ok <==> s.active.Some? && Required(s.active.value.scenario) && 10 <= |note| <= 2000)
      && d.sys == if d.ok then s.(active := Some(s.active.value.(diagnosis := diagnosis, note := note))) else s
  {}

  // File evidence counts exactly in its exercise, under the right diagnosis.
  lemma EvidenceIff(s: Sys)
    ensures var d := MarkFileEvidence(s);
      && (d.ok <==> s.active.Some? && s.active.value.scenario.FileForensics? && s.active.value.diagnosis.FileOwner?)
      && d.sys == if d.ok then s.(active := Some(s.active.value.(fileEvidenceSeen := true))) else s
  {}

  /// Hints
  /// -----

  // The first n numbers.
  function UpTo(n: nat): seq<int> { seq(n, i => i) }

  function Hints(c: Config, id: ScenarioId): nat {
    if id in c.catalog then |c.catalog[id].hints| else 0
  }

  lemma HintStep(c: Config, s: Sys, e: Event)
    ensures var t := Step(c, s, e);
      s.active.Some? && t.active.Some? ==>
        var r, q := s.active.value, t.active.value;
        q.hints == if e.HintEvent? && |r.hints| < Hints(c, r.scenario) then r.hints + [|r.hints|] else r.hints
  {
    hide Apply, Diagnosed, PutBackends, BackendsOk, Check, Restart, Fires, Current, ExpressionOk;
    match e {
      case CheckEvent(input) => CheckFollows(c, s, input);
      case RestartEvent => assert Restart(s).active.None? by { RestartIdle(s); }
      case _ =>
    }
  }

  function HintCalls(events: seq<Event>): nat {
    if events == [] then 0 else Bit(events[0].HintEvent?) + HintCalls(events[1..])
  }

  function Min(a: nat, b: nat): nat { if a < b then a else b }

  // After n requests for a hint the run has that many more, up to all of its exercise.
  ghost predicate Shown(c: Config, s: Sys, n: nat, t: Sys) {
    s.active.Some? && t.active.Some? && |s.active.value.hints| <= Hints(c, s.active.value.scenario) ==>
      var r, q := s.active.value, t.active.value;
      q.scenario == r.scenario && |q.hints| == Min(|r.hints| + n, Hints(c, r.scenario))
  }

  lemma ShownNext(c: Config, s: Sys, e: Event, n: nat, t: Sys)
    requires s.active.Some? && Step(c, s, e).active.Some? && Shown(c, Step(c, s, e), n, t)
    requires Step(c, s, e).active.value.scenario == s.active.value.scenario
    ensures Shown(c, s, Bit(e.HintEvent?) + n, t)
  {
    hide Step, Hints;
    HintStep(c, s, e);
  }

  lemma {:induction false} HintsCounted(c: Config, p: Past, events: seq<Event>, q: Past)
    requires ValidConfig(c) && Inv(p) && Leads(c, p, events, q)
    requires p.now.active.Some? && q.now.active.Some? && q.now.active.value.id == p.now.active.value.id
    ensures Shown(c, p.now, HintCalls(events), q.now)
    decreases |events|
  {
    if events != [] {
      hide Step, Inv, Next, Hints, SameRun, Shown;
      var r, next := p.now.active.value, Next(c, p, events[0]);
      NextFrame(c, p, events[0]);
      ActiveKnown(p);
      if next.now.active.Some? && next.now.active.value.id == r.id {
        SameRunFacts(r, next.now.active.value);
        HintsCounted(c, next, events[1..], q);
        ShownNext(c, p.now, events[0], HintCalls(events[1..]), q.now);
      } else {
        RunNeverReturns(c, next, events[1..], q, r.id);
      }
    }
  }

  lemma StartedRun(c: Config, p: Past, e: Event)
    requires Reachable(c, p) && Fresh(p, e) && e.StartEvent? && Start(c, p.now, e.id, e.runID, e.start).ok
    ensures var m := Next(c, p, e);
      && Reachable(c, m) && Inv(m) && ValidConfig(c)
      && m.now.active.Some? && Untouched(m.now.active.value, e.id, e.runID)
  {
    assert ValidConfig(c) && Next(c, p, e).now == Start(c, p.now, e.id, e.runID, e.start).sys;
    hide Inv, Next, Start, Reachable, Reaches, Fresh;
    StartIff(c, p.now, e.id, e.runID, e.start);
    ReachesSelf(c, AnyCall, p);
    ReachesNext(c, AnyCall, p, p, e);
    ReachesReachable(c, AnyCall, p, Next(c, p, e));
    ReachableInv(c, Next(c, p, e));
  }

  // From a successful start on, over any events in between: k requests for a hint have shown
  // the first k hints of the exercise, or all of them when it has fewer.
  lemma HintsShown(c: Config, p: Past, e: Event, events: seq<Event>, q: Past)
    requires Reachable(c, p) && Fresh(p, e) && e.StartEvent? && Start(c, p.now, e.id, e.runID, e.start).ok
    requires Leads(c, Next(c, p, e), events, q) && q.now.active.Some? && q.now.active.value.id == e.runID
    ensures q.now.active.value.hints == UpTo(Min(HintCalls(events), Hints(c, e.id)))
  {
    var m := Next(c, p, e);
    hide Inv, Next, Start, Reachable, Leads, Hints, Fresh;
    StartedRun(c, p, e);
    HintsCounted(c, m, events, q);
    LeadsReachable(c, m, events, q);
    HintsInOrder(c, q);
  }

  lemma LeadsReachable(c: Config, p: Past, events: seq<Event>, q: Past)
    requires Reachable(c, p) && Leads(c, p, events, q)
    ensures Reachable(c, q) && ValidConfig(c)
  {
    assert ValidConfig(c) && AllAllowed(AnyCall, events);
    hide Leads, Reachable;
    ReachesReachable(c, AnyCall, p, q);
  }

  /// Alerts
  /// ------

  // What an alert expression may look like.
  predicate Writable(expression: string) {
    1 <= |expression| <= 500 && ';' !in expression && '\n' !in expression && '\r' !in expression
  }

  // An alert is set exactly in a diagnosed alert exercise, for a well-formed expression
  // whose query answers; in the baseline phase it is evaluated by a new worker.
  lemma AlertIff(s: Sys, expression: string, query: Query)
    ensures var d := SetAlert(s, expression, query);
      && (d.ok <==>
            && s.active.Some? && Writable(expression) && !query.failed
            && ((s.active.value.scenario.UsefulAlerts? && s.active.value.diagnosis.UserImpact?)
                || (s.active.value.scenario.SloBurnRate? && s.active.value.diagnosis.ErrorBudgetBurn?)))
      && (!d.ok ==> d.sys == s)
      && (d.ok ==>
            var r := s.active.value;
            d.sys == s.(active := Some(r.(alertExpression := expression)),
                        workers := s.workers + if r.phase.Baseline? then [Worker(r.id, Baseline, 0, Sleeping)] else []))
  {
    assert ExpressionOk(expression) <==> Writable(expression);
    hide ExpressionOk, Writable;
  }

  // A worker that wakes goes on with the expression of its run if its phase is still
  // current and an alert is set, and leaves otherwise.
  lemma WakeOutcome(s: Sys, i: nat)
    requires i < |s.workers| && s.workers[i].point.Sleeping?
    ensures var w := s.workers[i];
      var current := s.active.Some? && s.active.value.id == w.runID && s.active.value.phase == w.phase;
      Wake(s, i) == s.(workers := s.workers[i := w.(point :=
        if current && s.active.value.alertExpression != "" then Querying(s.active.value.alertExpression) else Finished)])
  {}

  // When its query returns to a phase that is still current, a worker sets the flag of that
  // phase: fired in the incident, cleared in recovery if it did not fire, and in baseline
  // both whether it fired and that it was observed. It fires exactly when the query answered
  // and not with zero; a NaN fires. After the twelfth evaluation it leaves.
  lemma RecordOutcome(s: Sys, i: nat, query: Query)
    requires i < |s.workers| && s.workers[i].point.Querying?
    ensures var w, t := s.workers[i], Record(s, i, query);
      var current := s.active.Some? && s.active.value.id == w.runID && s.active.value.phase == w.phase;
      var loud := !query.failed && query.value != Finite(0.0);
      && (!current ==> t == s.(workers := s.workers[i := w.(point := Finished)]))
      && (current ==>
            && t.active.Some? && Flagged(s.active.value, w.phase, loud, t.active.value)
            && t == s.(active := t.active, workers := s.workers[i := w.(
                 attempts := w.attempts + 1, point := if w.attempts < 11 then Sleeping else Finished)]))
  {}

  // The flags after an evaluation of this phase.
  ghost predicate Flagged(r: Run, phase: Phase, loud: bool, q: Run) {
    match phase
    case Incident => q == r.(alertFired := loud)
    case Recovery => q == r.(alertCleared := !loud)
    case _ => q == r.(alertBaseline := loud, alertBaselineObserved := true)
  }
}
