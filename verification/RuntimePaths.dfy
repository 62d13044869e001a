/** Continuations of an installation in which every call is answered and every file is
    written: the steps a learner takes through an exercise, one lemma for each. */
module RuntimePaths {
  import opened Wrappers
  import opened Floats
  import opened Scenarios
  import opened Lab
  import opened Runtime
  import opened RuntimeInvariant
  import Progression

  // What a continuation refrains from: nothing, calls of the incident phase, or setting an
  // alert other than the one named.
  datatype Habit = AnyCall | NoIncidentCall | KeepsAlert(expression: string)

  predicate Allows(h: Habit, e: Event) {
    match h
    case AnyCall => true
    case NoIncidentCall => !(e.PhaseEvent? && e.phase.Incident?)
    case KeepsAlert(expression) => e.AlertEvent? ==> e.expression == expression
  }

  ghost predicate AllAllowed(h: Habit, events: seq<Event>) {
    forall i :: 0 <= i < |events| ==> Allows(h, events[i])
  }

  // Some sequence of allowed events, with fresh run identifiers, leads from p to q.
  ghost predicate Reaches(c: Config, h: Habit, p: Past, q: Past) {
    exists events :: Leads(c, p, events, q) && AllAllowed(h, events)
  }

  lemma ReachesSelf(c: Config, h: Habit, p: Past)
    ensures Reaches(c, h, p, p)
  {
    assert Leads(c, p, [], p) && AllAllowed(h, []);
  }

  lemma {:induction false} LeadsJoin(c: Config, p: Past, events: seq<Event>, q: Past, more: seq<Event>, t: Past)
    requires Leads(c, p, events, q) && Leads(c, q, more, t)
    ensures Leads(c, p, events + more, t)
    decreases |events|
  {
    hide Next, Fresh;
    if events == [] {
      assert [] + more == more;
    } else {
      LeadsJoin(c, Next(c, p, events[0]), events[1..], q, more, t);
      assert (events + more)[1..] == events[1..] + more;
    }
  }

  lemma ReachesNext(c: Config, h: Habit, p: Past, q: Past, e: Event)
    requires Reaches(c, h, p, q) && Fresh(q, e) && Allows(h, e)
    ensures Reaches(c, h, p, Next(c, q, e))
  {
    hide Next, Fresh, Allows;
    var events :| Leads(c, p, events, q) && AllAllowed(h, events);
    assert [e][1..] == [];
    assert Leads(c, Next(c, q, e), [], Next(c, q, e));
    LeadsJoin(c, p, events, q, [e], Next(c, q, e));
    assert AllAllowed(h, events + [e]);
  }

  lemma ReachesReachable(c: Config, h: Habit, p: Past, q: Past)
    requires Reachable(c, p) && Reaches(c, h, p, q)
    ensures Reachable(c, q)
  {
    hide Leads, Initial, ValidConfig;
    var lab, events :| Leads(c, Initial(lab), events, p);
    var more :| Leads(c, p, more, q);
    LeadsJoin(c, Initial(lab), events, p, more, q);
  }

  lemma ReachableRun(c: Config, p: Past)
    requires Reachable(c, p) && p.now.active.Some?
    ensures ValidConfig(c) && p.now.active.value.scenario in c.catalog && PhasesSeen(p.now.active.value)
  {
    assert ValidConfig(c);
    hide Reachable, Inv, StoresInv, AlertInv, PhasesSeen;
    ReachableInv(c, p);
    InvParts(p);
  }

  lemma ReachableNext(c: Config, p: Past, e: Event)
    requires Reachable(c, p) && Fresh(p, e) && p.now.active.Some?
    ensures var m := Next(c, p, e); ValidConfig(c) && Reachable(c, m) && p.now.active.value.id in p.used
  {
    assert ValidConfig(c);
    hide Reachable, Reaches, Next, Inv, Fresh;
    ReachesSelf(c, AnyCall, p);
    ReachesNext(c, AnyCall, p, p, e);
    ReachesReachable(c, AnyCall, p, Next(c, p, e));
    ReachableInv(c, p);
    ActiveKnown(p);
  }

  lemma RestartIdle(s: Sys)
    ensures Restart(s).active.None? && Restart(s).workers == []
  {}

  // A run in progress: its fields, the workers, what they have written, and the profile.
  ghost predicate Shows(p: Past, r: Run, workers: seq<Worker>, verdicts: seq<Verdict>, profile: Progression.State) {
    (p.now.active, p.now.workers, p.verdicts, p.now.profile) == (Some(r), workers, verdicts, profile)
  }

  const OK := Replies(Accepted, Accepted, Accepted, Accepted, Accepted)

  // One event that is neither a start nor a worker's write.
  lemma Plain(c: Config, h: Habit, o: Past, p: Past, e: Event) returns (q: Past)
    requires Reaches(c, h, o, p) && Allows(h, e) && !e.StartEvent? && !e.RecordEvent?
    ensures q == Next(c, p, e) && Reaches(c, h, o, q)
    ensures q.now == Step(c, p.now, e) && q.verdicts == p.verdicts
  {
    hide Step, Reaches;
    q := Next(c, p, e);
    ReachesNext(c, h, o, p, e);
  }

  /// Starting
  /// --------

  const NOTE := "0123456789"

  // A run that has been started and whose diagnosis is right.
  function Begun(id: ScenarioId, runID: string): Run {
    NewRun(runID, id).(running := true, diagnosis := Expected(id), note := NOTE)
  }

  const STARTS := StartReplies(Accepted, OK, OK, Accepted, OK)

  lemma StartWorks(c: Config, s: Sys, id: ScenarioId, runID: string)
    requires s.active.None? && id in c.catalog
    ensures var t := Start(c, s, id, runID, STARTS).sys;
      t.active == Some(NewRun(runID, id).(running := true)) && t.workers == s.workers && t.profile == s.profile
  {
    var stopped := StopTraffic(s.lab, Accepted);
    var baseline := Apply(stopped, None, Baseline, c.gateway, OK);
    ApplyOkIff(stopped, None, Baseline, c.gateway, OK);
    ApplyOkIff(baseline.lab, Some(id), Incident, c.gateway, OK);
    hide Apply;
  }

  // A run after a right diagnosis.
  function Rediagnosed(r: Run): Run { r.(diagnosis := Expected(r.scenario), note := NOTE) }

  lemma DiagnosisWorks(c: Config, s: Sys)
    ensures s.active.Some? && !s.active.value.scenario.Unknown? ==>
      Step(c, s, DiagnosisEvent(Expected(s.active.value.scenario), NOTE)) == s.(active := Some(Rediagnosed(s.active.value)))
  {}

  lemma Begin(c: Config, o: Past, p: Past, id: ScenarioId, runID: string) returns (q: Past)
    requires Reaches(c, AnyCall, o, p) && p.now.active.None? && runID !in p.used
    requires id in c.catalog && !id.Unknown?
    ensures Reaches(c, AnyCall, o, q)
    ensures Shows(q, Begun(id, runID), p.now.workers, p.verdicts, p.now.profile)
  {
    var e := StartEvent(id, runID, STARTS);
    assert Fresh(p, e);
    hide Reaches, Start, Next, Step, Expected, Fresh;
    var m := Next(c, p, e);
    ReachesNext(c, AnyCall, o, p, e);
    StartWorks(c, p.now, id, runID);
    q := Plain(c, AnyCall, o, m, DiagnosisEvent(Expected(id), NOTE));
    DiagnosisWorks(c, m.now);
  }

  lemma BegunDiagnosed(id: ScenarioId, runID: string)
    ensures !id.Unknown? ==> Diagnosed(Begun(id, runID))
  {}

  /// Mitigating a service exercise
  /// -----------------------------

  predicate ServiceExercise(id: ScenarioId) {
    !id.Unknown? && !AlertExercise(id) && !id.FileForensics?
  }

  function Mitigated(r: Run): Run
    requires Mitigation(r.scenario).Some?
  {
    r.(phase := Recovery, recoverySeen := true, interventions := r.interventions + [Mitigation(r.scenario).value])
  }

  function MitigationEvent(id: ScenarioId): Event
    requires ServiceExercise(id)
  {
    if id.CpuSaturation? || id.VerticalHorizontal? then CapacityEvent(2, Accepted)
    else InterveneEvent(Mitigation(id).value, OK)
  }

  lemma MitigationAllowed(id: ScenarioId)
    requires ServiceExercise(id)
    ensures Mitigation(id).Some?
    ensures id.CpuSaturation? || id.VerticalHorizontal? || Allowed(Mitigation(id).value) == Some(id)
    ensures id.CpuSaturation? || id.VerticalHorizontal? ==> Mitigation(id) == Some(HorizontalCapacity)
  {}

  lemma MitigationWorks(c: Config, s: Sys)
    requires s.active.Some? && ServiceExercise(s.active.value.scenario) && Diagnosed(s.active.value)
    ensures Mitigation(s.active.value.scenario).Some?
    ensures var t := Step(c, s, MitigationEvent(s.active.value.scenario));
      t.active == Some(Mitigated(s.active.value)) && t.workers == s.workers && t.profile == s.profile
  {
    var id := s.active.value.scenario;
    MitigationAllowed(id);
    ApplyOkIff(s.lab, Some(id), Recovery, c.gateway, OK);
    hide Apply, Diagnosed, Mitigation, Allowed, PutBackends;
  }

  /// Phases and alert evaluations
  /// ----------------------------

  lemma PhaseWorks(c: Config, s: Sys, phase: Phase)
    requires s.active.Some? && !phase.OtherPhase? && (phase.Recovery? ==> Diagnosed(s.active.value))
    ensures SetPhase(c, s, phase, OK).ok
    ensures var t := SetPhase(c, s, phase, OK).sys;
      && t.active == Some(PhaseRun(s.active.value, phase)) && t.profile == s.profile
      && t.workers == if phase.Baseline? then s.workers else s.workers + [NewWorker(s.active.value, phase)]
  {
    ApplyOkIff(s.lab, Some(s.active.value.scenario), phase, c.gateway, OK);
    hide Apply, Diagnosed;
  }

  lemma NextRecord(c: Config, p: Past, i: nat, query: Query)
    ensures var q, e := Next(c, p, RecordEvent(i, query)), RecordEvent(i, query);
      && q.now == Record(p.now, i, query)
      && (Written(p.now, e).Some? ==> q.verdicts == p.verdicts + [Written(p.now, e).value])
  {
    hide Record, Written;
  }

  // The verdict of an evaluation that reads the run's present expression.
  function Answered(r: Run, phase: Phase, query: Query): Verdict {
    Verdict(r.id, phase, r.alertExpression, Fires(query), query)
  }

  const QUIET := Query(ZERO, false)
  const FIRING := Query(Finite(1.0), false)
  const FAILED := Query(ZERO, true)

  function Evaluated(w: Worker): Worker { w.(attempts := 1, point := Sleeping) }

  lemma WakeRecord(s: Sys, i: nat, query: Query)
    requires i < |s.workers| && s.active.Some? && s.active.value.alertExpression != "" && Current(s, s.workers[i])
    requires s.workers[i].point.Sleeping? && s.workers[i].attempts == 0
    ensures var t := Record(Wake(s, i), i, query);
      && Written(Wake(s, i), RecordEvent(i, query)) == Some(Answered(s.active.value, s.workers[i].phase, query))
      && t.active == Some(RecordVerdict(s.active.value, s.workers[i].phase, Fires(query)))
      && t.workers == s.workers[i := Evaluated(s.workers[i])] && t.profile == s.profile
  {
    hide RecordVerdict, Fires;
  }

  // The first evaluation of worker i, from its sleep to its verdict.
  lemma Evaluates(c: Config, h: Habit, o: Past, p: Past, i: nat, query: Query) returns (q: Past)
    requires Reaches(c, h, o, p)
    requires i < |p.now.workers| && p.now.active.Some? && p.now.active.value.alertExpression != ""
    requires Current(p.now, p.now.workers[i]) && p.now.workers[i].point.Sleeping? && p.now.workers[i].attempts == 0
    ensures Reaches(c, h, o, q)
    ensures var w := p.now.workers[i];
      Shows(q, RecordVerdict(p.now.active.value, w.phase, Fires(query)), p.now.workers[i := Evaluated(w)],
            p.verdicts + [Answered(p.now.active.value, w.phase, query)], p.now.profile)
  {
    hide Reaches, Wake, Record, Written, RecordVerdict, Fires, Next, Current;
    var m := Plain(c, h, o, p, WakeEvent(i));
    q := Next(c, m, RecordEvent(i, query));
    ReachesNext(c, h, o, m, RecordEvent(i, query));
    NextRecord(c, m, i, query);
    WakeRecord(p.now, i, query);
  }

  // A run back in its baseline phase, after an alert was set there and evaluated once.
  function Returned(r: Run, expression: string, query: Query): Run {
    RecordVerdict(PhaseRun(r, Baseline).(alertExpression := expression), Baseline, Fires(query))
  }

  // Return to the baseline phase, set an alert there and let its worker evaluate once.
  lemma ReturnsAndEvaluates(c: Config, h: Habit, o: Past, p: Past, expression: string, query: Query) returns (q: Past)
    requires Reaches(c, h, o, p) && DiagnosedRun(p.now) && ExpressionOk(expression)
    requires AlertExercise(p.now.active.value.scenario)
    requires Allows(h, PhaseEvent(Baseline, OK)) && Allows(h, AlertEvent(expression, QUIET))
    ensures Reaches(c, h, o, q)
    ensures var r := p.now.active.value;
      && q.now.active == Some(Returned(r, expression, query)) && q.now.profile == p.now.profile
      && q.verdicts == p.verdicts + [Answered(r.(alertExpression := expression), Baseline, query)]
  {
    assert expression != "";
    hide Reaches, Next, RecordVerdict, Fires, Diagnosed, SetPhase, PhaseRun, ExpressionOk;
    var b := Plain(c, h, o, p, PhaseEvent(Baseline, OK));
    PhaseWorks(c, p.now, Baseline);
    var m := Plain(c, h, o, b, AlertEvent(expression, QUIET));
    q := Evaluates(c, h, o, m, |p.now.workers|, query);
  }

  // A run in a phase, after its worker's verdict.
  function PhaseVerdict(r: Run, phase: Phase, fired: bool): Run {
    RecordVerdict(PhaseRun(r, phase), phase, fired)
  }

  // Enter the incident or the recovery phase and let its worker evaluate once.
  lemma EntersAndEvaluates(c: Config, h: Habit, o: Past, p: Past, phase: Phase, query: Query) returns (q: Past)
    requires Reaches(c, h, o, p) && DiagnosedRun(p.now)
    requires p.now.active.value.alertExpression != "" && (phase.Incident? || phase.Recovery?)
    requires Allows(h, PhaseEvent(phase, OK))
    ensures Reaches(c, h, o, q)
    ensures var r := p.now.active.value;
      && q.now.active == Some(PhaseVerdict(r, phase, Fires(query)))
      && q.verdicts == p.verdicts + [Answered(r, phase, query)] && q.now.profile == p.now.profile
  {
    hide Reaches, Next, RecordVerdict, Fires, Diagnosed, SetPhase;
    var m := Plain(c, h, o, p, PhaseEvent(phase, OK));
    PhaseWorks(c, p.now, phase);
    q := Evaluates(c, h, o, m, |p.now.workers|, query);
  }

  const EXPRESSION := "e"

  lemma VerdictKeeps(r: Run, phase: Phase, fired: bool)
    ensures var q := PhaseVerdict(r, phase, fired);
      q.id == r.id && q.alertExpression == r.alertExpression && (Diagnosed(q) <==> Diagnosed(r))
  {}

  /// Playing an alert exercise again
  /// -------------------------------

  // And back in the baseline phase with an alert evaluated once.
  function Armed(r: Run, expression: string, query: Query): Run {
    Returned(Rediagnosed(r), expression, query)
  }

  // And after two further phases with their evaluations.
  function Replayed(r: Run, expression: string, query: Query, one: Phase, first: Query, two: Phase, second: Query): Run {
    PhaseVerdict(PhaseVerdict(Armed(r, expression, query), one, Fires(first)), two, Fires(second))
  }

  lemma ArmedRun(r: Run, expression: string, query: Query)
    ensures AlertExercise(r.scenario) ==>
      var q := Armed(r, expression, query); Diagnosed(q) && q.alertExpression == expression && q.id == r.id
    ensures AlertExercise(r.scenario) ==>
      var d := Rediagnosed(r); Diagnosed(d) && d.id == r.id && d.scenario == r.scenario
  {}

  // From whatever moment of an alert run: baseline, and the two other phases in any order,
  // each with one evaluation.
  lemma Replays(c: Config, o: Past, p: Past, expression: string, query: Query, one: Phase, first: Query, two: Phase, second: Query)
    returns (q: Past)
    requires Reaches(c, AnyCall, o, p) && AlertRun(p.now)
    requires ExpressionOk(expression) && {one, two} == {Incident, Recovery}
    ensures Reaches(c, AnyCall, o, q)
    ensures var r := p.now.active.value;
      var a := Armed(r, expression, query);
      && q.now.active == Some(Replayed(r, expression, query, one, first, two, second))
      && q.verdicts == p.verdicts + [Answered(a, Baseline, query), Answered(a, one, first), Answered(a, two, second)]
      && q.now.profile == p.now.profile
  {
    var r := p.now.active.value;
    assert expression != "" && one in {one, two} && two in {one, two};
    hide Reaches, Diagnosed, PhaseVerdict, Returned, Rediagnosed, Next, Step, Expected, Fires;
    hide ExpressionOk;
    var d := Plain(c, AnyCall, o, p, DiagnosisEvent(Expected(r.scenario), NOTE));
    DiagnosisWorks(c, p.now);
    ArmedRun(r, expression, query);
    var m := ReturnsAndEvaluates(c, AnyCall, o, d, expression, query);
    var n := EntersAndEvaluates(c, AnyCall, o, m, one, first);
    VerdictKeeps(m.now.active.value, one, Fires(first));
    q := EntersAndEvaluates(c, AnyCall, o, n, two, second);
  }

  // A quiet baseline, a firing incident and a quiet recovery, in whatever order, are all
  // the grade asks for.
  lemma ReplayedUseful(r: Run, expression: string, query: Query, one: Phase, first: Query, two: Phase, second: Query)
    requires AlertExercise(r.scenario) && expression != "" && {one, two} == {Incident, Recovery}
    requires !Fires(query) && Fires(first) == one.Incident? && Fires(second) == two.Incident?
    ensures var q := Replayed(r, expression, query, one, first, two, second);
      && AlertUseful(q) && DiagnosisCorrect(q) && q.scenario == r.scenario && q.id == r.id && q.alertExpression == expression
  {
    assert one in {one, two} && two in {one, two};
  }

  lemma UsefulPasses(c: Config, s: Sys, input: CheckInput)
    requires AlertRun(s) && s.active.value.scenario in c.catalog
    requires AlertUseful(s.active.value) && DiagnosisCorrect(s.active.value)
    ensures PassesCheck(c, s, input)
  {
    var r := s.active.value;
    var item, e := c.catalog[r.scenario], ServiceEvidence(input.good, input.total, input.p95);
    assert Achieved(r, item, e);
    hide ServiceEvidence, AlertUseful, DiagnosisCorrect, Achieved, FinalScore, Score, HistoryRecord, AwardCall;
  }
}
