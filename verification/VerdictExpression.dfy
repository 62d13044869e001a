/** Which expression the verdicts of an alert run belong to. A worker evaluates the expression
    it read; the run may have another one recorded by the time it is checked. */
module VerdictExpression {
  import opened Wrappers
  import opened Lab
  import opened Runtime
  import opened RuntimeInvariant
  import opened RuntimePaths
  import opened RuntimeTheorems
  import Ledger

  // The run is active with an alert set.
  predicate HasAlert(s: Sys, runID: string) {
    s.active.Some? && s.active.value.id == runID && s.active.value.alertExpression != ""
  }

  // Every state so far, the present one last.
  function Trail(p: Past): seq<Sys> { p.states + [p.now] }

  // The run has had two different expressions.
  ghost predicate Edited(trail: seq<Sys>, runID: string) {
    exists i, j :: 0 <= i < j < |trail| && HasAlert(trail[i], runID) && HasAlert(trail[j], runID)
                   && trail[i].active.value.alertExpression != trail[j].active.value.alertExpression
  }

  // Every verdict of the run, every query on its way and every earlier alert is of the
  // recorded expression.
  ghost predicate OneOf(p: Past, runID: string, expression: string) {
    && (forall i :: 0 <= i < |p.verdicts| && p.verdicts[i].runID == runID ==> p.verdicts[i].expression == expression != "")
    && (forall i :: 0 <= i < |p.now.workers| && p.now.workers[i].runID == runID && p.now.workers[i].point.Querying? ==>
          p.now.workers[i].point.expression == expression != "")
    && (forall i :: 0 <= i < |p.states| && HasAlert(p.states[i], runID) ==>
          p.states[i].active.value.alertExpression == expression)
  }

  // Past runs have identifiers that were handed out.
  ghost predicate StatesUsed(p: Past) {
    forall i :: 0 <= i < |p.states| && p.states[i].active.Some? ==> p.states[i].active.value.id in p.used
  }

  ghost predicate ExpressionInv(p: Past) {
    && StatesUsed(p)
    && (p.now.active.Some? && !Edited(Trail(p), p.now.active.value.id) ==>
          OneOf(p, p.now.active.value.id, p.now.active.value.alertExpression))
  }

  /// What one step does to expressions
  /// ---------------------------------

  // A successful call that sets an alert.
  predicate SetsAlert(s: Sys, e: Event) {
    s.active.Some? && e.AlertEvent? && SetAlert(s, e.expression, e.query).ok
  }

  // An expression changes only by setting an alert, and is never taken away.
  ghost predicate ExpressionStep(s: Sys, e: Event, t: Sys) {
    s.active.Some? && t.active.Some? ==>
      var r, q := s.active.value, t.active.value;
      q.alertExpression == r.alertExpression
      || (SetsAlert(s, e) && q.alertExpression == e.expression != "")
  }

  lemma ExpressionSteps(c: Config, s: Sys, e: Event)
    ensures ExpressionStep(s, e, Step(c, s, e))
  {
    hide Apply, Diagnosed, PutBackends, BackendsOk, Check, Restart, Fires, Current;
    match e {
      case CheckEvent(input) => CheckFollows(c, s, input);
      case RestartEvent => RestartIdle(s);
      case _ =>
    }
  }

  // A query on its way was there before, or has just read the recorded expression.
  ghost predicate QueryStep(s: Sys, t: Sys) {
    forall i :: 0 <= i < |t.workers| && t.workers[i].point.Querying? ==>
      || (i < |s.workers| && t.workers[i].runID == s.workers[i].runID && t.workers[i].point == s.workers[i].point)
      || HasRead(s, t.workers[i])
  }

  predicate HasRead(s: Sys, w: Worker) {
    w.point.Querying? && s.active.Some? && w.runID == s.active.value.id
    && w.point.expression == s.active.value.alertExpression != ""
  }

  lemma WorkerQueries(s: Sys, i: nat, query: Query)
    ensures QueryStep(s, Wake(s, i)) && QueryStep(s, Record(s, i, query))
  {
    hide RecordVerdict, Fires;
  }

  lemma QuerySteps(c: Config, s: Sys, e: Event)
    ensures QueryStep(s, Step(c, s, e))
  {
    hide Apply, Diagnosed, PutBackends, BackendsOk, Check, Restart, PhaseRun, Wake, Record, ExpressionOk;
    match e {
      case CheckEvent(input) => CheckFollows(c, s, input);
      case WakeEvent(i) => WorkerQueries(s, i, QUIET);
      case RecordEvent(i, query) => WorkerQueries(s, i, query);
      case RestartEvent => RestartIdle(s);
      case _ =>
    }
  }

  // A verdict carries the expression of the query its worker had on its way.
  lemma WrittenExpression(s: Sys, e: Event)
    ensures Written(s, e).Some? ==>
      e.RecordEvent? && e.i < |s.workers| && s.workers[e.i].point.Querying?
      && s.workers[e.i].runID == Written(s, e).value.runID
      && s.workers[e.i].point.expression == Written(s, e).value.expression
    ensures e.AlertEvent? ==> Written(s, e).None?
  {}

  /// The invariant
  /// -------------

  lemma EditedStays(c: Config, p: Past, e: Event, runID: string)
    ensures Trail(Next(c, p, e)) == Trail(p) + [Step(c, p.now, e)]
    ensures Edited(Trail(p), runID) ==> Edited(Trail(Next(c, p, e)), runID)
  {
    hide Step, HasAlert;
    var before, after := Trail(p), Trail(Next(c, p, e));
    assert after == before + [Step(c, p.now, e)];
    forall i | 0 <= i < |before| ensures after[i] == before[i] {}
  }

  // Changing an expression that is set edits the run.
  lemma ChangeEdits(trail: seq<Sys>, t: Sys, runID: string)
    requires trail != [] && HasAlert(trail[|trail| - 1], runID) && HasAlert(t, runID)
    requires trail[|trail| - 1].active.value.alertExpression != t.active.value.alertExpression
    ensures Edited(trail + [t], runID)
  {
    var all := trail + [t];
    assert all[|trail| - 1] == trail[|trail| - 1] && all[|trail|] == t;
  }

  lemma StatesKept(c: Config, p: Past, e: Event)
    requires Inv(p) && StatesUsed(p)
    ensures StatesUsed(Next(c, p, e))
  {
    hide Inv, Step, Written;
    if p.now.active.Some? {
      ActiveKnown(p);
    }
  }

  lemma OneKept(c: Config, p: Past, e: Event, t: Sys, r: Run, q: Run)
    requires t == Step(c, p.now, e) && p.now.active == Some(r) && t.active == Some(q) && q.id == r.id
    requires OneOf(p, r.id, r.alertExpression)
    requires q.alertExpression == r.alertExpression || (r.alertExpression == "" && e.AlertEvent?)
    ensures OneOf(Next(c, p, e), r.id, q.alertExpression)
  {
    hide Step, Written;
    QuerySteps(c, p.now, e);
    WrittenExpression(p.now, e);
  }

  // Without an active run no verdict is written.
  lemma NextIdle(c: Config, p: Past, e: Event)
    requires p.now.active.None?
    ensures var n := Next(c, p, e);
      n.now == Step(c, p.now, e) && n.states == p.states + [p.now] && n.verdicts == p.verdicts
  {
    hide Step, Written;
    WrittenIds(p.now, e);
  }

  lemma NoTrace(p: Past, runID: string)
    ensures IdsInv(p) && runID !in p.used ==> forall i :: 0 <= i < |p.verdicts| ==> p.verdicts[i].runID != runID
    ensures IdsInv(p) && runID !in p.used ==>
      forall i :: 0 <= i < |p.now.workers| ==> p.now.workers[i].runID != runID
  {}

  lemma FreshOne(c: Config, p: Past, e: Event, q: Run)
    requires Inv(p) && StatesUsed(p) && p.now.active.None? && q.id !in p.used
    ensures OneOf(Next(c, p, e), q.id, q.alertExpression)
  {
    hide Inv, IdsInv, Step, Next, StoresInv, AlertInv, GateInv;
    InvParts(p);
    NoTrace(p, q.id);
    NextIdle(c, p, e);
    QuerySteps(c, p.now, e);
  }

  lemma ExpressionKept(c: Config, p: Past, e: Event)
    requires ValidConfig(c) && Inv(p) && Fresh(p, e) && ExpressionInv(p)
    ensures ExpressionInv(Next(c, p, e))
  {
    var s, t := p.now, Step(c, p.now, e);
    hide Inv, Step, OneOf, Edited, StatesUsed, SameRun;
    StatesKept(c, p, e);
    NextFrame(c, p, e);
    hide Next;
    if t.active.Some? {
      var q := t.active.value;
      EditedStays(c, p, e, q.id);
      if s.active.Some? && !Edited(Trail(Next(c, p, e)), q.id) {
        var r := s.active.value;
        SameRunFacts(r, q);
        ExpressionSteps(c, s, e);
        if q.alertExpression != r.alertExpression && r.alertExpression != "" {
          ChangeEdits(Trail(p), t, q.id);
        }
        OneKept(c, p, e, t, r, q);
      } else if s.active.None? {
        FreshOne(c, p, e, q);
      }
    }
  }

  lemma {:induction false} LeadsExpression(c: Config, p: Past, events: seq<Event>, q: Past)
    requires ValidConfig(c) && Inv(p) && ExpressionInv(p) && Leads(c, p, events, q)
    ensures ExpressionInv(q)
    decreases |events|
  {
    if events != [] {
      hide Step, Inv, Next, ExpressionInv;
      ExpressionKept(c, p, events[0]);
      StepKeeps(c, p, events[0]);
      LeadsExpression(c, Next(c, p, events[0]), events[1..], q);
    }
  }

  lemma ReachableExpression(c: Config, p: Past)
    requires Reachable(c, p)
    ensures ExpressionInv(p)
  {
    var lab, events :| Leads(c, Initial(lab), events, p);
    var o := Initial(lab);
    assert Inv(o) by { Ledger.EmptyConsistent(); }
    assert ExpressionInv(o);
    hide Initial, Leads, Inv, ExpressionInv;
    LeadsExpression(c, o, events, p);
  }

  // In every reachable installation, an active run whose expression was never replaced by
  // a different one has verdicts of its recorded expression only.
  lemma OneExpression(c: Config, p: Past)
    requires Reachable(c, p) && p.now.active.Some? && !Edited(Trail(p), p.now.active.value.id)
    ensures var r := p.now.active.value;
      forall i :: 0 <= i < |p.verdicts| && p.verdicts[i].runID == r.id ==> p.verdicts[i].expression == r.alertExpression
  {
    hide Reachable, Edited;
    ReachableExpression(c, p);
  }

  lemma AlertSet(c: Config, p: Past, e: Event)
    requires SetsAlert(p.now, e)
    ensures var r, m := p.now.active.value, Next(c, p, e);
      && m.now.active == Some(r.(alertExpression := e.expression)) && m.verdicts == p.verdicts && m.used == p.used
      && (m.now.workers == p.now.workers || m.now.workers == p.now.workers + [NewWorker(r, Baseline)])
      && AlertExercise(r.scenario) && Diagnosed(r) && ExpressionOk(e.expression) && Fresh(p, e)
  {
    hide Diagnosed, ExpressionOk;
  }

  // The guard a caller can check: a step edits the active run if and only if it sets an
  // alert, successfully, to something else than the alert that is set.
  lemma EditIff(c: Config, p: Past, e: Event)
    requires Reachable(c, p) && Fresh(p, e) && p.now.active.Some? && !Edited(Trail(p), p.now.active.value.id)
    ensures var r := p.now.active.value;
      Edited(Trail(Next(c, p, e)), r.id) <==>
        SetsAlert(p.now, e) && r.alertExpression != "" && e.expression != r.alertExpression
  {
    var s, t, r := p.now, Step(c, p.now, e), p.now.active.value;
    ReachableExpression(c, p);
    EditedStays(c, p, e, r.id);
    ExpressionSteps(c, s, e);
    if SetsAlert(s, e) {
      AlertSet(c, p, e);
    }
    assert OneOf(p, r.id, r.alertExpression);
    hide Reachable, Next, Step, SetAlert, Fresh;
    if HasAlert(s, r.id) && HasAlert(t, r.id) && t.active.value.alertExpression != r.alertExpression {
      ChangeEdits(Trail(p), t, r.id);
    }
    if Edited(Trail(p) + [t], r.id) {
      EditedByLast(p, t, r);
    }
  }

  lemma EditedByLast(p: Past, t: Sys, r: Run)
    requires p.now.active == Some(r) && OneOf(p, r.id, r.alertExpression)
    requires Edited(Trail(p) + [t], r.id) && !Edited(Trail(p), r.id)
    ensures HasAlert(t, r.id) && r.alertExpression != "" && t.active.value.alertExpression != r.alertExpression
  {
    var all := Trail(p) + [t];
    var i, j :| 0 <= i < j < |all| && HasAlert(all[i], r.id) && HasAlert(all[j], r.id)
                && all[i].active.value.alertExpression != all[j].active.value.alertExpression;
    forall k | 0 <= k < |Trail(p)| ensures all[k] == Trail(p)[k] {}
    assert all[i] == if i < |p.states| then p.states[i] else p.now;
  }

  /// The grade and the recorded expression
  /// -------------------------------------

  // The three verdicts a passed alert exercise rests on are of its recorded expression,
  // unless that expression replaced a different one; and the firing one is a query's answer.
  lemma PassedWithOne(c: Config, p: Past, input: CheckInput) returns (quiet: nat, firing: nat, cleared: nat)
    requires Reachable(c, p) && AlertRun(p.now)
    requires PassesCheck(c, p.now, input)
    requires !Edited(Trail(p), p.now.active.value.id)
    ensures var r := p.now.active.value;
      && Last(p.verdicts, r.id, Baseline, quiet) && !p.verdicts[quiet].fired
      && Last(p.verdicts, r.id, Incident, firing) && p.verdicts[firing].fired
      && Last(p.verdicts, r.id, Recovery, cleared) && !p.verdicts[cleared].fired
      && p.verdicts[quiet].expression == p.verdicts[firing].expression == p.verdicts[cleared].expression == r.alertExpression
  {
    hide Reachable, Check, Edited;
    quiet, firing, cleared := PassedAlert(c, p, input);
    OneExpression(c, p);
  }

  // The run passes this check on a verdict of another expression than the recorded one.
  ghost predicate PassesStale(c: Config, p: Past, runID: string, input: CheckInput) {
    && p.now.active.Some? && p.now.active.value.id == runID
    && PassesCheck(c, p.now, input)
    && Stale(p.verdicts, runID, p.now.active.value.alertExpression)
  }

  ghost predicate Stale(verdicts: seq<Verdict>, runID: string, expression: string) {
    exists i: nat, phase: Phase :: !phase.OtherPhase? && Last(verdicts, runID, phase, i) && verdicts[i].expression != expression
  }

  lemma AppendedStale(verdicts: seq<Verdict>, runID: string, a: Verdict, b: Verdict, d: Verdict, expression: string)
    requires Of(d, runID, Recovery) && d.expression != expression
    ensures Stale(verdicts + [a, b, d], runID, expression)
  {
    var all, n := verdicts + [a, b, d], |verdicts| + 2;
    assert all[n] == d && Last(all, runID, Recovery, n);
  }

  // A run that passes goes on passing when its alert is replaced.
  lemma ReplacedUseful(c: Config, s: Sys, expression: string)
    requires AlertRun(s) && AlertUseful(s.active.value) && DiagnosisCorrect(s.active.value) && ExpressionOk(expression)
    ensures var r, t := s.active.value, Step(c, s, AlertEvent(expression, QUIET));
      && t.active == Some(r.(alertExpression := expression))
      && AlertUseful(t.active.value) && DiagnosisCorrect(t.active.value)
  {
    assert expression != "" && Diagnosed(s.active.value);
    hide ExpressionOk;
  }

  // From any active alert run: play it through, then replace the alert.
  lemma StaleFrom(c: Config, p: Past) returns (q: Past)
    requires Reachable(c, p) && AlertRun(p.now)
    ensures Reaches(c, AnyCall, p, q)
    ensures forall input :: PassesStale(c, q, p.now.active.value.id, input)
  {
    var r := p.now.active.value;
    assert ExpressionOk(EXPRESSION) && ExpressionOk("a");
    hide Reachable, Reaches, Check, Replayed, AlertUseful, DiagnosisCorrect, Diagnosed, Armed, Step, Stale, Next, Fires,
         ExpressionOk;
    ReachableRun(c, p);
    ReachesSelf(c, AnyCall, p);
    var m := Replays(c, p, p, EXPRESSION, QUIET, Incident, FIRING, Recovery, QUIET);
    ReplayedUseful(r, EXPRESSION, QUIET, Incident, FIRING, Recovery, QUIET);
    var other := "a";
    ReplacedUseful(c, m.now, other);
    q := Plain(c, AnyCall, p, m, AlertEvent(other, QUIET));
    var a := Armed(r, EXPRESSION, QUIET);
    ArmedRun(r, EXPRESSION, QUIET);
    AppendedStale(p.verdicts, r.id, Answered(a, Baseline, QUIET), Answered(a, Incident, FIRING), Answered(a, Recovery, QUIET), other);
    forall input ensures PassesStale(c, q, r.id, input) {
      UsefulPasses(c, q.now, input);
    }
  }

  /// Exactly when a new alert leaves a stale pass possible
  /// -----------------------------------------------------

  // The last verdict of this phase is what a pass needs, and of another expression.
  ghost predicate Kept(verdicts: seq<Verdict>, runID: string, expression: string, phase: Phase, i: nat) {
    !phase.OtherPhase? && Last(verdicts, runID, phase, i)
    && verdicts[i].fired == phase.Incident? && verdicts[i].expression != expression
  }

  // A query of the run with another expression is on its way.
  ghost predicate InFlight(workers: seq<Worker>, runID: string, expression: string, i: nat) {
    i < |workers| && workers[i].runID == runID
    && workers[i].point.Querying? && workers[i].point.expression != expression
  }

  ghost predicate Leftover(p: Past, runID: string, expression: string) {
    (exists phase, i :: Kept(p.verdicts, runID, expression, phase, i))
    || exists i :: InFlight(p.now.workers, runID, expression, i)
  }

  // An alert run with this expression, and nothing left over from another one.
  ghost predicate Only(p: Past, runID: string, expression: string) {
    && runID in p.used && !Leftover(p, runID, expression)
    && (p.now.active.Some? && p.now.active.value.id == runID ==>
          AlertExercise(p.now.active.value.scenario) && p.now.active.value.alertExpression == expression)
  }

  lemma NoNewQuery(s: Sys, t: Sys, runID: string, expression: string, i: nat)
    requires QueryStep(s, t) && InFlight(t.workers, runID, expression, i)
    requires s.active.Some? && s.active.value.id == runID ==> s.active.value.alertExpression == expression
    ensures InFlight(s.workers, runID, expression, i)
  {}

  lemma NoNewVerdict(verdicts: seq<Verdict>, v: Verdict, runID: string, expression: string, phase: Phase, i: nat)
    ensures Kept(verdicts + [v], runID, expression, phase, i) && (v.runID == runID ==> v.expression == expression) ==>
      Kept(verdicts, runID, expression, phase, i)
  {
    assert forall j :: 0 <= j < |verdicts| ==> (verdicts + [v])[j] == verdicts[j];
  }

  lemma LeftoverBefore(c: Config, p: Past, e: Event, runID: string, expression: string)
    requires Leftover(Next(c, p, e), runID, expression)
    requires p.now.active.Some? && p.now.active.value.id == runID ==> p.now.active.value.alertExpression == expression
    ensures Leftover(p, runID, expression)
  {
    var q := Next(c, p, e);
    assert q.verdicts == if Written(p.now, e).Some? then p.verdicts + [Written(p.now, e).value] else p.verdicts;
    assert q.now == Step(c, p.now, e);
    QuerySteps(c, p.now, e);
    WrittenExpression(p.now, e);
    hide Next, Step, Written, QueryStep, Kept;
    if i :| InFlight(q.now.workers, runID, expression, i) {
      NoNewQuery(p.now, q.now, runID, expression, i);
    } else {
      var phase, i :| Kept(q.verdicts, runID, expression, phase, i);
      if Written(p.now, e).Some? {
        var v := Written(p.now, e).value;
        if v.runID == runID && v.expression != expression {
          assert InFlight(p.now.workers, runID, expression, e.i);
        } else {
          NoNewVerdict(p.verdicts, v, runID, expression, phase, i);
        }
      }
    }
  }

  // As long as no other alert is set, it stays so.
  lemma OnlyKept(c: Config, p: Past, e: Event, runID: string, expression: string)
    requires ValidConfig(c) && Inv(p) && Fresh(p, e) && Only(p, runID, expression) && Allows(KeepsAlert(expression), e)
    ensures Only(Next(c, p, e), runID, expression)
  {
    hide Inv, Step, Next, SetAlert, Leftover, Fresh;
    var q := Next(c, p, e);
    NextFrame(c, p, e);
    if Leftover(q, runID, expression) {
      LeftoverBefore(c, p, e, runID, expression);
    }
    if q.now.active.Some? && q.now.active.value.id == runID {
      assert p.now.active.Some? && SameRun(p.now.active.value, q.now.active.value);
      ExpressionSteps(c, p.now, e);
    }
  }

  lemma {:induction false} LeadsOnly(c: Config, p: Past, events: seq<Event>, q: Past, runID: string, expression: string)
    requires ValidConfig(c) && Inv(p) && Only(p, runID, expression)
    requires Leads(c, p, events, q) && AllAllowed(KeepsAlert(expression), events)
    ensures Only(q, runID, expression)
    decreases |events|
  {
    if events != [] {
      hide Step, Inv, Next, Only, Allows;
      OnlyKept(c, p, events[0], runID, expression);
      StepKeeps(c, p, events[0]);
      assert forall i :: 0 <= i < |events[1..]| ==> events[1..][i] == events[i + 1];
      LeadsOnly(c, Next(c, p, events[0]), events[1..], q, runID, expression);
    }
  }

  // A stale verdict is one that was kept, if the last verdicts are what a pass needs.
  lemma StaleIsKept(p: Past, runID: string, expression: string, quiet: nat, firing: nat, cleared: nat)
    requires Stale(p.verdicts, runID, expression)
    requires Last(p.verdicts, runID, Baseline, quiet) && !p.verdicts[quiet].fired
    requires Last(p.verdicts, runID, Incident, firing) && p.verdicts[firing].fired
    requires Last(p.verdicts, runID, Recovery, cleared) && !p.verdicts[cleared].fired
    ensures Leftover(p, runID, expression)
  {
    var i: nat, phase: Phase :| !phase.OtherPhase? && Last(p.verdicts, runID, phase, i) && p.verdicts[i].expression != expression;
    assert i == if phase.Baseline? then quiet else if phase.Incident? then firing else cleared;
    assert Kept(p.verdicts, runID, expression, phase, i);
  }

  // Setting an alert leaves over what it found.
  lemma LeftoverStays(c: Config, p: Past, e: Event)
    requires SetsAlert(p.now, e)
    ensures var id, m := p.now.active.value.id, Next(c, p, e); Leftover(m, id, e.expression) <==> Leftover(p, id, e.expression)
  {
    hide Next, SetAlert, Diagnosed, ExpressionOk, Kept;
    AlertSet(c, p, e);
    var id, m := p.now.active.value.id, Next(c, p, e);
    forall i ensures InFlight(m.now.workers, id, e.expression, i) <==> InFlight(p.now.workers, id, e.expression, i) {}
  }

  lemma {:induction false} LastMeaning(verdicts: seq<Verdict>, runID: string, phase: Phase, i: nat)
    requires Last(verdicts, runID, phase, i)
    ensures LastVerdict(verdicts, runID, phase) == Some(verdicts[i].fired)
    decreases |verdicts|
  {
    if i < |verdicts| - 1 {
      LastMeaning(verdicts[..|verdicts| - 1], runID, phase, i);
    }
  }

  // The flags say that the last verdict of this phase is what a pass needs.
  predicate Favourable(r: Run, phase: Phase) {
    match phase
    case Baseline => r.alertBaselineObserved && !r.alertBaseline
    case Incident => r.alertFired
    case Recovery => r.alertCleared
    case OtherPhase(_) => false
  }

  lemma KeptFlag(r: Run, verdicts: seq<Verdict>, expression: string, phase: Phase, i: nat)
    requires FlagsMatch(r, verdicts) && Kept(verdicts, r.id, expression, phase, i)
    ensures Favourable(r, phase)
  {
    LastMeaning(verdicts, r.id, phase, i);
  }

  // The two evaluations that complete a run of which one phase is favourable.
  lemma CompletedUseful(r: Run, expression: string, phase: Phase)
    requires AlertExercise(r.scenario) && Diagnosed(r) && r.alertExpression == expression != ""
    requires PhasesSeen(r) && Favourable(r, phase)
    ensures var q := CompletedRun(r, phase); AlertUseful(q) && DiagnosisCorrect(q) && q.scenario == r.scenario && q.id == r.id
    ensures CompletedRun(r, phase).alertExpression == expression
  {}

  function CompletedRun(r: Run, phase: Phase): Run {
    if phase.Baseline? then PhaseVerdict(PhaseVerdict(r, Incident, true), Recovery, false)
    else if phase.Incident? then PhaseVerdict(Returned(r, r.alertExpression, QUIET), Recovery, false)
    else PhaseVerdict(Returned(r, r.alertExpression, QUIET), Incident, true)
  }

  // A diagnosed alert run with this expression.
  predicate Continues(s: Sys, expression: string) {
    AlertRun(s) && DiagnosedRun(s) && s.active.value.alertExpression == expression && ExpressionOk(expression)
  }

  lemma ReturnedKeeps(r: Run, expression: string)
    ensures var q := Returned(r, expression, QUIET);
      q.id == r.id && q.alertExpression == expression && (Diagnosed(q) <==> Diagnosed(r))
  {}

  // The other two phases, each with one evaluation of the recorded expression.
  lemma CompletesOthers(c: Config, o: Past, p: Past, expression: string, phase: Phase) returns (q: Past, a: Verdict, b: Verdict)
    requires Reaches(c, KeepsAlert(expression), o, p) && Continues(p.now, expression)
    requires !phase.OtherPhase?
    ensures Reaches(c, KeepsAlert(expression), o, q) && q.now.active == Some(CompletedRun(p.now.active.value, phase))
    ensures q.verdicts == p.verdicts + [a, b] && a.phase != phase && b.phase != phase
  {
    var r, h := p.now.active.value, KeepsAlert(expression);
    assert expression != "" && !Fires(QUIET) && Fires(FIRING);
    hide Reaches, Diagnosed, Returned, ExpressionOk, PhaseVerdict, Fires, Expected;
    if phase.Baseline? {
      var m := EntersAndEvaluates(c, h, o, p, Incident, FIRING);
      VerdictKeeps(r, Incident, true);
      q := EntersAndEvaluates(c, h, o, m, Recovery, QUIET);
      a, b := Answered(r, Incident, FIRING), Answered(r, Recovery, QUIET);
    } else {
      var other, query := if phase.Incident? then Recovery else Incident, if phase.Incident? then QUIET else FIRING;
      var m := ReturnsAndEvaluates(c, h, o, p, expression, QUIET);
      ReturnedKeeps(r, expression);
      q := EntersAndEvaluates(c, h, o, m, other, query);
      a, b := Answered(r.(alertExpression := expression), Baseline, QUIET), Answered(m.now.active.value, other, query);
      assert r.(alertExpression := expression) == r;
      assert q.now.active == Some(PhaseVerdict(m.now.active.value, other, !phase.Incident?));
    }
  }

  lemma KeptOn(verdicts: seq<Verdict>, a: Verdict, b: Verdict, runID: string, expression: string, phase: Phase, i: nat)
    requires Kept(verdicts, runID, expression, phase, i) && a.phase != phase && b.phase != phase
    ensures Stale(verdicts + [a, b], runID, expression)
  {
    var all := verdicts + [a, b];
    assert forall j :: 0 <= j < |verdicts| ==> all[j] == verdicts[j];
    assert all[|verdicts|] == a && all[|verdicts| + 1] == b;
    assert Last(all, runID, phase, i);
  }

  // From a verdict that was kept: complete the other two phases with the new alert.
  lemma PassesOnKept(c: Config, o: Past, p: Past, expression: string, phase: Phase, i: nat) returns (q: Past)
    requires Reachable(c, p) && Reaches(c, KeepsAlert(expression), o, p)
    requires Continues(p.now, expression)
    requires Kept(p.verdicts, p.now.active.value.id, expression, phase, i)
    ensures Reaches(c, KeepsAlert(expression), o, q)
    ensures forall input :: PassesStale(c, q, p.now.active.value.id, input)
  {
    var r := p.now.active.value;
    assert !phase.OtherPhase? && expression != "";
    hide Reachable, Reaches, Check, Diagnosed, AlertUseful, DiagnosisCorrect, ExpressionOk, Kept, Stale, CompletedRun,
         PhasesSeen, Favourable;
    ReachableRun(c, p);
    AlertFlags(c, p);
    KeptFlag(r, p.verdicts, expression, phase, i);
    CompletedUseful(r, expression, phase);
    var a, b;
    q, a, b := CompletesOthers(c, o, p, expression, phase);
    KeptOn(p.verdicts, a, b, r.id, expression, phase, i);
    forall input ensures PassesStale(c, q, r.id, input) {
      UsefulPasses(c, q.now, input);
    }
  }

  // From a query on its way: enter its phase and let it return.
  lemma Lands(c: Config, o: Past, p: Past, expression: string, i: nat) returns (q: Past, phase: Phase)
    requires Reaches(c, KeepsAlert(expression), o, p) && p.now.active.Some?
    requires Diagnosed(p.now.active.value) && InFlight(p.now.workers, p.now.active.value.id, expression, i)
    requires WorkerOk(p.now.workers[i])
    ensures Reaches(c, KeepsAlert(expression), o, q) && q.now.active == Some(PhaseVerdict(p.now.active.value, phase, phase.Incident?))
    ensures Kept(q.verdicts, p.now.active.value.id, expression, phase, |p.verdicts|)
  {
    var r, h, w := p.now.active.value, KeepsAlert(expression), p.now.workers[i];
    phase := w.phase;
    hide Reaches, Diagnosed, Next, SetPhase, RecordVerdict;
    var b := Plain(c, h, o, p, PhaseEvent(phase, OK));
    PhaseWorks(c, p.now, phase);
    var query := if phase.Incident? then FIRING else QUIET;
    q := Next(c, b, RecordEvent(i, query));
    ReachesNext(c, h, o, b, RecordEvent(i, query));
    NextRecord(c, b, i, query);
  }

  lemma PassesOn(c: Config, o: Past, p: Past, expression: string) returns (q: Past)
    requires Reachable(c, o) && Reaches(c, KeepsAlert(expression), o, p)
    requires Continues(p.now, expression)
    requires Leftover(p, p.now.active.value.id, expression)
    ensures Reaches(c, KeepsAlert(expression), o, q)
    ensures forall input :: PassesStale(c, q, p.now.active.value.id, input)
  {
    var r, h := p.now.active.value, KeepsAlert(expression);
    hide Reachable, Reaches, Check, Diagnosed, ExpressionOk, Kept, Stale, PassesStale, Inv, PhaseVerdict;
    ReachesReachable(c, h, o, p);
    if phase, i :| Kept(p.verdicts, r.id, expression, phase, i) {
      q := PassesOnKept(c, o, p, expression, phase, i);
    } else {
      var i: nat :| InFlight(p.now.workers, r.id, expression, i);
      assert WorkerOk(p.now.workers[i]) by { ReachableInv(c, p); WorkersKnown(p); }
      var m, phase := Lands(c, o, p, expression, i);
      ReachesReachable(c, h, o, m);
      q := PassesOnKept(c, o, m, expression, phase, |p.verdicts|);
    }
  }

  // The exact condition. Let an alert be set for the active run. A continuation in which
  // no other alert is set again can pass a check on a verdict of another expression if and
  // only if, before the call, the last verdict of some phase was what a pass needs and of
  // another expression, or a query with another expression was on its way.
  lemma LeftoverIff(c: Config, p: Past, e: Event)
    requires Reachable(c, p) && SetsAlert(p.now, e)
    ensures var r, m := p.now.active.value, Next(c, p, e);
      (exists q, input :: Reaches(c, KeepsAlert(e.expression), m, q) && PassesStale(c, q, r.id, input))
      <==> Leftover(p, r.id, e.expression)
  {
    var r, m, x := p.now.active.value, Next(c, p, e), e.expression;
    hide Reachable, Next, Check, Inv, Leftover, SetsAlert, Leads, Allows, Diagnosed, ExpressionOk, Stale, Fresh, ValidConfig;
    AlertSet(c, p, e);
    LeftoverStays(c, p, e);
    ReachableNext(c, p, e);
    ReachableInv(c, m);
    if Leftover(p, r.id, x) {
      ReachesSelf(c, KeepsAlert(x), m);
      var q := PassesOn(c, m, m, x);
      var input: CheckInput :| true;
      assert PassesStale(c, q, r.id, input);
    }
    if q, input :| Reaches(c, KeepsAlert(x), m, q) && PassesStale(c, q, r.id, input) {
      if !Leftover(p, r.id, x) {
        ReachesReachable(c, KeepsAlert(x), m, q);
        var events :| Leads(c, m, events, q) && AllAllowed(KeepsAlert(x), events);
        LeadsOnly(c, m, events, q, r.id, x);
        var quiet, firing, cleared := PassedAlert(c, q, input);
        StaleIsKept(q, r.id, x, quiet, firing, cleared);
      }
    }
  }

  // Some worker of the run is waiting for its query.
  predicate Waiting(s: Sys, runID: string) {
    exists i :: 0 <= i < |s.workers| && s.workers[i].runID == runID && s.workers[i].point.Querying?
  }

  // For a run never edited so far a caller can read this off the run and its workers: the
  // alert set is a different one, and some phase is favourable already or some worker of
  // the run is waiting for its query.
  lemma StaleIff(c: Config, p: Past, e: Event)
    requires Reachable(c, p) && SetsAlert(p.now, e) && !Edited(Trail(p), p.now.active.value.id)
    ensures var r, m := p.now.active.value, Next(c, p, e);
      (exists q, input :: Reaches(c, KeepsAlert(e.expression), m, q) && PassesStale(c, q, r.id, input))
      <==> e.expression != r.alertExpression
           && ((r.alertBaselineObserved && !r.alertBaseline) || r.alertFired || r.alertCleared || Waiting(p.now, r.id))
  {
    hide Reachable, Reaches, Next, PassesStale, SetAlert, Edited, Trail, Leftover;
    LeftoverIff(c, p, e);
    LeftoverUnedited(c, p, e.expression);
  }

  lemma LeftoverUnedited(c: Config, p: Past, expression: string)
    requires Reachable(c, p) && p.now.active.Some? && !Edited(Trail(p), p.now.active.value.id)
    ensures var r := p.now.active.value;
      Leftover(p, r.id, expression) <==>
        expression != r.alertExpression
        && ((r.alertBaselineObserved && !r.alertBaseline) || r.alertFired || r.alertCleared || Waiting(p.now, r.id))
  {
    var r := p.now.active.value;
    hide Reachable, Edited, Trail;
    ReachableExpression(c, p);
    assert OneOf(p, r.id, r.alertExpression);
    AlertFlags(c, p);
    if phase, i :| Kept(p.verdicts, r.id, expression, phase, i) {
      KeptFlag(r, p.verdicts, expression, phase, i);
    }
    if i :| InFlight(p.now.workers, r.id, expression, i) {
      assert Waiting(p.now, r.id);
    }
    if expression != r.alertExpression {
      forall phase | Favourable(r, phase) ensures Leftover(p, r.id, expression) {
        var i := LastVerdictAt(p.verdicts, r.id, phase);
        assert Kept(p.verdicts, r.id, expression, phase, i);
      }
      assert Favourable(r, Baseline) || Favourable(r, Incident) || Favourable(r, Recovery) || !(
        (r.alertBaselineObserved && !r.alertBaseline) || r.alertFired || r.alertCleared);
      if Waiting(p.now, r.id) {
        var i :| 0 <= i < |p.now.workers| && p.now.workers[i].runID == r.id && p.now.workers[i].point.Querying?;
        assert InFlight(p.now.workers, r.id, expression, i);
      }
    }
  }

  /// Failed queries
  /// --------------

  // The quiet baseline and the cleared recovery need not be: from any active alert run
  // the run can pass every check with both owed to failed queries.
  lemma FailedQueriesPass(c: Config, p: Past) returns (q: Past, quiet: nat, cleared: nat)
    requires Reachable(c, p) && AlertRun(p.now)
    ensures Reaches(c, AnyCall, p, q)
    ensures forall input :: PassesCheck(c, q.now, input)
    ensures var id := p.now.active.value.id;
      && Last(q.verdicts, id, Baseline, quiet) && q.verdicts[quiet].answer.failed
      && Last(q.verdicts, id, Recovery, cleared) && q.verdicts[cleared].answer.failed
  {
    var r := p.now.active.value;
    hide Reachable, Reaches, Check, Replayed, AlertUseful, DiagnosisCorrect, Armed;
    ReachableRun(c, p);
    ReachesSelf(c, AnyCall, p);
    q := Replays(c, p, p, EXPRESSION, FAILED, Incident, FIRING, Recovery, FAILED);
    ReplayedUseful(r, EXPRESSION, FAILED, Incident, FIRING, Recovery, FAILED);
    ArmedRun(r, EXPRESSION, FAILED);
    quiet, cleared := |p.verdicts|, |p.verdicts| + 2;
    forall input ensures PassesCheck(c, q.now, input) {
      UsefulPasses(c, q.now, input);
    }
  }
}
