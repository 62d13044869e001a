/** The order of alert verdicts. The grade asks for a firing incident evaluation and a quiet
    recovery evaluation, but not for the first to come before the second. They come in this
    order as long as no run is in its incident phase while its recovery counts as cleared;
    entering the phase then is what lets a run pass with the two in the wrong order. */
module AlertOrder {
  import opened Wrappers
  import opened Scenarios
  import opened Lab
  import opened Runtime
  import opened RuntimeInvariant
  import opened RuntimePaths
  import opened RuntimeTheorems
  import Ledger

  // Every incident verdict of the run precedes every recovery verdict of it.
  ghost predicate Ordered(verdicts: seq<Verdict>, runID: string) {
    forall i, j | 0 <= i < |verdicts| && 0 <= j < |verdicts| ::
      Of(verdicts[i], runID, Incident) && Of(verdicts[j], runID, Recovery) ==> i < j
  }

  ghost predicate Unrecovered(verdicts: seq<Verdict>, runID: string) {
    forall i :: 0 <= i < |verdicts| ==> !Of(verdicts[i], runID, Recovery)
  }

  // A successful incident call.
  predicate Enters(c: Config, s: Sys, e: Event) {
    s.active.Some? && e.PhaseEvent? && e.phase.Incident? && SetPhase(c, s, Incident, e.replies).ok
  }

  // The run is in its incident phase although recovery has been seen.
  predicate Relapsing(s: Sys, runID: string) {
    && s.active.Some? && s.active.value.id == runID
    && s.active.value.recoverySeen && s.active.value.phase.Incident?
  }

  ghost predicate Relapsed(p: Past, runID: string) {
    Relapsing(p.now, runID) || exists i :: 0 <= i < |p.states| && Relapsing(p.states[i], runID)
  }

  // A run that has not seen recovery is not in its recovery phase, and has no verdict
  // of that phase.
  ghost predicate Upright(s: Sys, verdicts: seq<Verdict>, runID: string) {
    s.active.Some? && s.active.value.id == runID && !s.active.value.recoverySeen ==>
      !s.active.value.phase.Recovery? && Unrecovered(verdicts, runID)
  }

  ghost predicate OrderInv(p: Past, runID: string) {
    !Relapsed(p, runID) ==> Ordered(p.verdicts, runID) && Upright(p.now, p.verdicts, runID)
  }

  lemma RelapsedStays(c: Config, p: Past, e: Event, runID: string)
    ensures Relapsed(p, runID) ==> Relapsed(Next(c, p, e), runID)
    ensures Relapsing(Step(c, p.now, e), runID) ==> Relapsed(Next(c, p, e), runID)
    ensures Relapsed(Next(c, p, e), runID) ==> Relapsed(p, runID) || Relapsing(Step(c, p.now, e), runID)
  {
    hide Step, Relapsing;
    var q := Next(c, p, e);
    assert q.states[|p.states|] == p.now;
    assert forall i :: 0 <= i < |p.states| ==> q.states[i] == p.states[i];
  }

  lemma VerdictOrdered(s: Sys, verdicts: seq<Verdict>, v: Verdict, runID: string)
    requires Ordered(verdicts, runID) && Upright(s, verdicts, runID) && !Relapsing(s, runID)
    requires s.active.Some? && v.runID == s.active.value.id && v.phase == s.active.value.phase
    ensures Ordered(verdicts + [v], runID)
    ensures Upright(s, verdicts + [v], runID)
  {}

  // Of the run named, if it is active after a step: it is in a new phase only by a call,
  // or it has just been started.
  lemma UprightKept(c: Config, s: Sys, e: Event, t: Sys, verdicts: seq<Verdict>, runID: string)
    requires Follows(c, s, e, t) && !e.RecordEvent? && Upright(s, verdicts, runID)
    requires e.StartEvent? && e.runID == runID ==> Unrecovered(verdicts, runID)
    ensures Upright(t, verdicts, runID)
  {
    hide Check, Unrecovered, SameFlags, Diagnosed, Mitigation;
  }

  lemma FreshUnrecovered(p: Past, e: Event)
    ensures IdsInv(p) && Fresh(p, e) && e.StartEvent? ==> Unrecovered(p.verdicts, e.runID)
  {}

  lemma WrittenFollows(s: Sys, e: Event)
    requires WorkersOk(s)
    ensures Written(s, e).None? && e.RecordEvent? ==> Record(s, e.i, e.query).active == s.active
    ensures Written(s, e).Some? ==>
      var v := Written(s, e).value;
      && e.RecordEvent? && s.active.Some? && v.runID == s.active.value.id && v.phase == s.active.value.phase
      && Record(s, e.i, e.query).active == Some(RecordVerdict(s.active.value, v.phase, v.fired))
  {}

  lemma OrderKept(c: Config, p: Past, e: Event, runID: string)
    requires Inv(p) && Fresh(p, e) && OrderInv(p, runID)
    ensures OrderInv(Next(c, p, e), runID)
  {
    var s, t := p.now, Step(c, p.now, e);
    assert Next(c, p, e).verdicts == if Written(s, e).Some? then p.verdicts + [Written(s, e).value] else p.verdicts;
    InvParts(p);
    WorkersKnown(p);
    RelapsedStays(c, p, e, runID);
    assert !e.RecordEvent? ==> Written(s, e).None?;
    assert !Relapsed(p, runID) ==> !Relapsing(s, runID);
    hide Inv, IdsInv, Follows, WorkersOk, Written, Relapsed, Ordered, Unrecovered, RecordVerdict, Next;
    if !Relapsed(Next(c, p, e), runID) {
      if e.RecordEvent? {
        WrittenFollows(s, e);
        if Written(s, e).Some? {
          var v := Written(s, e).value;
          VerdictOrdered(s, p.verdicts, v, runID);
          VerdictFrame(s.active.value, v.phase, v.fired);
        }
      } else {
        hide Step, Upright;
        if e.StartEvent? {
          FreshUnrecovered(p, e);
        }
        StepFollows(c, s, e);
        UprightKept(c, s, e, t, p.verdicts, runID);
      }
    }
  }

  lemma {:induction false} LeadsOrder(c: Config, p: Past, events: seq<Event>, q: Past, runID: string)
    requires ValidConfig(c) && Inv(p) && OrderInv(p, runID) && Leads(c, p, events, q)
    ensures OrderInv(q, runID)
    decreases |events|
  {
    if events != [] {
      hide Step, Inv, Next, OrderInv;
      OrderKept(c, p, events[0], runID);
      StepKeeps(c, p, events[0]);
      LeadsOrder(c, Next(c, p, events[0]), events[1..], q, runID);
    }
  }

  // In every reachable installation, of every run that never relapsed: all its incident
  // verdicts were written before all its recovery verdicts.
  lemma OrderedUnlessRelapsed(c: Config, p: Past, runID: string)
    requires Reachable(c, p) && !Relapsed(p, runID)
    ensures Ordered(p.verdicts, runID)
  {
    var lab, events :| Leads(c, Initial(lab), events, p);
    var o := Initial(lab);
    assert Inv(o) by { Ledger.EmptyConsistent(); }
    assert OrderInv(o, runID);
    hide Initial, Leads, Inv, Ordered;
    LeadsOrder(c, o, events, p, runID);
  }

  // A run is in its incident phase after a step only by a successful incident call, or if
  // it was before.
  lemma IncidentByCall(c: Config, s: Sys, e: Event)
    requires WorkersOk(s) && s.active.Some?
    ensures var r, t := s.active.value, Step(c, s, e);
      t.active.Some? && t.active.value.phase.Incident? ==>
        (r.phase.Incident? && t.active.value.recoverySeen == r.recoverySeen)
        || Enters(c, s, e)
  {
    hide Start, Reset, Apply, Diagnosed, Check, SetPhase, SetCapacity, Intervene, Record, WorkersOk, ExpressionOk, Restart;
    match e {
      case StartEvent(id, runID, r) => StartFollows(c, s, id, runID, r);
      case ResetEvent(stop, r) => ResetFollows(c, s, stop, r);
      case CapacityEvent(n, reply) => MitigationRecovers(c, s, n, reply, OtherAction(""), OK);
      case InterveneEvent(action, r) => MitigationRecovers(c, s, 0, Accepted, action, r);
      case PhaseEvent(phase, r) => PhaseCall(c, s, phase, r);
      case CheckEvent(input) => CheckFollows(c, s, input);
      case RecordEvent(i, query) => RecordKeepsPhase(s, i, query);
      case RestartEvent => RestartIdle(s);
      case _ =>
    }
  }

  lemma PhaseCall(c: Config, s: Sys, phase: Phase, r: Replies)
    ensures s.active.Some? ==>
      var done := SetPhase(c, s, phase, r);
      done.sys.active == if done.ok then Some(PhaseRun(s.active.value, phase)) else s.active
  {
    hide Apply, Diagnosed, PhaseRun;
  }

  lemma RecordKeepsPhase(s: Sys, i: nat, query: Query)
    requires WorkersOk(s) && s.active.Some?
    ensures var t := Record(s, i, query);
      t.active.Some? && t.active.value.phase == s.active.value.phase && t.active.value.recoverySeen == s.active.value.recoverySeen
  {
    hide Record, Written, RecordVerdict;
    var e := RecordEvent(i, query);
    WrittenFollows(s, e);
    if Written(s, e).Some? {
      VerdictFrame(s.active.value, Written(s, e).value.phase, Written(s, e).value.fired);
    }
  }

  lemma MitigationRecovers(c: Config, s: Sys, backends: int, reply: Reply, action: Action, r: Replies)
    ensures s.active.Some? ==>
      var t := SetCapacity(s, backends, reply).sys; t.active == s.active || (t.active.Some? && t.active.value.phase.Recovery?)
    ensures s.active.Some? ==>
      var t := Intervene(c, s, action, r).sys; t.active == s.active || (t.active.Some? && t.active.value.phase.Recovery?)
  {
    hide Apply, Diagnosed, PutBackends, BackendsOk;
  }

  // The guard a caller can check: a step makes a run relapse if and only if it is a
  // successful incident call on a run whose recovery has been seen.
  lemma RelapseIff(c: Config, s: Sys, e: Event)
    requires WorkersOk(s) && s.active.Some? && !Relapsing(s, s.active.value.id)
    ensures var r := s.active.value;
      Relapsing(Step(c, s, e), r.id) <==> Enters(c, s, e) && r.recoverySeen
  {
    assert e.PhaseEvent? ==> Step(c, s, e) == SetPhase(c, s, e.phase, e.replies).sys;
    hide Step, SetPhase, WorkersOk;
    IncidentByCall(c, s, e);
    if e.PhaseEvent? {
      PhaseCall(c, s, e.phase, e.replies);
    }
  }

  /// Cleared recovery
  /// ----------------

  // The run is in its incident phase although its recovery counts as cleared.
  predicate Struck(s: Sys, runID: string) {
    && s.active.Some? && s.active.value.id == runID
    && s.active.value.alertCleared && s.active.value.phase.Incident?
  }

  ghost predicate StruckBefore(p: Past, runID: string) {
    exists i :: 0 <= i < |p.states| && Struck(p.states[i], runID)
  }

  // Some recovery verdict of the run has no incident verdict of it behind it.
  ghost predicate Settled(verdicts: seq<Verdict>, runID: string) {
    exists i :: 0 <= i < |verdicts| && Of(verdicts[i], runID, Recovery)
                && forall j :: i < j < |verdicts| ==> !Of(verdicts[j], runID, Incident)
  }

  ghost predicate ClearedSettled(s: Sys, verdicts: seq<Verdict>, runID: string) {
    s.active.Some? && s.active.value.id == runID && s.active.value.alertCleared ==> Settled(verdicts, runID)
  }

  lemma SettledOn(verdicts: seq<Verdict>, v: Verdict, runID: string)
    ensures Settled(verdicts, runID) && !Of(v, runID, Incident) ==> Settled(verdicts + [v], runID)
    ensures Of(v, runID, Recovery) ==> Settled(verdicts + [v], runID)
  {
    var all := verdicts + [v];
    assert all[|verdicts|] == v;
    if Settled(verdicts, runID) && !Of(v, runID, Incident) {
      var i :| 0 <= i < |verdicts| && Of(verdicts[i], runID, Recovery)
               && forall j :: i < j < |verdicts| ==> !Of(verdicts[j], runID, Incident);
      assert all[i] == verdicts[i];
    }
  }

  lemma VerdictSettles(s: Sys, t: Sys, verdicts: seq<Verdict>, v: Verdict, runID: string)
    requires ClearedSettled(s, verdicts, runID) && !Struck(s, runID)
    requires s.active.Some? && v.runID == s.active.value.id && v.phase == s.active.value.phase
    requires t.active == Some(RecordVerdict(s.active.value, v.phase, v.fired))
    ensures ClearedSettled(t, verdicts + [v], runID)
  {
    hide Settled;
    SettledOn(verdicts, v, runID);
  }

  // Only a worker's write clears a run.
  lemma ClearedBefore(c: Config, s: Sys, e: Event, t: Sys)
    requires Follows(c, s, e, t) && !e.RecordEvent? && t.active.Some? && t.active.value.alertCleared
    ensures s.active.Some? && s.active.value.alertCleared && s.active.value.id == t.active.value.id
  {
    hide Check, GateHolds, Diagnosed, Mitigation;
  }

  lemma ClearedKept(c: Config, p: Past, e: Event, runID: string)
    requires Inv(p) && ClearedSettled(p.now, p.verdicts, runID) && !Struck(p.now, runID)
    ensures var q := Next(c, p, e); ClearedSettled(q.now, q.verdicts, runID)
  {
    var s, t := p.now, Step(c, p.now, e);
    assert Next(c, p, e).verdicts == if Written(s, e).Some? then p.verdicts + [Written(s, e).value] else p.verdicts;
    assert Next(c, p, e).now == t;
    assert !e.RecordEvent? ==> Written(s, e).None?;
    assert e.RecordEvent? ==> t == Record(s, e.i, e.query);
    hide Inv, Follows, WorkersOk, Written, RecordVerdict, Next, Step, Struck, Settled;
    WorkersKnown(p);
    if e.RecordEvent? {
      WrittenFollows(s, e);
      if Written(s, e).Some? {
        VerdictSettles(s, t, p.verdicts, Written(s, e).value, runID);
      }
    } else {
      StepFollows(c, s, e);
      if t.active.Some? && t.active.value.alertCleared {
        ClearedBefore(c, s, e, t);
      }
    }
  }

  lemma {:induction false} LeadsCleared(c: Config, p: Past, events: seq<Event>, q: Past, runID: string)
    requires ValidConfig(c) && Inv(p) && Leads(c, p, events, q)
    requires !StruckBefore(p, runID) ==> ClearedSettled(p.now, p.verdicts, runID)
    ensures !StruckBefore(q, runID) ==> ClearedSettled(q.now, q.verdicts, runID)
    decreases |events|
  {
    if events != [] {
      var m := Next(c, p, events[0]);
      assert m.states[|p.states|] == p.now && forall i :: 0 <= i < |p.states| ==> m.states[i] == p.states[i];
      hide Step, Inv, Next, ClearedSettled, Struck;
      if !StruckBefore(m, runID) {
        ClearedKept(c, p, events[0], runID);
      }
      StepKeeps(c, p, events[0]);
      LeadsCleared(c, m, events[1..], q, runID);
    }
  }

  // The last recovery verdict of the run precedes its last incident verdict: the two
  // verdicts the grade rests on are in the wrong order.
  ghost predicate Backwards(verdicts: seq<Verdict>, runID: string) {
    exists cleared: nat, firing: nat :: cleared < firing
      && Last(verdicts, runID, Recovery, cleared) && Last(verdicts, runID, Incident, firing)
  }

  lemma ReachableCleared(c: Config, p: Past, runID: string)
    requires Reachable(c, p) && !StruckBefore(p, runID)
    ensures ClearedSettled(p.now, p.verdicts, runID)
  {
    var lab, events :| Leads(c, Initial(lab), events, p);
    var o := Initial(lab);
    assert Inv(o) by { Ledger.EmptyConsistent(); }
    hide Initial, Leads, Inv, Settled, Struck;
    LeadsCleared(c, o, events, p, runID);
  }

  lemma SettledIsForwards(verdicts: seq<Verdict>, runID: string)
    ensures Settled(verdicts, runID) ==> !Backwards(verdicts, runID)
  {}

  // A passed alert exercise had its quiet baseline, its firing incident and its cleared
  // recovery, the incident before the recovery, unless the run was at an earlier moment in
  // its incident phase while its recovery counted as cleared.
  lemma PassedInOrder(c: Config, p: Past, input: CheckInput) returns (quiet: nat, firing: nat, cleared: nat)
    requires Reachable(c, p) && AlertRun(p.now)
    requires PassesCheck(c, p.now, input)
    requires !StruckBefore(p, p.now.active.value.id)
    ensures var id := p.now.active.value.id;
      && Last(p.verdicts, id, Baseline, quiet) && !p.verdicts[quiet].fired
      && Last(p.verdicts, id, Incident, firing) && p.verdicts[firing].fired
      && Last(p.verdicts, id, Recovery, cleared) && !p.verdicts[cleared].fired
    ensures firing < cleared
  {
    hide Reachable, PassesCheck, StruckBefore, Settled;
    quiet, firing, cleared := PassedAlert(c, p, input);
    AlertAchieved(c, p.now, input);
    ReachableCleared(c, p, p.now.active.value.id);
    SettledIsForwards(p.verdicts, p.now.active.value.id);
  }

  // The guard a caller can check: a step brings a run into its incident phase while its
  // recovery counts as cleared if and only if it is a successful incident call on a run
  // whose recovery counts as cleared.
  lemma StruckIff(c: Config, s: Sys, e: Event)
    requires WorkersOk(s) && s.active.Some? && !Struck(s, s.active.value.id)
    ensures var r := s.active.value;
      Struck(Step(c, s, e), r.id) <==> Enters(c, s, e) && r.alertCleared
  {
    var r, t := s.active.value, Step(c, s, e);
    assert e.PhaseEvent? ==> t == SetPhase(c, s, e.phase, e.replies).sys;
    assert e.RecordEvent? ==> t == Record(s, e.i, e.query);
    hide Step, SetPhase, WorkersOk, Follows, Written;
    IncidentByCall(c, s, e);
    if e.PhaseEvent? {
      PhaseCall(c, s, e.phase, e.replies);
    } else if e.RecordEvent? {
      WrittenFollows(s, e);
    } else {
      StepFollows(c, s, e);
      if t.active.Some? && t.active.value.alertCleared {
        ClearedBefore(c, s, e, t);
      }
    }
  }

  /// Passing in the wrong order
  /// --------------------------

  // And the run passes this check all the same.
  ghost predicate PassesBackwards(c: Config, p: Past, runID: string, input: CheckInput) {
    && p.now.active.Some? && p.now.active.value.id == runID
    && PassesCheck(c, p.now, input)
    && Backwards(p.verdicts, runID)
  }

  lemma AppendedBackwards(verdicts: seq<Verdict>, runID: string, a: Verdict, b: Verdict, d: Verdict)
    requires Of(a, runID, Baseline) && Of(b, runID, Recovery) && Of(d, runID, Incident)
    ensures Backwards(verdicts + [a, b, d], runID)
  {
    var all, n := verdicts + [a, b, d], |verdicts|;
    assert all[n] == a && all[n + 1] == b && all[n + 2] == d;
    assert Last(all, runID, Recovery, n + 1) && Last(all, runID, Incident, n + 2);
  }

  // From any active alert run of a reachable installation the run can be continued to
  // pass every check backwards.
  lemma BackwardsFrom(c: Config, p: Past) returns (q: Past)
    requires Reachable(c, p) && AlertRun(p.now)
    ensures Reaches(c, AnyCall, p, q)
    ensures forall input :: PassesBackwards(c, q, p.now.active.value.id, input)
  {
    var r := p.now.active.value;
    hide Reachable, Reaches, Check, Ordered, Replayed, Backwards, AlertUseful, DiagnosisCorrect, Armed;
    ReachableRun(c, p);
    ReachesSelf(c, AnyCall, p);
    q := Replays(c, p, p, EXPRESSION, QUIET, Recovery, QUIET, Incident, FIRING);
    ReplayedUseful(r, EXPRESSION, QUIET, Recovery, QUIET, Incident, FIRING);
    var a := Armed(r, EXPRESSION, QUIET);
    ArmedRun(r, EXPRESSION, QUIET);
    AppendedBackwards(p.verdicts, r.id, Answered(a, Baseline, QUIET), Answered(a, Recovery, QUIET), Answered(a, Incident, FIRING));
    forall input ensures PassesBackwards(c, q, r.id, input) {
      UsefulPasses(c, q.now, input);
    }
  }

  // An alert run that is not struck, and whose recovery does not count as cleared without a
  // recovery verdict after all incident verdicts.
  ghost predicate Unstruck(p: Past, runID: string) {
    && runID in p.used
    && (p.now.active.Some? && p.now.active.value.id == runID ==>
          AlertExercise(p.now.active.value.scenario) && !Struck(p.now, runID)
          && ClearedSettled(p.now, p.verdicts, runID))
  }

  // Calls other than those of the incident phase keep a run so.
  lemma UnstruckKept(c: Config, p: Past, e: Event, runID: string)
    requires ValidConfig(c) && Inv(p) && Fresh(p, e) && Unstruck(p, runID) && Allows(NoIncidentCall, e)
    ensures Unstruck(Next(c, p, e), runID)
  {
    hide Inv, Step, Settled, Next, SetPhase, Fresh;
    ClearedKept(c, p, e, runID);
    NextFrame(c, p, e);
    var q := Next(c, p, e);
    if q.now.active.Some? && q.now.active.value.id == runID {
      assert p.now.active.Some? && SameRun(p.now.active.value, q.now.active.value);
      WorkersKnown(p);
      StruckIff(c, p.now, e);
    }
  }

  lemma {:induction false} LeadsUnstruck(c: Config, p: Past, events: seq<Event>, q: Past, runID: string)
    requires ValidConfig(c) && Inv(p) && Unstruck(p, runID)
    requires Leads(c, p, events, q) && AllAllowed(NoIncidentCall, events)
    ensures Unstruck(q, runID)
    decreases |events|
  {
    if events != [] {
      hide Step, Inv, Next, Unstruck, Allows;
      UnstruckKept(c, p, events[0], runID);
      StepKeeps(c, p, events[0]);
      assert forall i :: 0 <= i < |events[1..]| ==> events[1..][i] == events[i + 1];
      LeadsUnstruck(c, Next(c, p, events[0]), events[1..], q, runID);
    }
  }

  lemma Entered(c: Config, p: Past, e: Event)
    requires Enters(c, p.now, e)
    ensures var m := Next(c, p, e);
      && m.now.active == Some(PhaseRun(p.now.active.value, Incident)) && m.verdicts == p.verdicts
      && m.now.workers == p.now.workers + [NewWorker(p.now.active.value, Incident)] && m.used == p.used
  {
    hide Apply, Diagnosed;
  }

  // The run once its first incident evaluation has fired.
  function FiredRun(r: Run): Run {
    RecordVerdict(Rediagnosed(PhaseRun(r, Incident)).(alertExpression := EXPRESSION), Incident, true)
  }

  lemma FiredBackwards(verdicts: seq<Verdict>, runID: string, a: Verdict, b: Verdict)
    requires exists i: nat :: Last(verdicts, runID, Recovery, i)
    requires Of(a, runID, Incident) && Of(b, runID, Baseline)
    ensures Backwards(verdicts + [a, b], runID)
  {
    var all := verdicts + [a, b];
    var i: nat :| Last(verdicts, runID, Recovery, i);
    assert all[|verdicts|] == a && all[|verdicts| + 1] == b && all[i] == verdicts[i];
    assert Last(all, runID, Recovery, i) && Last(all, runID, Incident, |verdicts|);
  }

  // Diagnose, set an alert, and let the worker of the phase entered fire.
  lemma FiresOnce(c: Config, p: Past, e: Event) returns (q: Past)
    requires Enters(c, p.now, e) && AlertRun(p.now)
    ensures Reaches(c, NoIncidentCall, Next(c, p, e), q) && q.now.active == Some(FiredRun(p.now.active.value))
    ensures exists v :: Of(v, p.now.active.value.id, Incident) && q.verdicts == p.verdicts + [v]
  {
    var r, h, m := p.now.active.value, NoIncidentCall, Next(c, p, e);
    Entered(c, p, e);
    hide Reaches, PhaseRun, RecordVerdict, Next, Enters, SetDiagnosis, Expected;
    ReachesSelf(c, h, m);
    var d := Plain(c, h, m, m, DiagnosisEvent(Expected(r.scenario), NOTE));
    DiagnosisWorks(c, m.now);
    var a := Plain(c, h, m, d, AlertEvent(EXPRESSION, QUIET));
    q := Evaluates(c, h, m, a, |p.now.workers|, FIRING);
    assert q.verdicts == p.verdicts + [q.verdicts[|p.verdicts|]];
  }

  // From a run whose recovery counts as cleared: enter the incident phase and let it fire,
  // return to baseline and let it be quiet.
  lemma EntersBackwards(c: Config, p: Past, e: Event) returns (q: Past)
    requires Reachable(c, p) && Enters(c, p.now, e) && AlertRun(p.now)
    requires p.now.active.value.alertCleared
    ensures Reaches(c, NoIncidentCall, Next(c, p, e), q)
    ensures forall input :: PassesBackwards(c, q, p.now.active.value.id, input)
  {
    var r, h, m := p.now.active.value, NoIncidentCall, Next(c, p, e);
    hide Reachable, Reaches, Check, Backwards, AlertUseful, DiagnosisCorrect, Diagnosed, Next, FiredRun, Returned,
         SetPhase, Expected, Fires, PassesCheck;
    ReachableRun(c, p);
    var f := FiresOnce(c, p, e);
    q := ReturnsAndEvaluates(c, h, m, f, EXPRESSION, QUIET);
    AlertFlags(c, p);
    var i := LastVerdictAt(p.verdicts, r.id, Recovery);
    var v :| Of(v, r.id, Incident) && f.verdicts == p.verdicts + [v];
    var w := Answered(f.now.active.value.(alertExpression := EXPRESSION), Baseline, QUIET);
    assert q.verdicts == p.verdicts + [v, w];
    FiredBackwards(p.verdicts, r.id, v, w);
    forall input ensures PassesBackwards(c, q, r.id, input) {
      UsefulPasses(c, q.now, input);
    }
  }

  // The exact condition. Let an active alert run enter its incident phase. A continuation
  // in which no incident phase is called again can pass a check backwards if and only if
  // the run's recovery counted as cleared before the call.
  lemma BackwardsIff(c: Config, p: Past, e: Event)
    requires Reachable(c, p) && Enters(c, p.now, e) && AlertRun(p.now)
    ensures var r, m := p.now.active.value, Next(c, p, e);
      (exists q, input :: Reaches(c, NoIncidentCall, m, q) && PassesBackwards(c, q, r.id, input)) <==> r.alertCleared
  {
    var r, m := p.now.active.value, Next(c, p, e);
    assert Fresh(p, e);
    Entered(c, p, e);
    hide Reachable, Next, Check, Backwards, Settled, Inv, SetPhase, Fresh, Leads, Allows, ValidConfig;
    ReachableNext(c, p, e);
    ReachableInv(c, m);
    if r.alertCleared {
      var q := EntersBackwards(c, p, e);
      var input: CheckInput :| true;
      assert PassesBackwards(c, q, r.id, input);
    }
    if q, input :| Reaches(c, NoIncidentCall, m, q) && PassesBackwards(c, q, r.id, input) {
      if !r.alertCleared {
        assert Unstruck(m, r.id);
        var events :| Leads(c, m, events, q) && AllAllowed(NoIncidentCall, events);
        LeadsUnstruck(c, m, events, q, r.id);
        AlertAchieved(c, q.now, input);
        SettledIsForwards(q.verdicts, r.id);
      }
    }
  }

  /// One such installation
  /// ---------------------

  const RUN := "run-1"

  // There is one: an installation, on any lab, whose alert exercise passes every check
  // although its last recovery verdict was written before its last incident verdict.
  lemma AlertOrderNotForced(c: Config, lab: Lab.State) returns (p: Past)
    requires ValidConfig(c)
    ensures Reachable(c, p) && forall input :: PassesBackwards(c, p, RUN, input)
  {
    var o := Initial(lab);
    assert Required(UsefulAlerts) && o.now.active.None? && o.used == {};
    hide Reachable, Reaches, PassesBackwards, Initial;
    ReachesSelf(c, AnyCall, o);
    var m := Begin(c, o, o, UsefulAlerts, RUN);
    p := BackwardsFrom(c, m);
    ReachesReachable(c, AnyCall, m, p);
  }
}
