/** What every reachable installation satisfies: one invariant in four parts, kept by every
    step under fresh run identifiers. */
module RuntimeInvariant {
  import opened Wrappers
  import opened Scenarios
  import opened Lab
  import opened Runtime
  import History
  import Progression
  import Ledger

  /// What one step may change
  /// ------------------------

  // The same run, with no hint taken back and further hints revealed in order.
  ghost predicate SameRun(r: Run, q: Run) {
    && q.id == r.id && q.scenario == r.scenario && r.hints <= q.hints
    && forall i :: |r.hints| <= i < |q.hints| ==> q.hints[i] == i
  }

  ghost predicate SameFlags(r: Run, q: Run) {
    q.alertFired == r.alertFired && q.alertCleared == r.alertCleared
    && q.alertBaseline == r.alertBaseline && q.alertBaselineObserved == r.alertBaselineObserved
  }

  // The one mitigation an exercise accepts.
  function Mitigation(id: ScenarioId): Option<Action> {
    match id
    case CpuSaturation => Some(HorizontalCapacity)
    case VerticalHorizontal => Some(HorizontalCapacity)
    case UsefulAlerts => Some(AlertRecovery)
    case SloBurnRate => Some(AlertRecovery)
    case DependencyBottleneck => Some(DependencyRecovery)
    case ConnectionPool => Some(PoolRecovery)
    case LatencySlo => Some(LatencyBudget)
    case DnsFailure => Some(DnsRecovery)
    case RetryStorm => Some(RetryBudget)
    case MemoryLeak => Some(ReplaceCapacity)
    case AutoscalerOscillation => Some(StabilizePolicy)
    case BlockedTraffic => Some(NetworkPolicyRecovery)
    case FileForensics => None
    case Unknown(_) => None
  }

  // At most one intervention is added, the legal one; and an intervention, recovery or
  // file evidence is added only to a run whose diagnosis matches at that moment; entering
  // the recovery or the incident phase is on the record.
  ghost predicate GateHolds(r: Run, q: Run) {
    && (q.interventions == r.interventions
        || (Diagnosed(r) && q.recoverySeen && Mitigation(r.scenario).Some?
            && q.interventions == r.interventions + [Mitigation(r.scenario).value]))
    && (r.recoverySeen ==> q.recoverySeen) && (r.fileEvidenceSeen ==> q.fileEvidenceSeen)
    && (r.incidentSeen ==> q.incidentSeen)
    && (q.recoverySeen && !r.recoverySeen ==>
          Diagnosed(r) && (AlertExercise(r.scenario) ==> |q.interventions| > |r.interventions|))
    && (q.phase == r.phase || ((q.phase.Recovery? ==> q.recoverySeen) && (q.phase.Incident? ==> q.incidentSeen)))
    && (q.fileEvidenceSeen && !r.fileEvidenceSeen ==> Diagnosed(r))
  }

  // A worker evaluates at most twelve times, and a phase that has an alert flag.
  ghost predicate WorkerOk(w: Worker) {
    !w.phase.OtherPhase? && w.attempts <= ATTEMPTS && (w.attempts == ATTEMPTS ==> w.point.Finished?)
  }

  // A worker is an old one at its old place, or belongs to the run active before the step.
  ghost predicate WorkersFollow(s: Sys, t: Sys) {
    forall i :: 0 <= i < |t.workers| ==>
      WorkerOk(t.workers[i])
      && ((i < |s.workers| && t.workers[i].runID == s.workers[i].runID)
          || (s.active.Some? && t.workers[i].runID == s.active.value.id))
  }

  ghost predicate SameStores(s: Sys, t: Sys) {
    t.profile == s.profile && t.history == s.history
  }

  // An operation on the active run, or none.
  ghost predicate RunStep(s: Sys, t: Sys) {
    && SameStores(s, t) && WorkersFollow(s, t)
    && (t.active.Some? <==> s.active.Some?)
    && (t.active.Some? ==>
          var r, q := s.active.value, t.active.value;
          SameRun(r, q) && SameFlags(r, q) && GateHolds(r, q))
  }

  ghost predicate WorkersOk(s: Sys) {
    forall i :: 0 <= i < |s.workers| ==> WorkerOk(s.workers[i])
  }

  lemma CapacityStep(s: Sys, backends: int, reply: Reply)
    ensures WorkersOk(s) ==> RunStep(s, SetCapacity(s, backends, reply).sys)
  {
    hide Diagnosed, PutBackends, BackendsOk, Mitigation;
    if s.active.Some? {
      CapacityMitigation(s.active.value.scenario);
    }
  }

  lemma CapacityMitigation(id: ScenarioId)
    ensures id.CpuSaturation? || id.VerticalHorizontal? ==> Mitigation(id) == Some(HorizontalCapacity)
  {}

  lemma InterveneStep(c: Config, s: Sys, action: Action, r: Replies)
    ensures WorkersOk(s) ==> RunStep(s, Intervene(c, s, action, r).sys)
  {
    hide Diagnosed, Apply;
  }

  lemma PhaseStep(c: Config, s: Sys, phase: Phase, r: Replies)
    ensures WorkersOk(s) ==> RunStep(s, SetPhase(c, s, phase, r).sys)
  {
    hide Diagnosed, Apply;
  }

  lemma NoteStep(c: Config, s: Sys, diagnosis: Diagnosis, note: string)
    requires WorkersOk(s)
    ensures RunStep(s, SetDiagnosis(s, diagnosis, note).sys)
    ensures RunStep(s, MarkFileEvidence(s).sys) && RunStep(s, RevealHint(c, s).sys)
  {
    hide Diagnosed, Mitigation;
  }

  lemma AlertStep(s: Sys, expression: string, query: Query)
    ensures WorkersOk(s) ==> RunStep(s, SetAlert(s, expression, query).sys)
  {
    hide Diagnosed, ExpressionOk;
  }

  lemma WakeStep(s: Sys, i: nat)
    ensures WorkersOk(s) ==> RunStep(s, Wake(s, i))
  {}

  ghost predicate StartsRun(c: Config, id: ScenarioId, runID: string, q: Run) {
    id in c.catalog && q == NewRun(runID, id).(running := true)
  }

  ghost predicate StartStep(c: Config, s: Sys, id: ScenarioId, runID: string, t: Sys) {
    && SameStores(s, t) && t.workers == s.workers
    && (t.active == s.active || (s.active.None? && t.active.Some? && StartsRun(c, id, runID, t.active.value)))
  }

  lemma StartFollows(c: Config, s: Sys, id: ScenarioId, runID: string, r: StartReplies)
    ensures StartStep(c, s, id, runID, Start(c, s, id, runID, r).sys)
  {
    hide Apply;
  }

  ghost predicate ResetStep(s: Sys, t: Sys) {
    SameStores(s, t) && t.workers == s.workers && (t.active == s.active || t.active.None?)
  }

  lemma ResetFollows(c: Config, s: Sys, stop: Reply, r: Replies)
    ensures ResetStep(s, Reset(c, s, stop, r).sys)
  {
    hide Apply;
  }

  ghost predicate CheckStep(c: Config, s: Sys, input: CheckInput, t: Sys) {
    t == Check(c, s, input).sys && t.active == s.active && t.lab == s.lab && t.workers == s.workers
  }

  lemma CheckFollows(c: Config, s: Sys, input: CheckInput)
    ensures CheckStep(c, s, input, Check(c, s, input).sys)
  {}

  // A worker's write sets the flags of its own phase of its own run, which are current.
  ghost predicate RecordStep(s: Sys, i: nat, query: Query, t: Sys) {
    && SameStores(s, t) && WorkersFollow(s, t)
    && match Written(s, RecordEvent(i, query))
       case None => t.active == s.active
       case Some(v) =>
         && s.active.Some? && v.runID == s.active.value.id && v.phase == s.active.value.phase
         && !v.phase.OtherPhase?
         && t.active == Some(RecordVerdict(s.active.value, v.phase, v.fired))
  }

  lemma RecordFollows(s: Sys, i: nat, query: Query)
    ensures WorkersOk(s) ==> RecordStep(s, i, query, Record(s, i, query))
  {}

  ghost predicate Follows(c: Config, s: Sys, e: Event, t: Sys) {
    match e
    case StartEvent(id, runID, _) => StartStep(c, s, id, runID, t)
    case ResetEvent(_, _) => ResetStep(s, t)
    case CheckEvent(input) => CheckStep(c, s, input, t)
    case RecordEvent(i, query) => RecordStep(s, i, query, t)
    case RestartEvent => t == Restart(s)
    case _ => RunStep(s, t)
  }

  // Every step is one of these.
  lemma StepFollows(c: Config, s: Sys, e: Event)
    requires WorkersOk(s)
    ensures Follows(c, s, e, Step(c, s, e))
  {
    hide Start, Reset, SetCapacity, Intervene, SetPhase, SetDiagnosis, MarkFileEvidence, RevealHint, SetAlert,
         Check, Wake, Record, Restart, RunStep, StartStep, ResetStep, CheckStep, RecordStep;
    match e {
      case StartEvent(id, runID, r) => StartFollows(c, s, id, runID, r);
      case ResetEvent(stop, r) => ResetFollows(c, s, stop, r);
      case CapacityEvent(n, reply) => CapacityStep(s, n, reply);
      case InterveneEvent(action, r) => InterveneStep(c, s, action, r);
      case PhaseEvent(phase, r) => PhaseStep(c, s, phase, r);
      case DiagnosisEvent(d, note) => NoteStep(c, s, d, note);
      case FileEvidenceEvent => NoteStep(c, s, Unrecorded, "");
      case HintEvent => NoteStep(c, s, Unrecorded, "");
      case AlertEvent(expression, q) => AlertStep(s, expression, q);
      case CheckEvent(input) => CheckFollows(c, s, input);
      case WakeEvent(i) => WakeStep(s, i);
      case RecordEvent(i, q) => RecordFollows(s, i, q);
      case RestartEvent =>
    }
  }

  // What the steps have in common about runs and workers.
  ghost predicate ActiveFrame(c: Config, s: Sys, e: Event, t: Sys) {
    t.active.Some? ==>
      (s.active.Some? && SameRun(s.active.value, t.active.value))
      || (s.active.None? && e.StartEvent? && StartsRun(c, e.id, e.runID, t.active.value))
  }

  ghost predicate WorkerIds(s: Sys, t: Sys) {
    forall i :: 0 <= i < |t.workers| ==>
      (i < |s.workers| && t.workers[i].runID == s.workers[i].runID)
      || (s.active.Some? && t.workers[i].runID == s.active.value.id)
  }

  lemma RunStepFrames(c: Config, s: Sys, e: Event, t: Sys)
    ensures RunStep(s, t) ==> ActiveFrame(c, s, e, t) && WorkerIds(s, t) && SameStores(s, t)
  {
    hide GateHolds, SameFlags, StartsRun;
  }

  lemma RecordFrames(c: Config, s: Sys, e: Event, t: Sys)
    requires e.RecordEvent? && RecordStep(s, e.i, e.query, t)
    ensures ActiveFrame(c, s, e, t) && WorkerIds(s, t) && SameStores(s, t)
  {
    hide StartsRun, SameRun, RecordVerdict, Written;
    if s.active.Some? {
      SameRunReflexive(s.active.value);
      if Written(s, e).Some? {
        VerdictKeepsGate(s.active.value, Written(s, e).value.phase, Written(s, e).value.fired);
      }
    }
  }

  lemma SameRunReflexive(r: Run)
    ensures SameRun(r, r)
  {}

  lemma FramesFollow(c: Config, s: Sys, e: Event, t: Sys)
    requires Follows(c, s, e, t)
    ensures ActiveFrame(c, s, e, t) && WorkerIds(s, t)
    ensures !e.CheckEvent? && !e.RestartEvent? ==> SameStores(s, t)
  {
    hide Check, StartsRun, RunStep, RecordStep;
    match e {
      case StartEvent(_, _, _) =>
      case ResetEvent(_, _) =>
      case CheckEvent(_) =>
      case RestartEvent =>
      case RecordEvent(_, _) => RecordFrames(c, s, e, t);
      case _ => RunStepFrames(c, s, e, t);
    }
  }

  /// Identifiers
  /// -----------

  // Hints are revealed one after the other.
  ghost predicate InOrder(hints: seq<int>) {
    forall i :: 0 <= i < |hints| ==> hints[i] == i
  }

  ghost predicate IdsInv(p: Past) {
    && (p.now.active.Some? ==>
          var r := p.now.active.value;
          r.id in p.used && Required(r.scenario) && InOrder(r.hints))
    && (forall i :: 0 <= i < |p.now.workers| ==> p.now.workers[i].runID in p.used)
    && (forall i :: 0 <= i < |p.verdicts| ==> p.verdicts[i].runID in p.used)
    && (forall a :: a in p.now.profile.profile.awards ==> a.runID in p.used)
  }

  // A check of the active run adds at most its own award; nothing else adds one.
  lemma CheckAddsOwn(c: Config, s: Sys, input: CheckInput, used: set<string>)
    requires s.active.Some? ==> s.active.value.id in used
    requires forall a :: a in s.profile.profile.awards ==> a.runID in used
    ensures forall a :: a in Check(c, s, input).sys.profile.profile.awards ==> a.runID in used
  {
    if s.active.Some? && s.active.value.scenario in c.catalog {
      var r := s.active.value;
      var item, e := c.catalog[r.scenario], ServiceEvidence(input.good, input.total, input.p95);
      hide ServiceEvidence, Awards, FinalScore, Badges, HistoryRecord, History.Added, Progression.Awarded;
      AwardedList(s.profile, AwardCall(r, item, e, input.profileIO));
    }
  }

  lemma StoresIds(c: Config, s: Sys, e: Event, used: set<string>)
    requires s.active.Some? ==> s.active.value.id in used
    requires Ledger.Sound(s.profile) && WorkersOk(s)
    requires forall a :: a in s.profile.profile.awards ==> a.runID in used
    ensures forall a :: a in Step(c, s, e).profile.profile.awards ==> a.runID in used
  {
    if e.CheckEvent? {
      CheckAddsOwn(c, s, e.input, used);
    } else if e.RestartEvent? {
    } else {
      StepFollows(c, s, e);
      FramesFollow(c, s, e, Step(c, s, e));
    }
  }

  lemma IdsKept(c: Config, p: Past, e: Event)
    requires ValidConfig(c) && IdsInv(p) && Ledger.Sound(p.now.profile) && WorkersOk(p.now)
    ensures IdsInv(Next(c, p, e))
  {
    hide Step, Follows, Ledger.Sound, ActiveFrame, WorkerIds, Written, WorkersOk;
    var t := Step(c, p.now, e);
    StepFollows(c, p.now, e);
    FramesFollow(c, p.now, e, t);
    StoresIds(c, p.now, e, p.used);
    ActiveIds(c, p, e, t);
    WrittenIds(p.now, e);
  }

  lemma ActiveIds(c: Config, p: Past, e: Event, t: Sys)
    requires ValidConfig(c) && IdsInv(p) && ActiveFrame(c, p.now, e, t) && WorkerIds(p.now, t)
    ensures t.active.Some? ==> Required(t.active.value.scenario) && InOrder(t.active.value.hints)
    ensures t.active.Some? ==> t.active.value.id in p.used || (e.StartEvent? && t.active.value.id == e.runID)
    ensures forall i :: 0 <= i < |t.workers| ==> t.workers[i].runID in p.used
  {
    hide Required, InOrder, SameRun;
    if t.active.Some? {
      if p.now.active.Some? {
        OrderKept(p.now.active.value, t.active.value);
      } else {
        NothingRevealed(t.active.value);
      }
    }
  }

  lemma OrderKept(r: Run, q: Run)
    ensures SameRun(r, q) && InOrder(r.hints) ==> InOrder(q.hints)
    ensures SameRun(r, q) ==> q.id == r.id && q.scenario == r.scenario
  {}

  lemma NothingRevealed(r: Run)
    ensures r.hints == [] ==> InOrder(r.hints)
  {}

  lemma WrittenIds(s: Sys, e: Event)
    ensures Written(s, e).Some? ==> s.active.Some? && Written(s, e).value.runID == s.active.value.id
  {}

  /// Awards and history
  /// ------------------

  // The score of a passed check with so many hints revealed.
  function PassScore(hints: nat): int {
    75 + if 25 - 5 * hints < 0 then 0 else 25 - 5 * hints
  }

  ghost predicate AwardName(name: string) {
    exists id :: Awardable(id) && Name(id) == name
  }

  ghost predicate AwardsGraded(awards: seq<Progression.Award>) {
    forall a :: a in awards ==> 75 <= a.score <= 100 && AwardName(a.scenario)
  }

  // The active run's own award, if it has one, is for its scenario and is at least what
  // a passing check would score now.
  ghost predicate OwnAward(r: Run, awards: seq<Progression.Award>) {
    forall a :: a in awards && a.runID == r.id ==> a.scenario == Name(r.scenario) && a.score >= PassScore(|r.hints|)
  }

  // The award behind a history record.
  ghost predicate Backed(record: History.Record, awards: seq<Progression.Award>) {
    exists a :: a in awards && a.runID == record.runID && a.scenario == record.scenario && a.score >= record.score >= 75
  }

  ghost predicate AllBacked(records: seq<History.Record>, awards: seq<Progression.Award>) {
    forall i :: 0 <= i < |records| && records[i].score != 0 ==> Backed(records[i], awards)
  }

  ghost predicate StoresInv(s: Sys) {
    && Ledger.Sound(s.profile)
    && AwardsGraded(s.profile.profile.awards)
    && (s.active.Some? ==> OwnAward(s.active.value, s.profile.profile.awards))
    && AllBacked(s.history.memory, s.profile.profile.awards)
    && (s.history.disk.Some? ==> AllBacked(s.history.disk.value, s.profile.profile.awards))
  }

  // A passed check outside the guided exercise scores exactly 75 plus the precision left;
  // every other check scores 0.
  lemma ExactGrade(r: Run, item: Scenario, e: Evidence)
    requires item.id == r.scenario
    ensures FinalScore(r, item, e) ==
            if Passes(r, item, e) && !r.scenario.FileForensics? then PassScore(|r.hints|) else 0
    ensures 75 <= PassScore(|r.hints|) <= 100
  {}

  lemma Grown(records: seq<History.Record>, a: seq<Progression.Award>, b: seq<Progression.Award>)
    requires AllBacked(records, a) && forall x :: x in a ==> x in b
    ensures AllBacked(records, b)
  {
    forall i | 0 <= i < |records| && records[i].score != 0 ensures Backed(records[i], b) {
      var x :| x in a && x.runID == records[i].runID && x.scenario == records[i].scenario && x.score >= records[i].score;
      assert x in b;
    }
  }

  lemma AddedBacked(h: History.State, record: History.Record, io: bool, awards: seq<Progression.Award>)
    requires AllBacked(h.memory, awards) && (h.disk.Some? ==> AllBacked(h.disk.value, awards))
    requires record.score != 0 ==> Backed(record, awards)
    ensures var t := History.Added(h, record, io);
      AllBacked(t.memory, awards) && (t.disk.Some? ==> AllBacked(t.disk.value, awards))
  {
    var all := h.memory + [record];
    forall i | 0 <= i < |all| && all[i].score != 0 ensures Backed(all[i], awards) {
      if i < |h.memory| { assert all[i] == h.memory[i]; }
    }
    KeptBacked(all, awards);
  }

  // What one award call adds, and that it is found afterwards when the call succeeds.
  lemma AwardedList(s: Progression.State, call: Progression.Call)
    ensures var a, b := s.profile.awards, Progression.Awarded(s, call).profile.awards;
      && (b == a || b == a + [Progression.Earned(call.runID, call.scenario, Progression.Clamp(call.score))])
      && (Progression.Succeeds(s, call) ==> exists x :: x in b && x.runID == call.runID)
      && (b != a ==> forall x :: x in a ==> x.runID != call.runID)
  {
    var a, b := s.profile.awards, Progression.Awarded(s, call).profile.awards;
    if Progression.HasRun(a, call.runID) {
      var i :| 0 <= i < |a| && a[i].runID == call.runID;
      assert a[i] in b;
    } else if call.io {
      assert b[|a|] in b;
      forall x | x in a ensures x.runID != call.runID {
        var i :| 0 <= i < |a| && a[i] == x;
      }
    }
  }

  lemma AwardedSound(s: Progression.State, call: Progression.Call)
    requires Ledger.Sound(s)
    ensures Ledger.Sound(Progression.Awarded(s, call))
  {
    if call.io && !Progression.HasRun(s.profile.awards, call.runID) {
      Ledger.CreditedConsistent(s.profile, call.runID, call.scenario, call.score, call.earned);
    }
  }

  lemma AwardScore(r: Run, item: Scenario, e: Evidence)
    requires item.id == r.scenario && Required(r.scenario) && Awards(r, item, e)
    ensures FinalScore(r, item, e) == PassScore(|r.hints|) && 75 <= PassScore(|r.hints|) <= 100
    ensures AwardName(Name(r.scenario))
  {
    ExactGrade(r, item, e);
    assert Awardable(r.scenario);
  }

  // The profile side of a check.
  lemma CheckAwards(r: Run, item: Scenario, e: Evidence, s: Progression.State, io: bool)
    requires item.id == r.scenario && Required(r.scenario) && Ledger.Sound(s) && AwardsGraded(s.profile.awards)
    requires OwnAward(r, s.profile.awards) && Awards(r, item, e)
    ensures var t := Progression.Awarded(s, AwardCall(r, item, e, io));
      && Ledger.Sound(t) && AwardsGraded(t.profile.awards) && OwnAward(r, t.profile.awards)
      && (forall x :: x in s.profile.awards ==> x in t.profile.awards)
  {
    hide Ledger.Sound, FinalScore, Awards, PassScore, Badges, Progression.Awarded, Name, AwardName;
    var call := AwardCall(r, item, e, io);
    AwardScore(r, item, e);
    AwardedSound(s, call);
    AwardedList(s, call);
  }

  // The record a check writes is backed by the profile it leaves.
  lemma RecordBacked(r: Run, item: Scenario, e: Evidence, s: Progression.State, io: bool)
    requires item.id == r.scenario && Required(r.scenario)
    requires HistoryScore(r, item, e, s, io) != 0
    requires OwnAward(r, Progression.Awarded(s, AwardCall(r, item, e, io)).profile.awards)
    ensures Awards(r, item, e)
    ensures Backed(HistoryRecord(r, item, e, s, io), Progression.Awarded(s, AwardCall(r, item, e, io)).profile.awards)
  {
    hide Awards, FinalScore, PassScore, Badges, Progression.Awarded, Progression.Succeeds, Name, Passes;
    var call := AwardCall(r, item, e, io);
    AwardScore(r, item, e);
    AwardedList(s, call);
    var x :| x in Progression.Awarded(s, call).profile.awards && x.runID == r.id;
  }

  // The profile side of any check of the run.
  lemma CheckProfile(r: Run, item: Scenario, e: Evidence, s: Progression.State, io: bool)
    requires item.id == r.scenario && Required(r.scenario) && Ledger.Sound(s) && AwardsGraded(s.profile.awards)
    requires OwnAward(r, s.profile.awards)
    ensures var t := if Awards(r, item, e) then Progression.Awarded(s, AwardCall(r, item, e, io)) else s;
      && Ledger.Sound(t) && AwardsGraded(t.profile.awards) && OwnAward(r, t.profile.awards)
      && (forall x :: x in s.profile.awards ==> x in t.profile.awards)
      && (HistoryRecord(r, item, e, s, io).score != 0 ==> Backed(HistoryRecord(r, item, e, s, io), t.profile.awards))
  {
    hide Ledger.Sound, AwardsGraded, OwnAward, Awards, FinalScore, Progression.Awarded, Progression.Succeeds, AwardCall,
         HistoryRecord, HistoryScore, Backed;
    ScoreOfRecord(r, item, e, s, io);
    if Awards(r, item, e) {
      CheckAwards(r, item, e, s, io);
      if HistoryScore(r, item, e, s, io) != 0 {
        RecordBacked(r, item, e, s, io);
      }
    }
  }

  // What a check reports, and does to the two stores.
  lemma CheckStores(c: Config, s: Sys, input: CheckInput)
    requires s.active.Some? && s.active.value.scenario in c.catalog
    ensures var r, t := s.active.value, Check(c, s, input).sys;
      var item, e := c.catalog[r.scenario], ServiceEvidence(input.good, input.total, input.p95);
      && t.active == s.active
      && t.profile == (if Awards(r, item, e) then Progression.Awarded(s.profile, AwardCall(r, item, e, input.profileIO))
                       else s.profile)
      && t.history == History.Added(s.history, HistoryRecord(r, item, e, s.profile, input.profileIO), input.historyIO)
    ensures var r, report := s.active.value, Check(c, s, input).report;
      var item, e := c.catalog[r.scenario], ServiceEvidence(input.good, input.total, input.p95);
      && report.Report? && report.passed == Passes(r, item, e) && report.score == FinalScore(r, item, e)
      && (!Awards(r, item, e) ==> report.xp == 0)
  {
    hide Awards, Passes, FinalScore, Score, Progression.Awarded, Progression.Succeeds, Progression.Returned,
         History.Added, HistoryRecord, AwardCall, ServiceEvidence, History.AllEncodable;
  }

  lemma CheckKept(c: Config, s: Sys, input: CheckInput)
    requires ValidConfig(c) && s.active.Some? && Required(s.active.value.scenario)
    requires StoresInv(s)
    ensures StoresInv(Check(c, s, input).sys)
  {
    hide Check, Awards, Progression.Awarded, History.Added, Ledger.Sound, ServiceEvidence, Backed, AwardsGraded,
         OwnAward, HistoryRecord, AwardCall, AllBacked;
    var r := s.active.value;
    var item := c.catalog[r.scenario];
    var e := ServiceEvidence(input.good, input.total, input.p95);
    var before, after := s.profile.profile.awards, Check(c, s, input).sys.profile.profile.awards;
    CheckStores(c, s, input);
    CheckProfile(r, item, e, s.profile, input.profileIO);
    Grown(s.history.memory, before, after);
    if s.history.disk.Some? {
      Grown(s.history.disk.value, before, after);
    }
    AddedBacked(s.history, HistoryRecord(r, item, e, s.profile, input.profileIO), input.historyIO, after);
  }

  lemma ScoreOfRecord(r: Run, item: Scenario, e: Evidence, s: Progression.State, io: bool)
    ensures HistoryRecord(r, item, e, s, io).score == HistoryScore(r, item, e, s, io)
    ensures HistoryScore(r, item, e, s, io) != 0 ==> Awards(r, item, e)
  {}

  lemma RestartKept(s: Sys)
    requires StoresInv(s)
    ensures StoresInv(Restart(s))
  {
    hide Ledger.Consistent, AwardsGraded, Backed, History.Keep;
    SoundRestarts(s.profile);
    if s.history.disk.Some? {
      KeptBacked(s.history.disk.value, s.profile.profile.awards);
    }
  }

  lemma SoundRestarts(s: Progression.State)
    requires Ledger.Sound(s)
    ensures Ledger.Sound(Progression.Opened(s.disk))
  {
    hide Ledger.Consistent;
    Ledger.StandingKnown(s.profile);
  }

  lemma KeptBacked(records: seq<History.Record>, awards: seq<Progression.Award>)
    requires AllBacked(records, awards)
    ensures AllBacked(History.Keep(records), awards)
  {
    var kept := History.Keep(records);
    forall i | 0 <= i < |kept| && kept[i].score != 0 ensures Backed(kept[i], awards) {
      assert kept[i] == records[i + |records| - |kept|];
    }
  }

  // Every step but a check and a restart leaves the stores alone, and the run as it was or
  // with a fresh identifier.
  lemma FramedAwardKept(c: Config, p: Past, e: Event, t: Sys)
    requires IdsInv(p) && StoresInv(p.now) && Fresh(p, e) && ActiveFrame(c, p.now, e, t) && SameStores(p.now, t)
    ensures StoresInv(t)
  {
    var s := p.now;
    hide Ledger.Sound, AwardsGraded, AllBacked, OwnAward, InOrder;
    if t.active.Some? {
      if s.active.Some? {
        OwnAwardKept(s.active.value, t.active.value, s.profile.profile.awards);
      } else {
        FreshOwnsNothing(t.active.value, s.profile.profile.awards, p.used);
      }
    }
  }

  lemma AwardKept(c: Config, p: Past, e: Event)
    requires ValidConfig(c) && IdsInv(p) && StoresInv(p.now) && Fresh(p, e) && WorkersOk(p.now)
    ensures StoresInv(Step(c, p.now, e))
  {
    hide Check, Restart, Follows, StoresInv, WorkersOk, ActiveFrame, WorkerIds, SameStores, Fresh;
    if e.CheckEvent? {
      if p.now.active.Some? {
        CheckKept(c, p.now, e.input);
      } else {
        IdleCheck(c, p.now, e.input);
      }
    } else if e.RestartEvent? {
      RestartKept(p.now);
    } else {
      hide Step;
      StepFollows(c, p.now, e);
      FramesFollow(c, p.now, e, Step(c, p.now, e));
      FramedAwardKept(c, p, e, Step(c, p.now, e));
    }
  }

  lemma IdleCheck(c: Config, s: Sys, input: CheckInput)
    ensures s.active.None? ==> Check(c, s, input).sys == s
  {}

  lemma FreshOwnsNothing(r: Run, awards: seq<Progression.Award>, used: set<string>)
    ensures (r.id !in used && forall a :: a in awards ==> a.runID in used) ==> OwnAward(r, awards)
  {}

  lemma OwnAwardKept(r: Run, q: Run, awards: seq<Progression.Award>)
    ensures OwnAward(r, awards) && q.id == r.id && q.scenario == r.scenario && |r.hints| <= |q.hints| ==>
      OwnAward(q, awards)
  {}

  /// Alert verdicts
  /// --------------

  // The last verdict a worker wrote for a phase of a run.
  function LastVerdict(verdicts: seq<Verdict>, runID: string, phase: Phase): Option<bool> {
    if verdicts == [] then None
    else
      var last := verdicts[|verdicts| - 1];
      if last.runID == runID && last.phase == phase then Some(last.fired)
      else LastVerdict(verdicts[..|verdicts| - 1], runID, phase)
  }

  ghost predicate FlagsMatch(r: Run, verdicts: seq<Verdict>) {
    && (r.alertFired <==> LastVerdict(verdicts, r.id, Incident) == Some(true))
    && (r.alertCleared <==> LastVerdict(verdicts, r.id, Recovery) == Some(false))
    && (r.alertBaselineObserved <==> LastVerdict(verdicts, r.id, Baseline).Some?)
    && (r.alertBaseline <==> LastVerdict(verdicts, r.id, Baseline) == Some(true))
  }

  ghost predicate AlertInv(p: Past) {
    && (p.now.active.Some? ==> FlagsMatch(p.now.active.value, p.verdicts))
    && WorkersOk(p.now)
  }

  lemma {:induction false} NoVerdict(verdicts: seq<Verdict>, runID: string, phase: Phase)
    requires forall i :: 0 <= i < |verdicts| ==> verdicts[i].runID != runID
    ensures LastVerdict(verdicts, runID, phase) == None
  {
    if verdicts != [] {
      NoVerdict(verdicts[..|verdicts| - 1], runID, phase);
    }
  }

  lemma VerdictAppended(verdicts: seq<Verdict>, v: Verdict, runID: string, phase: Phase)
    ensures LastVerdict(verdicts + [v], runID, phase) ==
            if v.runID == runID && v.phase == phase then Some(v.fired) else LastVerdict(verdicts, runID, phase)
  {
    assert (verdicts + [v])[..|verdicts|] == verdicts;
  }

  lemma VerdictRecorded(r: Run, verdicts: seq<Verdict>, v: Verdict)
    requires FlagsMatch(r, verdicts) && v.runID == r.id && !v.phase.OtherPhase?
    ensures FlagsMatch(RecordVerdict(r, v.phase, v.fired), verdicts + [v])
  {
    VerdictAppended(verdicts, v, r.id, Baseline);
    VerdictAppended(verdicts, v, r.id, Incident);
    VerdictAppended(verdicts, v, r.id, Recovery);
  }

  lemma FreshFlags(runID: string, id: ScenarioId, verdicts: seq<Verdict>)
    requires forall i :: 0 <= i < |verdicts| ==> verdicts[i].runID != runID
    ensures FlagsMatch(NewRun(runID, id).(running := true), verdicts)
  {
    NoVerdict(verdicts, runID, Baseline);
    NoVerdict(verdicts, runID, Incident);
    NoVerdict(verdicts, runID, Recovery);
  }

  lemma AlertKept(c: Config, p: Past, e: Event)
    requires IdsInv(p) && AlertInv(p) && Fresh(p, e)
    ensures AlertInv(Next(c, p, e))
  {
    var s, t := p.now, Step(c, p.now, e);
    StepFollows(c, s, e);
    hide Step, GateHolds, Check, FlagsMatch;
    if e.RecordEvent? {
      if Written(s, e).Some? {
        VerdictRecorded(s.active.value, p.verdicts, Written(s, e).value);
      }
    } else if e.StartEvent? && s.active.None? && t.active.Some? {
      FreshFlags(e.runID, e.id, p.verdicts);
    } else if t.active.Some? && s.active.Some? {
    }
  }

  /// The diagnosis gate
  /// ------------------

  // The run has recovery or file evidence to its credit.
  predicate Credited(r: Run) { r.recoverySeen || r.fileEvidenceSeen }

  // Some earlier state had this run active with a matching diagnosis.
  ghost predicate EverDiagnosed(states: seq<Sys>, runID: string) {
    exists i :: 0 <= i < |states| && states[i].active.Some? && states[i].active.value.id == runID
                && Diagnosed(states[i].active.value)
  }

  ghost predicate MitigationsLegal(r: Run) {
    && (forall i :: 0 <= i < |r.interventions| ==> Mitigation(r.scenario) == Some(r.interventions[i]))
    && (r.interventions != [] ==> r.recoverySeen)
    && (r.recoverySeen && AlertExercise(r.scenario) ==> r.interventions != [])
  }

  // A phase that the run is in, or whose verdict set its flag, is on the record.
  ghost predicate PhasesSeen(r: Run) {
    (r.phase.Recovery? || r.alertCleared ==> r.recoverySeen) && (r.phase.Incident? || r.alertFired ==> r.incidentSeen)
  }

  ghost predicate GateInv(p: Past) {
    p.now.active.Some? ==>
      MitigationsLegal(p.now.active.value) && PhasesSeen(p.now.active.value)
      && (Credited(p.now.active.value) ==> EverDiagnosed(p.states, p.now.active.value.id))
  }

  lemma DiagnosedNow(states: seq<Sys>, now: Sys, runID: string)
    ensures EverDiagnosed(states, runID) ==> EverDiagnosed(states + [now], runID)
    ensures (now.active.Some? && now.active.value.id == runID && Diagnosed(now.active.value)) ==>
      EverDiagnosed(states + [now], runID)
  {
    hide Diagnosed;
    var all := states + [now];
    if EverDiagnosed(states, runID) {
      var i :| 0 <= i < |states| && states[i].active.Some? && states[i].active.value.id == runID
               && Diagnosed(states[i].active.value);
      assert all[i] == states[i];
    }
    assert all[|states|] == now;
  }

  // What a step that sets no flag, or a verdict of the present phase, keeps.
  lemma GateCarried(r: Run, q: Run, fired: bool)
    requires MitigationsLegal(r) && PhasesSeen(r) && q.scenario == r.scenario && GateHolds(r, q)
    requires SameFlags(r, q) || q == RecordVerdict(r, r.phase, fired)
    ensures MitigationsLegal(q) && PhasesSeen(q) && (Credited(q) ==> Credited(r) || Diagnosed(r))
  {
    hide Diagnosed, Mitigation;
  }

  // Whose run it is does not change with the phase.
  lemma PhaseFrame(r: Run, phase: Phase)
    ensures PhaseRun(r, phase).id == r.id && PhaseRun(r, phase).scenario == r.scenario
  {}

  // What a verdict does not touch.
  lemma VerdictFrame(r: Run, phase: Phase, fired: bool)
    ensures var q := RecordVerdict(r, phase, fired);
      q.id == r.id && q.scenario == r.scenario && q.recoverySeen == r.recoverySeen && q.phase == r.phase
  {}

  // Writing a verdict leaves the gate's fields alone.
  lemma VerdictKeepsGate(r: Run, phase: Phase, fired: bool)
    ensures var q := RecordVerdict(r, phase, fired);
      SameRun(r, q) && q.scenario == r.scenario && GateHolds(r, q)
  {}

  lemma GateKept(c: Config, p: Past, e: Event)
    requires GateInv(p) && WorkersOk(p.now)
    ensures GateInv(Next(c, p, e))
  {
    var s, t := p.now, Step(c, p.now, e);
    StepFollows(c, s, e);
    hide Step, GateHolds, SameFlags, RecordVerdict, Check, EverDiagnosed, MitigationsLegal, PhasesSeen, Diagnosed;
    if s.active.Some? {
      var r := s.active.value;
      DiagnosedNow(p.states, s, r.id);
      if e.RecordEvent? && Written(s, e).Some? {
        var v := Written(s, e).value;
        VerdictKeepsGate(r, v.phase, v.fired);
        GateCarried(r, t.active.value, v.fired);
      } else if t.active.Some? && t.active != s.active {
        GateCarried(r, t.active.value, false);
      }
    } else if t.active.Some? {
      StartedClean(e.runID, e.id);
    }
  }

  lemma StartedClean(runID: string, id: ScenarioId)
    ensures var q := NewRun(runID, id).(running := true); MitigationsLegal(q) && PhasesSeen(q) && !Credited(q)
  {}

  /// All of it, in every reachable installation
  /// ------------------------------------------

  ghost predicate Inv(p: Past) {
    IdsInv(p) && StoresInv(p.now) && AlertInv(p) && GateInv(p)
  }

  lemma StepKeeps(c: Config, p: Past, e: Event)
    requires ValidConfig(c) && Inv(p) && Fresh(p, e)
    ensures Inv(Next(c, p, e))
  {
    assert Next(c, p, e).now == Step(c, p.now, e) && WorkersOk(p.now);
    hide Next, IdsInv, AlertInv, GateInv, Step, WorkersOk;
    IdsKept(c, p, e);
    AwardKept(c, p, e);
    AlertKept(c, p, e);
    GateKept(c, p, e);
  }

  lemma {:induction false} LeadsKeeps(c: Config, p: Past, events: seq<Event>, q: Past)
    requires ValidConfig(c) && Inv(p) && Leads(c, p, events, q)
    ensures Inv(q)
    decreases |events|
  {
    if events != [] {
      StepKeeps(c, p, events[0]);
      LeadsKeeps(c, Next(c, p, events[0]), events[1..], q);
    }
  }

  lemma ReachableInv(c: Config, p: Past)
    requires Reachable(c, p)
    ensures Inv(p)
  {
    var lab, events :| Leads(c, Initial(lab), events, p);
    Ledger.EmptyConsistent();
    LeadsKeeps(c, Initial(lab), events, p);
  }

  /// The parts, one at a time
  /// ------------------------

  lemma InvParts(p: Past)
    requires Inv(p)
    ensures IdsInv(p) && StoresInv(p.now) && AlertInv(p) && GateInv(p)
  {
    hide IdsInv, StoresInv, AlertInv, GateInv;
  }

  lemma WorkersKnown(p: Past)
    requires Inv(p)
    ensures WorkersOk(p.now)
  {
    hide IdsInv, StoresInv, GateInv, WorkersOk, FlagsMatch;
  }

  lemma ActiveKnown(p: Past)
    requires Inv(p) && p.now.active.Some?
    ensures Required(p.now.active.value.scenario) && p.now.active.value.id in p.used
  {
    hide StoresInv, AlertInv, GateInv;
  }

  // Whatever is active after a step is the run active before it, or a new identifier.
  lemma NextFrame(c: Config, p: Past, e: Event)
    requires ValidConfig(c) && Inv(p) && Fresh(p, e)
    ensures var q := Next(c, p, e);
      && Inv(q) && p.used <= q.used && q.now == Step(c, p.now, e)
      && (q.now.active.Some? ==>
            (p.now.active.Some? && SameRun(p.now.active.value, q.now.active.value))
            || (p.now.active.None? && q.now.active.value.id !in p.used))
  {
    assert Next(c, p, e).now == Step(c, p.now, e) && p.used <= Next(c, p, e).used;
    hide Inv, Step, Follows, Next, WorkersOk;
    StepKeeps(c, p, e);
    WorkersKnown(p);
    StepFollows(c, p.now, e);
    FramesFollow(c, p.now, e, Step(c, p.now, e));
  }
}
