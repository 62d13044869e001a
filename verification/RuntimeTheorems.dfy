/** What the runtime promises over every run of an installation. */
module RuntimeTheorems {
  import opened Wrappers
  import opened Floats
  import opened Scenarios
  import opened Lab
  import opened Runtime
  import opened RuntimeInvariant
  import opened Sorting
  import DemoSettings
  import History
  import Progression
  import Ledger

  /// Configuration
  /// -------------

  // The lookup table of an accepted catalog is what every theorem below asks for.
  lemma LoadedConfig(scenarios: seq<Scenario>, gateway: bool)
    requires Covers(scenarios) && forall i :: 0 <= i < |scenarios| ==> Valid(scenarios[i])
    ensures var c := Config(ById(scenarios), gateway);
      ValidConfig(c) && forall id :: id in c.catalog ==> Valid(c.catalog[id])
  {
    hide Valid, Covers, OnlyRequired, Required, ById;
    ValidIds(scenarios);
    ByIdComplete(scenarios);
  }

  /// Grading
  /// -------

  // Each history record, in memory or in the file, scores 0, or 75 at least and is backed by
  // an award of the same run and scenario whose score is no less; and the file of the
  // profile holds that award too.
  lemma HistoryBacked(c: Config, p: Past, record: History.Record)
    requires Reachable(c, p) && record.score != 0
    requires record in p.now.history.memory || (p.now.history.disk.Some? && record in p.now.history.disk.value)
    ensures exists a :: a in p.now.profile.profile.awards && a.runID == record.runID
                        && a.scenario == record.scenario && a.score >= record.score >= 75
    ensures p.now.profile.disk == Some(p.now.profile.profile)
  {
    hide Reachable, Inv, AlertInv, GateInv, IdsInv, AwardsGraded, Ledger.Consistent;
    ReachableInv(c, p);
    InvParts(p);
    assert Backed(record, p.now.profile.profile.awards);
  }

  // What a check reports and does: a pass outside the guided exercise scores
  // 75 + max(0, 25 - 5 * hints); every other check scores 0, earns nothing, and leaves
  // the profile as it was.
  lemma CheckGrades(c: Config, s: Sys, input: CheckInput)
    requires ValidConfig(c) && s.active.Some? && Required(s.active.value.scenario)
    ensures var r, d := s.active.value, Check(c, s, input);
      && d.report.Report?
      && (if d.report.passed && !r.scenario.FileForensics?
          then d.report.score == PassScore(|r.hints|) && 75 <= d.report.score <= 100
          else d.report.score == 0 && d.report.xp == 0 && d.sys.profile == s.profile)
      && (d.report.passed ==> DiagnosisCorrect(r) && Diagnosed(r))
  {
    var r := s.active.value;
    var item := c.catalog[r.scenario];
    var e := ServiceEvidence(input.good, input.total, input.p95);
    hide Check, Achieved, ServiceEvidence, FinalScore, HistoryRecord, AwardCall, PassScore, Progression.Awarded,
         History.Added, DiagnosisCorrect, Diagnosed;
    CheckStores(c, s, input);
    ExactGrade(r, item, e);
  }

  // A run that has ended never becomes active again.
  lemma {:induction false} RunNeverReturns(c: Config, p: Past, events: seq<Event>, q: Past, runID: string)
    requires ValidConfig(c) && Inv(p) && Leads(c, p, events, q)
    requires runID in p.used && (p.now.active.Some? ==> p.now.active.value.id != runID)
    ensures q.now.active.Some? ==> q.now.active.value.id != runID
    decreases |events|
  {
    if events != [] {
      hide Step, Inv, Next;
      NextFrame(c, p, events[0]);
      RunNeverReturns(c, Next(c, p, events[0]), events[1..], q, runID);
    }
  }

  lemma SameRunTransitive(r: Run, m: Run, q: Run)
    ensures SameRun(r, m) && SameRun(m, q) ==> SameRun(r, q)
  {}

  lemma SameRunFacts(r: Run, q: Run)
    ensures SameRun(r, r)
    ensures SameRun(r, q) ==> q.id == r.id && q.scenario == r.scenario && PassScore(|q.hints|) <= PassScore(|r.hints|)
  {}

  // While a run stays active its hints only grow.
  lemma {:induction false} HintsOnlyGrow(c: Config, p: Past, events: seq<Event>, q: Past)
    requires ValidConfig(c) && Inv(p) && Leads(c, p, events, q)
    requires p.now.active.Some? && q.now.active.Some? && q.now.active.value.id == p.now.active.value.id
    ensures SameRun(p.now.active.value, q.now.active.value)
    decreases |events|
  {
    hide Step, Inv, Next, SameRun, Fresh, ValidConfig;
    var r := p.now.active.value;
    SameRunFacts(r, r);
    if events != [] {
      var next := Next(c, p, events[0]);
      NextFrame(c, p, events[0]);
      ActiveKnown(p);
      if next.now.active.Some? && next.now.active.value.id == r.id {
        HintsOnlyGrow(c, next, events[1..], q);
        SameRunTransitive(r, next.now.active.value, q.now.active.value);
      } else {
        RunNeverReturns(c, next, events[1..], q, r.id);
      }
    }
  }

  // Within a run, the score of a later passed check is never higher than an earlier one.
  lemma ScoresNeverIncrease(c: Config, p: Past, events: seq<Event>, q: Past, one: CheckInput, two: CheckInput)
    requires Reachable(c, p) && Leads(c, p, events, q)
    requires p.now.active.Some? && q.now.active.Some? && q.now.active.value.id == p.now.active.value.id
    ensures var a, b := Check(c, p.now, one).report, Check(c, q.now, two).report;
      a.Report? && b.Report? && (a.passed && b.passed ==> b.score <= a.score)
  {
    assert ValidConfig(c);
    hide Check, Inv, Reachable, Leads, ValidConfig, SameRun, PassScore;
    ReachableInv(c, p);
    LeadsKeeps(c, p, events, q);
    HintsOnlyGrow(c, p, events, q);
    ActiveKnown(p);
    ActiveKnown(q);
    CheckGrades(c, p.now, one);
    CheckGrades(c, q.now, two);
    SameRunFacts(p.now.active.value, q.now.active.value);
  }

  /// The XP bound
  /// ------------

  lemma {:induction false} DistinctSize(items: seq<string>, members: set<string>)
    requires Distinct(items) && forall x :: x in items <==> x in members
    ensures |items| == |members|
  {
    if items == [] {
      assert members == {};
    } else {
      TailMembersOf(items, members);
      DistinctSize(items[1..], members - {items[0]});
    }
  }

  lemma TailMembersOf(items: seq<string>, members: set<string>)
    requires items != [] && Distinct(items) && forall x :: x in items <==> x in members
    ensures forall x :: x in items[1..] <==> x in members - {items[0]}
  {
    forall x ensures x in items[1..] <==> x in members - {items[0]} {
      TailMembers(items, x);
    }
  }

  lemma CompletedSize(p: Progression.Profile)
    requires Ledger.Consistent(p)
    ensures |p.completed| == |Ledger.ScenariosOf(p.awards)|
  {
    DistinctSize(p.completed, Ledger.ScenariosOf(p.awards));
  }

  lemma SubsetSize(a: set<string>, b: set<string>)
    requires a <= b
    ensures |a| <= |b|
  {
    assert b == a + (b - a);
  }

  ghost function AwardNames(): set<string> {
    set id | id in AWARDABLE :: Name(id)
  }

  lemma TwelveNames()
    ensures |AwardNames()| == 12
    ensures forall name :: name in AwardNames() <==> AwardName(name)
  {
    RequiredIds();
    NamesSize(AWARDABLE);
    hide Name, AWARDABLE, Awardable;
    forall name ensures name in AwardNames() <==> AwardName(name) {}
  }

  // Every profile the runtime builds, in memory or in the file, has at most 100 XP for
  // each completed scenario and 1200 in all, and the rank of its XP, which is never the
  // last one.
  lemma XPBound(c: Config, p: Past)
    requires Reachable(c, p)
    ensures var profile := p.now.profile.profile;
      && 0 <= profile.xp <= 100 * |profile.completed| <= 1200
      && profile.standing == Progression.RankFor(profile.xp)
      && !profile.standing.rank.IncidentCommander?
      && (p.now.profile.disk.Some? ==> p.now.profile.disk.value == profile)
  {
    hide Reachable, Inv, IdsInv, AlertInv, GateInv, AwardsGraded, AllBacked, OwnAward, Ledger.Consistent;
    ReachableInv(c, p);
    InvParts(p);
    ProfileBound(p.now.profile.profile);
  }

  lemma ProfileBound(profile: Progression.Profile)
    requires Ledger.Consistent(profile) && AwardsGraded(profile.awards)
    ensures 0 <= profile.xp <= 100 * |profile.completed| <= 1200
    ensures profile.standing == Progression.RankFor(profile.xp)
  {
    var done := Ledger.ScenariosOf(profile.awards);
    Ledger.TotalBound(done, profile.awards);
    assert |profile.completed| == |done| by { CompletedSize(profile); }
    TwelveNames();
    SubsetSize(done, AwardNames());
  }

  /// Alerts
  /// ------

  // Each alert flag of the active run is the verdict of the last evaluation written for
  // its phase of this run, `cleared` being its negation.
  lemma AlertFlags(c: Config, p: Past)
    requires Reachable(c, p) && p.now.active.Some?
    ensures var r := p.now.active.value;
      && (r.alertFired <==> LastVerdict(p.verdicts, r.id, Incident) == Some(true))
      && (r.alertCleared <==> LastVerdict(p.verdicts, r.id, Recovery) == Some(false))
      && (r.alertBaselineObserved <==> LastVerdict(p.verdicts, r.id, Baseline).Some?)
      && (r.alertBaseline <==> LastVerdict(p.verdicts, r.id, Baseline) == Some(true))
  {
    hide Reachable, Inv, IdsInv, StoresInv, GateInv;
    ReachableInv(c, p);
    InvParts(p);
  }

  predicate Of(v: Verdict, runID: string, phase: Phase) {
    v.runID == runID && v.phase == phase
  }

  // The last evaluation written for this phase of this run.
  ghost predicate Last(verdicts: seq<Verdict>, runID: string, phase: Phase, i: nat) {
    i < |verdicts| && Of(verdicts[i], runID, phase)
    && forall j :: i < j < |verdicts| ==> !Of(verdicts[j], runID, phase)
  }

  lemma {:induction false} LastVerdictAt(verdicts: seq<Verdict>, runID: string, phase: Phase) returns (i: nat)
    requires LastVerdict(verdicts, runID, phase).Some?
    ensures Last(verdicts, runID, phase, i) && verdicts[i].fired == LastVerdict(verdicts, runID, phase).value
  {
    i := |verdicts| - 1;
    if !Of(verdicts[i], runID, phase) {
      i := LastVerdictAt(verdicts[..i], runID, phase);
    }
  }

  // An evaluation whose query answered, and with a value other than zero; a NaN is one.
  predicate Loud(v: Verdict) { !v.answer.failed && v.answer.value != Finite(0.0) }

  // Each verdict fired exactly when the answer behind it is such a one.
  ghost predicate FiredAnswered(verdicts: seq<Verdict>) {
    forall i :: 0 <= i < |verdicts| ==> (verdicts[i].fired <==> Loud(verdicts[i]))
  }

  lemma {:induction false} LeadsAnswered(c: Config, p: Past, events: seq<Event>, q: Past)
    requires FiredAnswered(p.verdicts) && Leads(c, p, events, q)
    ensures FiredAnswered(q.verdicts)
    decreases |events|
  {
    if events != [] {
      hide Step;
      LeadsAnswered(c, Next(c, p, events[0]), events[1..], q);
    }
  }

  // In every reachable installation a verdict fired if and only if its query answered
  // without an error and not with zero: a failed query counts as not firing, a NaN as firing.
  lemma FiringIsAnswered(c: Config, p: Past)
    requires Reachable(c, p)
    ensures FiredAnswered(p.verdicts)
  {
    var lab, events :| Leads(c, Initial(lab), events, p);
    LeadsAnswered(c, Initial(lab), events, p);
  }

  // A passed alert exercise had, in this very run, a baseline evaluation that failed or
  // answered zero, an incident evaluation that answered something else, and a recovery
  // evaluation that failed or answered zero, each the last of its phase.
  lemma PassedAlert(c: Config, p: Past, input: CheckInput) returns (quiet: nat, firing: nat, cleared: nat)
    requires Reachable(c, p) && AlertRun(p.now)
    requires PassesCheck(c, p.now, input)
    ensures var id := p.now.active.value.id;
      && Last(p.verdicts, id, Baseline, quiet) && !p.verdicts[quiet].fired && !Loud(p.verdicts[quiet])
      && Last(p.verdicts, id, Incident, firing) && p.verdicts[firing].fired && Loud(p.verdicts[firing])
      && Last(p.verdicts, id, Recovery, cleared) && !p.verdicts[cleared].fired && !Loud(p.verdicts[cleared])
  {
    hide Reachable, PassesCheck;
    AlertFlags(c, p);
    FiringIsAnswered(c, p);
    assert AlertUseful(p.now.active.value) by { AlertAchieved(c, p.now, input); }
    var id := p.now.active.value.id;
    quiet := LastVerdictAt(p.verdicts, id, Baseline);
    firing := LastVerdictAt(p.verdicts, id, Incident);
    cleared := LastVerdictAt(p.verdicts, id, Recovery);
  }

  lemma AlertAchieved(c: Config, s: Sys, input: CheckInput)
    requires AlertRun(s)
    requires PassesCheck(c, s, input)
    ensures AlertUseful(s.active.value)
  {
    hide ServiceEvidence, FinalScore, HistoryRecord, AwardCall, Progression.Awarded, History.Added;
  }

  // The write of a worker of the active run, for the current phase, to the flags of that
  // phase.
  ghost predicate OwnWrite(s: Sys, e: Event, q: Run)
    requires s.active.Some?
  {
    var r := s.active.value;
    && e.RecordEvent? && e.i < |s.workers|
    && s.workers[e.i].runID == r.id && s.workers[e.i].phase == r.phase
    && (q.alertFired != r.alertFired ==> r.phase.Incident?)
    && (q.alertCleared != r.alertCleared ==> r.phase.Recovery?)
    && (q.alertBaseline != r.alertBaseline || q.alertBaselineObserved != r.alertBaselineObserved ==> r.phase.Baseline?)
  }

  // A step that changes an alert flag of the active run is such a write: of a worker that
  // this run scheduled, while the phase the flag belongs to is current.
  lemma FlagChange(c: Config, p: Past, e: Event)
    requires Reachable(c, p) && p.now.active.Some?
    ensures var t := Step(c, p.now, e);
      t.active.Some? && !SameFlags(p.now.active.value, t.active.value) ==> OwnWrite(p.now, e, t.active.value)
  {
    hide Step, Inv, Reachable, Follows, WorkersOk, SameFlags, RecordStep, Written;
    var t := Step(c, p.now, e);
    ReachableInv(c, p);
    WorkersKnown(p);
    StepFollows(c, p.now, e);
    if t.active.Some? && !SameFlags(p.now.active.value, t.active.value) {
      FlagsFollow(c, p.now, e, t);
      WriteIsOwn(p.now, e, t);
    }
  }

  lemma WriteIsOwn(s: Sys, e: Event, t: Sys)
    requires s.active.Some? && t.active.Some? && e.RecordEvent?
    requires RecordStep(s, e.i, e.query, t) && Written(s, e).Some?
    ensures OwnWrite(s, e, t.active.value)
  {}

  lemma FlagsFollow(c: Config, s: Sys, e: Event, t: Sys)
    requires Follows(c, s, e, t) && s.active.Some? && t.active.Some?
    requires !SameFlags(s.active.value, t.active.value)
    ensures e.RecordEvent? && RecordStep(s, e.i, e.query, t) && Written(s, e).Some?
  {
    hide Check, RecordVerdict, GateHolds, Written;
  }

  // A worker stops after at most twelve evaluations.
  lemma WorkersBounded(c: Config, p: Past, i: nat)
    requires Reachable(c, p) && i < |p.now.workers|
    ensures p.now.workers[i].attempts <= ATTEMPTS
    ensures !p.now.workers[i].point.Finished? ==> p.now.workers[i].attempts < ATTEMPTS
  {
    hide Reachable, Inv;
    ReachableInv(c, p);
    WorkersKnown(p);
  }

  // Hints are revealed in order, each once: the number revealed is what precision counts.
  lemma HintsInOrder(c: Config, p: Past)
    requires Reachable(c, p) && p.now.active.Some?
    ensures forall i :: 0 <= i < |p.now.active.value.hints| ==> p.now.active.value.hints[i] == i
  {
    hide Reachable, Inv, StoresInv, AlertInv, GateInv;
    ReachableInv(c, p);
    InvParts(p);
  }

  /// The diagnosis gate
  /// ------------------

  // Every recorded intervention is the exercise's one legal mitigation; an intervention
  // implies recovery was seen; and recovery or file evidence implies an earlier moment
  // of this run at which the recorded diagnosis matched.
  lemma DiagnosisGate(c: Config, p: Past)
    requires Reachable(c, p) && p.now.active.Some?
    ensures var r := p.now.active.value;
      && (forall x :: x in r.interventions ==> Mitigation(r.scenario) == Some(x))
      && (r.interventions != [] ==> r.recoverySeen)
      && (r.recoverySeen && AlertExercise(r.scenario) ==> AlertRecovery in r.interventions)
      && (r.recoverySeen || r.fileEvidenceSeen ==>
            exists i :: 0 <= i < |p.states| && p.states[i].active.Some? && p.states[i].active.value.id == r.id
                        && Diagnosed(p.states[i].active.value))
  {
    hide Mitigation, Diagnosed, Reachable, Inv, IdsInv, StoresInv, AlertInv;
    ReachableInv(c, p);
    InvParts(p);
    var r := p.now.active.value;
    if r.recoverySeen && AlertExercise(r.scenario) {
      MitigationListed(r);
      AlertMitigation(r.scenario);
    }
  }

  lemma AlertMitigation(id: ScenarioId)
    ensures AlertExercise(id) ==> Mitigation(id) == Some(AlertRecovery)
  {}

  // An intervention is appended, and recovery or file evidence credited, only by a step
  // on a run whose diagnosis matches at that moment.
  lemma MitigationNeedsDiagnosis(c: Config, p: Past, e: Event)
    requires Reachable(c, p) && p.now.active.Some? && Step(c, p.now, e).active.Some?
    ensures var r, q := p.now.active.value, Step(c, p.now, e).active.value;
      && q.id == r.id
      && (!Diagnosed(r) ==> q.interventions == r.interventions && q.recoverySeen == r.recoverySeen
                            && q.fileEvidenceSeen == r.fileEvidenceSeen)
      && |r.interventions| <= |q.interventions| <= |r.interventions| + 1 && r.interventions <= q.interventions
  {
    hide Step, Inv, Reachable, Follows, WorkersOk, GateHolds;
    ReachableInv(c, p);
    WorkersKnown(p);
    StepFollows(c, p.now, e);
    GateFollows(c, p.now, e, Step(c, p.now, e));
    OneMore(p.now.active.value, Step(c, p.now, e).active.value);
  }

  lemma OneMore(r: Run, q: Run)
    requires GateHolds(r, q)
    ensures !Diagnosed(r) ==>
      q.interventions == r.interventions && q.recoverySeen == r.recoverySeen && q.fileEvidenceSeen == r.fileEvidenceSeen
    ensures |r.interventions| <= |q.interventions| <= |r.interventions| + 1 && r.interventions <= q.interventions
  {
    hide Diagnosed, Mitigation;
  }

  lemma GateFollows(c: Config, s: Sys, e: Event, t: Sys)
    requires Follows(c, s, e, t) && s.active.Some? && t.active.Some?
    ensures t.active.value.id == s.active.value.id && GateHolds(s.active.value, t.active.value)
  {
    hide Check, RecordVerdict, GateHolds, SameFlags, Written;
    GateReflexive(s.active.value);
    if e.RecordEvent? && Written(s, e).Some? {
      var v := Written(s, e).value;
      VerdictKeepsGate(s.active.value, v.phase, v.fired);
    }
  }

  lemma GateReflexive(r: Run)
    ensures GateHolds(r, r)
  {}

  // A passed check outside file-forensics had its legal mitigation applied, once at least,
  // and earlier in the run a matching diagnosis; and the diagnosis matches at check time.
  lemma PassedMitigation(c: Config, p: Past, input: CheckInput)
    requires Reachable(c, p) && p.now.active.Some?
    requires PassesCheck(c, p.now, input)
    ensures var r := p.now.active.value;
      && Diagnosed(r) && EverDiagnosed(p.states, r.id)
      && (!r.scenario.FileForensics? ==>
            Mitigation(r.scenario).Some? && Mitigation(r.scenario).value in r.interventions)
  {
    var r := p.now.active.value;
    hide Reachable, Check, Mitigation, Inv, IdsInv, StoresInv, AlertInv, EverDiagnosed, DiagnosisCorrect, Diagnosed;
    ReachableInv(c, p);
    ActiveKnown(p);
    InvParts(p);
    PassedCredit(c, p.now, input);
    if !r.scenario.FileForensics? {
      MitigationListed(r);
    }
    CheckGrades(c, p.now, input);
  }

  lemma PassedCredit(c: Config, s: Sys, input: CheckInput)
    requires s.active.Some?
    requires PassesCheck(c, s, input)
    ensures var r := s.active.value;
      && Credited(r)
      && (!r.scenario.FileForensics? ==> r.recoverySeen && (r.interventions != [] || AlertExercise(r.scenario)))
  {
    hide ServiceEvidence, FinalScore, HistoryRecord, AwardCall, Progression.Awarded, History.Added, MeetsObjectives;
  }

  lemma MitigationListed(r: Run)
    requires MitigationsLegal(r) && (r.interventions != [] || (r.recoverySeen && AlertExercise(r.scenario)))
    ensures Mitigation(r.scenario).Some? && Mitigation(r.scenario).value in r.interventions
  {
    hide Mitigation;
    assert r.interventions != [] ==> r.interventions[0] in r.interventions;
  }

  /// Deployment
  /// ----------

  // The exercise and phase a successful start deploys.
  function StartTarget(id: ScenarioId): (Option<ScenarioId>, Phase) {
    if AlertExercise(id) then (None, Baseline) else (Some(id), Incident)
  }

  // A successful start leaves a lab that depends on the exercise alone, whatever was
  // deployed before; the run reports the baseline phase even where the incident of a
  // service exercise is deployed. A failed start leaves no run active where there was none.
  lemma StartDetermines(c: Config, s: Sys, id: ScenarioId, runID: string, r: StartReplies)
    ensures var d := Start(c, s, id, runID, r);
      if d.ok then
        var (target, phase) := StartTarget(id);
        && d.sys.lab == Deployment(target, phase, if c.gateway then Blocks(phase, target) else s.lab.blocked, Some(runID))
        && d.sys.active.Some? && d.sys.active.value.phase == Baseline && d.sys.active.value.running
      else d.sys.active == s.active
  {
    var stopped := StopTraffic(s.lab, r.stop);
    var baseline := Apply(stopped, None, Baseline, c.gateway, r.baseline);
    var incident := Apply(baseline.lab, Some(id), Incident, c.gateway, r.incident);
    if baseline.ok {
      ApplyDetermines(stopped, None, Baseline, c.gateway, r.baseline);
    }
    if incident.ok {
      ApplyDetermines(baseline.lab, Some(id), Incident, c.gateway, r.incident);
    }
    hide Apply, ApiFaults, DependencyFaults, Backends;
  }

  // Two successful starts of one exercise, after any two pasts, deploy the same lab; only
  // a gateway that is not configured stays as each found it.
  lemma StartForgets(c: Config, s: Sys, t: Sys, id: ScenarioId, runID: string, r: StartReplies, q: StartReplies)
    requires Start(c, s, id, runID, r).ok && Start(c, t, id, runID, q).ok
    ensures var one, two := Start(c, s, id, runID, r).sys, Start(c, t, id, runID, q).sys;
      && one.lab == two.lab.(blocked := one.lab.blocked) && one.active == two.active
      && (if c.gateway then one.lab.blocked == two.lab.blocked
          else one.lab.blocked == s.lab.blocked && two.lab.blocked == t.lab.blocked)
  {
    StartDetermines(c, s, id, runID, r);
    StartDetermines(c, t, id, runID, q);
    hide Apply, ApiFaults, DependencyFaults, Backends;
  }

  // A mitigation that reports success has removed the injected faults: all services are
  // healthy and the gateway is open, whatever was deployed.
  lemma InterventionHeals(c: Config, s: Sys, action: Action, r: Replies)
    requires Intervene(c, s, action, r).ok
    ensures var t := Intervene(c, s, action, r).sys;
      && t.lab.api1 == t.lab.api2 == t.lab.dependency == DemoSettings.HEALTHY
      && (c.gateway ==> !t.lab.blocked)
      && t.active.Some? && t.active.value.phase == Recovery && action in t.active.value.interventions
  {
    ApplyDetermines(s.lab, ActiveScenario(s), Recovery, c.gateway, r);
    hide Apply, Diagnosed, Allowed;
  }

  // A phase change that reports success has deployed that phase of the exercise; the two
  // phases with an alert evaluation each get a new worker.
  lemma PhaseDeploys(c: Config, s: Sys, phase: Phase, r: Replies)
    requires SetPhase(c, s, phase, r).ok
    ensures var t := SetPhase(c, s, phase, r).sys;
      && t.active.Some? && s.active.Some? && t.active.value.phase == phase
      && t.lab == Deployment(ActiveScenario(s), phase, if c.gateway then Blocks(phase, ActiveScenario(s)) else s.lab.blocked,
                             s.lab.traffic)
      && |t.workers| == |s.workers| + (if phase.Baseline? then 0 else 1)
  {
    ApplyDetermines(s.lab, ActiveScenario(s), phase, c.gateway, r);
    hide Apply, Diagnosed, Deployment;
  }

  // A successful reset leaves no run, no traffic, no faults and an open gateway; the
  // balancer keeps one backend exactly when the run was one of the three CPU exercises.
  lemma ResetDetermines(c: Config, s: Sys, stop: Reply, r: Replies)
    requires Reset(c, s, stop, r).ok
    ensures var t := Reset(c, s, stop, r).sys;
      && t.active.None? && t.lab.traffic.None?
      && t.lab.api1 == t.lab.api2 == t.lab.dependency == DemoSettings.HEALTHY
      && (c.gateway ==> !t.lab.blocked) && (!c.gateway ==> t.lab.blocked == s.lab.blocked)
      && (t.lab.backends == 1 <==> CpuScenario(ActiveScenario(s)))
      && (t.lab.backends == 2 <==> !CpuScenario(ActiveScenario(s)))
  {
    ApplyDetermines(StopTraffic(s.lab, stop), ActiveScenario(s), Baseline, c.gateway, r);
    hide Apply;
  }
}
