/** What a learner can attain: which exercises can be passed, and that the XP bound of
    RuntimeTheorems is reached. */
module Attainment {
  import opened Wrappers
  import opened Floats
  import opened Scenarios
  import opened Lab
  import opened Runtime
  import opened RuntimeInvariant
  import opened RuntimeTheorems
  import opened RuntimePaths
  import Progression
  import Ledger

  // The run of a learner who did everything the exercise asks for, and took no hint.
  function Completed(id: ScenarioId, runID: string): Run
    requires !id.Unknown?
  {
    if AlertExercise(id) then Replayed(Begun(id, runID), EXPRESSION, QUIET, Incident, FIRING, Recovery, QUIET)
    else if id.FileForensics? then Begun(id, runID).(fileEvidenceSeen := true)
    else (assert ServiceExercise(id); MitigationAllowed(id); Mitigated(Begun(id, runID)))
  }

  lemma FileEvidenceWorks(c: Config, s: Sys)
    ensures s.active.Some? && s.active.value.scenario.FileForensics? && Diagnosed(s.active.value) ==>
      Step(c, s, FileEvidenceEvent) == s.(active := Some(s.active.value.(fileEvidenceSeen := true)))
  {}

  // From any idle moment the exercise can be started and completed.
  lemma Completes(c: Config, o: Past, p: Past, id: ScenarioId, runID: string) returns (q: Past)
    requires Reaches(c, AnyCall, o, p) && p.now.active.None? && runID !in p.used && id in c.catalog && !id.Unknown?
    ensures Reaches(c, AnyCall, o, q) && q.now.active == Some(Completed(id, runID)) && q.now.profile == p.now.profile
  {
    hide Reaches, Diagnosed, Replayed, Mitigated, Mitigation, MarkFileEvidence, Step, Next;
    BegunDiagnosed(id, runID);
    q := Begin(c, o, p, id, runID);
    if AlertExercise(id) {
      q := Replays(c, o, q, EXPRESSION, QUIET, Incident, FIRING, Recovery, QUIET);
    } else if id.FileForensics? {
      FileEvidenceWorks(c, q.now);
      q := Plain(c, AnyCall, o, q, FileEvidenceEvent);
    } else {
      MitigationWorks(c, q.now);
      q := Plain(c, AnyCall, o, q, MitigationEvent(id));
    }
  }

  // As many requests as the exercise asks for, all of them successful and fast.
  function Flawless(item: Scenario): CheckInput {
    var enough := Query(FromInt(item.grading.minimumRequests), false);
    CheckInput(enough, enough, Query(ZERO, false), true, true)
  }

  predicate Attainable(item: Scenario) {
    ServiceExercise(item.id) ==> !item.objectives.availability.NaN?
  }

  lemma FlawlessMeets(item: Scenario)
    requires Valid(item) && !item.objectives.availability.NaN?
    ensures var i := Flawless(item); MeetsObjectives(item, ServiceEvidence(i.good, i.total, i.p95))
  {
    hide TrafficValid, FaultValid, StringsOk, Blank;
    var n := item.grading.minimumRequests as real;
    assert n > 0.0 && n / n == 1.0;
  }

  // A pass that earns the best score there is.
  ghost predicate TopMark(report: CheckReport, id: ScenarioId) {
    report.Report? && report.passed && report.score == if id.FileForensics? then 0 else 100
  }

  function FlawlessEvidence(item: Scenario): Evidence {
    ServiceEvidence(Flawless(item).good, Flawless(item).total, Flawless(item).p95)
  }

  lemma FlawlessGrade(item: Scenario, runID: string)
    requires !item.id.Unknown? && Valid(item) && Attainable(item)
    ensures var r, e := Completed(item.id, runID), FlawlessEvidence(item);
      && r.scenario == item.id && Passes(r, item, e) && Awards(r, item, e) == !item.id.FileForensics?
      && FinalScore(r, item, e) == (if item.id.FileForensics? then 0 else 100)
  {
    var r, e := Completed(item.id, runID), FlawlessEvidence(item);
    hide Valid, Completed, Flawless, ServiceEvidence, MeetsObjectives, FinalScore, Passes;
    if ServiceExercise(item.id) {
      FlawlessMeets(item);
    }
    ExactGrade(r, item, e);
  }

  lemma CompletedScores(c: Config, s: Sys, id: ScenarioId, runID: string)
    requires id in c.catalog && c.catalog[id].id == id && !id.Unknown? && s.active == Some(Completed(id, runID))
    requires Valid(c.catalog[id]) && Attainable(c.catalog[id])
    ensures TopMark(Check(c, s, Flawless(c.catalog[id])).report, id)
  {
    hide Valid, Completed, Flawless, ServiceEvidence, Check, FinalScore, Passes, AwardCall, HistoryRecord, Attainable,
         Awards;
    FlawlessGrade(c.catalog[id], runID);
    CheckStores(c, s, Flawless(c.catalog[id]));
  }

  // A run of this exercise, under this identifier, passes this check.
  ghost predicate PassesAt(c: Config, p: Past, q: Past, id: ScenarioId, runID: string, input: CheckInput) {
    && Reaches(c, AnyCall, p, q) && q.now.active.Some?
    && q.now.active.value.scenario == id && q.now.active.value.id == runID
    && PassesCheck(c, q.now, input)
  }

  lemma CheckAttainable(c: Config, s: Sys, input: CheckInput)
    requires ValidConfig(c) && s.active.Some? && s.active.value.scenario in c.catalog
    requires PassesCheck(c, s, input)
    ensures Attainable(c.catalog[s.active.value.scenario])
  {
    var r := s.active.value;
    hide Check, ServiceEvidence, FinalScore, AwardCall, HistoryRecord, Passes, Attainable, Awards;
    CheckStores(c, s, input);
  }

  // From any idle reachable moment, under any fresh identifier, an exercise of the
  // catalog can be passed if and only if it is not a service exercise whose declared
  // availability is not a number.
  lemma PassableIff(c: Config, p: Past, id: ScenarioId, runID: string)
    requires Reachable(c, p) && p.now.active.None? && runID !in p.used
    requires Required(id) && Valid(c.catalog[id])
    ensures (exists q, input :: PassesAt(c, p, q, id, runID, input)) <==> Attainable(c.catalog[id])
  {
    assert ValidConfig(c);
    hide Reachable, Reaches, Valid, Check, Completed, Attainable;
    if Attainable(c.catalog[id]) {
      ReachesSelf(c, AnyCall, p);
      var q := Completes(c, p, p, id, runID);
      CompletedScores(c, q.now, id, runID);
      CompletedNamed(id, runID);
      assert PassesAt(c, p, q, id, runID, Flawless(c.catalog[id]));
    }
    if q, input :| PassesAt(c, p, q, id, runID, input) {
      CheckAttainable(c, q.now, input);
    }
  }

  /// The XP bound is reached
  /// -----------------------

  lemma {:induction false} Longer(used: set<string>) returns (n: nat)
    ensures forall s :: s in used ==> |s| < n
    decreases |used|
  {
    n := 0;
    if used != {} {
      var x :| x in used;
      var m := Longer(used - {x});
      n := if |x| < m then m else |x| + 1;
    }
  }

  lemma FreshName(used: set<string>) returns (runID: string)
    ensures runID !in used
  {
    var n := Longer(used);
    runID := seq(n, _ => 'r');
    assert |runID| == n;
  }

  lemma CompletedNamed(id: ScenarioId, runID: string)
    ensures !id.Unknown? ==> Completed(id, runID).scenario == id && Completed(id, runID).id == runID
  {}

  // Every exercise that can award XP can be passed.
  ghost predicate AllAttainable(c: Config) {
    forall id :: Awardable(id) ==> id in c.catalog && Valid(c.catalog[id]) && Attainable(c.catalog[id])
  }

  lemma FlawlessAwards(c: Config, s: Sys, id: ScenarioId, runID: string)
    requires ValidConfig(c) && Awardable(id)
    requires Valid(c.catalog[id]) && Attainable(c.catalog[id])
    requires s.active == Some(Completed(id, runID)) && !Progression.HasRun(s.profile.profile.awards, runID)
    ensures Step(c, s, CheckEvent(Flawless(c.catalog[id]))).profile.profile.awards
            == s.profile.profile.awards + [Progression.Earned(runID, Name(id), 100)]
  {
    var item, r := c.catalog[id], s.active.value;
    hide Valid, Completed, ServiceEvidence, Check, FinalScore, Passes, HistoryRecord, Attainable, Awards, Name, Badges,
         Progression.HasRun;
    FlawlessGrade(item, runID);
    CheckStores(c, s, Flawless(item));
  }

  lemma FreshRun(c: Config, p: Past, runID: string)
    requires Reachable(c, p) && runID !in p.used
    ensures !Progression.HasRun(p.now.profile.profile.awards, runID)
  {
    hide Reachable, StoresInv, AlertInv, GateInv;
    ReachableInv(c, p);
    var awards := p.now.profile.profile.awards;
    forall i | 0 <= i < |awards| ensures awards[i].runID != runID {
      assert awards[i] in awards;
    }
  }

  lemma ResetWorks(c: Config, s: Sys)
    ensures var t := Step(c, s, ResetEvent(Accepted, OK)); t.active.None? && t.profile == s.profile
  {
    ApplyOkIff(StopTraffic(s.lab, Accepted), ActiveScenario(s), Baseline, c.gateway, OK);
    hide Apply;
  }

  // Play one exercise to its best score, and reset.
  lemma Earns(c: Config, o: Past, p: Past, id: ScenarioId, runID: string) returns (q: Past)
    requires Reachable(c, o) && Reaches(c, AnyCall, o, p) && p.now.active.None? && runID !in p.used
    requires Awardable(id) && id in c.catalog && Valid(c.catalog[id]) && Attainable(c.catalog[id])
    ensures Reaches(c, AnyCall, o, q) && q.now.active.None?
    ensures q.now.profile.profile.awards == p.now.profile.profile.awards + [Progression.Earned(runID, Name(id), 100)]
  {
    assert ValidConfig(c);
    hide Reachable, Reaches, Valid, Check, Completed, Attainable, ValidConfig, Flawless, Name, Next, Step,
         Progression.HasRun;
    ReachesReachable(c, AnyCall, o, p);
    FreshRun(c, p, runID);
    var m := Completes(c, o, p, id, runID);
    FlawlessAwards(c, m.now, id, runID);
    var t := Plain(c, AnyCall, o, m, CheckEvent(Flawless(c.catalog[id])));
    ResetWorks(c, t.now);
    q := Plain(c, AnyCall, o, t, ResetEvent(Accepted, OK));
  }

  ghost predicate TopAward(awards: seq<Progression.Award>, name: string) {
    exists i :: 0 <= i < |awards| && awards[i].scenario == name && awards[i].score == 100
  }

  lemma TopAwardKept(a: seq<Progression.Award>, b: seq<Progression.Award>, name: string)
    requires TopAward(a, name) && a <= b
    ensures TopAward(b, name)
  {
    var i :| 0 <= i < |a| && a[i].scenario == name && a[i].score == 100;
    assert b[i] == a[i];
  }

  lemma {:induction false} EarnsAll(c: Config, o: Past, p: Past, todo: set<ScenarioId>) returns (q: Past)
    requires Reachable(c, o) && Reaches(c, AnyCall, o, p) && p.now.active.None?
    requires (forall id :: id in todo ==> Awardable(id)) && AllAttainable(c)
    ensures Reaches(c, AnyCall, o, q) && q.now.active.None?
    ensures p.now.profile.profile.awards <= q.now.profile.profile.awards
    ensures forall id :: id in todo ==> TopAward(q.now.profile.profile.awards, Name(id))
    decreases |todo|
  {
    hide Reachable, Reaches, Valid, Attainable, Awardable, Name, TopAward;
    q := p;
    if todo != {} {
      var id :| id in todo;
      var runID := FreshName(p.used);
      var m := Earns(c, o, p, id, runID);
      var awards := m.now.profile.profile.awards;
      assert TopAward(awards, Name(id)) by {
        LastIsTop(p.now.profile.profile.awards, runID, Name(id));
      }
      q := EarnsAll(c, o, m, todo - {id});
      TopAwardKept(awards, q.now.profile.profile.awards, Name(id));
    }
  }

  lemma LastIsTop(awards: seq<Progression.Award>, runID: string, name: string)
    ensures TopAward(awards + [Progression.Earned(runID, name, 100)], name)
  {
    assert (awards + [Progression.Earned(runID, name, 100)])[|awards|].scenario == name;
  }

  lemma {:induction false} TotalOfTops(names: set<string>, awards: seq<Progression.Award>)
    requires forall s :: s in names ==> Ledger.Best(awards, s) == 100
    ensures Ledger.TotalOver(names, awards) == 100 * |names|
    decreases |names|
  {
    if names != {} {
      var s :| s in names;
      Ledger.TotalRemove(names, awards, s);
      TotalOfTops(names - {s}, awards);
    }
  }

  lemma TopIsBest(p: Progression.Profile, name: string)
    requires Ledger.Consistent(p) && TopAward(p.awards, name)
    ensures Ledger.Best(p.awards, name) == 100 && name in Ledger.ScenariosOf(p.awards)
  {
    var i :| 0 <= i < |p.awards| && p.awards[i].scenario == name && p.awards[i].score == 100;
    assert p.awards[i] in p.awards;
    Ledger.BestMeaning(p.awards, name);
  }

  lemma FullProfile(p: Progression.Profile)
    requires Ledger.Consistent(p) && AwardsGraded(p.awards)
    requires forall id :: Awardable(id) ==> TopAward(p.awards, Name(id))
    ensures p.xp == 1200 && |p.completed| == 12 && p.standing.rank.Responder?
  {
    hide Ledger.Consistent, TopAward, Name, Awardable;
    TwelveNames();
    var names := Ledger.ScenariosOf(p.awards);
    forall s | s in AwardNames() ensures Ledger.Best(p.awards, s) == 100 && s in names {
      TopIsBest(p, s);
    }
    assert names == AwardNames();
    TotalOfTops(names, p.awards);
    assert p.xp == 1200 by { Ledger.TotalKnown(p); }
    Ledger.StandingKnown(p);
    CompletedSize(p);
  }

  // The bound of 1200 XP is exact: from any idle reachable moment of an installation
  // whose exercises can be passed, a learner can complete all twelve and hold 1200 XP,
  // as a Responder.
  lemma XPBoundReached(c: Config, p: Past) returns (q: Past)
    requires Reachable(c, p) && p.now.active.None? && AllAttainable(c)
    ensures Reachable(c, q) && Reaches(c, AnyCall, p, q)
    ensures var profile := q.now.profile.profile;
      profile.xp == 1200 && |profile.completed| == 12 && profile.standing.rank.Responder?
  {
    hide Reachable, Reaches, AllAttainable, TopAward, Inv, IdsInv, AlertInv, GateInv, AWARDABLE, Awardable, AwardsGraded,
         Ledger.Consistent;
    ReachesSelf(c, AnyCall, p);
    RequiredIds();
    q := EarnsAll(c, p, p, AWARDABLE);
    ReachesReachable(c, AnyCall, p, q);
    ReachableInv(c, q);
    InvParts(q);
    FullProfile(q.now.profile.profile);
  }
}
