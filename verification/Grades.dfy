/** What a check decides, records and pays: the pass condition, the score, the history record
    and the award in terms of the run, the three query answers and the two stores. */
module Grades {
  import opened Wrappers
  import opened Floats
  import opened Scenarios
  import opened Runtime
  import opened RuntimeInvariant
  import opened RuntimeTheorems
  import opened Outcomes
  import History
  import Progression

  /// The pass condition
  /// ------------------

  // a >= b where both are numbers.
  predicate NotLess(a: Float, b: Float) {
    !a.NaN? && !b.NaN? && (a.PosInf? || b.NegInf? || (a.Finite? && b.Finite? && a.value >= b.value))
  }

  // The share of successful requests, when there were any.
  function Availability(good: Float, total: Float): Float {
    match total
    case Finite(t) => if t <= 0.0 then Finite(0.0) else if good.Finite? then Finite(good.value / t) else good
    case PosInf => if good.Finite? then Finite(0.0) else NaN
    case _ => Finite(0.0)
  }

  function Milliseconds(seconds: Float): Float {
    if seconds.Finite? then Finite(1000.0 * seconds.value) else seconds
  }

  // The three objectives of a service exercise, as its query answers show them.
  predicate Recovered(item: Scenario, input: CheckInput) {
    && NotLess(Availability(input.good.value, input.total.value), item.objectives.availability)
    && NotLess(Finite(item.objectives.p95LatencyMS as real), Milliseconds(input.p95.value))
    && NotLess(input.total.value, Finite(item.grading.minimumRequests as real))
  }

  lemma RecoveredIff(item: Scenario, input: CheckInput)
    ensures var e := ServiceEvidence(input.good, input.total, input.p95);
      && e == Evidence(Availability(input.good.value, input.total.value), Milliseconds(input.p95.value), input.total.value)
      && (MeetsObjectives(item, e) <==> Recovered(item, input))
  {}

  predicate Alerted(r: Run) {
    && r.alertExpression != "" && r.incidentSeen && r.recoverySeen
    && r.alertBaselineObserved && !r.alertBaseline && r.alertFired && r.alertCleared
  }

  // The mitigation of a service exercise: a second backend, or its intervention.
  predicate Cured(r: Run) {
    if r.scenario.CpuSaturation? || r.scenario.VerticalHorizontal? then HorizontalCapacity in r.interventions
    else exists x :: (r.scenario, r.diagnosis, x) in CURES && x in r.interventions
  }

  lemma AchievedIff(r: Run, item: Scenario, input: CheckInput)
    requires Required(r.scenario) && Fits(r)
    ensures Achieved(r, item, ServiceEvidence(input.good, input.total, input.p95)) <==>
            if r.scenario.FileForensics? then r.fileEvidenceSeen
            else if r.scenario.UsefulAlerts? || r.scenario.SloBurnRate? then Alerted(r)
            else Cured(r) && r.recoverySeen && Recovered(item, input)
  {
    RecoveredIff(item, input);
    hide Recovered, MeetsObjectives, ServiceEvidence;
    match r.scenario { case _ => }
  }

  lemma CorrectFits(r: Run)
    requires Required(r.scenario)
    ensures DiagnosisCorrect(r) <==> Fits(r)
  {
    FitsIff(r);
    match r.scenario { case _ => }
  }

  // A check of a run passes exactly when its diagnosis fits and its exercise is achieved:
  // the file evidence seen; or an alert quiet in baseline, fired in the incident and cleared
  // in recovery; or the mitigation and recovery on record, and the three objectives reached.
  lemma PassIff(c: Config, s: Sys, input: CheckInput)
    requires s.active.Some? && s.active.value.scenario in c.catalog && Required(s.active.value.scenario)
    ensures var r, item := s.active.value, c.catalog[s.active.value.scenario];
      PassesCheck(c, s, input) <==>
        Fits(r) && if r.scenario.FileForensics? then r.fileEvidenceSeen
                   else if r.scenario.UsefulAlerts? || r.scenario.SloBurnRate? then Alerted(r)
                   else Cured(r) && r.recoverySeen && Recovered(item, input)
  {
    var r, item := s.active.value, c.catalog[s.active.value.scenario];
    CheckStores(c, s, input);
    CorrectFits(r);
    if Fits(r) {
      AchievedIff(r, item, input);
    }
    hide Check, Achieved, Recovered, Cured, Alerted, ServiceEvidence, Fits;
  }

  // In every reachable installation, for query answers and objectives that are numbers: a
  // service exercise passes if and only if its diagnosis fits, a mitigation is on record,
  // enough requests were made, enough of them succeeded and they were fast enough.
  lemma ServicePassIff(c: Config, p: Past, input: CheckInput, good: real, total: real, p95: real, objective: real)
    requires Reachable(c, p) && p.now.active.Some? && p.now.active.value.scenario in c.catalog
    requires var id := p.now.active.value.scenario; !id.FileForensics? && !id.UsefulAlerts? && !id.SloBurnRate?
    requires Valid(c.catalog[p.now.active.value.scenario])
    requires input.good.value == Finite(good) && input.total.value == Finite(total) && input.p95.value == Finite(p95)
    requires c.catalog[p.now.active.value.scenario].objectives.availability == Finite(objective)
    ensures var r := p.now.active.value;
      var item := c.catalog[r.scenario];
      PassesCheck(c, p.now, input) <==>
        && Fits(r) && r.interventions != [] && total >= item.grading.minimumRequests as real
        && good >= objective * total && 1000.0 * p95 <= item.objectives.p95LatencyMS as real
  {
    var r, item := p.now.active.value, c.catalog[p.now.active.value.scenario];
    assert item.grading.minimumRequests > 0;
    hide Valid, Reachable, Inv, IdsInv, StoresInv, AlertInv, EverDiagnosed, PassesCheck, Cured, Fits, Recovered;
    ReachableInv(c, p);
    ActiveKnown(p);
    InvParts(p);
    PassIff(c, p.now, input);
    if Fits(r) {
      CuredIff(r);
    }
    RecoveredReal(item, input, good, total, p95, objective);
  }

  lemma CuredIff(r: Run)
    requires MitigationsLegal(r) && Required(r.scenario) && Fits(r)
    requires !r.scenario.FileForensics? && !r.scenario.UsefulAlerts? && !r.scenario.SloBurnRate?
    ensures Cured(r) <==> r.interventions != []
  {
    var x := Mitigation(r.scenario).value;
    assert r.interventions != [] ==> r.interventions[0] == x;
    match r.scenario { case _ => }
  }

  lemma RecoveredReal(item: Scenario, input: CheckInput, good: real, total: real, p95: real, objective: real)
    requires item.grading.minimumRequests > 0 && item.objectives.availability == Finite(objective)
    requires input.good.value == Finite(good) && input.total.value == Finite(total) && input.p95.value == Finite(p95)
    ensures Recovered(item, input) <==>
            && total >= item.grading.minimumRequests as real
            && good >= objective * total && 1000.0 * p95 <= item.objectives.p95LatencyMS as real
  {
    if total > 0.0 {
      Quotient(good, total, objective);
    }
  }

  lemma Quotient(a: real, b: real, c: real)
    requires b > 0.0
    ensures a / b >= c <==> a >= c * b
  {
    assert a == (a / b) * b;
  }

  /// The breakdown
  /// -------------

  // The four parts of the score a check reports, passed or not.
  lemma BreakdownIs(c: Config, s: Sys, input: CheckInput)
    requires ValidConfig(c) && s.active.Some? && Required(s.active.value.scenario)
    ensures var r, report := s.active.value, Check(c, s, input).report;
      var item := c.catalog[r.scenario];
      var verified := if r.scenario.UsefulAlerts? || r.scenario.SloBurnRate?
                      then r.alertBaselineObserved && !r.alertBaseline && r.alertFired && r.alertCleared
                      else (r.scenario.FileForensics? && r.fileEvidenceSeen) || Recovered(item, input);
      && report.Report?
      && report.breakdown.evidence == (if Fits(r) then 25 else 0)
      && report.breakdown.mitigation == (if r.fileEvidenceSeen || r.interventions != [] || r.recoverySeen then 25 else 0)
      && report.breakdown.verification == (if verified then 25 else 0)
      && report.breakdown.precision == (if |r.hints| < 5 then 25 - 5 * |r.hints| else 0)
  {
    var r, item := s.active.value, c.catalog[s.active.value.scenario];
    CorrectFits(r);
    RecoveredIff(item, input);
    hide Passes, FinalScore, Progression.Awarded, Progression.Succeeds, Progression.Returned, History.Added, HistoryRecord,
         AwardCall, ServiceEvidence, History.AllEncodable, DiagnosisCorrect, Fits, Recovered, MeetsObjectives;
  }

  /// The history record
  /// ------------------

  // A check appends one record to the history, of which the last hundred are kept: the run,
  // its exercise, the outcome and the samples reported, and the score reported if the award
  // was saved, 0 otherwise.
  lemma CheckRecords(c: Config, s: Sys, input: CheckInput) returns (record: History.Record)
    requires s.active.Some? && s.active.value.scenario in c.catalog
    ensures var r, d := s.active.value, Check(c, s, input);
      && d.report.Report? && d.sys.history.memory == History.LastHundred(s.history.memory + [record])
      && record == History.Record(r.id, Name(r.scenario), d.report.passed,
                                  Availability(input.good.value, input.total.value), Milliseconds(input.p95.value),
                                  if d.report.profileSaved then d.report.score else 0)
  {
    var r, d := s.active.value, Check(c, s, input);
    RecoveredIff(c.catalog[r.scenario], input);
    record := History.Record(r.id, Name(r.scenario), d.report.passed,
                             Availability(input.good.value, input.total.value), Milliseconds(input.p95.value),
                             if d.report.profileSaved then d.report.score else 0);
    hide Passes, FinalScore, Score, Progression.Awarded, Progression.Succeeds, Progression.Returned, AwardCall,
         ServiceEvidence, History.AllEncodable, Availability, Milliseconds, Name;
  }

  // The award is saved exactly when the check passed outside the guided exercise, and the run
  // has its award already or the file can be written.
  lemma CheckSaves(c: Config, s: Sys, input: CheckInput)
    requires ValidConfig(c) && s.active.Some? && Required(s.active.value.scenario)
    ensures var r, report := s.active.value, Check(c, s, input).report;
      report.Report? &&
      (report.profileSaved <==>
         report.passed && !r.scenario.FileForensics?
         && (input.profileIO || exists a :: a in s.profile.profile.awards && a.runID == r.id))
  {
    HasRunIff(s.profile.profile.awards, s.active.value.id);
    hide Passes, FinalScore, Score, Progression.Awarded, Progression.Returned, HistoryRecord, History.Added, Name, Badges,
         ServiceEvidence, History.AllEncodable, Progression.HasRun;
  }

  lemma HasRunIff(awards: seq<Progression.Award>, runID: string)
    ensures Progression.HasRun(awards, runID) <==> exists a :: a in awards && a.runID == runID
  {
    if Progression.HasRun(awards, runID) {
      var i :| 0 <= i < |awards| && awards[i].runID == runID;
      assert awards[i] in awards;
    }
  }

  // The last record is of this run, passed, and scores 75 and 25 more less 5 for each hint.
  ghost predicate Scored(r: Run, records: seq<History.Record>) {
    && records != []
    && var last := records[|records| - 1];
       last.runID == r.id && last.passed && last.score == 75 + (if |r.hints| < 5 then 25 - 5 * |r.hints| else 0)
  }

  lemma SavedScores(c: Config, s: Sys, input: CheckInput)
    requires ValidConfig(c) && s.active.Some? && Required(s.active.value.scenario)
    ensures var d := Check(c, s, input);
      && d.report.Report?
      && (d.report.passed && d.report.profileSaved ==> Scored(s.active.value, d.sys.history.memory))
  {
    hide Check, PassScore;
    CheckGrades(c, s, input);
    CheckSaves(c, s, input);
    var record := CheckRecords(c, s, input);
    ScoreOfPass(|s.active.value.hints|);
  }

  // In every reachable installation, a passed check whose award is saved leaves such a record.
  lemma SavedRecord(c: Config, p: Past, input: CheckInput)
    requires Reachable(c, p) && p.now.active.Some?
    ensures var d := Check(c, p.now, input);
      && d.report.Report?
      && (d.report.passed && d.report.profileSaved ==> Scored(p.now.active.value, d.sys.history.memory))
  {
    assert ValidConfig(c);
    hide Reachable, Inv, Check, Scored;
    ReachableInv(c, p);
    ActiveKnown(p);
    SavedScores(c, p.now, input);
  }

  lemma ScoreOfPass(hints: nat)
    ensures PassScore(hints) == 75 + if hints < 5 then 25 - 5 * hints else 0
  {}

  /// The award
  /// ---------

  // The badges a passed check can earn, with what each asks of the run.
  predicate Earns(r: Run, badge: Progression.Badge) {
    || badge == Progression.Badge("evidence-first", "Evidence First")
    || (badge == Progression.Badge("narrow-fix", "Narrow Fix") && r.hints == [] && |r.interventions| == 1)
    || (badge == Progression.Badge("clean-recovery", "Clean Recovery") && r.recoverySeen)
    || (badge == Progression.Badge("signal-builder", "Signal Builder") && (r.scenario.UsefulAlerts? || r.scenario.SloBurnRate?))
  }

  ghost predicate DistinctBadges(badges: seq<Progression.Badge>) {
    forall i, j :: 0 <= i < j < |badges| ==> badges[i].id != badges[j].id
  }

  lemma {:induction false} BadgesAdded(have: seq<Progression.Badge>, earned: seq<Progression.Badge>, b: Progression.Badge)
    requires DistinctBadges(earned)
    ensures var all := Progression.AddBadges(have, earned);
      && (b in all <==> b in have || (b in earned && !Progression.HasBadge(have, b.id)))
      && (Progression.HasBadge(all, b.id) <==> Progression.HasBadge(have, b.id) || Progression.HasBadge(earned, b.id))
    decreases |earned|
  {
    if earned != [] {
      var n := |earned| - 1;
      var before, last := Progression.AddBadges(have, earned[..n]), earned[n];
      assert earned == earned[..n] + [last];
      BadgesAdded(have, earned[..n], b);
      BadgesAdded(have, earned[..n], last);
      HasOneMore(before, last, b.id);
      HasOneMore(earned[..n], last, b.id);
    }
  }

  lemma HasOneMore(badges: seq<Progression.Badge>, last: Progression.Badge, id: string)
    ensures Progression.HasBadge(badges + [last], id) <==> Progression.HasBadge(badges, id) || last.id == id
  {
    var all := badges + [last];
    assert all[|badges|] == last;
    if i :| 0 <= i < |badges| && badges[i].id == id {
      assert all[i].id == id;
    }
  }

  lemma EarnedBadges(r: Run, item: Scenario, b: Progression.Badge)
    requires item.id == r.scenario && DiagnosisCorrect(r)
    ensures DistinctBadges(Badges(r, item))
    ensures b in Badges(r, item) <==> Earns(r, b)
  {
    assert |"evidence-first"| == 14 && |"narrow-fix"| == 10 && |"clean-recovery"| == 14 && |"signal-builder"| == 14;
    assert "evidence-first"[0] == 'e' && "clean-recovery"[0] == 'c' && "signal-builder"[0] == 's';
    hide DiagnosisCorrect;
  }

  // What a first award that could be written does to the profile.
  ghost predicate Paid(r: Run, p: Progression.Profile, q: Progression.Profile, score: int, xp: int) {
    var name := Name(r.scenario);
    var best := if name in p.best then p.best[name] else 0;
    && q.awards == p.awards + [Progression.Earned(r.id, name, score)]
    && xp == (if score > best then score - best else 0) && q.xp == p.xp + xp
    && forall b :: b in q.badges <==> b in p.badges || (Earns(r, b) && !Progression.HasBadge(p.badges, b.id))
  }

  lemma AwardPays(r: Run, item: Scenario, e: Evidence, s: Progression.State, score: int)
    requires item.id == r.scenario && DiagnosisCorrect(r) && FinalScore(r, item, e) == score && 0 <= score <= 100
    requires !Progression.HasRun(s.profile.awards, r.id)
    ensures var call := AwardCall(r, item, e, true);
      var t := Progression.Awarded(s, call);
      Paid(r, s.profile, t.profile, score, Progression.Returned(s, call)) && t.disk == Some(t.profile)
  {
    forall b ensures b in Progression.AddBadges(s.profile.badges, Badges(r, item)) <==>
                     b in s.profile.badges || (Earns(r, b) && !Progression.HasBadge(s.profile.badges, b.id)) {
      EarnedBadges(r, item, b);
      BadgesAdded(s.profile.badges, Badges(r, item), b);
    }
    hide FinalScore, DiagnosisCorrect, Badges, Earns, Progression.AddBadges, Progression.HasBadge, Name, Progression.HasRun;
  }

  // A check of a run that has no award yet, passed outside the guided exercise and written to
  // the file, adds one award of the score reported and pays what it improves on the best
  // score of its exercise; every other check pays nothing and leaves the profile alone.
  lemma CheckPays(c: Config, s: Sys, input: CheckInput)
    requires ValidConfig(c) && s.active.Some? && Required(s.active.value.scenario)
    ensures var r, d := s.active.value, Check(c, s, input);
      var p, t := s.profile.profile, d.sys.profile;
      && d.report.Report?
      && (if d.report.passed && !r.scenario.FileForensics? && input.profileIO && !exists a :: a in p.awards && a.runID == r.id
          then Paid(r, p, t.profile, d.report.score, d.report.xp) && t.disk == Some(t.profile)
          else t == s.profile && d.report.xp == 0)
  {
    var r, item := s.active.value, c.catalog[s.active.value.scenario];
    var e := ServiceEvidence(input.good, input.total, input.p95);
    CheckGrades(c, s, input);
    HasRunIff(s.profile.profile.awards, r.id);
    CheckAward(c, s, input);
    hide Check, Passes, FinalScore, ServiceEvidence, Paid, DiagnosisCorrect, Progression.HasRun, PassScore, AwardCall;
    if Awards(r, item, e) && !Progression.HasRun(s.profile.profile.awards, r.id) && input.profileIO {
      AwardPays(r, item, e, s.profile, Check(c, s, input).report.score);
    }
  }

  // The award a check asks for, and what it reports of it.
  lemma CheckAward(c: Config, s: Sys, input: CheckInput)
    requires ValidConfig(c) && s.active.Some? && Required(s.active.value.scenario)
    ensures var r, d := s.active.value, Check(c, s, input);
      var item, e := c.catalog[r.scenario], ServiceEvidence(input.good, input.total, input.p95);
      var call := AwardCall(r, item, e, input.profileIO);
      && d.report.Report? && d.report.passed == Passes(r, item, e) && d.report.score == FinalScore(r, item, e)
      && d.sys.profile == (if Awards(r, item, e) then Progression.Awarded(s.profile, call) else s.profile)
      && d.report.xp == (if Awards(r, item, e) then Progression.Returned(s.profile, call) else 0)
  {
    hide Passes, FinalScore, Score, Progression.Awarded, Progression.Returned, Progression.Succeeds, HistoryRecord,
         History.Added, AwardCall, ServiceEvidence, History.AllEncodable;
  }
}
