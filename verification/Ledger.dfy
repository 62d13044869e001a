/** What every profile written by the XP ledger satisfies. */
module Ledger {
  import opened Wrappers
  import opened Sorting
  import opened Progression

  function Max(a: int, b: int): int { if a > b then a else b }

  // A score as the ledger counts it: from 0 to 100.
  function Bounded(score: int): int { Max(0, if score < 100 then score else 100) }

  // The best score awarded for a scenario, 0 when there is none.
  function Best(awards: seq<Award>, scenario: string): int {
    if awards == [] then 0
    else
      var last := awards[|awards| - 1];
      var before := Best(awards[..|awards| - 1], scenario);
      if last.scenario == scenario then Max(before, last.score) else before
  }

  ghost function ScenariosOf(awards: seq<Award>): set<string> {
    set a | a in awards :: a.scenario
  }

  ghost function TotalOver(scenarios: set<string>, awards: seq<Award>): int {
    if scenarios == {} then 0
    else
      var s :| s in scenarios;
      Best(awards, s) + TotalOver(scenarios - {s}, awards)
  }

  // The sum over all scenarios of the best awarded score.
  ghost function Total(awards: seq<Award>): int {
    TotalOver(ScenariosOf(awards), awards)
  }

  ghost predicate DistinctRuns(awards: seq<Award>) {
    forall i, j :: 0 <= i < j < |awards| ==> awards[i].runID != awards[j].runID
  }

  ghost predicate InRange(awards: seq<Award>) {
    forall a :: a in awards ==> 0 <= a.score <= 100
  }

  ghost predicate BestRecorded(p: Profile) {
    && (forall s :: Previous(p, s) == Best(p.awards, s))
    && (forall s :: s in p.best ==> p.best[s] > 0)
  }

  ghost predicate CompletedRecorded(p: Profile) {
    && StrictlySorted(p.completed, StringLeq)
    && (forall s :: s in p.completed <==> s in ScenariosOf(p.awards))
  }

  ghost predicate DistinctBadges(badges: seq<Badge>) {
    forall i, j :: 0 <= i < j < |badges| ==> badges[i].id != badges[j].id
  }

  // The profile is the summary of its own award list.
  ghost predicate Consistent(p: Profile) {
    && DistinctRuns(p.awards)
    && InRange(p.awards)
    && BestRecorded(p)
    && CompletedRecorded(p)
    && DistinctBadges(p.badges)
    && p.xp == Total(p.awards)
    && p.standing == RankFor(p.xp)
  }

  // Memory and file agree; before the first save there is no file.
  ghost predicate Synced(s: State) {
    if s.disk.Some? then s.disk.value == s.profile else s.profile == EMPTY
  }

  ghost predicate Sound(s: State) {
    Consistent(s.profile) && Synced(s)
  }

  /// Sums over a set of scenarios
  /// ----------------------------

  lemma {:induction false} TotalRemove(scenarios: set<string>, awards: seq<Award>, s: string)
    requires s in scenarios
    ensures TotalOver(scenarios, awards) == Best(awards, s) + TotalOver(scenarios - {s}, awards)
    decreases |scenarios|
  {
    var x :| x in scenarios && TotalOver(scenarios, awards) == Best(awards, x) + TotalOver(scenarios - {x}, awards);
    if x != s {
      TotalRemove(scenarios - {x}, awards, s);
      TotalRemove(scenarios - {s}, awards, x);
      assert scenarios - {x} - {s} == scenarios - {s} - {x};
    }
  }

  lemma {:induction false} TotalAgree(scenarios: set<string>, a: seq<Award>, b: seq<Award>)
    requires forall s :: s in scenarios ==> Best(a, s) == Best(b, s)
    ensures TotalOver(scenarios, a) == TotalOver(scenarios, b)
    decreases |scenarios|
  {
    if scenarios != {} {
      var s :| s in scenarios;
      TotalRemove(scenarios, a, s);
      TotalRemove(scenarios, b, s);
      TotalAgree(scenarios - {s}, a, b);
    }
  }

  // The total is bounded by 100 for each scenario.
  lemma {:induction false} TotalBound(scenarios: set<string>, awards: seq<Award>)
    requires InRange(awards)
    ensures 0 <= TotalOver(scenarios, awards) <= 100 * |scenarios|
    decreases |scenarios|
  {
    if scenarios != {} {
      var s :| s in scenarios;
      TotalRemove(scenarios, awards, s);
      BestMeaning(awards, s);
      TotalBound(scenarios - {s}, awards);
    }
  }

  // Best is an upper bound of the awards of a scenario, and is reached unless it is 0.
  lemma {:induction false} BestMeaning(awards: seq<Award>, s: string)
    requires InRange(awards)
    ensures forall a :: a in awards && a.scenario == s ==> a.score <= Best(awards, s)
    ensures 0 <= Best(awards, s) <= 100
    ensures Best(awards, s) > 0 ==> exists a :: a in awards && a.scenario == s && a.score == Best(awards, s)
  {
    if awards != [] {
      var n := |awards| - 1;
      assert awards == awards[..n] + [awards[n]];
      BestMeaning(awards[..n], s);
    }
  }

  lemma BestAppend(awards: seq<Award>, a: Award, s: string)
    ensures Best(awards + [a], s) ==
            if a.scenario == s then Max(Best(awards, s), a.score) else Best(awards, s)
  {
    assert (awards + [a])[..|awards|] == awards;
  }

  lemma {:induction false} UnawardedBest(awards: seq<Award>, s: string)
    requires s !in ScenariosOf(awards)
    ensures Best(awards, s) == 0
  {
    if awards != [] {
      var n := |awards| - 1;
      assert awards[n].scenario in ScenariosOf(awards);
      forall x | x in ScenariosOf(awards[..n]) ensures x in ScenariosOf(awards) {
        var a :| a in awards[..n] && a.scenario == x;
        assert a in awards;
      }
      UnawardedBest(awards[..n], s);
    }
  }

  // Appending an award changes the sum only at its own scenario.
  lemma TotalElsewhere(scenarios: set<string>, awards: seq<Award>, a: Award)
    requires a.scenario !in scenarios
    ensures TotalOver(scenarios, awards + [a]) == TotalOver(scenarios, awards)
  {
    forall s | s in scenarios ensures Best(awards + [a], s) == Best(awards, s) {
      BestAppend(awards, a, s);
    }
    TotalAgree(scenarios, awards + [a], awards);
  }

  // A new award adds to the total exactly its improvement on the scenario's best.
  lemma TotalAppend(awards: seq<Award>, a: Award)
    requires 0 <= a.score
    ensures Total(awards + [a]) ==
            Total(awards) + Max(0, a.score - Best(awards, a.scenario))
  {
    hide Best, TotalOver, ScenariosOf;
    var known := ScenariosOf(awards);
    var others := known - {a.scenario};
    assert ScenariosOf(awards + [a]) == known + {a.scenario} by { ScenariosAppend(awards, a); }
    assert known + {a.scenario} - {a.scenario} == others;
    TotalRemove(known + {a.scenario}, awards + [a], a.scenario);
    TotalElsewhere(others, awards, a);
    BestAppend(awards, a, a.scenario);
    if a.scenario in known {
      TotalRemove(known, awards, a.scenario);
    } else {
      assert others == known;
      UnawardedBest(awards, a.scenario);
    }
  }

  lemma ScenariosAppend(awards: seq<Award>, a: Award)
    ensures ScenariosOf(awards + [a]) == ScenariosOf(awards) + {a.scenario}
  {}

  /// One award
  /// ---------

  lemma {:induction false} AddBadgesDistinct(have: seq<Badge>, earned: seq<Badge>)
    requires DistinctBadges(have)
    ensures DistinctBadges(AddBadges(have, earned))
    ensures have <= AddBadges(have, earned)
    ensures forall b :: b in earned ==> HasBadge(AddBadges(have, earned), b.id)
  {
    if earned != [] {
      var n := |earned| - 1;
      AddBadgesDistinct(have, earned[..n]);
      var before, after := AddBadges(have, earned[..n]), AddBadges(have, earned);
      assert earned == earned[..n] + [earned[n]];
      assert HasBadge(after, earned[n].id) by {
        if !HasBadge(before, earned[n].id) { assert after[|before|].id == earned[n].id; }
      }
      forall b | b in earned ensures HasBadge(after, b.id) {
        if b in earned[..n] {
          var i :| 0 <= i < |before| && before[i].id == b.id;
          assert after[i].id == b.id;
        }
      }
    }
  }

  lemma CompletedAfter(p: Profile, scenario: string, a: Award)
    requires CompletedRecorded(p) && a.scenario == scenario
    ensures var completed := if scenario in p.completed then p.completed
                             else Sort(p.completed + [scenario], StringLeq);
      StrictlySorted(completed, StringLeq)
      && forall s :: s in completed <==> s in ScenariosOf(p.awards + [a])
  {
    ScenariosAppend(p.awards, a);
    if scenario !in p.completed {
      StringOrder();
      SortDistinct(p.completed + [scenario], StringLeq);
    }
  }

  lemma BestAfter(p: Profile, runID: string, scenario: string, score: int, earned: seq<Badge>)
    requires BestRecorded(p) && InRange(p.awards)
    ensures BestRecorded(Credited(p, runID, scenario, score, earned))
  {
    var next, a := Credited(p, runID, scenario, score, earned), Earned(runID, scenario, Clamp(score));
    assert Previous(p, scenario) == Best(p.awards, scenario);
    BestMeaning(p.awards, scenario);
    forall s ensures Previous(next, s) == Best(next.awards, s) {
      assert Previous(p, s) == Best(p.awards, s);
      BestAppend(p.awards, a, s);
    }
  }

  lemma AwardsAfter(p: Profile, runID: string, scenario: string, score: int, earned: seq<Badge>)
    requires DistinctRuns(p.awards) && InRange(p.awards) && !HasRun(p.awards, runID)
    ensures var next := Credited(p, runID, scenario, score, earned); DistinctRuns(next.awards) && InRange(next.awards)
  {}

  lemma CreditedFields(p: Profile, runID: string, scenario: string, score: int, earned: seq<Badge>)
    ensures var next := Credited(p, runID, scenario, score, earned);
      && next.xp == p.xp + Improvement(p, scenario, score) && next.standing == RankFor(next.xp)
      && next.awards == p.awards + [Earned(runID, scenario, Clamp(score))]
  {
    hide Improvement, AddBadges, Sort, Previous, Clamp;
  }

  lemma TotalAfter(p: Profile, runID: string, scenario: string, score: int, earned: seq<Badge>)
    requires BestRecorded(p) && p.xp == Total(p.awards)
    ensures var next := Credited(p, runID, scenario, score, earned);
      next.xp == Total(next.awards) && next.standing == RankFor(next.xp)
  {
    assert Previous(p, scenario) == Best(p.awards, scenario);
    hide Credited, Total, Best, Previous, BestRecorded, RankFor;
    CreditedFields(p, runID, scenario, score, earned);
    TotalAppend(p.awards, Earned(runID, scenario, Clamp(score)));
  }

  lemma BadgesAfter(p: Profile, runID: string, scenario: string, score: int, earned: seq<Badge>)
    requires CompletedRecorded(p) && DistinctBadges(p.badges)
    ensures var next := Credited(p, runID, scenario, score, earned);
      CompletedRecorded(next) && DistinctBadges(next.badges)
  {
    AddBadgesDistinct(p.badges, earned);
    CompletedAfter(p, scenario, Earned(runID, scenario, Clamp(score)));
    hide AddBadges, DistinctBadges, ScenariosOf;
  }

  lemma CreditedConsistent(p: Profile, runID: string, scenario: string, score: int, earned: seq<Badge>)
    requires Consistent(p) && !HasRun(p.awards, runID)
    ensures Consistent(Credited(p, runID, scenario, score, earned))
  {
    hide Credited, HasRun, DistinctRuns, InRange, BestRecorded, CompletedRecorded, DistinctBadges, Total;
    AwardsAfter(p, runID, scenario, score, earned);
    BestAfter(p, runID, scenario, score, earned);
    BadgesAfter(p, runID, scenario, score, earned);
    TotalAfter(p, runID, scenario, score, earned);
  }

  lemma EmptyConsistent()
    ensures Sound(Opened(None))
  {
    assert ScenariosOf([]) == {};
    forall s ensures Previous(EMPTY, s) == Best([], s) {}
  }

  /// Runs of the store
  /// -----------------

  datatype Step = Do(call: Call) | Reopen

  function After(s: State, step: Step): State {
    match step
    case Do(c) => Awarded(s, c)
    case Reopen => Opened(s.disk)
  }

  function Exec(steps: seq<Step>): State {
    if steps == [] then Opened(None)
    else After(Exec(steps[..|steps| - 1]), steps[|steps| - 1])
  }

  // The sum of the XP amounts returned to the callers.
  function AllReturned(steps: seq<Step>): int {
    if steps == [] then 0
    else
      var before, step := steps[..|steps| - 1], steps[|steps| - 1];
      AllReturned(before) + (if step.Do? then Returned(Exec(before), step.call) else 0)
  }

  predicate SavedCall(steps: seq<Step>, i: nat, runID: string)
    requires i < |steps|
  {
    steps[i].Do? && steps[i].call.io && steps[i].call.runID == runID
  }

  // What the calls alone say should be awarded: of each run, the first call whose
  // persist works, with its score clamped to 0..100.
  function FirstSaved(steps: seq<Step>): seq<Award> {
    if steps == [] then []
    else
      var n := |steps| - 1;
      var step := steps[n];
      FirstSaved(steps[..n]) +
      if step.Do? && step.call.io && !(exists i :: 0 <= i < n && SavedCall(steps, i, step.call.runID))
      then [Earned(step.call.runID, step.call.scenario, Bounded(step.call.score))]
      else []
  }

  lemma {:induction false} FirstSavedRuns(steps: seq<Step>, runID: string)
    ensures HasRun(FirstSaved(steps), runID) <==> exists i :: 0 <= i < |steps| && SavedCall(steps, i, runID)
  {
    if steps != [] {
      var n := |steps| - 1;
      var before, now := FirstSaved(steps[..n]), FirstSaved(steps);
      FirstSavedRuns(steps[..n], runID);
      forall i | 0 <= i < n ensures SavedCall(steps[..n], i, runID) <==> SavedCall(steps, i, runID) {}
      assert now == before || now == before + [now[|before|]];
      if HasRun(now, runID) {
        var k :| 0 <= k < |now| && now[k].runID == runID;
        if k < |before| {
          assert before[k].runID == runID;
          var i :| 0 <= i < n && SavedCall(steps[..n], i, runID);
          assert SavedCall(steps, i, runID);
        } else {
          assert SavedCall(steps, n, runID);
        }
      }
      if i :| 0 <= i < |steps| && SavedCall(steps, i, runID) {
        if HasRun(before, runID) {
          var k :| 0 <= k < |before| && before[k].runID == runID;
          assert now[k].runID == runID;
        } else {
          forall j | 0 <= j < n ensures !SavedCall(steps, j, runID) {
            assert !SavedCall(steps[..n], j, runID);
          }
          assert i == n;
          assert now[|before|].runID == runID;
        }
      }
    }
  }

  // The last call is a first saved one when no earlier one of its run was.
  lemma FirstSavedNext(steps: seq<Step>)
    requires steps != [] && steps[|steps| - 1].Do?
    ensures var n := |steps| - 1;
      var before, c := FirstSaved(steps[..n]), steps[n].call;
      FirstSaved(steps) == before + if c.io && !HasRun(before, c.runID)
                                    then [Earned(c.runID, c.scenario, Bounded(c.score))] else []
  {
    var n := |steps| - 1;
    var before, runID := steps[..n], steps[n].call.runID;
    FirstSavedRuns(before, runID);
    forall i | 0 <= i < n ensures SavedCall(before, i, runID) <==> SavedCall(steps, i, runID) {}
    if i :| 0 <= i < n && SavedCall(before, i, runID) {
      assert SavedCall(steps, i, runID);
    } else {
      forall i | 0 <= i < n ensures !SavedCall(steps, i, runID) {
        assert !SavedCall(before, i, runID);
      }
    }
  }

  lemma TotalKnown(p: Profile)
    ensures Consistent(p) ==> p.xp == Total(p.awards)
  {}

  lemma StandingKnown(p: Profile)
    ensures Consistent(p) ==> p.standing == RankFor(p.xp)
  {}

  lemma ClampIs(score: int)
    ensures Clamp(score) == Bounded(score)
  {}

  // The ledger theorem. After any sequence of award calls, failed persists and
  // restarts: the award list holds the first saved call of each run and nothing else;
  // XP is the sum over scenarios of the best clamped score, and equals what the
  // callers were told they earned; memory equals the file.
  lemma {:induction false} LedgerTheorem(steps: seq<Step>)
    ensures Sound(Exec(steps))
    ensures Exec(steps).profile.awards == FirstSaved(steps)
    ensures Exec(steps).profile.xp == Total(FirstSaved(steps)) == AllReturned(steps)
  {
    if steps == [] {
      EmptyConsistent();
    } else {
      var n := |steps| - 1;
      var before, s := steps[..n], Exec(steps[..n]);
      LedgerTheorem(before);
      match steps[n] {
        case Reopen => StandingKnown(s.profile);
        case Do(c) =>
          ClampIs(c.score);
          hide Consistent, Clamp, Bounded, Total;
          FirstSavedNext(steps);
          if c.io && !HasRun(s.profile.awards, c.runID) {
            CreditedConsistent(s.profile, c.runID, c.scenario, c.score, c.earned);
          }
          TotalKnown(Exec(steps).profile);
      }
    }
  }

  // No step lowers XP, drops an award or takes back a completed scenario.
  lemma XPNeverDecreases(s: State, step: Step)
    requires Sound(s)
    ensures var t := After(s, step);
      && s.profile.xp <= t.profile.xp
      && s.profile.awards <= t.profile.awards
      && s.profile.badges <= t.profile.badges
      && (forall x :: x in s.profile.completed ==> x in t.profile.completed)
  {
    if step.Do? && step.call.io && !HasRun(s.profile.awards, step.call.runID) {
      AddBadgesDistinct(s.profile.badges, step.call.earned);
      var p, x := s.profile, step.call.scenario;
      if x !in p.completed {
        StringOrder();
        SortDistinct(p.completed + [x], StringLeq);
      }
    }
  }

  /// Ranks
  /// -----

  // The four ranks by XP; and the next rank named is the one at the XP named, which is the
  // least above the present XP at which the rank changes.
  lemma RankIff(xp: int)
    ensures var s := RankFor(xp);
      && (s.rank.Observer? <==> xp < 250) && (s.rank.Investigator? <==> 250 <= xp < 750)
      && (s.rank.Responder? <==> 750 <= xp < 1500) && (s.rank.IncidentCommander? <==> 1500 <= xp)
      && (if s.nextRank.Some?
          then xp < s.nextRankXP && RankFor(s.nextRankXP).rank == s.nextRank.value
               && forall x :: xp <= x < s.nextRankXP ==> RankFor(x).rank == s.rank != s.nextRank.value
          else s.nextRankXP == 0 && forall x :: xp <= x ==> RankFor(x).rank == s.rank)
  {}

  // Opening a file takes over what it holds and ranks it anew; without a file all is empty.
  lemma OpenedIs(disk: Option<Profile>)
    ensures var t := Opened(disk);
      && t.disk == disk
      && (disk.Some? ==>
            t.profile == Profile(disk.value.xp, RankFor(disk.value.xp), disk.value.badges, disk.value.awards,
                                 disk.value.completed, disk.value.best))
      && (disk.None? ==> t.profile == Profile(0, RankFor(0), [], [], [], map[]))
  {}

  /// Independence of the order of awards
  /// -----------------------------------

  lemma BestFromMultiset(a: seq<Award>, b: seq<Award>, s: string)
    requires InRange(a) && InRange(b) && multiset(a) == multiset(b)
    ensures Best(a, s) == Best(b, s)
  {
    MembersFromMultiset(a, b);
    BestMeaning(a, s);
    BestMeaning(b, s);
  }

  // Two consistent profiles with the same awards in any order are the same summary.
  lemma SummaryFromMultiset(p: Profile, q: Profile)
    requires Consistent(p) && Consistent(q) && multiset(p.awards) == multiset(q.awards)
    ensures p.xp == q.xp && p.standing == q.standing && p.completed == q.completed && p.best == q.best
  {
    MembersFromMultiset(p.awards, q.awards);
    assert ScenariosOf(p.awards) == ScenariosOf(q.awards);
    forall s ensures Best(p.awards, s) == Best(q.awards, s) {
      BestFromMultiset(p.awards, q.awards, s);
    }
    TotalAgree(ScenariosOf(p.awards), p.awards, q.awards);
    StringOrder();
    StrictlySortedUnique(p.completed, q.completed, StringLeq);
    forall s ensures (s in p.best <==> s in q.best) && (s in p.best ==> p.best[s] == q.best[s]) {
      assert Previous(p, s) == Best(p.awards, s) && Previous(q, s) == Best(q.awards, s);
    }
  }

  // The calls that could persist, in order.
  function Saved(steps: seq<Step>): seq<Award> {
    if steps == [] then []
    else
      var n := |steps| - 1;
      Saved(steps[..n]) +
      if steps[n].Do? && steps[n].call.io
      then [Earned(steps[n].call.runID, steps[n].call.scenario, Bounded(steps[n].call.score))]
      else []
  }

  lemma {:induction false} SavedIsFirstSaved(steps: seq<Step>)
    requires DistinctRuns(Saved(steps))
    ensures FirstSaved(steps) == Saved(steps)
  {
    if steps != [] {
      var n := |steps| - 1;
      assert Saved(steps[..n]) <= Saved(steps);
      forall i, j | 0 <= i < j < |Saved(steps[..n])|
        ensures Saved(steps[..n])[i].runID != Saved(steps[..n])[j].runID {
        assert Saved(steps)[i].runID != Saved(steps)[j].runID;
      }
      SavedIsFirstSaved(steps[..n]);
      if steps[n].Do? && steps[n].call.io {
        var id := steps[n].call.runID;
        FirstSavedRuns(steps[..n], id);
        var last := |Saved(steps)| - 1;
        assert Saved(steps)[last].runID == id && last == |Saved(steps[..n])|;
        forall i | 0 <= i < n ensures !SavedCall(steps, i, id) {
          assert SavedCall(steps[..n], i, id) == SavedCall(steps, i, id);
        }
      }
    }
  }

  // Any reordering of successful awards of distinct runs, mixed with any failures and
  // restarts, ends in the same XP, rank, best scores and completed list.
  lemma OrderIndependence(one: seq<Step>, two: seq<Step>)
    requires DistinctRuns(Saved(one)) && DistinctRuns(Saved(two))
    requires multiset(Saved(one)) == multiset(Saved(two))
    ensures var p, q := Exec(one).profile, Exec(two).profile;
      p.xp == q.xp && p.standing == q.standing && p.completed == q.completed && p.best == q.best
  {
    LedgerTheorem(one);
    LedgerTheorem(two);
    SavedIsFirstSaved(one);
    SavedIsFirstSaved(two);
    SummaryFromMultiset(Exec(one).profile, Exec(two).profile);
  }
}
