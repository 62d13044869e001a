/** The XP ledger (internal/progression/progression.go). Scenario and run names are
    strings; timestamps are not modelled. */
module Progression {
  import opened Wrappers
  import opened Sorting

  datatype Rank = Observer | Investigator | Responder | IncidentCommander

  datatype Standing = Standing(rank: Rank, nextRank: Option<Rank>, nextRankXP: int)

  datatype Badge = Badge(id: string, title: string)

  datatype Award = Earned(runID: string, scenario: string, score: int)

  datatype Profile = Profile(xp: int, standing: Standing, badges: seq<Badge>,
                             awards: seq<Award>, completed: seq<string>, best: map<string, int>)

  datatype State = State(profile: Profile, disk: Option<Profile>)

  function RankFor(xp: int): Standing {
    if xp < 250 then Standing(Observer, Some(Investigator), 250)
    else if xp < 750 then Standing(Investigator, Some(Responder), 750)
    else if xp < 1500 then Standing(Responder, Some(IncidentCommander), 1500)
    else Standing(IncidentCommander, None, 0)
  }

  const EMPTY := Profile(0, RankFor(0), [], [], [], map[])

  function Opened(disk: Option<Profile>): State {
    State(if disk.Some? then disk.value.(standing := RankFor(disk.value.xp)) else EMPTY, disk)
  }

  predicate HasRun(awards: seq<Award>, runID: string) {
    exists i :: 0 <= i < |awards| && awards[i].runID == runID
  }

  predicate HasBadge(badges: seq<Badge>, id: string) {
    exists i :: 0 <= i < |badges| && badges[i].id == id
  }

  function AddBadges(have: seq<Badge>, earned: seq<Badge>): seq<Badge> {
    if earned == [] then have
    else
      var before := AddBadges(have, earned[..|earned| - 1]);
      var badge := earned[|earned| - 1];
      if HasBadge(before, badge.id) then before else before + [badge]
  }

  function Clamp(score: int): int {
    if score < 0 then 0 else if score > 100 then 100 else score
  }

  function Previous(p: Profile, scenario: string): int {
    if scenario in p.best then p.best[scenario] else 0
  }

  function Improvement(p: Profile, scenario: string, score: int): int {
    if Clamp(score) > Previous(p, scenario) then Clamp(score) - Previous(p, scenario) else 0
  }

  // The profile a first award of `runID` leads to.
  function Credited(p: Profile, runID: string, scenario: string, score: int, earned: seq<Badge>): Profile {
    var xp := p.xp + Improvement(p, scenario, score);
    Profile(xp, RankFor(xp), AddBadges(p.badges, earned),
            p.awards + [Earned(runID, scenario, Clamp(score))],
            if scenario in p.completed then p.completed else Sort(p.completed + [scenario], StringLeq),
            if Clamp(score) > Previous(p, scenario) then p.best[scenario := Clamp(score)] else p.best)
  }

  datatype Call = Call(runID: string, scenario: string, score: int, earned: seq<Badge>, io: bool)

  function Awarded(s: State, c: Call): State {
    if HasRun(s.profile.awards, c.runID) || !c.io then s
    else
      var next := Credited(s.profile, c.runID, c.scenario, c.score, c.earned);
      State(next, Some(next))
  }

  // The XP amount the caller is told it earned.
  function Returned(s: State, c: Call): int {
    if HasRun(s.profile.awards, c.runID) || !c.io then 0
    else Improvement(s.profile, c.scenario, c.score)
  }

  // Whether the call reports success: a repeated run succeeds without writing anything.
  predicate Succeeds(s: State, c: Call) {
    HasRun(s.profile.awards, c.runID) || c.io
  }

  class Store {
    var profile: Profile
    var disk: Option<Profile>

    function View(): State
      reads this
    {
      State(profile, disk)
    }

    constructor Open(disk: Option<Profile>)
      ensures View() == Opened(disk)
    {
      this.disk := disk;
      if disk.Some? {
        profile := disk.value.(standing := RankFor(disk.value.xp));
      } else {
        profile := EMPTY;
      }
    }

    method Award(c: Call) returns (reply: Profile, xp: int, ok: bool)
      modifies this
      ensures View() == Awarded(old(View()), c)
      ensures reply == profile
      ensures xp == Returned(old(View()), c)
      ensures ok <==> Succeeds(old(View()), c)
    {
      var next := profile;
      var repeated := RunAwarded(next.awards, c.runID);
      if repeated {
        return profile, 0, true;
      }
      var score := c.score;
      if score < 0 {
        score := 0;
      }
      if score > 100 {
        score := 100;
      }
      var previous := if c.scenario in next.best then next.best[c.scenario] else 0;
      xp := score - previous;
      if xp < 0 {
        xp := 0;
      }
      var awards := next.awards + [Earned(c.runID, c.scenario, score)];
      next := next.(xp := next.xp + xp, awards := awards);
      if score > previous {
        next := next.(best := next.best[c.scenario := score]);
      }
      var listed := Contains(next.completed, c.scenario);
      if !listed {
        next := next.(completed := Sort(next.completed + [c.scenario], StringLeq));
      }
      var badges := EarnBadges(next.badges, c.earned);
      next := next.(badges := badges, standing := RankFor(next.xp));
      if !c.io {
        return profile, 0, false;
      }
      profile := next;
      disk := Some(next);
      return profile, xp, true;
    }
  }

  method RunAwarded(awards: seq<Award>, runID: string) returns (found: bool)
    ensures found <==> HasRun(awards, runID)
  {
    for i := 0 to |awards|
      invariant !HasRun(awards[..i], runID)
    {
      if awards[i].runID == runID {
        return true;
      }
    }
    assert awards[..|awards|] == awards;
    return false;
  }

  // Add each earned badge whose id is not held yet.
  method EarnBadges(have: seq<Badge>, earned: seq<Badge>) returns (badges: seq<Badge>)
    ensures badges == AddBadges(have, earned)
  {
    badges := have;
    for i := 0 to |earned|
      invariant badges == AddBadges(have, earned[..i])
    {
      var has := BadgeHeld(badges, earned[i].id);
      if !has {
        badges := badges + [earned[i]];
      }
      assert earned[..i + 1][..i] == earned[..i];
    }
    assert earned[..|earned|] == earned;
  }

  method Contains(items: seq<string>, value: string) returns (found: bool)
    ensures found <==> value in items
  {
    for i := 0 to |items|
      invariant value !in items[..i]
    {
      if items[i] == value {
        return true;
      }
    }
    return false;
  }

  method BadgeHeld(items: seq<Badge>, id: string) returns (found: bool)
    ensures found <==> HasBadge(items, id)
  {
    for i := 0 to |items|
      invariant !HasBadge(items[..i], id)
    {
      if items[i].id == id {
        return true;
      }
    }
    assert items[..|items|] == items;
    return false;
  }
}
