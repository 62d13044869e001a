/** The fault-injecting service, part two: the concurrency gate. A request increments the in-flight counter, samples
    the limit, reads the counter, and decrements on every way out. */
module DemoGate {
  import opened Counting

  // `limit` is the value the request sampled; 0 disables the gate.
  datatype Request = Entered | Sampled(limit: int) | Past(limit: int) | Refused | Left

  // `past` lists the requests beyond the gate in the order in which they passed it.
  datatype State = State(counter: int, limit: int, requests: seq<Request>, past: seq<nat>)

  datatype Event =
    | Arrive           // activeCount.Add(1)
    | WrongRoute(i: nat)   // a path or method the handler refuses before the gate
    | Sample(i: nat)   // settings()
    | Check(i: nat)    // activeCount.Load() and the comparison
    | Leave(i: nat)    // the deferred activeCount.Add(-1)
    | SetLimit(limit: int)

  predicate InFlight(r: Request) { !r.Left? }

  predicate Beyond(r: Request) { r.Past? }

  function Without(ids: seq<nat>, i: nat): seq<nat> {
    if ids == [] then [] else if ids[0] == i then ids[1..] else [ids[0]] + Without(ids[1..], i)
  }

  predicate Enabled(s: State, e: Event) {
    match e
    case Arrive => true
    case SetLimit(m) => m >= 0
    case WrongRoute(i) => i < |s.requests| && s.requests[i].Entered?
    case Sample(i) => i < |s.requests| && s.requests[i].Entered?
    case Check(i) => i < |s.requests| && s.requests[i].Sampled?
    case Leave(i) => i < |s.requests| && (s.requests[i].Past? || s.requests[i].Refused?)
  }

  function Step(s: State, e: Event): State
    requires Enabled(s, e)
  {
    match e
    case Arrive => s.(counter := s.counter + 1, requests := s.requests + [Entered])
    case SetLimit(m) => s.(limit := m)
    case WrongRoute(i) => s.(requests := s.requests[i := Refused])
    case Sample(i) => s.(requests := s.requests[i := Sampled(s.limit)])
    case Check(i) =>
      var m := s.requests[i].limit;
      if m > 0 && s.counter > m then s.(requests := s.requests[i := Refused])
      else s.(requests := s.requests[i := Past(m)], past := s.past + [i])
    case Leave(i) =>
      s.(counter := s.counter - 1, requests := s.requests[i := Left], past := Without(s.past, i))
  }

  ghost predicate Run(s: State, events: seq<Event>, t: State)
    decreases |events|
  {
    if events == [] then s == t
    else Enabled(s, events[0]) && Run(Step(s, events[0]), events[1..], t)
  }

  ghost predicate Listed(s: State) {
    && (forall k :: 0 <= k < |s.past| ==> s.past[k] < |s.requests| && s.requests[s.past[k]].Past?)
    && (forall j, k :: 0 <= j < k < |s.past| ==> s.past[j] != s.past[k])
    && |s.past| == Count(s.requests, Beyond)
  }

  // The k-th request now beyond the gate had at least k others in flight when it passed.
  ghost predicate Ranked(s: State) {
    forall k :: 0 <= k < |s.past| && s.past[k] < |s.requests| && s.requests[s.past[k]].Past? ==>
      s.requests[s.past[k]].limit <= 0 || s.requests[s.past[k]].limit >= k + 1
  }

  ghost predicate Inv(s: State) {
    s.counter == Count(s.requests, InFlight) && Listed(s) && Ranked(s)
  }

  lemma {:induction false} WithoutShifts(ids: seq<nat>, i: nat)
    requires forall j, k :: 0 <= j < k < |ids| ==> ids[j] != ids[k]
    ensures var w := Without(ids, i);
      && (i in ids ==> |w| == |ids| - 1)
      && (i !in ids ==> w == ids)
      && (forall k :: 0 <= k < |w| ==> w[k] != i && (w[k] == ids[k] || (k + 1 < |ids| && w[k] == ids[k + 1])))
      && (forall j, k :: 0 <= j < k < |w| ==> w[j] != w[k])
  {
    if ids != [] {
      assert ids == [ids[0]] + ids[1..];
      WithoutShifts(ids[1..], i);
      var w, rest := Without(ids, i), Without(ids[1..], i);
      if ids[0] != i {
        assert w == [ids[0]] + rest;
        forall k | 0 <= k < |rest| ensures rest[k] != ids[0] {
          assert rest[k] == ids[k + 1] || rest[k] == ids[k + 2];
        }
      } else {
        assert i !in ids[1..];
      }
    }
  }

  // The counters change by the request that moved.
  lemma Moved(s: State, i: nat, r: Request)
    requires i < |s.requests|
    ensures Count(s.requests[i := r], InFlight) + Bit(InFlight(s.requests[i])) == Count(s.requests, InFlight) + Bit(InFlight(r))
    ensures Count(s.requests[i := r], Beyond) + Bit(Beyond(s.requests[i])) == Count(s.requests, Beyond) + Bit(Beyond(r))
  {
    CountToUpdate(s.requests, i, r, InFlight, |s.requests|);
    CountToUpdate(s.requests, i, r, Beyond, |s.requests|);
  }

  lemma CheckKeeps(s: State, i: nat)
    requires Inv(s) && Enabled(s, Check(i))
    ensures Inv(Step(s, Check(i)))
  {
    var t := Step(s, Check(i));
    Moved(s, i, t.requests[i]);
    if t.requests[i].Past? {
      CountToWeaker(t.requests, Beyond, InFlight, |t.requests|);
      assert |t.past| == Count(t.requests, Beyond);
      assert |t.past| <= s.counter;
    }
  }

  lemma {:induction false} NotListed(s: State, i: nat)
    requires Listed(s) && i < |s.requests| && s.requests[i].Past?
    ensures i in s.past
  {
    if i !in s.past {
      Unlisted(s.requests, s.past, i);
    }
  }

  lemma {:induction false} Unlisted(requests: seq<Request>, past: seq<nat>, i: nat)
    requires forall k :: 0 <= k < |past| ==> past[k] < |requests| && requests[past[k]].Past?
    requires forall j, k :: 0 <= j < k < |past| ==> past[j] != past[k]
    requires i < |requests| && requests[i].Past? && i !in past
    ensures Count(requests, Beyond) > |past|
    decreases |past|
  {
    if past == [] {
      CountToAtLeastOne(requests, i, Beyond, |requests|);
    } else {
      var last := past[|past| - 1];
      var fewer := requests[last := Left];
      CountToUpdate(requests, last, Left, Beyond, |requests|);
      Unlisted(fewer, past[..|past| - 1], i);
    }
  }

  lemma LeaveRanks(s: State, i: nat)
    requires Listed(s) && Ranked(s) && Enabled(s, Leave(i))
    ensures Ranked(Step(s, Leave(i)))
  {
    WithoutShifts(s.past, i);
    var t := Step(s, Leave(i));
    forall k | 0 <= k < |t.past| && t.past[k] < |t.requests| && t.requests[t.past[k]].Past?
      ensures t.requests[t.past[k]].limit <= 0 || t.requests[t.past[k]].limit >= k + 1
    {
      var j := if t.past[k] == s.past[k] then k else k + 1;
      assert t.requests[t.past[k]] == s.requests[s.past[j]];
    }
  }

  lemma LeaveLists(s: State, i: nat)
    requires Listed(s) && Enabled(s, Leave(i))
    ensures Listed(Step(s, Leave(i)))
  {
    var t := Step(s, Leave(i));
    Moved(s, i, Left);
    WithoutShifts(s.past, i);
    if s.requests[i].Past? {
      NotListed(s, i);
    }
    forall k | 0 <= k < |t.past| ensures t.past[k] < |t.requests| && t.requests[t.past[k]].Past? {
      var j := if t.past[k] == s.past[k] then k else k + 1;
      assert s.past[j] == t.past[k] && s.requests[s.past[j]].Past?;
    }
  }

  lemma StepKeeps(s: State, e: Event)
    requires Inv(s) && Enabled(s, e)
    ensures Inv(Step(s, e))
  {
    match e {
      case Arrive =>
        CountAppend(s.requests, Entered, InFlight);
        CountAppend(s.requests, Entered, Beyond);
      case SetLimit(m) =>
      case WrongRoute(i) => Moved(s, i, Refused);
      case Sample(i) => Moved(s, i, Sampled(s.limit));
      case Check(i) => CheckKeeps(s, i);
      case Leave(i) =>
        Moved(s, i, Left);
        LeaveLists(s, i);
        LeaveRanks(s, i);
    }
  }

  // A moment with nothing in flight.
  ghost predicate Quiet(s: State) {
    s.counter == 0 && s.past == [] && forall i :: 0 <= i < |s.requests| ==> s.requests[i].Left?
  }

  lemma QuietInv(s: State)
    requires Quiet(s)
    ensures Inv(s)
  {
    CountToNone(s.requests, InFlight, |s.requests|);
    CountToNone(s.requests, Beyond, |s.requests|);
  }

  // The in-flight counter is the true number of requests between increment and
  // decrement; and whatever limits were set while they ran, the number of requests
  // beyond the gate is at most the limit that the latest of them to pass had sampled.
  lemma {:induction false} GateTheorem(s: State, events: seq<Event>, t: State)
    requires Inv(s) && Run(s, events, t)
    ensures Inv(t)
    ensures 0 <= t.counter == Count(t.requests, InFlight)
    ensures Count(t.requests, Beyond) == |t.past|
    ensures t.past != [] ==>
      var last := t.past[|t.past| - 1];
      last < |t.requests| && t.requests[last].Past?
      && (t.requests[last].limit > 0 ==> |t.past| <= t.requests[last].limit)
    decreases |events|
  {
    if events != [] {
      StepKeeps(s, events[0]);
      GateTheorem(Step(s, events[0]), events[1..], t);
    }
  }

  ghost predicate AllSampled(s: State, limit: int) {
    && s.limit == limit
    && forall i :: 0 <= i < |s.requests| && (s.requests[i].Sampled? || s.requests[i].Past?) ==>
         s.requests[i].limit == limit
  }

  lemma {:induction false} LimitUnchanged(s: State, events: seq<Event>, t: State, limit: int)
    requires Run(s, events, t) && AllSampled(s, limit)
    requires forall k :: 0 <= k < |events| ==> !events[k].SetLimit?
    ensures AllSampled(t, limit)
    decreases |events|
  {
    if events != [] {
      LimitUnchanged(Step(s, events[0]), events[1..], t, limit);
    }
  }

  // The declared bound: from a quiet moment on, while the limit stays M > 0, at most M
  // requests are beyond the gate at once under every interleaving.
  lemma GateBound(s: State, events: seq<Event>, t: State, limit: int)
    requires Quiet(s) && s.limit == limit > 0 && Run(s, events, t)
    requires forall k :: 0 <= k < |events| ==> !events[k].SetLimit?
    ensures Count(t.requests, Beyond) <= limit
  {
    QuietInv(s);
    GateTheorem(s, events, t);
    LimitUnchanged(s, events, t, limit);
  }

  /// The decision is exact, and the bound is reached
  /// -----------------------------------------------

  // A request that looks at the counter goes on if and only if the gate was off when it
  // sampled the limit, or no more requests are in flight, itself included, than that limit.
  lemma CheckDecides(s: State, i: nat)
    requires Inv(s) && Enabled(s, Check(i))
    ensures var limit, t := s.requests[i].limit, Step(s, Check(i));
      && t.requests == s.requests[i := if limit <= 0 || Count(s.requests, InFlight) <= limit then Past(limit) else Refused]
      && Count(t.requests, InFlight) == Count(s.requests, InFlight) && t.limit == s.limit
  {
    Moved(s, i, Step(s, Check(i)).requests[i]);
  }

  // At most so many requests are in flight, now and after each of the events.
  ghost predicate Roomy(s: State, events: seq<Event>, limit: int)
    decreases |events|
  {
    && Count(s.requests, InFlight) <= limit
    && (events == [] || !Enabled(s, events[0]) || Roomy(Step(s, events[0]), events[1..], limit))
  }

  ghost predicate NoneRefused(s: State) {
    forall i :: 0 <= i < |s.requests| ==> !s.requests[i].Refused?
  }

  // While no more requests are in flight than the limit allows, the gate refuses none; what
  // is refused then is a wrong route.
  lemma {:induction false} RoomyAdmits(s: State, events: seq<Event>, t: State, limit: int)
    requires Inv(s) && AllSampled(s, limit) && NoneRefused(s) && Run(s, events, t) && Roomy(s, events, limit)
    requires forall k :: 0 <= k < |events| ==> !events[k].SetLimit? && !events[k].WrongRoute?
    ensures NoneRefused(t)
    decreases |events|
  {
    if events != [] {
      var e, next := events[0], Step(s, events[0]);
      if e.Check? {
        CheckDecides(s, e.i);
      }
      StepKeeps(s, e);
      RoomyAdmits(next, events[1..], t, limit);
    }
  }

  // From a quiet moment with a limit M > 0: no request is refused by the gate while at most
  // M are in flight.
  lemma GateAdmits(s: State, events: seq<Event>, t: State, limit: int)
    requires Quiet(s) && s.limit == limit > 0 && Run(s, events, t) && Roomy(s, events, limit)
    requires forall k :: 0 <= k < |events| ==> !events[k].SetLimit? && !events[k].WrongRoute?
    ensures NoneRefused(t)
  {
    QuietInv(s);
    RoomyAdmits(s, events, t, limit);
  }

  // One more request arrives, samples the limit and gets through, if there is room for it.
  lemma Admits(s: State, limit: int) returns (t: State)
    requires Inv(s) && s.limit == limit && Count(s.requests, InFlight) < limit
    ensures var n := |s.requests|;
      && Run(s, [Arrive, Sample(n), Check(n)], t) && Inv(t) && t.limit == limit
      && Count(t.requests, InFlight) == Count(s.requests, InFlight) + 1
      && Count(t.requests, Beyond) == Count(s.requests, Beyond) + 1
  {
    var n := |s.requests|;
    var a := Step(s, Arrive);
    StepKeeps(s, Arrive);
    CountAppend(s.requests, Entered, InFlight);
    CountAppend(s.requests, Entered, Beyond);
    var b := Step(a, Sample(n));
    StepKeeps(a, Sample(n));
    Moved(a, n, Sampled(limit));
    t := Step(b, Check(n));
    StepKeeps(b, Check(n));
    CheckDecides(b, n);
    Moved(b, n, Past(limit));
    assert [Arrive, Sample(n), Check(n)][1..] == [Sample(n), Check(n)];
    assert [Sample(n), Check(n)][1..] == [Check(n)] && [Check(n)][1..] == [];
    assert Run(t, [], t) && Run(b, [Check(n)], t) && Run(a, [Sample(n), Check(n)], t);
  }

  lemma {:induction false} RunJoin(s: State, one: seq<Event>, m: State, two: seq<Event>, t: State)
    requires Run(s, one, m) && Run(m, two, t)
    ensures Run(s, one + two, t)
    decreases |one|
  {
    if one == [] {
      assert [] + two == two;
    } else {
      RunJoin(Step(s, one[0]), one[1..], m, two, t);
      assert (one + two)[1..] == one[1..] + two;
    }
  }

  lemma {:induction false} Fills(s: State, limit: int, k: nat) returns (events: seq<Event>, t: State)
    requires Quiet(s) && s.limit == limit && k <= limit
    ensures Run(s, events, t) && Inv(t) && t.limit == limit
    ensures forall j :: 0 <= j < |events| ==> !events[j].SetLimit?
    ensures Count(t.requests, Beyond) == k == Count(t.requests, InFlight)
    decreases k
  {
    if k == 0 {
      QuietInv(s);
      events, t := [], s;
      CountToNone(s.requests, InFlight, |s.requests|);
      CountToNone(s.requests, Beyond, |s.requests|);
    } else {
      var before, m := Fills(s, limit, k - 1);
      t := Admits(m, limit);
      events := before + [Arrive, Sample(|m.requests|), Check(|m.requests|)];
      RunJoin(s, before, m, [Arrive, Sample(|m.requests|), Check(|m.requests|)], t);
    }
  }

  // And the bound is reached: from every quiet moment with a limit M > 0, on some schedule
  // that leaves the limit alone, exactly M requests are beyond the gate at once.
  lemma GateReached(s: State, limit: int) returns (events: seq<Event>, t: State)
    requires Quiet(s) && s.limit == limit > 0
    ensures Run(s, events, t) && forall k :: 0 <= k < |events| ==> !events[k].SetLimit?
    ensures Count(t.requests, Beyond) == limit
  {
    events, t := Fills(s, limit, limit);
  }

  // The requests that had not sampled a limit in s, and have in t, sampled this one.
  ghost predicate SampledSince(s: State, t: State, limit: int) {
    && t.limit == limit && |s.requests| <= |t.requests|
    && (forall i :: 0 <= i < |t.requests| && (i < |s.requests| ==> s.requests[i].Entered?) ==>
          (t.requests[i].Sampled? || t.requests[i].Past? ==> t.requests[i].limit == limit))
  }

  lemma {:induction false} LatestLimit(s: State, m: State, events: seq<Event>, t: State, limit: int)
    requires SampledSince(s, m, limit) && Run(m, events, t)
    requires forall k :: 0 <= k < |events| ==> !events[k].SetLimit?
    ensures SampledSince(s, t, limit)
    decreases |events|
  {
    if events != [] {
      LatestLimit(s, Step(m, events[0]), events[1..], t, limit);
    }
  }

  // A request samples the limit last set: after SetLimit(m), and until the next one, every
  // request that had not sampled before samples m.
  lemma LimitTakes(s: State, events: seq<Event>, t: State, limit: int)
    requires limit >= 0 && Run(Step(s, SetLimit(limit)), events, t)
    requires forall k :: 0 <= k < |events| ==> !events[k].SetLimit?
    ensures SampledSince(s, t, limit)
  {
    LatestLimit(s, Step(s, SetLimit(limit)), events, t, limit);
  }
}
