/** The traffic controller (traffic/controller.go): one slot for a k6 process, shared by
    starts, stops, the reaper of each run, the time limit and shutdown. Every step below
    is one atomic action: a mutex-guarded section, a channel operation, a signal, or a
    move of the process itself. */
module Traffic {
  import opened Wrappers
  import opened Counting

  datatype Process = Alive | Exited | Reaped

  // Where the reaper goroutine of a run stands.
  datatype Reaper = Waiting | Waited | TimerStopped | Released | Finished

  // `closes` counts how often the done channel has been closed.
  datatype Run = Run(process: Process, reaper: Reaper, armed: bool, closes: nat)

  datatype Kind = Stop | TimeLimit | Shutdown

  // Where a call to stopRun stands.
  datatype Point = Polling | Terminating | Awaiting | Killing | Draining | Returned(ok: bool)

  // `target` is the run the call read from the slot.
  datatype Call = Call(kind: Kind, target: Option<nat>, point: Point)

  datatype State = State(active: Option<nat>, closed: bool, runs: seq<Run>, calls: seq<Call>)

  const INITIAL := State(None, false, [], [])

  datatype Signal = Delivered | NoSuchProcess | Failed

  datatype Event =
    | Start(spawns: bool)
    | Exit(i: nat)                      // the process ends, on its own or by a signal
    | Wait(i: nat) | StopTimer(i: nat) | Release(i: nat) | CloseDone(i: nat)  // the reaper
    | TimerFires(i: nat)
    | HandleStop
    | ShutDown
    | Poll(c: nat) | Terminate(c: nat, signal: Signal) | SeeDone(c: nat)
    | Expire(c: nat) | Kill(c: nat, signal: Signal) | Drain(c: nat)          // a call to stopRun

  predicate Done(s: State, i: nat) {
    i < |s.runs| && s.runs[i].closes > 0
  }

  predicate ReaperAt(s: State, i: nat, r: Reaper) {
    i < |s.runs| && s.runs[i].reaper == r
  }

  predicate CallAt(s: State, c: nat, p: Point) {
    c < |s.calls| && s.calls[c].point == p && s.calls[c].target.Some?
  }

  predicate Enabled(s: State, e: Event) {
    match e
    case Start(_) => true
    case Exit(i) => i < |s.runs| && s.runs[i].process.Alive?
    case Wait(i) => ReaperAt(s, i, Waiting) && s.runs[i].process.Exited?
    case StopTimer(i) => ReaperAt(s, i, Waited)
    case Release(i) => ReaperAt(s, i, TimerStopped)
    case CloseDone(i) => ReaperAt(s, i, Released)
    case TimerFires(i) => i < |s.runs| && s.runs[i].armed
    case HandleStop => true
    case ShutDown => true
    case Poll(c) => CallAt(s, c, Polling)
    case Terminate(c, _) => CallAt(s, c, Terminating)
    case SeeDone(c) => CallAt(s, c, Awaiting) && Done(s, s.calls[c].target.value)
    case Expire(c) => CallAt(s, c, Awaiting)
    case Kill(c, _) => CallAt(s, c, Killing)
    case Drain(c) => CallAt(s, c, Draining) && Done(s, s.calls[c].target.value)
  }

  function Move(s: State, c: nat, p: Point): State
    requires c < |s.calls|
  {
    s.(calls := s.calls[c := s.calls[c].(point := p)])
  }

  // A stop or shutdown reads the slot; with nothing there it returns at once.
  function NewCall(kind: Kind, target: Option<nat>): Call {
    Call(kind, target, if target.Some? then Polling else Returned(true))
  }

  const STARTED := Run(Alive, Waiting, true, 0)

  function Step(s: State, e: Event): State
    requires Enabled(s, e)
  {
    match e
    case Start(spawns) =>
      if s.closed || s.active.Some? || !spawns then s
      else s.(active := Some(|s.runs|), runs := s.runs + [STARTED])
    case Exit(i) => s.(runs := s.runs[i := s.runs[i].(process := Exited)])
    case Wait(i) => s.(runs := s.runs[i := s.runs[i].(process := Reaped, reaper := Waited)])
    case StopTimer(i) => s.(runs := s.runs[i := s.runs[i].(armed := false, reaper := TimerStopped)])
    case Release(i) =>
      s.(active := if s.active == Some(i) then None else s.active,
         runs := s.runs[i := s.runs[i].(reaper := Released)])
    case CloseDone(i) => s.(runs := s.runs[i := s.runs[i].(closes := s.runs[i].closes + 1, reaper := Finished)])
    case TimerFires(i) =>
      s.(runs := s.runs[i := s.runs[i].(armed := false)], calls := s.calls + [NewCall(TimeLimit, Some(i))])
    case HandleStop => s.(calls := s.calls + [NewCall(Stop, s.active)])
    case ShutDown => s.(closed := true, calls := s.calls + [NewCall(Shutdown, s.active)])
    case Poll(c) => Move(s, c, if Done(s, s.calls[c].target.value) then Returned(true) else Terminating)
    case Terminate(c, signal) => Move(s, c, if signal.Failed? then Returned(false) else Awaiting)
    case SeeDone(c) => Move(s, c, Returned(true))
    case Expire(c) => Move(s, c, Killing)
    case Kill(c, signal) => Move(s, c, if signal.Failed? then Returned(false) else Draining)
    case Drain(c) => Move(s, c, Returned(true))
  }

  /// The mutex-guarded sections
  /// --------------------------

  datatype StartResult = Started | RunActive | Closed | SpawnFailed

  class Controller {
    var active: Option<nat>
    var closed: bool
    var runs: seq<Run>
    var calls: seq<Call>

    function View(): State
      reads this
    {
      State(active, closed, runs, calls)
    }

    constructor ()
      ensures View() == INITIAL
    {
      active, closed, runs, calls := None, false, [], [];
    }

    method Start(spawns: bool) returns (result: StartResult)
      modifies this
      ensures View() == Step(old(View()), Event.Start(spawns))
      ensures result.Closed? <==> old(closed)
      ensures result.RunActive? <==> !old(closed) && old(active).Some?
      ensures result.SpawnFailed? <==> !old(closed) && old(active).None? && !spawns
      ensures result.Started? <==> !old(closed) && old(active).None? && spawns
      ensures closed == old(closed) && calls == old(calls)
      ensures if result.Started? then active == Some(|old(runs)|) && runs == old(runs) + [Run(Alive, Waiting, true, 0)]
              else active == old(active) && runs == old(runs)
    {
      if closed {
        return Closed;
      }
      if active.Some? {
        return RunActive;
      }
      if !spawns {
        return SpawnFailed;
      }
      active := Some(|runs|);
      runs := runs + [STARTED];
      return Started;
    }

    // The section of the reaper that gives the slot back.
    method Release(i: nat)
      requires Enabled(View(), Event.Release(i))
      modifies this
      ensures View() == Step(old(View()), Event.Release(i))
    {
      if active == Some(i) {
        active := None;
      }
      runs := runs[i := runs[i].(reaper := Released)];
    }

    // The section of a stop request; None means it answers "idle".
    method HandleStop() returns (target: Option<nat>)
      modifies this
      ensures View() == Step(old(View()), Event.HandleStop)
      ensures target == active == old(active)
    {
      target := active;
      calls := calls + [NewCall(Stop, target)];
    }

    method ShutDown() returns (target: Option<nat>)
      modifies this
      ensures View() == Step(old(View()), Event.ShutDown)
      ensures closed && target == active == old(active)
    {
      closed := true;
      target := active;
      calls := calls + [NewCall(Shutdown, target)];
    }
  }

  /// The invariant
  /// -------------

  ghost predicate Holding(r: Reaper) {
    r.Waiting? || r.Waited? || r.TimerStopped?
  }

  ghost predicate RunInv(s: State, i: nat)
    requires i < |s.runs|
  {
    var r := s.runs[i];
    && (Holding(r.reaper) <==> s.active == Some(i))
    && r.closes == (if r.reaper.Finished? then 1 else 0)
    && (r.process.Reaped? <==> !r.reaper.Waiting?)
  }

  ghost predicate CallInv(s: State, c: nat)
    requires c < |s.calls|
  {
    var call := s.calls[c];
    && (call.target.None? ==> call.point == Returned(true))
    && (call.target.Some? ==> call.target.value < |s.runs|)
    && (call.target.Some? && call.point == Returned(true) ==> s.runs[call.target.value].reaper.Finished?)
    && (call.kind.Shutdown? ==> s.closed && (s.active.None? || s.active == call.target))
  }

  ghost predicate Inv(s: State) {
    && (s.active.Some? ==> s.active.value < |s.runs|)
    && (forall i :: 0 <= i < |s.runs| ==> RunInv(s, i))
    && (forall c :: 0 <= c < |s.calls| ==> CallInv(s, c))
  }

  lemma ReaperKeeps(s: State, e: Event)
    requires Inv(s) && Enabled(s, e)
    requires e.Exit? || e.Wait? || e.StopTimer? || e.Release? || e.CloseDone?
    ensures Inv(Step(s, e))
  {
    var t := Step(s, e);
    forall i | 0 <= i < |t.runs| ensures RunInv(t, i) {
      assert RunInv(s, i);
      assert RunInv(s, e.i);
    }
    forall c | 0 <= c < |t.calls| ensures CallInv(t, c) {
      assert CallInv(s, c);
      assert RunInv(s, e.i);
    }
  }

  lemma CallKeeps(s: State, c: nat, p: Point)
    requires Inv(s) && c < |s.calls| && s.calls[c].target.Some?
    requires p == Returned(true) ==> Done(s, s.calls[c].target.value)
    ensures Inv(Move(s, c, p))
  {
    var t := Move(s, c, p);
    forall i | 0 <= i < |t.runs| ensures RunInv(t, i) {
      assert RunInv(s, i);
    }
    assert CallInv(s, c) && RunInv(s, s.calls[c].target.value);
    forall d | 0 <= d < |t.calls| ensures CallInv(t, d) {
      assert CallInv(s, d);
    }
  }

  lemma NewCallKeeps(s: State, e: Event)
    requires Inv(s) && Enabled(s, e) && (e.Start? || e.TimerFires? || e.HandleStop? || e.ShutDown?)
    ensures Inv(Step(s, e))
  {
    var t := Step(s, e);
    forall i | 0 <= i < |t.runs| ensures RunInv(t, i) {
      if i < |s.runs| { assert RunInv(s, i); }
    }
    forall c | 0 <= c < |t.calls| ensures CallInv(t, c) {
      if c < |s.calls| { assert CallInv(s, c); }
    }
  }

  lemma StepKeeps(s: State, e: Event)
    requires Inv(s) && Enabled(s, e)
    ensures Inv(Step(s, e))
  {
    match e {
      case Exit(_) => ReaperKeeps(s, e);
      case Wait(_) => ReaperKeeps(s, e);
      case StopTimer(_) => ReaperKeeps(s, e);
      case Release(_) => ReaperKeeps(s, e);
      case CloseDone(_) => ReaperKeeps(s, e);
      case Start(_) => NewCallKeeps(s, e);
      case TimerFires(_) => NewCallKeeps(s, e);
      case HandleStop => NewCallKeeps(s, e);
      case ShutDown => NewCallKeeps(s, e);
      case Poll(c) => CallKeeps(s, c, Step(s, e).calls[c].point);
      case Terminate(c, _) => CallKeeps(s, c, Step(s, e).calls[c].point);
      case SeeDone(c) => CallKeeps(s, c, Returned(true));
      case Expire(c) => CallKeeps(s, c, Killing);
      case Kill(c, _) => CallKeeps(s, c, Step(s, e).calls[c].point);
      case Drain(c) => CallKeeps(s, c, Returned(true));
    }
  }

  /// Every interleaving
  /// ------------------

  ghost predicate Trace(s: State, events: seq<Event>, t: State)
    decreases |events|
  {
    if events == [] then s == t
    else Enabled(s, events[0]) && Trace(Step(s, events[0]), events[1..], t)
  }

  ghost predicate Reachable(s: State) {
    exists events :: Trace(INITIAL, events, s)
  }

  lemma {:induction false} TraceKeeps(s: State, events: seq<Event>, t: State)
    requires Inv(s) && Trace(s, events, t)
    ensures Inv(t)
    decreases |events|
  {
    if events != [] {
      StepKeeps(s, events[0]);
      TraceKeeps(Step(s, events[0]), events[1..], t);
    }
  }

  lemma ReachableInv(s: State)
    requires Reachable(s)
    ensures Inv(s)
  {
    var events :| Trace(INITIAL, events, s);
    TraceKeeps(INITIAL, events, s);
  }

  // At most one process is unreaped, and it belongs to the run in the slot.
  lemma OneProcess(s: State, i: nat, j: nat)
    requires Reachable(s) && i < |s.runs| && j < |s.runs|
    requires !s.runs[i].process.Reaped? && !s.runs[j].process.Reaped?
    ensures i == j && s.active == Some(i)
  {
    ReachableInv(s);
    assert RunInv(s, i) && RunInv(s, j);
  }

  // When a reaper takes the lock its own run is in the slot, so the comparison it makes
  // there never fails.
  lemma ReleaseTestHolds(s: State, i: nat)
    requires Reachable(s) && Enabled(s, Release(i))
    ensures s.active == Some(i)
    ensures Step(s, Release(i)).active == None
  {
    ReachableInv(s);
    assert RunInv(s, i);
  }

  // A done channel is closed at most once, and only when its run has left the slot and
  // its process is reaped.
  lemma DoneClosedOnce(s: State, i: nat)
    requires Reachable(s) && i < |s.runs|
    ensures s.runs[i].closes <= 1
    ensures Enabled(s, CloseDone(i)) ==> s.runs[i].closes == 0
    ensures Done(s, i) ==> s.active != Some(i) && s.runs[i].process.Reaped?
  {
    ReachableInv(s);
    assert RunInv(s, i);
  }

  // Facts that later steps cannot undo.
  lemma {:induction false} Stable(s: State, events: seq<Event>, t: State)
    requires Trace(s, events, t)
    ensures |s.runs| <= |t.runs| && |s.calls| <= |t.calls|
    ensures s.closed ==> t.closed && |t.runs| == |s.runs|
    ensures forall c :: 0 <= c < |s.calls| ==>
      && t.calls[c].kind == s.calls[c].kind && t.calls[c].target == s.calls[c].target
      && (s.calls[c].point.Returned? ==> t.calls[c].point == s.calls[c].point)
    decreases |events|
  {
    if events != [] {
      Stable(Step(s, events[0]), events[1..], t);
    }
  }

  // A stop, time limit or shutdown that completed without error on a run: the run is
  // not in the slot and its process is reaped, then and at every later time, whatever
  // else has been started since.
  lemma StopIsFinal(s: State, c: nat, events: seq<Event>, t: State)
    requires Reachable(s) && Trace(s, events, t)
    requires c < |s.calls| && s.calls[c].point == Returned(true) && s.calls[c].target.Some?
    ensures var i := s.calls[c].target.value;
      i < |t.runs| && t.active != Some(i) && t.runs[i].process.Reaped? && t.runs[i].closes == 1
  {
    ReachableInv(s);
    TraceKeeps(s, events, t);
    Stable(s, events, t);
    assert CallInv(t, c);
    assert RunInv(t, s.calls[c].target.value);
  }

  // A shutdown that returned nil: the slot is empty, every process is reaped, and this
  // stays so, because no continuation starts another run.
  lemma ShutdownIsFinal(s: State, c: nat, events: seq<Event>, t: State)
    requires Reachable(s) && Trace(s, events, t)
    requires c < |s.calls| && s.calls[c].kind.Shutdown? && s.calls[c].point == Returned(true)
    ensures t.closed && t.active.None? && |t.runs| == |s.runs|
    ensures forall i :: 0 <= i < |t.runs| ==> t.runs[i].process.Reaped?
  {
    ReachableInv(s);
    TraceKeeps(s, events, t);
    Stable(s, events, t);
    assert CallInv(t, c) && CallInv(s, c);
    if t.calls[c].target.Some? {
      assert RunInv(t, t.calls[c].target.value);
    }
    forall i | 0 <= i < |t.runs| ensures t.runs[i].process.Reaped? {
      assert RunInv(t, i);
    }
  }

  /// No run and no stop goes on for ever
  /// ----------------------

  // How far a run is from having its done channel closed.
  function Distance(r: Run): nat {
    match r.reaper
    case Finished => 0
    case Released => 1
    case TimerStopped => 2
    case Waited => 3
    case Waiting => if r.process.Alive? then 5 else 4
  }

  function DistanceOf(s: State, c: nat): nat {
    if c < |s.calls| && s.calls[c].target.Some? && s.calls[c].target.value < |s.runs|
    then Distance(s.runs[s.calls[c].target.value]) else 0
  }

  function NextOf(s: State, i: nat): Event
    requires i < |s.runs|
  {
    match s.runs[i].reaper
    case Finished => HandleStop
    case Released => CloseDone(i)
    case TimerStopped => Release(i)
    case Waited => StopTimer(i)
    case Waiting => if s.runs[i].process.Alive? then Exit(i) else Wait(i)
  }

  // The five moves of a run: its process ends, and its reaper passes its four sections.
  predicate OfRun(e: Event, i: nat) {
    (e.Exit? || e.Wait? || e.StopTimer? || e.Release? || e.CloseDone?) && e.i == i
  }

  function RunMoves(events: seq<Event>, i: nat): nat {
    if events == [] then 0 else Bit(OfRun(events[0], i)) + RunMoves(events[1..], i)
  }

  lemma RunStep(s: State, e: Event, i: nat)
    requires Inv(s) && Enabled(s, e) && i < |s.runs|
    ensures i < |Step(s, e).runs|
    ensures Distance(Step(s, e).runs[i]) + Bit(OfRun(e, i)) == Distance(s.runs[i])
  {
    assert RunInv(s, i);
  }

  // In every schedule, a run's distance from its closed channel falls by one with each of
  // its own moves and is changed by nothing else; so it makes at most five of them.
  lemma {:induction false} RunSchedule(s: State, events: seq<Event>, t: State, i: nat)
    requires Inv(s) && Trace(s, events, t) && i < |s.runs|
    ensures i < |t.runs| && RunMoves(events, i) + Distance(t.runs[i]) == Distance(s.runs[i]) <= 5
    decreases |events|
  {
    if events != [] {
      RunStep(s, events[0], i);
      StepKeeps(s, events[0]);
      RunSchedule(Step(s, events[0]), events[1..], t, i);
    }
  }

  // Steps left to a call on its longest way.
  function Left(p: Point): nat {
    match p
    case Polling => 5
    case Terminating => 4
    case Awaiting => 3
    case Killing => 2
    case Draining => 1
    case Returned(_) => 0
  }

  predicate OfCall(e: Event, c: nat) {
    (e.Poll? || e.Terminate? || e.SeeDone? || e.Expire? || e.Kill? || e.Drain?) && e.c == c
  }

  function CallMoves(events: seq<Event>, c: nat): nat {
    if events == [] then 0 else Bit(OfCall(events[0], c)) + CallMoves(events[1..], c)
  }

  // Nor does a call go on for ever: in every schedule it makes at most five steps.
  lemma {:induction false} CallSchedule(s: State, events: seq<Event>, t: State, c: nat)
    requires Trace(s, events, t) && c < |s.calls|
    ensures c < |t.calls| && CallMoves(events, c) + Left(t.calls[c].point) <= Left(s.calls[c].point) <= 5
    decreases |events|
  {
    if events != [] {
      CallSchedule(Step(s, events[0]), events[1..], t, c);
    }
  }

  ghost predicate OwnSteps(events: seq<Event>, c: nat, i: nat) {
    forall k :: 0 <= k < |events| ==> OfCall(events[k], c) || OfRun(events[k], i)
  }

  // No lock or other run stands in the way: a run that has not closed its channel is at
  // most five steps, each of them enabled, from closing it, so a stop that has killed its
  // process and waits for the channel can always finish.
  lemma {:induction false} DrainCanFinish(s: State, c: nat) returns (events: seq<Event>, t: State)
    requires Inv(s) && CallAt(s, c, Draining)
    ensures Trace(s, events, t) && CallAt(t, c, Returned(true)) && |events| == DistanceOf(s, c) + 1 <= 6
    ensures OwnSteps(events, c, s.calls[c].target.value)
    decreases DistanceOf(s, c)
  {
    var i := s.calls[c].target.value;
    assert CallInv(s, c) && RunInv(s, i);
    if Distance(s.runs[i]) == 0 {
      t := Step(s, Drain(c));
      events := [Drain(c)];
      assert events[1..] == [];
    } else {
      var e := NextOf(s, i);
      StepKeeps(s, e);
      var rest;
      rest, t := DrainCanFinish(Step(s, e), c);
      events := [e] + rest;
      assert events[1..] == rest;
    }
  }

  function Onward(s: State, c: nat): Event
    requires c < |s.calls|
  {
    match s.calls[c].point
    case Polling => Poll(c)
    case Terminating => Terminate(c, Delivered)
    case Awaiting => Expire(c)
    case Killing => Kill(c, Delivered)
    case Draining => Drain(c)
    case Returned(_) => HandleStop
  }

  // From wherever it stands, a call whose signals are delivered can return without an
  // error, by steps of its own and of its run alone: at most five of each.
  lemma {:induction false} CallCanReturn(s: State, c: nat) returns (events: seq<Event>, t: State)
    requires Inv(s) && c < |s.calls| && s.calls[c].target.Some? && !s.calls[c].point.Returned?
    ensures Trace(s, events, t) && CallAt(t, c, Returned(true)) && OwnSteps(events, c, s.calls[c].target.value)
    ensures CallMoves(events, c) <= 5 && RunMoves(events, s.calls[c].target.value) <= 5
    decreases Left(s.calls[c].point)
  {
    if s.calls[c].point.Draining? {
      events, t := DrainCanFinish(s, c);
    } else {
      var e := Onward(s, c);
      StepKeeps(s, e);
      var next := Step(s, e);
      if next.calls[c].point.Returned? {
        events, t := [e], next;
        assert events[1..] == [];
      } else {
        var rest;
        rest, t := CallCanReturn(next, c);
        events := [e] + rest;
        assert events[1..] == rest;
      }
    }
    assert CallInv(s, c);
    CallSchedule(s, events, t, c);
    RunSchedule(s, events, t, s.calls[c].target.value);
  }

  /// What a start and a stop achieve
  /// -------------------------------

  // A start adds a run exactly on an open controller with an empty slot whose process spawns:
  // alive, not reaped, its time limit armed, its reaper waiting and its channel open; that run
  // is in the slot, and can end or be stopped by its limit. Any other start changes nothing.
  lemma StartIff(s: State, spawns: bool)
    ensures var t := Step(s, Start(spawns));
      && t.closed == s.closed && t.calls == s.calls
      && (if !s.closed && s.active.None? && spawns
          then t.active == Some(|s.runs|) && t.runs == s.runs + [Run(Alive, Waiting, true, 0)]
               && Enabled(t, Exit(|s.runs|)) && Enabled(t, TimerFires(|s.runs|))
          else t == s)
  {}

  predicate Frees(e: Event) { e.Exit? || e.Wait? || e.StopTimer? || e.Release? }

  // Steps until the run in the slot has left it.
  function Held(s: State): nat {
    if s.active.Some? && s.active.value < |s.runs| && Distance(s.runs[s.active.value]) > 0
    then Distance(s.runs[s.active.value]) - 1 else 0
  }

  // From every open state the slot can be freed, by the end of its process and the sections of
  // its reaper alone, at most four steps; then the next start that spawns succeeds.
  lemma {:induction false} SlotComesFree(s: State) returns (events: seq<Event>, t: State)
    requires Inv(s) && !s.closed
    ensures Trace(s, events, t) && (forall k :: 0 <= k < |events| ==> Frees(events[k])) && |events| == Held(s) <= 4
    ensures !t.closed && t.active.None? && Step(t, Start(true)).active == Some(|t.runs|)
    decreases Held(s)
  {
    if s.active.None? {
      events, t := [], s;
    } else {
      var i := s.active.value;
      assert RunInv(s, i);
      var e := NextOf(s, i);
      StepKeeps(s, e);
      var rest;
      rest, t := SlotComesFree(Step(s, e));
      events := [e] + rest;
      assert events[1..] == rest;
    }
  }

  // A stop request concerns the run that is in the slot when it takes the lock, a time limit
  // its own run: when the call has returned without an error, at whatever later time, that run
  // is out of the slot, its process reaped and its channel closed.
  lemma StopStops(s: State, e: Event, events: seq<Event>, t: State)
    requires Reachable(s) && Enabled(s, e) && (e.HandleStop? || e.ShutDown? || e.TimerFires?)
    requires Trace(Step(s, e), events, t)
    ensures var c, target := |s.calls|, if e.TimerFires? then Some(e.i) else s.active;
      && c < |t.calls| && t.calls[c].target == target && (e.ShutDown? ==> t.closed)
      && (t.calls[c].point == Returned(true) && target.Some? ==>
            var i := target.value;
            i < |t.runs| && t.active != Some(i) && t.runs[i].process.Reaped? && t.runs[i].closes == 1)
  {
    ReachableInv(s);
    StepKeeps(s, e);
    TraceKeeps(Step(s, e), events, t);
    Stable(Step(s, e), events, t);
    var c := |s.calls|;
    assert CallInv(t, c);
    if t.calls[c].target.Some? {
      assert RunInv(t, t.calls[c].target.value);
    }
  }

  /// How a call ends, and which signals it sends
  /// -------------------------------------------

  predicate SignalFails(e: Event, c: nat) {
    e == Terminate(c, Failed) || e == Kill(c, Failed)
  }

  // A call returns an error if and only if one of its signals failed.
  lemma {:induction false} CallFailsIff(s: State, events: seq<Event>, t: State, c: nat)
    requires Trace(s, events, t) && c < |s.calls| && s.calls[c].point != Returned(false)
    ensures c < |t.calls|
    ensures t.calls[c].point == Returned(false) <==> exists k :: 0 <= k < |events| && SignalFails(events[k], c)
    decreases |events|
  {
    if events != [] {
      var next := Step(s, events[0]);
      if next.calls[c].point == Returned(false) {
        assert SignalFails(events[0], c);
        Stable(next, events[1..], t);
      } else {
        CallFailsIff(next, events[1..], t, c);
        if k :| 0 <= k < |events| && SignalFails(events[k], c) {
          assert k > 0 && SignalFails(events[1..][k - 1], c);
        }
        if k :| 0 <= k < |events[1..]| && SignalFails(events[1..][k], c) {
          assert SignalFails(events[k + 1], c);
        }
      }
    }
  }

  predicate Asked(e: Event, c: nat) { e.Terminate? && e.c == c && !e.signal.Failed? }

  // The wait for a process starts only once it has been asked to terminate.
  lemma {:induction false} WaitAfterAsking(s: State, events: seq<Event>, t: State, c: nat)
    requires Trace(s, events, t) && c < |s.calls| && (s.calls[c].point.Polling? || s.calls[c].point.Terminating?)
    ensures CallAt(t, c, Awaiting) || CallAt(t, c, Killing) || CallAt(t, c, Draining) ==>
      exists k :: 0 <= k < |events| && Asked(events[k], c)
    decreases |events|
  {
    if events != [] {
      var next := Step(s, events[0]);
      if next.calls[c].point.Polling? || next.calls[c].point.Terminating? {
        WaitAfterAsking(next, events[1..], t, c);
        if k :| 0 <= k < |events[1..]| && Asked(events[1..][k], c) {
          assert Asked(events[k + 1], c);
        }
      } else if next.calls[c].point.Returned? {
        Stable(next, events[1..], t);
      } else {
        assert Asked(events[0], c);
      }
    }
  }

  // And a process is killed only when that wait has expired.
  lemma {:induction false} KillAfterExpiry(s: State, events: seq<Event>, t: State, c: nat)
    requires Trace(s, events, t) && c < |s.calls|
    requires s.calls[c].point.Polling? || s.calls[c].point.Terminating? || s.calls[c].point.Awaiting?
    ensures CallAt(t, c, Killing) || CallAt(t, c, Draining) ==> exists k :: 0 <= k < |events| && events[k] == Expire(c)
    decreases |events|
  {
    if events != [] {
      var next := Step(s, events[0]);
      if next.calls[c].point.Returned? {
        Stable(next, events[1..], t);
      } else if next.calls[c].point.Killing? {
        assert events[0] == Expire(c);
      } else {
        KillAfterExpiry(next, events[1..], t, c);
        if k :| 0 <= k < |events[1..]| && events[1..][k] == Expire(c) {
          assert events[k + 1] == Expire(c);
        }
      }
    }
  }

  // A stop of a run whose channel is closed sends no signal at all.
  lemma {:induction false} FinishedNeedsNoSignal(s: State, events: seq<Event>, t: State, c: nat)
    requires Inv(s) && Trace(s, events, t) && CallAt(s, c, Polling) && Done(s, s.calls[c].target.value)
    ensures CallAt(t, c, Polling) || CallAt(t, c, Returned(true))
    ensures Step(s, Poll(c)).calls[c].point == Returned(true)
    decreases |events|
  {
    if events != [] {
      var next := Step(s, events[0]);
      StepKeeps(s, events[0]);
      if next.calls[c].point.Returned? {
        Stable(next, events[1..], t);
      } else {
        assert CallInv(s, c);
        FinishedNeedsNoSignal(next, events[1..], t, c);
      }
    }
  }

  /// The time limit
  /// --------------

  // The calls the time limit of a run has begun.
  function LimitCalls(calls: seq<Call>, i: nat): nat {
    if calls == [] then 0
    else
      var last := calls[|calls| - 1];
      LimitCalls(calls[..|calls| - 1], i) + Bit(last.kind.TimeLimit? && last.target == Some(i))
  }

  lemma {:induction false} SameLimitCalls(a: seq<Call>, b: seq<Call>, i: nat)
    requires |a| == |b| && forall c :: 0 <= c < |a| ==> a[c].kind == b[c].kind && a[c].target == b[c].target
    ensures LimitCalls(a, i) == LimitCalls(b, i)
  {
    if a != [] {
      SameLimitCalls(a[..|a| - 1], b[..|b| - 1], i);
    }
  }

  // A timer is armed only until its reaper stops it, and has fired otherwise at most once.
  ghost predicate TimerInv(s: State, i: nat) {
    if i < |s.runs|
    then LimitCalls(s.calls, i) + Bit(s.runs[i].armed) <= 1
         && (s.runs[i].armed ==> s.runs[i].reaper.Waiting? || s.runs[i].reaper.Waited?)
    else LimitCalls(s.calls, i) == 0
  }

  // Only the timer of a run begins a call for its limit.
  lemma LimitCallsStep(s: State, e: Event, i: nat)
    requires Enabled(s, e)
    ensures LimitCalls(Step(s, e).calls, i) == LimitCalls(s.calls, i) + Bit(e == TimerFires(i))
  {
    var t := Step(s, e);
    if |t.calls| == |s.calls| {
      SameLimitCalls(s.calls, t.calls, i);
    } else {
      assert t.calls[..|s.calls|] == s.calls;
    }
  }

  lemma TimerStep(s: State, e: Event, i: nat)
    requires Enabled(s, e) && i < |s.runs|
    requires s.runs[i].armed ==> s.runs[i].reaper.Waiting? || s.runs[i].reaper.Waited?
    ensures var r, q := s.runs[i], Step(s, e).runs[i];
      && (q.armed ==> r.armed && e != TimerFires(i) && (q.reaper.Waiting? || q.reaper.Waited?))
      && (e == TimerFires(i) ==> r.armed)
  {}

  lemma TimerKept(s: State, e: Event, i: nat)
    requires TimerInv(s, i) && Enabled(s, e)
    ensures TimerInv(Step(s, e), i)
  {
    LimitCallsStep(s, e, i);
    if i < |s.runs| {
      TimerStep(s, e, i);
    }
    hide LimitCalls;
  }

  lemma {:induction false} TraceTimers(s: State, events: seq<Event>, t: State, i: nat)
    requires TimerInv(s, i) && Trace(s, events, t)
    ensures TimerInv(t, i)
    decreases |events|
  {
    if events != [] {
      TimerKept(s, events[0], i);
      TraceTimers(Step(s, events[0]), events[1..], t, i);
    }
  }

  // The time limit of a run begins at most one stop of it, and none once the reaper of the run
  // has stopped its timer.
  lemma TimeLimitOnce(s: State, i: nat)
    requires Reachable(s) && i < |s.runs|
    ensures LimitCalls(s.calls, i) <= 1 && (Enabled(s, TimerFires(i)) ==> LimitCalls(s.calls, i) == 0)
    ensures Enabled(s, TimerFires(i)) ==> s.runs[i].reaper.Waiting? || s.runs[i].reaper.Waited?
  {
    var events :| Trace(INITIAL, events, s);
    TraceTimers(INITIAL, events, s, i);
  }
}
