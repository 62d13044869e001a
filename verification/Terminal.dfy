/** Terminal sessions (internal/terminal/terminal.go): two slots, a second look at the
    closed flag before a session is registered, and clean-up in deferred order. Any number
    of handlers and of Close calls interleave; each step below is one atomic action. */
module Terminal {
  import opened Counting

  const MAX_SESSIONS := 2

  // Where a handler stands. From Stopping on it runs its deferred functions.
  datatype Point =
    | TurnedAway      // refused at admission
    | Admitted        // slot taken, upgrading the connection
    | Upgraded        // connected, about to look at the closed flag again
    | Registered      // cancel function in the session table
    | Launched        // shell started
    | Serving         // workers running, waiting for the context
    | Joining         // shell killed, waiting for the workers
    | Stopping        // about to wait for the killed shell
    | ShellGone       // no shell, or its process reaped
    | Unregistered    // out of the session table
    | SlotFree        // slot given back
    | Gone            // wait group released

  datatype Shell = NoShell | Live | Killed | Reaped

  datatype Handler = Handler(point: Point, cancelled: bool, shell: Shell)

  datatype State = State(active: int, wg: int, closed: bool, sessions: set<nat>,
                         handlers: seq<Handler>, closers: seq<bool>)  // a closer is true when it has returned

  const INITIAL := State(0, 0, false, {}, [], [])

  datatype Event =
    | Arrive
    | UpgradeConnection(i: nat, ok: bool)
    | Register(i: nat)
    | Launch(i: nat, ok: bool)
    | SetUp(i: nat, ok: bool)   // descriptor and first write, after the shell has started
    | Cancel(i: nat)            // timeout, request end, or a worker
    | Notice(i: nat)
    | Join(i: nat)
    | Reap(i: nat)
    | Unregister(i: nat)
    | FreeSlot(i: nat)
    | Depart(i: nat)
    | Close
    | CloseReturns(j: nat)

  predicate At(s: State, i: nat, p: Point) {
    i < |s.handlers| && s.handlers[i].point == p
  }

  // The context exists from the upgrade on.
  predicate HasContext(p: Point) {
    !p.TurnedAway? && !p.Admitted?
  }

  predicate Enabled(s: State, e: Event) {
    match e
    case Arrive => true
    case UpgradeConnection(i, _) => At(s, i, Admitted)
    case Register(i) => At(s, i, Upgraded)
    case Launch(i, _) => At(s, i, Registered)
    case SetUp(i, _) => At(s, i, Launched)
    case Cancel(i) => i < |s.handlers| && HasContext(s.handlers[i].point)
    case Notice(i) => At(s, i, Serving) && s.handlers[i].cancelled
    case Join(i) => At(s, i, Joining)
    case Reap(i) => At(s, i, Stopping)
    case Unregister(i) => At(s, i, ShellGone)
    case FreeSlot(i) => At(s, i, Unregistered)
    case Depart(i) => At(s, i, SlotFree)
    case Close => true
    case CloseReturns(j) => j < |s.closers| && !s.closers[j] && s.wg == 0
  }

  function Put(s: State, i: nat, p: Point): State
    requires i < |s.handlers|
  {
    s.(handlers := s.handlers[i := s.handlers[i].(point := p)])
  }

  function PutShell(s: State, i: nat, p: Point, shell: Shell): State
    requires i < |s.handlers|
  {
    s.(handlers := s.handlers[i := s.handlers[i].(point := p, shell := shell)])
  }

  function CancelAll(handlers: seq<Handler>, sessions: set<nat>): seq<Handler> {
    seq(|handlers|, i requires 0 <= i < |handlers| =>
      if i in sessions then handlers[i].(cancelled := true) else handlers[i])
  }

  function Step(s: State, e: Event): State
    requires Enabled(s, e)
  {
    match e
    case Arrive =>
      if s.closed || s.active >= MAX_SESSIONS
      then s.(handlers := s.handlers + [Handler(TurnedAway, false, NoShell)])
      else s.(active := s.active + 1, wg := s.wg + 1, handlers := s.handlers + [Handler(Admitted, false, NoShell)])
    case UpgradeConnection(i, ok) => Put(s, i, if ok then Upgraded else Unregistered)
    case Register(i) =>
      if s.closed then Put(s, i, Unregistered)
      else Put(s, i, Registered).(sessions := s.sessions + {i})
    case Launch(i, ok) => if ok then PutShell(s, i, Launched, Live) else Put(s, i, ShellGone)
    case SetUp(i, ok) => if ok then Put(s, i, Serving) else PutShell(s, i, Stopping, Killed)
    case Cancel(i) => s.(handlers := s.handlers[i := s.handlers[i].(cancelled := true)])
    case Notice(i) => PutShell(s, i, Joining, Killed)
    case Join(i) => Put(s, i, Stopping)
    case Reap(i) => PutShell(s, i, ShellGone, Reaped)
    case Unregister(i) => Put(s, i, Unregistered).(sessions := s.sessions - {i})
    case FreeSlot(i) => Put(s, i, SlotFree).(active := s.active - 1)
    case Depart(i) => Put(s, i, Gone).(wg := s.wg - 1)
    case Close => s.(closed := true, handlers := CancelAll(s.handlers, s.sessions), closers := s.closers + [false])
    case CloseReturns(j) => s.(closers := s.closers[j := true])
  }

  /// The mutex-guarded sections
  /// --------------------------

  class Agent {
    var active: int
    var wg: int
    var closed: bool
    var sessions: set<nat>
    var handlers: seq<Handler>
    var closers: seq<bool>

    function View(): State
      reads this
    {
      State(active, wg, closed, sessions, handlers, closers)
    }

    constructor ()
      ensures View() == INITIAL
    {
      active, wg, closed, sessions, handlers, closers := 0, 0, false, {}, [], [];
    }

    method Arrive() returns (admitted: bool)
      modifies this
      ensures View() == Step(old(View()), Event.Arrive)
      ensures admitted <==> !old(closed) && old(active) < MAX_SESSIONS
    {
      if closed || active >= MAX_SESSIONS {
        handlers := handlers + [Handler(TurnedAway, false, NoShell)];
        return false;
      }
      active := active + 1;
      wg := wg + 1;
      handlers := handlers + [Handler(Admitted, false, NoShell)];
      return true;
    }

    method Register(i: nat) returns (registered: bool)
      requires Enabled(View(), Event.Register(i))
      modifies this
      ensures View() == Step(old(View()), Event.Register(i))
      ensures registered <==> !old(closed)
    {
      if closed {
        handlers := handlers[i := handlers[i].(point := Unregistered)];
        return false;
      }
      sessions := sessions + {i};
      handlers := handlers[i := handlers[i].(point := Registered)];
      return true;
    }

    method Unregister(i: nat)
      requires Enabled(View(), Event.Unregister(i))
      modifies this
      ensures View() == Step(old(View()), Event.Unregister(i))
    {
      sessions := sessions - {i};
      handlers := handlers[i := handlers[i].(point := Unregistered)];
    }

    method FreeSlot(i: nat)
      requires Enabled(View(), Event.FreeSlot(i))
      modifies this
      ensures View() == Step(old(View()), Event.FreeSlot(i))
    {
      active := active - 1;
      handlers := handlers[i := handlers[i].(point := SlotFree)];
    }

    // The locked part of Close: raise the flag and cancel every registered session.
    method Close()
      requires forall i :: i in sessions ==> i < |handlers|
      modifies this
      ensures View() == Step(old(View()), Event.Close)
    {
      closed := true;
      var rest := sessions;
      while rest != {}
        invariant rest <= sessions && unchanged(`sessions)
        invariant handlers == CancelAll(old(handlers), sessions - rest)
        invariant active == old(active) && wg == old(wg) && closers == old(closers) && closed
        decreases rest
      {
        assert (forall x: nat :: x !in rest) ==> rest == {};
        var i: nat :| i in rest;
        rest := rest - {i};
        handlers := handlers[i := handlers[i].(cancelled := true)];
      }
      assert sessions - rest == sessions;
      closers := closers + [false];
    }
  }

  /// The invariant
  /// -------------

  predicate HoldsSlot(h: Handler) {
    !h.point.TurnedAway? && !h.point.SlotFree? && !h.point.Gone?
  }

  predicate InGroup(h: Handler) {
    HoldsSlot(h) || h.point.SlotFree?
  }

  predicate InTable(h: Handler) {
    h.point.Registered? || h.point.Launched? || h.point.Serving? || h.point.Joining?
    || h.point.Stopping? || h.point.ShellGone?
  }

  // A shell process exists and has not been reaped.
  predicate HasShell(h: Handler) {
    h.shell.Live? || h.shell.Killed?
  }

  ghost predicate HandlerInv(s: State, i: nat)
    requires i < |s.handlers|
  {
    var h := s.handlers[i];
    && (i in s.sessions <==> InTable(h))
    && (s.closed && InTable(h) ==> h.cancelled)
    && (h.shell.Live? <==> h.point.Launched? || h.point.Serving?)
    && (h.shell.Killed? <==> h.point.Joining? || h.point.Stopping?)
  }

  ghost predicate Inv(s: State) {
    && s.active == Count(s.handlers, HoldsSlot) <= MAX_SESSIONS
    && s.wg == Count(s.handlers, InGroup)
    && (forall i :: i in s.sessions ==> i < |s.handlers|)
    && (forall i :: 0 <= i < |s.handlers| ==> HandlerInv(s, i))
    && (s.closers != [] ==> s.closed)
    && (forall j :: 0 <= j < |s.closers| && s.closers[j] ==> s.wg == 0)
  }

  lemma CountsMove(s: State, i: nat, h: Handler)
    requires i < |s.handlers|
    ensures Count(s.handlers[i := h], HoldsSlot) + Bit(HoldsSlot(s.handlers[i])) == Count(s.handlers, HoldsSlot) + Bit(HoldsSlot(h))
    ensures Count(s.handlers[i := h], InGroup) + Bit(InGroup(s.handlers[i])) == Count(s.handlers, InGroup) + Bit(InGroup(h))
  {
    CountToUpdate(s.handlers, i, h, HoldsSlot, |s.handlers|);
    CountToUpdate(s.handlers, i, h, InGroup, |s.handlers|);
  }

  ghost predicate OfHandler(e: Event) {
    !e.Arrive? && !e.Close? && !e.CloseReturns?
  }

  // A handler's own step changes that handler alone, and keeps its invariant.
  lemma HandlerKeeps(s: State, e: Event)
    requires Inv(s) && Enabled(s, e) && OfHandler(e)
    ensures var t := Step(s, e);
      && t.handlers == s.handlers[e.i := t.handlers[e.i]]
      && t.closed == s.closed && t.closers == s.closers
      && (forall i :: 0 <= i < |t.handlers| ==> HandlerInv(t, i))
      && (forall i :: i in t.sessions ==> i < |t.handlers|)
  {
    var t := Step(s, e);
    assert HandlerInv(s, e.i);
    forall i | 0 <= i < |t.handlers| ensures HandlerInv(t, i) {
      assert HandlerInv(s, i);
    }
  }

  lemma HandlerCounts(s: State, e: Event)
    requires Inv(s) && Enabled(s, e) && OfHandler(e)
    ensures var t := Step(s, e);
      && t.active == Count(t.handlers, HoldsSlot) <= s.active
      && t.wg == Count(t.handlers, InGroup) <= s.wg
  {
    HandlerKeeps(s, e);
    CountsMove(s, e.i, Step(s, e).handlers[e.i]);
  }

  // What an arrival adds: one handler, turned away or with a slot.
  lemma Arrival(s: State) returns (h: Handler)
    ensures var t := Step(s, Arrive);
      && t.handlers == s.handlers + [h] && h.shell.NoShell? && (h.point.TurnedAway? || h.point.Admitted?)
      && t.sessions == s.sessions && t.closed == s.closed && t.closers == s.closers
      && (h.point.Admitted? ==> !s.closed && s.active < MAX_SESSIONS)
      && t.active == s.active + Bit(HoldsSlot(h)) && t.wg == s.wg + Bit(InGroup(h))
  {
    h := Step(s, Arrive).handlers[|s.handlers|];
  }

  lemma ArriveKeeps(s: State)
    requires Inv(s)
    ensures Inv(Step(s, Arrive))
  {
    var t := Step(s, Arrive);
    var h := Arrival(s);
    hide Step, Count, HandlerInv;
    CountAppend(s.handlers, h, HoldsSlot);
    CountAppend(s.handlers, h, InGroup);
    ArrivalInv(s, t, h);
    assert t.active <= MAX_SESSIONS && (t.closers != [] ==> t.closed);
    assert forall i :: i in t.sessions ==> i < |t.handlers|;
    assert t.closers != [] ==> t.wg == s.wg;
  }

  lemma ArrivalInv(s: State, t: State, h: Handler)
    requires Inv(s) && t.handlers == s.handlers + [h] && (h.point.TurnedAway? || h.point.Admitted?) && h.shell.NoShell?
    requires t.sessions == s.sessions && t.closed == s.closed
    ensures forall i :: 0 <= i < |t.handlers| ==> HandlerInv(t, i)
  {
    forall i | 0 <= i < |t.handlers| ensures HandlerInv(t, i) {
      if i < |s.handlers| { assert HandlerInv(s, i); }
    }
  }

  lemma CloseKeeps(s: State)
    requires Inv(s)
    ensures Inv(Step(s, Close))
  {
    var t := Step(s, Close);
    CountToSame(s.handlers, t.handlers, HoldsSlot, |s.handlers|);
    CountToSame(s.handlers, t.handlers, InGroup, |s.handlers|);
    forall i | 0 <= i < |t.handlers| ensures HandlerInv(t, i) {
      assert HandlerInv(s, i);
    }
  }

  lemma StepKeeps(s: State, e: Event)
    requires Inv(s) && Enabled(s, e)
    ensures Inv(Step(s, e))
    ensures s.closed ==> Step(s, e).closed && Step(s, e).wg <= s.wg && Step(s, e).active <= s.active
  {
    if e.Arrive? {
      ArriveKeeps(s);
    } else if e.Close? {
      CloseKeeps(s);
    } else if e.CloseReturns? {
      forall i | 0 <= i < |s.handlers| ensures HandlerInv(Step(s, e), i) {
        assert HandlerInv(s, i);
      }
    } else {
      HandlerKeeps(s, e);
      HandlerCounts(s, e);
    }
  }

  /// Every interleaving
  /// ------------------

  ghost predicate Trace(s: State, events: seq<Event>, t: State)
    decreases |events|
  {
    if events == [] then s == t
    else Enabled(s, events[0]) && Trace(Step(s, events[0]), events[1..], t)
  }

  ghost predicate Reachable(s: State) {
    exists events :: Trace(INITIAL, events, s)
  }

  lemma {:induction false} TraceKeeps(s: State, events: seq<Event>, t: State)
    requires Inv(s) && Trace(s, events, t)
    ensures Inv(t)
    ensures s.closed ==> t.closed && t.wg <= s.wg && t.active <= s.active
    decreases |events|
  {
    if events != [] {
      StepKeeps(s, events[0]);
      TraceKeeps(Step(s, events[0]), events[1..], t);
    }
  }

  lemma ReachableInv(s: State)
    requires Reachable(s)
    ensures Inv(s)
  {
    var events :| Trace(INITIAL, events, s);
    TraceKeeps(INITIAL, events, s);
  }

  // Unreaped shells, handlers holding a slot and the counter: at most two of each.
  lemma SessionCap(s: State)
    requires Reachable(s)
    ensures Count(s.handlers, HasShell) <= Count(s.handlers, HoldsSlot) == s.active <= 2
    ensures s.active <= s.wg == Count(s.handlers, InGroup)
  {
    ReachableInv(s);
    forall i | 0 <= i < |s.handlers| && HasShell(s.handlers[i]) ensures HoldsSlot(s.handlers[i]) {
      assert HandlerInv(s, i);
    }
    CountToWeaker(s.handlers, HasShell, HoldsSlot, |s.handlers|);
    CountToWeaker(s.handlers, HoldsSlot, InGroup, |s.handlers|);
  }

  // After Close has raised the flag, the wait group and the slots only empty, and every
  // handler that has a shell, or is registered and could start one, has been cancelled.
  lemma ClosedCancels(s: State, events: seq<Event>, t: State)
    requires Reachable(s) && s.closed && Trace(s, events, t)
    ensures t.closed && t.wg <= s.wg && t.active <= s.active
    ensures forall i :: 0 <= i < |t.handlers| && (HasShell(t.handlers[i]) || InTable(t.handlers[i]))
              ==> t.handlers[i].cancelled
  {
    ReachableInv(s);
    TraceKeeps(s, events, t);
    forall i | 0 <= i < |t.handlers| && (HasShell(t.handlers[i]) || InTable(t.handlers[i]))
      ensures t.handlers[i].cancelled {
      assert HandlerInv(t, i);
    }
  }

  // A handler that was not in the table when the flag went up never starts a shell: it
  // will see the flag and leave.
  lemma {:induction false} ClosedKeepsOut(s: State, i: nat, events: seq<Event>, t: State)
    requires Inv(s) && s.closed && Trace(s, events, t)
    requires i < |s.handlers| && !InTable(s.handlers[i])
    ensures i < |t.handlers| && !InTable(t.handlers[i]) && t.handlers[i].shell == s.handlers[i].shell
    decreases |events|
  {
    if events != [] {
      StepKeeps(s, events[0]);
      ClosedKeepsOut(Step(s, events[0]), i, events[1..], t);
    }
  }

  // No handler inside, no session, no shell.
  ghost predicate Empty(s: State) {
    && s.active == 0 && s.wg == 0 && s.sessions == {}
    && forall i :: 0 <= i < |s.handlers| ==> !InGroup(s.handlers[i]) && !HasShell(s.handlers[i])
  }

  lemma GroupEmpty(s: State)
    requires Inv(s) && s.wg == 0
    ensures Empty(s)
  {
    forall i | 0 <= i < |s.handlers| ensures !InGroup(s.handlers[i]) && !HasShell(s.handlers[i]) {
      assert HandlerInv(s, i);
      if InGroup(s.handlers[i]) {
        CountToAtLeastOne(s.handlers, i, InGroup, |s.handlers|);
      }
    }
    CountToWeaker(s.handlers, HoldsSlot, InGroup, |s.handlers|);
    forall i | 0 <= i < |s.handlers| ensures i !in s.sessions {
      assert HandlerInv(s, i);
    }
  }

  lemma {:induction false} ReturnedStays(s: State, j: nat, events: seq<Event>, t: State)
    requires Trace(s, events, t) && j < |s.closers| && s.closers[j]
    ensures j < |t.closers| && t.closers[j]
    decreases |events|
  {
    if events != [] {
      ReturnedStays(Step(s, events[0]), j, events[1..], t);
    }
  }

  // When a Close call has returned the agent is empty, and stays empty in every
  // continuation: later arrivals are turned away.
  lemma CloseIsFinal(s: State, j: nat, events: seq<Event>, t: State)
    requires Reachable(s) && j < |s.closers| && s.closers[j] && Trace(s, events, t)
    ensures Empty(s) && Empty(t) && t.closed
  {
    ReachableInv(s);
    TraceKeeps(s, events, t);
    ReturnedStays(s, j, events, t);
    GroupEmpty(s);
    GroupEmpty(t);
  }

  /// Close can always return
  /// -----------------------

  // Steps a handler still has to take when it takes the longest way out.
  function Remaining(p: Point): nat {
    match p
    case TurnedAway => 0
    case Gone => 0
    case SlotFree => 1
    case Unregistered => 2
    case ShellGone => 3
    case Stopping => 4
    case Joining => 5
    case Serving => 6
    case Launched => 7
    case Registered => 8
    case Upgraded => 9
    case Admitted => 10
  }

  function Work(handlers: seq<Handler>): nat {
    if handlers == [] then 0
    else Work(handlers[..|handlers| - 1]) + Remaining(handlers[|handlers| - 1].point)
  }

  lemma {:induction false} WorkUpdate(handlers: seq<Handler>, i: nat, h: Handler)
    requires i < |handlers|
    ensures Work(handlers[i := h]) + Remaining(handlers[i].point) == Work(handlers) + Remaining(h.point)
  {
    var n := |handlers| - 1;
    if i == n {
      assert handlers[i := h][..n] == handlers[..n];
    } else {
      assert handlers[i := h][..n] == handlers[..n][i := h];
      WorkUpdate(handlers[..n], i, h);
    }
  }

  // A step of a handler on its way out; a cancellation only marks one.
  predicate Moves(e: Event) {
    !e.Arrive? && !e.Close? && !e.CloseReturns? && !e.Cancel?
  }

  function MovesIn(events: seq<Event>): nat {
    if events == [] then 0 else Bit(Moves(events[0])) + MovesIn(events[1..])
  }

  // Every such step leaves the handler with less to do.
  lemma MoveLowers(s: State, e: Event)
    requires Enabled(s, e) && Moves(e)
    ensures Work(Step(s, e).handlers) < Work(s.handlers)
  {
    var t := Step(s, e);
    assert t.handlers == s.handlers[e.i := t.handlers[e.i]];
    assert Remaining(t.handlers[e.i].point) < Remaining(s.handlers[e.i].point);
    hide *;
    WorkUpdate(s.handlers, e.i, t.handlers[e.i]);
  }

  lemma {:induction false} SameWork(a: seq<Handler>, b: seq<Handler>)
    requires |a| == |b| && forall i :: 0 <= i < |a| ==> a[i].point == b[i].point
    ensures Work(a) == Work(b)
  {
    if a != [] {
      SameWork(a[..|a| - 1], b[..|b| - 1]);
    }
  }

  // Nothing adds work to a closed agent.
  lemma OthersKeep(s: State, e: Event)
    requires Enabled(s, e) && !Moves(e) && s.closed
    ensures Work(Step(s, e).handlers) == Work(s.handlers)
  {
    var t := Step(s, e);
    if e.Arrive? {
      assert t.handlers[..|s.handlers|] == s.handlers;
    } else {
      SameWork(t.handlers, s.handlers);
    }
  }

  // From a closed agent on, every schedule whatever contains at most Work(s) handler
  // steps: no handler can run for ever.
  lemma {:induction false} EveryScheduleEnds(s: State, events: seq<Event>, t: State)
    requires Inv(s) && s.closed && Trace(s, events, t)
    ensures MovesIn(events) + Work(t.handlers) <= Work(s.handlers)
    decreases |events|
  {
    if events != [] {
      var e := events[0];
      if Moves(e) {
        MoveLowers(s, e);
      } else {
        OthersKeep(s, e);
      }
      StepKeeps(s, e);
      EveryScheduleEnds(Step(s, e), events[1..], t);
    }
  }

  function NextOf(p: Point, i: nat): Event {
    match p
    case TurnedAway => Close
    case Gone => Close
    case SlotFree => Depart(i)
    case Unregistered => FreeSlot(i)
    case ShellGone => Unregister(i)
    case Stopping => Reap(i)
    case Joining => Join(i)
    case Serving => Notice(i)
    case Launched => SetUp(i, true)
    case Registered => Launch(i, true)
    case Upgraded => Register(i)
    case Admitted => UpgradeConnection(i, true)
  }

  lemma Inside(s: State) returns (i: nat)
    requires Inv(s) && s.wg != 0
    ensures i < |s.handlers| && InGroup(s.handlers[i])
  {
    if forall k :: 0 <= k < |s.handlers| ==> !InGroup(s.handlers[k]) {
      CountToNone(s.handlers, InGroup, |s.handlers|);
    }
    i :| 0 <= i < |s.handlers| && InGroup(s.handlers[i]);
  }

  // Nor can one get stuck: while the wait group is not empty some handler can move.
  lemma CanMove(s: State) returns (e: Event)
    requires Inv(s) && s.closed && s.wg != 0
    ensures Enabled(s, e) && Moves(e)
  {
    var i := Inside(s);
    e := NextOf(s.handlers[i].point, i);
    assert HandlerInv(s, i);
  }

  // So shutdown comes to an end: from any closed state the handlers' own steps, each of
  // them enabled, lead to an empty wait group, where Close returns. No outside event
  // (timeout, client or shell) is needed.
  lemma {:induction false} CloseCanReturn(s: State) returns (events: seq<Event>, t: State)
    requires Inv(s) && s.closed
    ensures Trace(s, events, t) && t.wg == 0 && t.closers == s.closers && |events| <= Work(s.handlers)
    ensures forall k :: 0 <= k < |events| ==> Moves(events[k])
    decreases Work(s.handlers)
  {
    if s.wg == 0 {
      events, t := [], s;
    } else {
      var e := CanMove(s);
      var rest;
      MoveLowers(s, e);
      HandlerKeeps(s, e);
      StepKeeps(s, e);
      rest, t := CloseCanReturn(Step(s, e));
      events := [e] + rest;
      assert events[1..] == rest;
    }
  }

  lemma {:induction false} TraceJoin(s: State, one: seq<Event>, m: State, two: seq<Event>, t: State)
    requires Trace(s, one, m) && Trace(m, two, t)
    ensures Trace(s, one + two, t)
    decreases |one|
  {
    if one == [] {
      assert [] + two == two;
    } else {
      TraceJoin(Step(s, one[0]), one[1..], m, two, t);
      assert (one + two)[1..] == one[1..] + two;
    }
  }

  // And then each pending Close returns.
  lemma PendingCloseReturns(s: State, j: nat) returns (events: seq<Event>, t: State)
    requires Inv(s) && j < |s.closers|
    ensures Trace(s, events, t) && j < |t.closers| && t.closers[j] && Empty(t)
    ensures forall k :: 0 <= k < |events| ==> Moves(events[k]) || events[k] == CloseReturns(j)
  {
    var m;
    events, m := CloseCanReturn(s);
    TraceKeeps(s, events, m);
    if m.closers[j] {
      t := m;
    } else {
      var e := CloseReturns(j);
      t := Step(m, e);
      StepKeeps(m, e);
      assert [e][1..] == [] && Trace(m, [e], t);
      TraceJoin(s, events, m, [e], t);
      events := events + [e];
    }
    GroupEmpty(t);
  }

  /// Sessions are served
  /// -------------------

  // An arrival gets a slot exactly on an open agent with fewer than two taken; one that is
  // turned away changes nothing else.
  lemma ArriveIff(s: State)
    ensures var t := Step(s, Arrive);
      if !s.closed && s.active < 2
      then t == s.(active := s.active + 1, wg := s.wg + 1, handlers := s.handlers + [Handler(Admitted, false, NoShell)])
      else t == s.(handlers := s.handlers + [Handler(TurnedAway, false, NoShell)])
  {}

  // Closing cancels the registered sessions and no others.
  lemma CloseIff(s: State, i: nat)
    requires i < |s.handlers|
    ensures var t := Step(s, Close);
      && t.closed && |t.handlers| == |s.handlers|
      && t.handlers[i] == s.handlers[i].(cancelled := s.handlers[i].cancelled || i in s.sessions)
  {}

  function Session(n: nat): seq<Event> {
    [Arrive, UpgradeConnection(n, true), Register(n), Launch(n, true), SetUp(n, true)]
  }

  // On an open agent with a free slot the next arrival can be served: by its own steps it
  // comes to have a live shell and workers, not cancelled, one more than there were.
  lemma ArrivalServed(s: State) returns (t: State)
    requires Inv(s) && !s.closed && s.active < 2
    ensures Trace(s, Session(|s.handlers|), t) && Inv(t) && !t.closed && t.active == s.active + 1
    ensures At(t, |s.handlers|, Serving) && t.handlers[|s.handlers|] == Handler(Serving, false, Live)
    ensures Count(t.handlers, HasShell) == Count(s.handlers, HasShell) + 1
  {
    var n := |s.handlers|;
    var a := Step(s, Arrive);
    var b := Step(a, UpgradeConnection(n, true));
    var c := Step(b, Register(n));
    var d := Step(c, Launch(n, true));
    t := Step(d, SetUp(n, true));
    StepKeeps(s, Arrive);
    StepKeeps(a, UpgradeConnection(n, true));
    StepKeeps(b, Register(n));
    StepKeeps(c, Launch(n, true));
    StepKeeps(d, SetUp(n, true));
    assert t.handlers == s.handlers + [Handler(Serving, false, Live)];
    CountAppend(s.handlers, Handler(Serving, false, Live), HasShell);
    FiveSteps(s, Session(n), a, b, c, d, t);
  }

  lemma FiveSteps(s: State, events: seq<Event>, a: State, b: State, c: State, d: State, t: State)
    requires |events| == 5
    requires Enabled(s, events[0]) && a == Step(s, events[0]) && Enabled(a, events[1]) && b == Step(a, events[1])
    requires Enabled(b, events[2]) && c == Step(b, events[2]) && Enabled(c, events[3]) && d == Step(c, events[3])
    requires Enabled(d, events[4]) && t == Step(d, events[4])
    ensures Trace(s, events, t)
  {
    hide Step, Enabled;
    var rest := events[1..];
    assert rest[1..] == events[2..] && rest[1..][1..] == events[3..] && rest[1..][1..][1..] == events[4..];
    assert events[4..][1..] == [];
    assert Trace(t, [], t) && Trace(d, events[4..], t) && Trace(c, events[3..], t) && Trace(b, events[2..], t);
    assert Trace(a, rest, t);
  }

  // The cap is reached: an open agent without handlers inside can serve two sessions at once.
  lemma TwoAtOnce(s: State) returns (events: seq<Event>, t: State)
    requires Inv(s) && !s.closed && s.wg == 0
    ensures Trace(s, events, t) && !t.closed && t.active == 2 == Count(t.handlers, HasShell)
  {
    GroupEmpty(s);
    CountToNone(s.handlers, HasShell, |s.handlers|);
    var m := ArrivalServed(s);
    t := ArrivalServed(m);
    events := Session(|s.handlers|) + Session(|m.handlers|);
    TraceJoin(s, Session(|s.handlers|), m, Session(|m.handlers|), t);
  }

  predicate Leaves(e: Event) { Moves(e) || e.Cancel? }

  // Some handler inside an open agent can move on, once it is cancelled if it is being served.
  lemma OneMovesOn(s: State) returns (events: seq<Event>, t: State)
    requires Inv(s) && !s.closed && s.wg != 0
    ensures Trace(s, events, t) && Inv(t) && !t.closed && Work(t.handlers) < Work(s.handlers)
    ensures forall k :: 0 <= k < |events| ==> Leaves(events[k])
  {
    var i := Inside(s);
    assert HandlerInv(s, i);
    var m, before := s, [];
    if s.handlers[i].point.Serving? {
      before := [Cancel(i)];
      m := Step(s, Cancel(i));
      StepKeeps(s, Cancel(i));
      SameWork(s.handlers, m.handlers);
      assert before[1..] == [];
    }
    assert Trace(s, before, m);
    var e := NextOf(m.handlers[i].point, i);
    t := Step(m, e);
    MoveLowers(m, e);
    StepKeeps(m, e);
    assert [e][1..] == [] && Trace(m, [e], t);
    TraceJoin(s, before, m, [e], t);
    events := before + [e];
  }

  // And slots come back: from every open state, the cancellations and steps of the handlers
  // inside lead to an open agent with nobody inside, where the next arrival gets a slot.
  lemma {:induction false} SlotsComeBack(s: State) returns (events: seq<Event>, t: State)
    requires Inv(s) && !s.closed
    ensures Trace(s, events, t) && Inv(t) && !t.closed && t.wg == 0 == t.active
    ensures forall k :: 0 <= k < |events| ==> Leaves(events[k])
    decreases Work(s.handlers)
  {
    hide Step, Enabled, Leaves;
    if s.wg == 0 {
      GroupEmpty(s);
      events, t := [], s;
    } else {
      var before, m := OneMovesOn(s);
      var rest;
      rest, t := SlotsComeBack(m);
      TraceJoin(s, before, m, rest, t);
      events := before + rest;
    }
  }

  predicate OnWayOut(p: Point) {
    p.Stopping? || p.ShellGone? || p.Unregistered? || p.SlotFree? || p.Gone?
  }

  // A handler whose upgrade, shell or set-up has failed is never served.
  lemma FailureLeaves(s: State, e: Event, events: seq<Event>, t: State)
    requires Enabled(s, e) && (e.UpgradeConnection? || e.Launch? || e.SetUp?) && !e.ok
    requires Trace(Step(s, e), events, t)
    ensures e.i < |t.handlers| && OnWayOut(t.handlers[e.i].point)
  {
    StaysOut(Step(s, e), e.i, events, t);
  }

  lemma {:induction false} StaysOut(s: State, i: nat, events: seq<Event>, t: State)
    requires Trace(s, events, t) && i < |s.handlers| && OnWayOut(s.handlers[i].point)
    ensures i < |t.handlers| && OnWayOut(t.handlers[i].point)
    decreases |events|
  {
    if events != [] {
      StaysOut(Step(s, events[0]), i, events[1..], t);
    }
  }
}
