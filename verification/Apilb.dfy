/** The API load balancer (internal/apilb/apilb.go): a ticket counter taken modulo the
    number of active backends. The counter is a 64-bit unsigned word and the index is
    computed in signed 64-bit arithmetic. */
module LoadBalancer {
  import opened Wrappers
  import opened Counting

  const WORD := 0x1_0000_0000_0000_0000
  const HALF := 0x8000_0000_0000_0000

  datatype State = State(active: int, next: nat)

  predicate ValidState(s: State) { (s.active == 1 || s.active == 2) && s.next < WORD }

  function Updated(s: State, backends: Option<int>): State {
    if backends == Some(1) || backends == Some(2) then s.(active := backends.value) else s
  }

  // Reinterpret an unsigned word as a signed one.
  function Signed(word: nat): int
    requires word < WORD
  {
    if word < HALF then word else word - WORD
  }

  // Go's remainder takes the sign of the dividend.
  function Remainder(a: int, b: int): int
    requires b > 0
  {
    if a >= 0 then a % b else -((-a) % b)
  }

  // The backend index for a ticket; None where the index is out of range, which panics.
  function Target(count: int, ticket: nat): Option<nat>
    requires (count == 1 || count == 2) && ticket < WORD
  {
    var index := Remainder(Signed(ticket), count);
    if 0 <= index < 2 then Some(index) else None
  }

  class Balancer {
    var active: int
    var next: nat

    function View(): State
      reads this
    {
      State(active, next)
    }

    constructor ()
      ensures View() == State(1, 0)
    {
      active := 1;
      next := 0;
    }

    method UpdateState(backends: Option<int>) returns (ok: bool)
      modifies this
      ensures View() == Updated(old(View()), backends)
      ensures ok <==> backends == Some(1) || backends == Some(2)
    {
      if backends.None? || (backends.value != 1 && backends.value != 2) {
        return false;
      }
      active := backends.value;
      return true;
    }

    // The second atomic step of a request: take a ticket. `count` is the number of
    // backends the request loaded in its first step.
    method TakeTicket(count: int) returns (target: Option<nat>)
      requires (count == 1 || count == 2) && ValidState(View())
      modifies this
      ensures ValidState(View())
      ensures View() == old(View()).(next := (old(next) + 1) % 0x1_0000_0000_0000_0000)
      ensures target == Target(count, old(next))
    {
      next := (next + 1) % WORD;
      var ticket := (next + WORD - 1) % WORD;
      var index := Remainder(Signed(ticket), count);
      if 0 <= index < 2 {
        return Some(index);
      }
      return None;
    }
  }

  // A request finds a backend, and only among the ones it counted, exactly when it
  // counted one backend, or its ticket is below 2^63, or its ticket is even.
  lemma TargetInRangeIff(count: int, ticket: nat)
    requires (count == 1 || count == 2) && ticket < 0x1_0000_0000_0000_0000
    ensures Target(count, ticket).Some? <==> count == 1 || ticket < 0x8000_0000_0000_0000 || ticket % 2 == 0
    ensures Target(count, ticket).Some? ==> Target(count, ticket).value < count
  {}

  predicate Hits(count: int, backend: nat, ticket: nat)
    requires count == 1 || count == 2
  {
    ticket < WORD && Target(count, ticket) == Some(backend)
  }

  // How many of the n tickets from `first` on go to a backend.
  function Share(count: int, backend: nat, first: nat, n: nat): nat
    requires count == 1 || count == 2
  {
    if n == 0 then 0
    else Share(count, backend, first, n - 1) + Bit(Hits(count, backend, first + n - 1))
  }

  lemma {:induction false} OneBackend(first: nat, n: nat)
    requires first + n <= HALF
    ensures Share(1, 0, first, n) == n && Share(1, 1, first, n) == 0
  {
    if n > 0 {
      hide Hits;
      OneBackend(first, n - 1);
      LowTicket(1, 0, first + n - 1);
      LowTicket(1, 1, first + n - 1);
      One(first + n - 1);
    }
  }

  lemma {:induction false} TwoBackends(first: nat, n: nat)
    requires first + n <= HALF
    ensures Share(2, first % 2, first, n) == (n + 1) / 2 && Share(2, 1 - first % 2, first, n) == n / 2
  {
    if n > 0 {
      hide Hits;
      TwoBackends(first, n - 1);
      LowTicket(2, first % 2, first + n - 1);
      LowTicket(2, 1 - first % 2, first + n - 1);
      Parity(first, n - 1);
    }
  }

  // Round robin: of any n consecutive tickets below 2^63 taken with the same capacity,
  // one active backend takes all, and each of two takes half, the odd one going to the
  // backend of the first ticket's parity.
  lemma RoundRobin(count: int, first: nat, n: nat)
    requires (count == 1 || count == 2) && first + n <= 0x8000_0000_0000_0000
    ensures count == 1 ==> Share(count, 0, first, n) == n && Share(count, 1, first, n) == 0
    ensures count == 2 ==>
      Share(count, first % 2, first, n) == (n + 1) / 2 && Share(count, 1 - first % 2, first, n) == n / 2
  {
    if count == 1 {
      OneBackend(first, n);
    } else {
      TwoBackends(first, n);
    }
  }

  lemma One(n: nat)
    ensures n % 1 == 0
  {}

  lemma Parity(a: nat, b: nat)
    ensures (a + b) % 2 == a % 2 <==> b % 2 == 0
  {}

  lemma LowTicket(count: int, backend: nat, ticket: nat)
    requires (count == 1 || count == 2) && ticket < HALF && backend < 2
    ensures Hits(count, backend, ticket) <==> backend == ticket % count
  {}

  /// Requests interleaved with capacity changes
  /// ------------------------------------------

  // A request between its two atomic steps holds the count it loaded.
  datatype Event = Load(i: nat) | Ticket(i: nat) | SetCapacity(backends: Option<int>)

  datatype Request = Waiting | Loaded(count: int) | Sent(ticket: nat, target: Option<nat>)

  datatype System = System(lb: State, requests: seq<Request>)

  predicate Enabled(s: System, e: Event) {
    match e
    case Load(i) => i < |s.requests| && s.requests[i].Waiting?
    case Ticket(i) => i < |s.requests| && s.requests[i].Loaded?
    case SetCapacity(_) => true
  }

  ghost predicate Inv(s: System) {
    && ValidState(s.lb)
    && (forall i :: 0 <= i < |s.requests| && s.requests[i].Loaded? ==>
          s.requests[i].count == 1 || s.requests[i].count == 2)
    && (forall i :: 0 <= i < |s.requests| && s.requests[i].Sent? ==>
          && s.requests[i].ticket < s.lb.next
          && s.requests[i].target.Some?)
    && (forall i, j :: 0 <= i < j < |s.requests| && s.requests[i].Sent? && s.requests[j].Sent? ==>
          s.requests[i].ticket != s.requests[j].ticket)
  }

  function Step(s: System, e: Event): System
    requires Inv(s) && Enabled(s, e)
  {
    match e
    case Load(i) => s.(requests := s.requests[i := Loaded(s.lb.active)])
    case Ticket(i) =>
      System(s.lb.(next := (s.lb.next + 1) % WORD),
             s.requests[i := Sent(s.lb.next, Target(s.requests[i].count, s.lb.next))])
    case SetCapacity(b) => s.(lb := Updated(s.lb, b))
  }

  lemma StepKeeps(s: System, e: Event)
    requires Inv(s) && Enabled(s, e) && (e.Ticket? ==> s.lb.next < HALF)
    ensures Inv(Step(s, e)) && Step(s, e).lb.next == s.lb.next + Bit(e.Ticket?)
  {
    if e.Ticket? {
      TargetInRangeIff(s.requests[e.i].count, s.lb.next);
    }
  }

  function Tickets(events: seq<Event>): nat {
    if events == [] then 0 else Bit(events[0].Ticket?) + Tickets(events[1..])
  }

  ghost predicate Run(s: System, events: seq<Event>, t: System)
    requires Inv(s) && s.lb.next + Tickets(events) <= HALF
    decreases |events|
  {
    if events == [] then s == t
    else
      Enabled(s, events[0]) &&
      (StepKeeps(s, events[0]); Run(Step(s, events[0]), events[1..], t))
  }

  // Until 2^63 tickets have been taken, no interleaving of requests and capacity changes,
  // however many there are, gives two requests one ticket, or leaves a request that took
  // one without a backend.
  lemma {:induction false} EveryRequestServed(s: System, events: seq<Event>, t: System)
    requires Inv(s) && s.lb.next + Tickets(events) <= HALF && Run(s, events, t)
    ensures Inv(t) && t.lb.next == s.lb.next + Tickets(events)
    decreases |events|
  {
    if events != [] {
      StepKeeps(s, events[0]);
      EveryRequestServed(Step(s, events[0]), events[1..], t);
    }
  }

  // Setting the capacity to 1 or 2 takes effect at once, for the requests that load it from
  // then on; any other value is refused.
  lemma CapacityTakes(s: System, backends: Option<int>)
    requires Inv(s)
    ensures var t := Step(s, SetCapacity(backends));
      && t.requests == s.requests && t.lb.next == s.lb.next
      && t.lb.active == (if backends == Some(1) || backends == Some(2) then backends.value else s.lb.active)
  {}

  // The requests that hold a count, or have been sent since, used this capacity.
  ghost predicate Steady(s: System, t: System, count: int)
    requires count == 1 || count == 2
  {
    && t.lb.active == count && |t.requests| == |s.requests|
    && (forall i :: 0 <= i < |t.requests| && t.requests[i].Loaded? ==> t.requests[i].count == count)
    && (forall i :: 0 <= i < |t.requests| && t.requests[i].Sent? && !s.requests[i].Sent? ==>
          t.requests[i].target == Some(t.requests[i].ticket % count))
  }

  // While the capacity stays as it is and below 2^63 tickets, each request that has not loaded
  // another one goes to the backend of its ticket's remainder, with one backend always the
  // first.
  lemma {:induction false} SteadyCapacity(s: System, m: System, events: seq<Event>, t: System, count: int)
    requires Inv(m) && m.lb.next + Tickets(events) <= HALF && Run(m, events, t)
    requires (count == 1 || count == 2) && Steady(s, m, count)
    requires forall k :: 0 <= k < |events| ==> !events[k].SetCapacity?
    ensures Steady(s, t, count)
    decreases |events|
  {
    if events != [] {
      var e := events[0];
      StepKeeps(m, e);
      if e.Ticket? {
        LowTicket(count, m.lb.next % count, m.lb.next);
      }
      SteadyCapacity(s, Step(m, e), events[1..], t, count);
    }
  }
}
