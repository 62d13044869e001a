/** Part four: many callers of one failing dependency, their attempts overlapping at will. */
module DemoStorm {
  import opened Counting
  import opened Division
  import opened DemoFailures

  // A caller between attempts is on the ground; an attempt the dependency has numbered is
  // in the air, failed or not, until its reply is read.
  datatype Flight = Ground | Air(failed: bool)

  datatype Caller = Caller(attempts: nat, flight: Flight, done: bool, ok: bool)

  // `dropped` counts attempts that never got a number, `spoiled` good replies that were
  // not usable.
  datatype Storm = Storm(counter: nat, failures: nat, dropped: nat, spoiled: nat, callers: seq<Caller>)

  const IDLE := Caller(0, Ground, false, false)

  datatype Event =
    | Number(i: nat)                // the dependency numbers an attempt of caller i
    | Drop(i: nat)                  // an attempt fails before it is numbered
    | Reply(i: nat, usable: bool)   // caller i reads the reply to its attempt

  predicate Enabled(s: Storm, e: Event) {
    e.i < |s.callers| && !s.callers[e.i].done && (s.callers[e.i].flight.Air? <==> e.Reply?)
  }

  function Step(s: Storm, every: nat, retries: nat, e: Event): Storm
    requires Enabled(s, e)
  {
    var c := s.callers[e.i];
    match e
    case Number(i) =>
      var failed := Fails(Dependency, 0, every, s.counter + 1);
      s.(counter := s.counter + 1, failures := s.failures + Bit(failed),
         callers := s.callers[i := c.(attempts := c.attempts + 1, flight := Air(failed))])
    case Drop(i) =>
      s.(dropped := s.dropped + 1,
         callers := s.callers[i := c.(attempts := c.attempts + 1, done := c.attempts + 1 > retries)])
    case Reply(i, usable) =>
      var ok := usable && !c.flight.failed;
      s.(spoiled := s.spoiled + Bit(!usable && !c.flight.failed),
         callers := s.callers[i := c.(flight := Ground, done := ok || c.attempts > retries, ok := ok)])
  }

  ghost predicate Interleaving(s: Storm, every: nat, retries: nat, events: seq<Event>, t: Storm)
    decreases |events|
  {
    if events == [] then s == t
    else Enabled(s, events[0]) && Interleaving(Step(s, every, retries, events[0]), every, retries, events[1..], t)
  }

  function TotalAttempts(callers: seq<Caller>): nat {
    if callers == [] then 0
    else TotalAttempts(callers[..|callers| - 1]) + callers[|callers| - 1].attempts
  }

  predicate Succeeded(c: Caller) { c.ok }

  predicate Promising(c: Caller) { c.flight == Air(false) }

  lemma {:induction false} TotalUpdate(callers: seq<Caller>, i: nat, c: Caller)
    requires i < |callers|
    ensures TotalAttempts(callers[i := c]) + callers[i].attempts == TotalAttempts(callers) + c.attempts
  {
    var n := |callers| - 1;
    if i == n {
      assert callers[i := c][..n] == callers[..n];
    } else {
      assert callers[i := c][..n] == callers[..n][i := c];
      TotalUpdate(callers[..n], i, c);
    }
  }

  lemma {:induction false} TotalBounded(callers: seq<Caller>, most: nat)
    requires forall i :: 0 <= i < |callers| ==> callers[i].attempts <= most
    ensures TotalAttempts(callers) <= most * |callers|
  {
    if callers != [] {
      TotalBounded(callers[..|callers| - 1], most);
      assert most * |callers| == most * (|callers| - 1) + most;
    }
  }

  predicate CallerInv(c: Caller, retries: nat) {
    && c.attempts <= retries + 1
    && (c.ok ==> c.done) && (c.done ==> c.flight.Ground?)
    && (c.flight.Ground? ==> (c.done <==> c.ok || c.attempts == retries + 1))
  }

  // `start` is the counter before the first attempt.
  ghost predicate StormInv(s: Storm, every: nat, retries: nat, start: nat)
    requires every > 0
  {
    && s.counter + s.dropped == start + TotalAttempts(s.callers)
    && s.failures + start / every == s.counter / every
    && s.counter == start + s.failures + s.spoiled + Count(s.callers, Succeeded) + Count(s.callers, Promising)
    && forall i :: 0 <= i < |s.callers| ==> CallerInv(s.callers[i], retries)
  }

  lemma StepKeeps(s: Storm, every: nat, retries: nat, start: nat, e: Event)
    requires every >= 1 && StormInv(s, every, retries, start) && Enabled(s, e)
    ensures StormInv(Step(s, every, retries, e), every, retries, start)
  {
    var t := Step(s, every, retries, e);
    assert CallerInv(s.callers[e.i], retries);
    CallersMove(s.callers, e.i, t.callers[e.i]);
    if e.Number? {
      DivStep(t.counter, every);
    }
    hide TotalAttempts, Count;
  }

  lemma CallersMove(callers: seq<Caller>, i: nat, c: Caller)
    requires i < |callers|
    ensures TotalAttempts(callers[i := c]) + callers[i].attempts == TotalAttempts(callers) + c.attempts
    ensures Count(callers[i := c], Succeeded) + Bit(callers[i].ok) == Count(callers, Succeeded) + Bit(c.ok)
    ensures Count(callers[i := c], Promising) + Bit(Promising(callers[i])) == Count(callers, Promising) + Bit(Promising(c))
  {
    TotalUpdate(callers, i, c);
    CountToUpdate(callers, i, c, Succeeded, |callers|);
    CountToUpdate(callers, i, c, Promising, |callers|);
  }

  // Callers may overlap at will: the dependency numbers one attempt while the replies to
  // others are still on their way.
  lemma {:induction false} AnyInterleaving(s: Storm, every: nat, retries: nat, start: nat, events: seq<Event>, t: Storm)
    requires every >= 1 && StormInv(s, every, retries, start) && Interleaving(s, every, retries, events, t)
    ensures StormInv(t, every, retries, start) && |t.callers| == |s.callers|
    decreases |events|
  {
    if events != [] {
      StepKeeps(s, every, retries, start, events[0]);
      AnyInterleaving(Step(s, every, retries, events[0]), every, retries, start, events[1..], t);
    }
  }

  lemma {:induction false} FreshTotal(callers: seq<Caller>)
    requires forall i :: 0 <= i < |callers| ==> callers[i] == IDLE
    ensures TotalAttempts(callers) == 0
  {
    if callers != [] {
      FreshTotal(callers[..|callers| - 1]);
    }
  }

  // Under any interleaving of callers from counter s, with N attempts numbered so far:
  // exactly floor((s + N) / d) - floor(s / d) of them are failures; every other one has
  // satisfied a caller, is on its way to one, or was spoiled; no caller uses more than
  // retries + 1 attempts, and one gives up only after that many.
  lemma StormTheorem(callers: seq<Caller>, every: nat, retries: nat, start: nat, events: seq<Event>, t: Storm)
    requires every >= 1 && forall i :: 0 <= i < |callers| ==> callers[i] == IDLE
    requires Interleaving(Storm(start, 0, 0, 0, callers), every, retries, events, t)
    ensures t.counter >= start && t.failures == t.counter / every - start / every
    ensures Count(t.callers, Succeeded) + Count(t.callers, Promising) + t.spoiled == (t.counter - start) - t.failures
    ensures (t.counter - start) + t.dropped == TotalAttempts(t.callers) <= (retries + 1) * |callers|
    ensures forall i :: 0 <= i < |t.callers| && t.callers[i].done && !t.callers[i].ok ==>
              t.callers[i].attempts == retries + 1
  {
    FreshTotal(callers);
    CountToNone(callers, Succeeded, |callers|);
    CountToNone(callers, Promising, |callers|);
    AnyInterleaving(Storm(start, 0, 0, 0, callers), every, retries, start, events, t);
    TotalBounded(t.callers, retries + 1);
    forall i | 0 <= i < |t.callers| ensures CallerInv(t.callers[i], retries) {}
  }

  // In a state with nothing in the air, and a network that loses nothing, the attempts
  // are all completed: A of them contain exactly floor((s + A) / d) - floor(s / d)
  // failures, and the others satisfied one caller each.
  lemma LandedStorm(callers: seq<Caller>, every: nat, retries: nat, start: nat, events: seq<Event>, t: Storm)
    requires every >= 1 && forall i :: 0 <= i < |callers| ==> callers[i] == IDLE
    requires Interleaving(Storm(start, 0, 0, 0, callers), every, retries, events, t)
    requires t.dropped == t.spoiled == 0 && forall i :: 0 <= i < |t.callers| ==> t.callers[i].flight.Ground?
    ensures var attempts := TotalAttempts(t.callers);
      && t.failures == (start + attempts) / every - start / every
      && Count(t.callers, Succeeded) == attempts - t.failures
  {
    StormTheorem(callers, every, retries, start, events, t);
    CountToNone(t.callers, Promising, |t.callers|);
  }
}
