/** When the completed dependency calls obey the failure count by themselves: exactly while no
    two attempts are in the air at once, unless every call fails. */
module DemoOverlap {
  import opened Counting
  import opened Division
  import opened DemoStorm

  predicate Airborne(c: Caller) { c.flight.Air? }

  predicate Doomed(c: Caller) { c.flight == Air(true) }

  function InAir(s: Storm): nat { Count(s.callers, Airborne) }

  // The attempts whose reply has been read, of the ones numbered after `start`.
  function Completed(s: Storm, start: nat): int { s.counter - start - InAir(s) }

  // The failures among them.
  function CompletedFailures(s: Storm): int { s.failures - Count(s.callers, Doomed) }

  // As many failures as if the completed attempts were the first ones numbered.
  predicate Obeys(s: Storm, every: nat, start: nat)
    requires every > 0
  {
    CompletedFailures(s) == (start + Completed(s, start)) / every - start / every
  }

  // At every moment of the run at most m attempts are in the air.
  ghost predicate Narrow(s: Storm, every: nat, retries: nat, events: seq<Event>, m: nat)
    decreases |events|
  {
    && InAir(s) <= m
    && (events == [] || (Enabled(s, events[0]) && Narrow(Step(s, every, retries, events[0]), every, retries, events[1..], m)))
  }

  // A run of fresh callers from counter `start`, with at most m attempts in the air.
  ghost predicate NarrowRun(callers: seq<Caller>, every: nat, retries: nat, start: nat, events: seq<Event>, t: Storm, m: nat) {
    && (forall i :: 0 <= i < |callers| ==> callers[i] == IDLE)
    && Interleaving(Storm(start, 0, 0, 0, callers), every, retries, events, t)
    && Narrow(Storm(start, 0, 0, 0, callers), every, retries, events, m)
  }

  lemma Moved(callers: seq<Caller>, i: nat, c: Caller)
    requires i < |callers|
    ensures Count(callers[i := c], Airborne) + Bit(Airborne(callers[i])) == Count(callers, Airborne) + Bit(Airborne(c))
    ensures Count(callers[i := c], Doomed) + Bit(Doomed(callers[i])) == Count(callers, Doomed) + Bit(Doomed(c))
  {
    CountToUpdate(callers, i, c, Airborne, |callers|);
    CountToUpdate(callers, i, c, Doomed, |callers|);
  }

  lemma Grounded(callers: seq<Caller>)
    requires forall i :: 0 <= i < |callers| ==> callers[i].flight.Ground?
    ensures Count(callers, Airborne) == Count(callers, Doomed) == 0
  {
    CountToNone(callers, Airborne, |callers|);
    CountToNone(callers, Doomed, |callers|);
  }

  /// One attempt at a time
  /// ---------------------

  // What is in the air has been numbered; a single attempt there carries the last number.
  ghost predicate LastInAir(s: Storm, every: nat, start: nat)
    requires every > 0
  {
    && start + InAir(s) <= s.counter
    && Count(s.callers, Doomed) == Bit(InAir(s) == 1 && s.counter % every == 0)
  }

  lemma StepKeepsLast(s: Storm, every: nat, retries: nat, start: nat, e: Event)
    requires every >= 1 && Enabled(s, e) && LastInAir(s, every, start)
    requires InAir(s) <= 1 && InAir(Step(s, every, retries, e)) <= 1
    ensures LastInAir(Step(s, every, retries, e), every, start)
  {
    var t := Step(s, every, retries, e);
    Moved(s.callers, e.i, t.callers[e.i]);
    CountToWeaker(t.callers, Doomed, Airborne, |t.callers|);
    hide Count;
  }

  lemma LastObeys(s: Storm, every: nat, retries: nat, start: nat)
    requires every >= 1 && StormInv(s, every, retries, start) && LastInAir(s, every, start) && InAir(s) <= 1
    ensures Obeys(s, every, start)
  {
    hide Count;
    if InAir(s) == 1 {
      DivStep(s.counter, every);
    }
  }

  lemma {:induction false} OneAtATime(s: Storm, every: nat, retries: nat, start: nat, events: seq<Event>, t: Storm)
    requires every >= 1 && StormInv(s, every, retries, start) && LastInAir(s, every, start)
    requires Interleaving(s, every, retries, events, t) && Narrow(s, every, retries, events, 1)
    ensures Obeys(t, every, start)
    decreases |events|
  {
    hide LastInAir, StormInv, Obeys, InAir;
    if events == [] {
      LastObeys(s, every, retries, start);
    } else {
      StepKeeps(s, every, retries, start, events[0]);
      StepKeepsLast(s, every, retries, start, events[0]);
      OneAtATime(Step(s, every, retries, events[0]), every, retries, start, events[1..], t);
    }
  }

  lemma FreshStorm(callers: seq<Caller>, every: nat, retries: nat, start: nat)
    requires every >= 1 && forall i :: 0 <= i < |callers| ==> callers[i] == IDLE
    ensures var s := Storm(start, 0, 0, 0, callers); StormInv(s, every, retries, start) && LastInAir(s, every, start)
  {
    FreshTotal(callers);
    CountToNone(callers, Succeeded, |callers|);
    CountToNone(callers, Promising, |callers|);
    Grounded(callers);
  }

  lemma {:induction false} NarrowWeaker(s: Storm, every: nat, retries: nat, events: seq<Event>, m: nat, n: nat)
    requires Narrow(s, every, retries, events, m) && m <= n
    ensures Narrow(s, every, retries, events, n)
    decreases |events|
  {
    if events != [] {
      NarrowWeaker(Step(s, every, retries, events[0]), every, retries, events[1..], m, n);
    }
  }

  // While attempts do not overlap, the completed ones obey the count at every moment,
  // landed or not, whatever is dropped or spoiled.
  lemma SequentialObeys(callers: seq<Caller>, every: nat, retries: nat, start: nat, events: seq<Event>, t: Storm, m: nat)
    requires every >= 1 && m <= 1 && NarrowRun(callers, every, retries, start, events, t, m)
    ensures Obeys(t, every, start)
  {
    var s := Storm(start, 0, 0, 0, callers);
    FreshStorm(callers, every, retries, start);
    NarrowWeaker(s, every, retries, events, m, 1);
    OneAtATime(s, every, retries, start, events, t);
  }

  /// Two at once
  /// -----------

  // Callers below i have landed, the others have not begun.
  ghost predicate Advanced(s: Storm, i: nat) {
    && i <= |s.callers|
    && (forall j :: 0 <= j < |s.callers| ==> s.callers[j].flight.Ground?)
    && (forall j :: i <= j < |s.callers| ==> s.callers[j] == IDLE)
  }

  // One caller makes one attempt and reads its reply.
  lemma OneMore(s: Storm, every: nat, retries: nat, start: nat, i: nat) returns (t: Storm)
    requires every >= 1 && StormInv(s, every, retries, start) && Advanced(s, i) && i < |s.callers|
    ensures Enabled(s, Number(i)) && Enabled(Step(s, every, retries, Number(i)), Reply(i, true))
    ensures t == Step(Step(s, every, retries, Number(i)), every, retries, Reply(i, true))
    ensures StormInv(t, every, retries, start) && Advanced(t, i + 1)
    ensures t.counter == s.counter + 1 && |t.callers| == |s.callers|
    ensures InAir(s) == 0 && InAir(Step(s, every, retries, Number(i))) == 1
  {
    var m := Step(s, every, retries, Number(i));
    t := Step(m, every, retries, Reply(i, true));
    StepKeeps(s, every, retries, start, Number(i));
    StepKeeps(m, every, retries, start, Reply(i, true));
    Grounded(s.callers);
    Moved(s.callers, i, m.callers[i]);
    hide StormInv, Count;
  }

  lemma NumberMoves(s: Storm, every: nat, retries: nat, i: nat)
    requires every >= 1 && i < |s.callers| && !s.callers[i].done && s.callers[i].flight.Ground?
    ensures Enabled(s, Number(i))
    ensures var t := Step(s, every, retries, Number(i));
      var failed := (s.counter + 1) % every == 0;
      && t.counter == s.counter + 1 && t.failures == s.failures + Bit(failed)
      && t.callers == s.callers[i := t.callers[i]] && t.callers[i].flight == Air(failed) && !t.callers[i].done
      && InAir(t) == InAir(s) + 1 && Count(t.callers, Doomed) == Count(s.callers, Doomed) + Bit(failed)
  {
    Moved(s.callers, i, Step(s, every, retries, Number(i)).callers[i]);
    hide Count;
  }

  lemma ReplyMoves(s: Storm, every: nat, retries: nat, i: nat)
    requires i < |s.callers| && !s.callers[i].done && s.callers[i].flight.Air?
    ensures Enabled(s, Reply(i, true))
    ensures var t := Step(s, every, retries, Reply(i, true));
      && t.counter == s.counter && t.failures == s.failures && InAir(t) == InAir(s) - 1
      && Count(t.callers, Doomed) == Count(s.callers, Doomed) - Bit(s.callers[i].flight.failed)
  {
    Moved(s.callers, i, Step(s, every, retries, Reply(i, true)).callers[i]);
    hide Count;
  }

  // Two callers overlap, the second with a failing number, and its reply is read first.
  lemma Overtake(s: Storm, every: nat, retries: nat, start: nat, i: nat) returns (events: seq<Event>, t: Storm)
    requires every >= 2 && Advanced(s, i) && i + 2 <= |s.callers|
    requires (s.counter + 2) % every == 0 && s.failures + start / every == s.counter / every
    ensures events == [Number(i), Number(i + 1), Reply(i + 1, true)]
    ensures Interleaving(s, every, retries, events, t) && Narrow(s, every, retries, events, 2)
    ensures !Obeys(t, every, start)
    ensures Completed(t, start) == s.counter + 1 - start && CompletedFailures(t) == s.failures + 1
  {
    Grounded(s.callers);
    hide Step, Enabled, StormInv, Count;
    events := [Number(i), Number(i + 1), Reply(i + 1, true)];
    NumberMoves(s, every, retries, i);
    var one := Step(s, every, retries, Number(i));
    NumberMoves(one, every, retries, i + 1);
    var two := Step(one, every, retries, Number(i + 1));
    ReplyMoves(two, every, retries, i + 1);
    t := Step(two, every, retries, Reply(i + 1, true));
    SameQuotient(s.counter, every);
    ThreeSteps(s, every, retries, events, one, two, t);
  }

  lemma NotBoth(n: nat, every: nat)
    requires every >= 2 && (n + 1) % every == 0
    ensures n % every != 0
  {
    if n % every == 0 {
      NextNotMultiple(n, every);
    }
  }

  // No failing number between the two before a multiple of d.
  lemma SameQuotient(n: nat, every: nat)
    requires every >= 2 && (n + 2) % every == 0
    ensures (n + 1) / every == n / every && (n + 1) % every != 0
  {
    NotBoth(n + 1, every);
    DivStep(n + 1, every);
  }

  lemma ThreeSteps(s: Storm, every: nat, retries: nat, events: seq<Event>, one: Storm, two: Storm, t: Storm)
    requires |events| == 3 && Enabled(s, events[0]) && one == Step(s, every, retries, events[0])
    requires Enabled(one, events[1]) && two == Step(one, every, retries, events[1])
    requires Enabled(two, events[2]) && t == Step(two, every, retries, events[2])
    requires InAir(s) <= 2 && InAir(one) <= 2 && InAir(two) <= 2 && InAir(t) <= 2
    ensures Interleaving(s, every, retries, events, t) && Narrow(s, every, retries, events, 2)
  {
    hide Step, Enabled, InAir;
    TwoMore(two, every, retries, events[2..], t);
    assert events[1..][1..] == events[2..];
    assert Interleaving(one, every, retries, events[1..], t) && Narrow(one, every, retries, events[1..], 2);
  }

  lemma TwoMore(two: Storm, every: nat, retries: nat, events: seq<Event>, t: Storm)
    requires |events| == 1 && Enabled(two, events[0]) && t == Step(two, every, retries, events[0])
    requires InAir(two) <= 2 && InAir(t) <= 2
    ensures Interleaving(two, every, retries, events, t) && Narrow(two, every, retries, events, 2)
  {
    hide Step, Enabled, InAir;
    assert events[1..] == [];
  }

  // From any counter: k callers one after the other bring it to two below a multiple of d;
  // the next two overlap.
  lemma {:induction false} Breaks(s: Storm, every: nat, retries: nat, start: nat, i: nat, k: nat)
    returns (events: seq<Event>, t: Storm)
    requires every >= 2 && StormInv(s, every, retries, start) && Advanced(s, i) && |s.callers| == i + k + 2
    requires (s.counter + k + 2) % every == 0
    ensures Interleaving(s, every, retries, events, t) && Narrow(s, every, retries, events, 2)
    ensures !Obeys(t, every, start)
    decreases k
  {
    if k == 0 {
      events, t := Overtake(s, every, retries, start, i);
    } else {
      var next := OneMore(s, every, retries, start, i);
      var rest;
      rest, t := Breaks(next, every, retries, start, i + 1, k - 1);
      events := [Number(i), Reply(i, true)] + rest;
      hide Step, Enabled, StormInv, Advanced, Obeys, InAir;
      assert events[1..] == [Reply(i, true)] + rest && events[1..][1..] == rest;
      assert Interleaving(Step(s, every, retries, Number(i)), every, retries, events[1..], t);
      assert Narrow(Step(s, every, retries, Number(i)), every, retries, events[1..], 2);
    }
  }

  lemma OverlapBreaks(every: nat, retries: nat, start: nat, m: nat)
    returns (callers: seq<Caller>, events: seq<Event>, t: Storm)
    requires every >= 2 && m >= 2
    ensures NarrowRun(callers, every, retries, start, events, t, m) && !Obeys(t, every, start)
  {
    var k := every * (start + 2) - (start + 2);
    assert k >= 0 by { MulMonotone(start + 2, 1, every); }
    assert start + k + 2 == every * (start + 2);
    ModOfProduct(every, start + 2);
    callers := seq(k + 2, _ => IDLE);
    var s := Storm(start, 0, 0, 0, callers);
    FreshStorm(callers, every, retries, start);
    events, t := Breaks(s, every, retries, start, 0, k);
    NarrowWeaker(s, every, retries, events, 2, m);
  }

  /// Every call fails
  /// ----------------

  lemma AllFailObeys(callers: seq<Caller>, retries: nat, start: nat, events: seq<Event>, t: Storm, m: nat)
    requires NarrowRun(callers, 1, retries, start, events, t, m)
    ensures Obeys(t, 1, start)
  {
    FreshStorm(callers, 1, retries, start);
    AnyInterleaving(Storm(start, 0, 0, 0, callers), 1, retries, start, events, t);
    CountToSplits(t.callers, Airborne, Promising, Doomed, |t.callers|);
  }

  // The exact condition. From any counter, all runs with at most m attempts in the air
  // obey the count at every moment if and only if m is at most 1, or every call fails.
  lemma OverlapIff(every: nat, retries: nat, start: nat, m: nat)
    requires every >= 1
    ensures (forall callers, events, t :: NarrowRun(callers, every, retries, start, events, t, m) ==> Obeys(t, every, start))
            <==> m <= 1 || every == 1
  {
    hide NarrowRun, Obeys;
    if m <= 1 || every == 1 {
      forall callers, events, t | NarrowRun(callers, every, retries, start, events, t, m) ensures Obeys(t, every, start) {
        if every == 1 {
          AllFailObeys(callers, retries, start, events, t, m);
        } else {
          SequentialObeys(callers, every, retries, start, events, t, m);
        }
      }
    } else {
      var callers, events, t := OverlapBreaks(every, retries, start, m);
    }
  }

  // The smallest such run: d = 2, a fresh counter, two callers, and the attempt numbered 2
  // answered first. One attempt is completed, one failure is among it, and floor(1/2) is 0.
  lemma CompletedFirst() returns (t: Storm)
    ensures NarrowRun([IDLE, IDLE], 2, 1, 0, [Number(0), Number(1), Reply(1, true)], t, 2)
    ensures Completed(t, 0) == 1 && CompletedFailures(t) == 1 && !Obeys(t, 2, 0)
  {
    FreshStorm([IDLE, IDLE], 2, 1, 0);
    var events;
    events, t := Overtake(Storm(0, 0, 0, 0, [IDLE, IDLE]), 2, 1, 0, 0);
  }
}
