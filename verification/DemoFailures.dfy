/** The fault-injecting service, part three: sequence-numbered failures and the retry loop that
    meets them. */
module DemoFailures {
  import opened Counting
  import opened Division

  datatype Role = API | Dependency

  // The two interval tests a numbered request goes through; an interval of 0 is off.
  predicate Fails(role: Role, failureEvery: nat, dependencyFailureEvery: nat, sequence: nat) {
    || (role == Dependency && dependencyFailureEvery > 0 && sequence % dependencyFailureEvery == 0)
    || (failureEvery > 0 && sequence % failureEvery == 0)
  }

  // How many of the sequence numbers 1..n are failed.
  function Failures(role: Role, failureEvery: nat, dependencyFailureEvery: nat, n: nat): nat {
    if n == 0 then 0
    else Failures(role, failureEvery, dependencyFailureEvery, n - 1)
         + Bit(Fails(role, failureEvery, dependencyFailureEvery, n))
  }

  // Of the sequence numbers 1..n an API fails exactly floor(n/k).
  lemma {:induction false} APIFailures(k: nat, d: nat, n: nat)
    ensures Failures(API, k, d, n) == Div(n, k)
  {
    if n > 0 {
      APIFailures(k, d, n - 1);
      if k > 0 { DivStep(n, k); }
    } else if k > 0 {
      DivUnique(0, k, 0, 0);
    }
  }

  // Of the sequence numbers 1..n a dependency fails exactly
  // floor(n/k) + floor(n/d) - floor(n/lcm(k,d)), where an interval of 0 counts nothing.
  lemma {:induction false} DependencyFailures(k: nat, d: nat, n: nat)
    ensures Failures(Dependency, k, d, n) ==
            Div(n, k) + Div(n, d) - (if k > 0 && d > 0 then n / Lcm(k, d) else 0)
  {
    if n == 0 {
      if k > 0 { DivUnique(0, k, 0, 0); }
      if d > 0 { DivUnique(0, d, 0, 0); }
      if k > 0 && d > 0 { DivUnique(0, Lcm(k, d), 0, 0); }
    } else {
      DependencyFailures(k, d, n - 1);
      if k > 0 { DivStep(n, k); }
      if d > 0 { DivStep(n, d); }
      if k > 0 && d > 0 {
        var l := Lcm(k, d);
        DivStep(n, l);
        if n % l == 0 {
          LcmMultiple(k, d, n);
        } else if n % k == 0 && n % d == 0 {
          CommonMultipleOfLcm(k, d, n);
        }
      }
    }
  }

  /// The retry loop
  /// --------------

  // What the network does with one attempt: it may never reach the dependency, or the
  // dependency may number it and the reply be unusable all the same.
  datatype Delivery = Clean | Dropped | Spoiled

  datatype Outcome = Outcome(ok: bool, attempts: nat, counter: nat)

  function Reached(counter: nat, d: Delivery): nat {
    if d.Dropped? then counter else counter + 1
  }

  predicate AttemptOk(counter: nat, every: nat, d: Delivery) {
    d.Clean? && !Fails(Dependency, 0, every, counter + 1)
  }

  // Attempts used so far, out of the ones in `net`.
  function Calls(counter: nat, every: nat, net: seq<Delivery>, attempts: nat): Outcome
    decreases |net|
  {
    if net == [] then Outcome(false, attempts, counter)
    else if AttemptOk(counter, every, net[0]) then Outcome(true, attempts + 1, Reached(counter, net[0]))
    else Calls(Reached(counter, net[0]), every, net[1..], attempts + 1)
  }

  // The dependency's request counter, shared by every caller.
  class Sequence {
    var counter: nat

    method Next() returns (sequence: nat)
      modifies this
      ensures sequence == counter == old(counter) + 1
    {
      counter := counter + 1;
      return counter;
    }
  }

  // callDependency with `retries` retries; `net` is the network's answer to each attempt.
  method CallDependency(dependency: Sequence, every: nat, retries: nat, net: seq<Delivery>)
    returns (ok: bool, ghost attempts: nat)
    requires |net| == retries + 1
    modifies dependency
    ensures Calls(old(dependency.counter), every, net, 0) == Outcome(ok, attempts, dependency.counter)
  {
    attempts := 0;
    var attempt := 0;
    while attempt <= retries
      invariant 0 <= attempt <= retries + 1 && attempts == attempt
      invariant Calls(old(dependency.counter), every, net, 0)
             == Calls(dependency.counter, every, net[attempt..], attempt)
    {
      attempts := attempts + 1;
      var delivery := net[attempt];
      assert net[attempt..][1..] == net[attempt + 1..];
      attempt := attempt + 1;
      if delivery.Dropped? {
        continue;
      }
      var sequence := dependency.Next();
      if Fails(Dependency, 0, every, sequence) {
        continue;
      }
      if delivery.Spoiled? {
        continue;
      }
      return true, attempts;
    }
    return false, attempts;
  }

  function CleanNet(n: nat): seq<Delivery> { seq(n, _ => Clean) }

  // One call with a clean network: at most one failure is met before a success.
  lemma CleanCall(counter: nat, every: nat, retries: nat)
    requires every >= 2 && retries >= 1
    ensures var o := Calls(counter, every, CleanNet(retries + 1), 0);
      o == if (counter + 1) % every == 0 then Outcome(true, 2, counter + 2) else Outcome(true, 1, counter + 1)
  {
    var net := CleanNet(retries + 1);
    if (counter + 1) % every == 0 {
      var q := (counter + 1) / every;
      assert counter + 2 == every * q + 1;
      DivUnique(counter + 2, every, q, 1);
      assert net[1..][0] == Clean;
      assert Calls(counter + 1, every, net[1..], 1) == Outcome(true, 2, counter + 2);
    }
  }

  // The counter after k sequential requests that found it at `start`.
  function CounterFrom(every: nat, retries: nat, start: nat, k: nat): nat {
    if k == 0 then start
    else Calls(CounterFrom(every, retries, start, k - 1), every, CleanNet(retries + 1), 0).counter
  }

  // The numbers among 1..n that the dependency serves.
  function Served(n: nat, every: nat): int
    requires every > 0
  {
    n - n / every
  }

  // Retry amplification, from any counter: k sequential requests all succeed, each in at
  // most two attempts; each uses up exactly one served number, and the last number given
  // is a served one.
  lemma {:induction false} RetryServes(every: nat, retries: nat, start: nat, k: nat)
    requires every >= 2 && retries >= 1
    ensures Served(CounterFrom(every, retries, start, k), every) == Served(start, every) + k
    ensures k >= 1 ==> CounterFrom(every, retries, start, k) % every != 0
    ensures k >= 1 ==>
      var o := Calls(CounterFrom(every, retries, start, k - 1), every, CleanNet(retries + 1), 0);
      o.ok && 1 <= o.attempts <= 2
  {
    if k >= 1 {
      var before := CounterFrom(every, retries, start, k - 1);
      RetryServes(every, retries, start, k - 1);
      CleanCall(before, every, retries);
      DivStep(before + 1, every);
      if (before + 1) % every == 0 {
        DivStep(before + 2, every);
        NextNotMultiple(before + 1, every);
      }
    }
  }

  // A served number is determined by how many served numbers there are up to it.
  lemma ServedNumber(n: nat, every: nat)
    requires every >= 2 && n % every != 0
    ensures var m := Served(n, every); m >= 1 && n == m + (m - 1) / (every - 1)
  {
    var q, r, d := n / every, n % every, every - 1;
    assert n == every * q + r;
    assert every * q == d * q + q;
    var m := d * q + r;
    assert Served(n, every) == m;
    DivUnique(m - 1, d, q, r - 1);
  }

  // So the calls that k requests make from any counter s are exactly
  // m + floor((m - 1) / (d - 1)) - s, where m is k more than the numbers served up to s;
  // from a fresh counter that is k + floor((k - 1) / (d - 1)).
  lemma RetryAmplification(every: nat, retries: nat, start: nat, k: nat)
    requires every >= 2 && retries >= 1 && k >= 1
    ensures var m := Served(start, every) + k;
      m >= 1 && CounterFrom(every, retries, start, k) == m + (m - 1) / (every - 1)
    ensures start == 0 ==> CounterFrom(every, retries, start, k) == k + (k - 1) / (every - 1)
  {
    RetryServes(every, retries, start, k);
    ServedNumber(CounterFrom(every, retries, start, k), every);
    DivUnique(0, every, 0, 0);
  }

  /// Any network
  /// -----------

  // The number the dependency's counter stands at after attempt k.
  function NumberAt(counter: nat, net: seq<Delivery>, k: int): nat
    requires -1 <= k < |net|
    decreases k + 1
  {
    if k == -1 then counter else NumberAt(counter, net, k - 1) + Bit(!net[k].Dropped?)
  }

  // Attempt k succeeds: it is delivered both ways, and its number is not one that fails.
  predicate Succeeds(counter: nat, every: nat, net: seq<Delivery>, k: nat)
    requires k < |net|
  {
    net[k].Clean? && (every == 0 || NumberAt(counter, net, k) % every != 0)
  }

  lemma {:induction false} NumberShift(counter: nat, net: seq<Delivery>, k: nat)
    requires k < |net|
    ensures NumberAt(counter, net, k) == NumberAt(Reached(counter, net[0]), net[1..], k - 1)
    decreases k
  {
    if k > 0 {
      NumberShift(counter, net, k - 1);
    }
  }

  // Whatever the network does: a call succeeds if and only if one of its attempts does, and
  // then it makes no attempt after the first that does; otherwise it makes all of them. Each
  // attempt that is not dropped uses one number.
  lemma {:induction false} FirstSuccess(counter: nat, every: nat, net: seq<Delivery>, used: nat)
    ensures var o := Calls(counter, every, net, used);
      && used <= o.attempts <= used + |net| && o.counter == NumberAt(counter, net, o.attempts - used - 1)
      && (o.ok ==> o.attempts > used && Succeeds(counter, every, net, o.attempts - used - 1))
      && (!o.ok ==> o.attempts == used + |net|)
      && forall k: nat :: k < o.attempts - used - Bit(o.ok) ==> !Succeeds(counter, every, net, k)
    decreases |net|
  {
    if net != [] {
      var o, rest := Calls(counter, every, net, used), net[1..];
      var next := Reached(counter, net[0]);
      assert NumberAt(counter, net, 0) == NumberAt(counter, net, -1) + Bit(!net[0].Dropped?) == next;
      if !AttemptOk(counter, every, net[0]) {
        FirstSuccess(next, every, rest, used + 1);
        forall k: nat | k < |rest| ensures NumberAt(counter, net, k + 1) == NumberAt(next, rest, k) {
          NumberShift(counter, net, k + 1);
        }
        forall k: nat | k < o.attempts - used - Bit(o.ok) ensures !Succeeds(counter, every, net, k) {
          if k > 0 { assert !Succeeds(next, every, rest, k - 1); }
        }
        if o.ok {
          assert Succeeds(next, every, rest, o.attempts - used - 2);
        }
      }
    }
  }
}
