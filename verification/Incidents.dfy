/** What the faults an exercise deploys do to requests: the settings of the lab meeting the
    behaviour of the services. */
module Incidents {
  import opened Wrappers
  import opened Scenarios
  import opened Lab
  import opened Counting
  import DemoFailures
  import DemoGate

  const INCIDENT: Phase := Incident

  // Under the retry storm, from whatever number the dependency's counter stands at, k
  // sequential requests all succeed, so their failures are not visible, while the counter
  // moves from s to m + floor((m - 1) / 4), where m = s - floor(s / 5) + k.
  lemma RetryStormAmplifies(s: nat, k: nat)
    requires k >= 1
    ensures var api, dependency := ApiFaults(INCIDENT, Some(RetryStorm)), DependencyFaults(INCIDENT, Some(RetryStorm));
      && api.retries >= 0 && dependency.dependencyFailureEvery >= 0
      && (var m := s - s / 5 + k;
          DemoFailures.CounterFrom(dependency.dependencyFailureEvery, api.retries, s, k) == m + (m - 1) / 4)
      && DemoFailures.Calls(DemoFailures.CounterFrom(dependency.dependencyFailureEvery, api.retries, s, k - 1),
                            dependency.dependencyFailureEvery, DemoFailures.CleanNet(api.retries + 1), 0).ok
  {
    DemoFailures.RetryServes(5, 3, s, k);
    DemoFailures.RetryAmplification(5, 3, s, k);
  }

  // Under the name-resolution failure every dependency call fails, whatever the network
  // does, so no request succeeds.
  lemma DnsFailureIsTotal(counter: nat, net: seq<DemoFailures.Delivery>, attempts: nat)
    ensures var dependency := DependencyFaults(INCIDENT, Some(DnsFailure));
      && dependency.dependencyFailureEvery >= 0
      && !DemoFailures.Calls(counter, dependency.dependencyFailureEvery, net, attempts).ok
  {
    EveryCallFails(counter, net, attempts);
  }

  lemma {:induction false} EveryCallFails(counter: nat, net: seq<DemoFailures.Delivery>, attempts: nat)
    ensures !DemoFailures.Calls(counter, 1, net, attempts).ok
    decreases |net|
  {
    if net != [] {
      assert (counter + 1) % 1 == 0;
      EveryCallFails(DemoFailures.Reached(counter, net[0]), net[1..], attempts + 1);
    }
  }

  // Under the burn-rate incident an API fails exactly one in five of its numbered requests.
  lemma BurnRateFailsAFifth(n: nat)
    ensures var api := ApiFaults(INCIDENT, Some(SloBurnRate));
      api.failureEvery >= 0
      && DemoFailures.Failures(DemoFailures.API, api.failureEvery, 0, n) == n / 5
  {
    DemoFailures.APIFailures(5, 0, n);
  }

  // Under the connection-pool incident, from a quiet moment on, at most four requests of
  // an API are beyond its gate at once, and none is refused while at most four are in flight.
  lemma PoolAdmitsFour(s: DemoGate.State, events: seq<DemoGate.Event>, t: DemoGate.State)
    requires DemoGate.Quiet(s) && s.limit == ApiFaults(INCIDENT, Some(ConnectionPool)).maxConcurrency
    requires DemoGate.Run(s, events, t) && forall k :: 0 <= k < |events| ==> !events[k].SetLimit?
    ensures Count(t.requests, DemoGate.Beyond) <= 4
    ensures DemoGate.Roomy(s, events, 4) && (forall k :: 0 <= k < |events| ==> !events[k].WrongRoute?) ==>
      DemoGate.NoneRefused(t)
  {
    DemoGate.GateBound(s, events, t, 4);
    if DemoGate.Roomy(s, events, 4) && forall k :: 0 <= k < |events| ==> !events[k].WrongRoute? {
      DemoGate.GateAdmits(s, events, t, 4);
    }
  }

  // And four do get through at once.
  lemma PoolReachesFour(s: DemoGate.State) returns (events: seq<DemoGate.Event>, t: DemoGate.State)
    requires DemoGate.Quiet(s) && s.limit == ApiFaults(INCIDENT, Some(ConnectionPool)).maxConcurrency
    ensures DemoGate.Run(s, events, t) && (forall k :: 0 <= k < |events| ==> !events[k].SetLimit?)
    ensures Count(t.requests, DemoGate.Beyond) == 4
  {
    events, t := DemoGate.GateReached(s, 4);
  }
}
