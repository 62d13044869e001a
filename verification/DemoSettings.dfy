/** The fault-injecting service (internal/demo/demo.go), part one: its settings and the
    memory they hold. */
module DemoSettings {
  import opened Wrappers

  const MAX_CPU_WORK := 20000000
  const MAX_FAILURE_EVERY := 10000
  const MAX_LEAK_BLOCKS := 256

  datatype Settings = Settings(cpuWork: int, failureEvery: int, latencyMS: int,
                               dependencyFailureEvery: int, retries: int,
                               maxConcurrency: int, memoryMB: int)

  const HEALTHY := Settings(0, 0, 0, 0, 0, 0, 0)

  // A decoded admin request; absent fields are None.
  datatype Update = Update(cpuWork: Option<int>, failureEvery: Option<int>, latencyMS: Option<int>,
                           dependencyFailureEvery: Option<int>, retries: Option<int>,
                           maxConcurrency: Option<int>, memoryMB: Option<int>)

  // An update that names every field.
  function Full(s: Settings): Update {
    Update(Some(s.cpuWork), Some(s.failureEvery), Some(s.latencyMS), Some(s.dependencyFailureEvery),
           Some(s.retries), Some(s.maxConcurrency), Some(s.memoryMB))
  }

  predicate Within(field: Option<int>, limit: int) {
    field.Some? ==> 0 <= field.value <= limit
  }

  predicate Acceptable(u: Update) {
    && u.cpuWork.Some? && u.failureEvery.Some?
    && Within(u.cpuWork, MAX_CPU_WORK) && Within(u.failureEvery, MAX_FAILURE_EVERY)
    && Within(u.latencyMS, 10000) && Within(u.dependencyFailureEvery, MAX_FAILURE_EVERY)
    && Within(u.retries, 10) && Within(u.maxConcurrency, 1000) && Within(u.memoryMB, 1024)
  }

  function Or(field: Option<int>, current: int): int {
    if field.Some? then field.value else current
  }

  function Updated(s: Settings, u: Update): Settings {
    if !Acceptable(u) then s
    else Settings(Or(u.cpuWork, s.cpuWork), Or(u.failureEvery, s.failureEvery), Or(u.latencyMS, s.latencyMS),
                  Or(u.dependencyFailureEvery, s.dependencyFailureEvery), Or(u.retries, s.retries),
                  Or(u.maxConcurrency, s.maxConcurrency), Or(u.memoryMB, s.memoryMB))
  }

  predicate ValidSettings(s: Settings) { Acceptable(Full(s)) }

  // Settings and leaked blocks, each block given by its size in megabytes.
  datatype State = State(settings: Settings, leak: seq<int>)

  function Put(s: State, u: Update): State {
    State(Updated(s.settings, u),
          if Acceptable(u) && u.memoryMB == Some(0) then [] else s.leak)
  }

  function Grown(s: State, megabytes: int): State {
    if |s.leak| < MAX_LEAK_BLOCKS then s.(leak := s.leak + [megabytes]) else s
  }

  class Service {
    var settings: Settings
    var leak: seq<int>

    function View(): State
      reads this
    {
      State(settings, leak)
    }

    constructor ()
      ensures View() == State(HEALTHY, [])
    {
      settings := HEALTHY;
      leak := [];
    }

    method UpdateState(u: Update) returns (ok: bool)
      modifies this
      ensures View() == Put(old(View()), u)
      ensures ok <==> Acceptable(u)
    {
      if u.cpuWork.None? || u.failureEvery.None? {
        return false;
      }
      if !(Within(u.cpuWork, MAX_CPU_WORK) && Within(u.failureEvery, MAX_FAILURE_EVERY)
           && Within(u.latencyMS, 10000) && Within(u.dependencyFailureEvery, MAX_FAILURE_EVERY)
           && Within(u.retries, 10) && Within(u.maxConcurrency, 1000) && Within(u.memoryMB, 1024)) {
        return false;
      }
      settings := settings.(cpuWork := u.cpuWork.value, failureEvery := u.failureEvery.value);
      if u.latencyMS.Some? {
        settings := settings.(latencyMS := u.latencyMS.value);
      }
      if u.dependencyFailureEvery.Some? {
        settings := settings.(dependencyFailureEvery := u.dependencyFailureEvery.value);
      }
      if u.retries.Some? {
        settings := settings.(retries := u.retries.value);
      }
      if u.maxConcurrency.Some? {
        settings := settings.(maxConcurrency := u.maxConcurrency.value);
      }
      if u.memoryMB.Some? {
        settings := settings.(memoryMB := u.memoryMB.value);
        if settings.memoryMB == 0 {
          leak := [];
        }
      }
      return true;
    }

    method GrowMemory(megabytes: int)
      modifies this
      ensures View() == Grown(old(View()), megabytes)
    {
      if |leak| < MAX_LEAK_BLOCKS {
        leak := leak + [megabytes];
      }
    }
  }

  // A full, in-range update forgets everything: the result does not depend on the state
  // it is applied to, and is the state the update names.
  lemma FullUpdateDetermines(s: Settings, wanted: Settings)
    requires ValidSettings(wanted)
    ensures Updated(s, Full(wanted)) == wanted
  {}

  // An update is accepted exactly when it names the CPU work and the failure interval and
  // every field it names is in its range.
  lemma AcceptableIff(u: Update)
    ensures Acceptable(u) <==>
            && u.cpuWork.Some? && 0 <= u.cpuWork.value <= 20000000
            && u.failureEvery.Some? && 0 <= u.failureEvery.value <= 10000
            && (u.latencyMS.Some? ==> 0 <= u.latencyMS.value <= 10000)
            && (u.dependencyFailureEvery.Some? ==> 0 <= u.dependencyFailureEvery.value <= 10000)
            && (u.retries.Some? ==> 0 <= u.retries.value <= 10)
            && (u.maxConcurrency.Some? ==> 0 <= u.maxConcurrency.value <= 1000)
            && (u.memoryMB.Some? ==> 0 <= u.memoryMB.value <= 1024)
  {}

  // One accepted update after another comes to the update that names what either names, the
  // later value where both do; a rejected one changes nothing.
  function Merged(u: Update, v: Update): Update {
    Update(if v.cpuWork.Some? then v.cpuWork else u.cpuWork,
           if v.failureEvery.Some? then v.failureEvery else u.failureEvery,
           if v.latencyMS.Some? then v.latencyMS else u.latencyMS,
           if v.dependencyFailureEvery.Some? then v.dependencyFailureEvery else u.dependencyFailureEvery,
           if v.retries.Some? then v.retries else u.retries,
           if v.maxConcurrency.Some? then v.maxConcurrency else u.maxConcurrency,
           if v.memoryMB.Some? then v.memoryMB else u.memoryMB)
  }

  lemma UpdatesMerge(s: Settings, wanted: Settings, v: Update)
    requires ValidSettings(wanted)
    ensures Updated(Updated(s, Full(wanted)), v) == Updated(s, if Acceptable(v) then Merged(Full(wanted), v) else Full(wanted))
    ensures Acceptable(v) ==> Full(Updated(wanted, v)) == Merged(Full(wanted), v)
    ensures !Acceptable(v) ==> Updated(s, v) == s
  {}

  /// Leaked memory
  /// -------------

  // A request grows by the size it sampled, which may be older than the latest update.
  datatype Event = PutEvent(update: Update) | Grow(megabytes: int)

  function Run(s: State, events: seq<Event>): State {
    if events == [] then s
    else
      var t, e := Run(s, events[..|events| - 1]), events[|events| - 1];
      if e.PutEvent? then Put(t, e.update) else Grown(t, e.megabytes)
  }

  function Megabytes(leak: seq<int>): int {
    if leak == [] then 0 else Megabytes(leak[..|leak| - 1]) + leak[|leak| - 1]
  }

  predicate Resets(e: Event) {
    e.PutEvent? && Acceptable(e.update) && e.update.memoryMB == Some(0)
  }

  // The sizes requests asked for, in order.
  function Asked(events: seq<Event>): seq<int> {
    if events == [] then []
    else
      var before, e := Asked(events[..|events| - 1]), events[|events| - 1];
      if e.Grow? then before + [e.megabytes] else before
  }

  function First(sizes: seq<int>): seq<int> {
    if |sizes| <= 256 then sizes else sizes[..256]
  }

  // The blocks held are the first 256 that requests have asked for since the last
  // accepted update that set the size to 0; no other update frees or adds one.
  lemma {:induction false} LeakIsFirstAsked(s: State, events: seq<Event>, k: nat)
    requires k <= |events| && (if k == 0 then s.leak == [] else Resets(events[k - 1]))
    requires forall i :: k <= i < |events| ==> !Resets(events[i])
    ensures Run(s, events).leak == First(Asked(events[k..]))
  {
    hide Acceptable;
    var n := |events| - 1;
    if k == |events| {
      assert events[k..] == [];
    } else {
      LeakIsFirstAsked(s, events[..n], k);
      assert events[k..][..n - k] == events[..n][k..];
    }
  }

  // So the memory held stays within 256 blocks of at most 1024 MB each, and settings
  // stay within their ranges.
  lemma LeakBounded(events: seq<Event>, k: nat)
    requires k <= |events| && (k == 0 || Resets(events[k - 1]))
    requires forall i :: k <= i < |events| ==> !Resets(events[i])
    requires forall i :: 0 <= i < |events| && events[i].Grow? ==> 1 <= events[i].megabytes <= 1024
    ensures var s := Run(State(HEALTHY, []), events);
      && ValidSettings(s.settings)
      && |s.leak| <= MAX_LEAK_BLOCKS
      && |s.leak| <= Megabytes(s.leak) <= 1024 * |s.leak| <= 262144
  {
    hide Acceptable;
    LeakIsFirstAsked(State(HEALTHY, []), events, k);
    SettingsStayValid(events);
    AskedInRange(events[k..]);
    MegabytesBound(Run(State(HEALTHY, []), events).leak);
  }

  lemma {:induction false} AskedInRange(events: seq<Event>)
    requires forall i :: 0 <= i < |events| && events[i].Grow? ==> 1 <= events[i].megabytes <= 1024
    ensures forall i :: 0 <= i < |Asked(events)| ==> 1 <= Asked(events)[i] <= 1024
  {
    if events != [] {
      AskedInRange(events[..|events| - 1]);
    }
  }

  lemma {:induction false} MegabytesBound(leak: seq<int>)
    requires forall i :: 0 <= i < |leak| ==> 1 <= leak[i] <= 1024
    ensures |leak| <= Megabytes(leak) <= 1024 * |leak|
  {
    if leak != [] {
      MegabytesBound(leak[..|leak| - 1]);
    }
  }

  lemma {:induction false} SettingsStayValid(events: seq<Event>)
    ensures ValidSettings(Run(State(HEALTHY, []), events).settings)
  {
    if events != [] {
      SettingsStayValid(events[..|events| - 1]);
    }
  }
}
