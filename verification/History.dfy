/** The bounded run history (internal/history/history.go): an in-memory list of the
    most recent records and the file that a successful persist replaces. */
module History {
  import opened Wrappers
  import opened Floats

  const LIMIT := 100

  datatype Record = Record(runID: string, scenario: string, passed: bool,
                           availability: Float, p95: Float, score: int)

  // The in-memory list and the content of the file, if there is one.
  datatype State = State(memory: seq<Record>, disk: Option<seq<Record>>)

  // A non-finite float64 has no JSON encoding.
  predicate Encodable(r: Record) {
    r.availability.Finite? && r.p95.Finite?
  }

  predicate AllEncodable(records: seq<Record>) {
    forall i :: 0 <= i < |records| ==> Encodable(records[i])
  }

  function Keep(records: seq<Record>): seq<Record> {
    if |records| > LIMIT then records[|records| - LIMIT..] else records
  }

  function Opened(disk: Option<seq<Record>>): State {
    State(if disk.Some? then Keep(disk.value) else [], disk)
  }

  // `io` says whether the file system lets the temporary file replace the old one.
  function Added(s: State, record: Record, io: bool): State {
    var memory := Keep(s.memory + [record]);
    State(memory, if AllEncodable(memory) && io then Some(memory) else s.disk)
  }

  class Store {
    var records: seq<Record>
    var disk: Option<seq<Record>>

    function View(): State
      reads this
    {
      State(records, disk)
    }

    constructor Open(disk: Option<seq<Record>>)
      ensures View() == Opened(disk)
    {
      this.disk := disk;
      if disk.Some? {
        if |disk.value| > LIMIT {
          records := disk.value[|disk.value| - LIMIT..];
        } else {
          records := disk.value;
        }
      } else {
        records := [];
      }
    }

    method Add(record: Record, io: bool) returns (ok: bool)
      modifies this
      ensures View() == Added(old(View()), record, io)
      ensures ok <==> AllEncodable(records) && io
    {
      records := records + [record];
      if |records| > LIMIT {
        records := records[|records| - LIMIT..];
      }
      ok := Marshal(records);
      if !ok {
        return;
      }
      ok := io;
      if ok {
        disk := Some(records);
      }
    }
  }

  method Marshal(records: seq<Record>) returns (ok: bool)
    ensures ok <==> AllEncodable(records)
  {
    ok := true;
    for i := 0 to |records|
      invariant ok <==> AllEncodable(records[..i])
    {
      if !Encodable(records[i]) {
        return false;
      }
      assert records[..i + 1] == records[..i] + [records[i]];
    }
    assert records[..|records|] == records;
  }

  /// The unbounded history the store stands for
  /// ------------------------------------------

  datatype Event = Add(record: Record, io: bool) | Reopen

  // Every record ever added, and every record that had been added when a persist
  // last succeeded. `fits` is the encoding condition on the window to be written.
  datatype Log = Log(all: seq<Record>, saved: Option<seq<Record>>)

  function LastHundred(records: seq<Record>): seq<Record> {
    if |records| <= 100 then records else records[|records| - 100..]
  }

  function Window(log: Log): State {
    State(LastHundred(log.all), if log.saved.Some? then Some(LastHundred(log.saved.value)) else None)
  }

  function LogStep(log: Log, e: Event): Log {
    match e
    case Add(record, io) =>
      var all := log.all + [record];
      Log(all, if io && AllEncodable(Keep(all)) then Some(all) else log.saved)
    case Reopen =>
      Log(if log.saved.Some? then log.saved.value else [], log.saved)
  }

  function LogRun(log: Log, events: seq<Event>): Log {
    if events == [] then log
    else LogStep(LogRun(log, events[..|events| - 1]), events[|events| - 1])
  }

  function StoreStep(s: State, e: Event): State {
    match e
    case Add(record, io) => Added(s, record, io)
    case Reopen => Opened(s.disk)
  }

  function StoreRun(s: State, events: seq<Event>): State {
    if events == [] then s
    else StoreStep(StoreRun(s, events[..|events| - 1]), events[|events| - 1])
  }

  lemma KeepTwice(a: seq<Record>, b: seq<Record>)
    ensures Keep(Keep(a) + b) == Keep(a + b)
  {
    if |a| > LIMIT {
      var cut := |a| - LIMIT;
      assert a + b == a[..cut] + (Keep(a) + b);
    }
  }

  // The bounded store is a window on the unbounded log: whatever mix of adds, failed
  // persists and restarts happened, memory is the last 100 of all records added since
  // the saved ones were loaded, and the file holds the last 100 of the log as it was
  // at the last persist that succeeded.
  lemma {:induction false} StoreIsWindow(log: Log, events: seq<Event>)
    ensures StoreRun(Window(log), events) == Window(LogRun(log, events))
  {
    if events != [] {
      var before := events[..|events| - 1];
      StoreIsWindow(log, before);
      var l := LogRun(log, before);
      match events[|events| - 1] {
        case Add(record, io) => KeepTwice(l.all, [record]);
        case Reopen =>
          if l.saved.Some? { KeepTwice(l.saved.value, []); assert Keep(l.saved.value) + [] == Keep(l.saved.value);
                             assert l.saved.value + [] == l.saved.value; }
      }
    }
  }

  // Opening a file keeps its last hundred records.
  lemma OpenedIs(disk: Option<seq<Record>>)
    ensures Opened(disk) == State(LastHundred(if disk.Some? then disk.value else []), disk)
  {}

  // Opening any file this store wrote puts it inside the theorem above.
  lemma OpenedIsWindow(disk: Option<seq<Record>>)
    requires disk.Some? ==> |disk.value| <= 100
    ensures Opened(disk) == Window(Log(if disk.Some? then disk.value else [], disk))
  {}

  // An add reaches the file exactly when the file system allows it and none of the last
  // 100 records holds a non-finite sample; then a restart gives back the same memory.
  lemma AddSavesIff(s: State, record: Record, io: bool)
    ensures var t := Added(s, record, io);
      if io && forall r :: r in s.memory[Cut(s)..] + [record] ==> Encodable(r)
      then t.disk == Some(t.memory) && Opened(t.disk) == t
      else t.disk == s.disk
  {
    var kept := Keep(s.memory + [record]);
    assert kept == s.memory[Cut(s)..] + [record];
    if !AllEncodable(kept) {
      var i :| 0 <= i < |kept| && !Encodable(kept[i]);
      assert kept[i] in kept;
    }
  }

  // Where the records that survive the next add begin.
  function Cut(s: State): nat {
    if |s.memory| >= LIMIT then |s.memory| - (LIMIT - 1) else 0
  }

  ghost predicate OnlyAdds(events: seq<Event>) {
    forall i :: 0 <= i < |events| ==> events[i].Add?
  }

  // One non-finite sample blocks the file: of the next 99 adds none is saved, however
  // well the file system behaves.
  lemma {:induction false} NonFiniteBlocksFile(s: State, bad: Record, io: bool, later: seq<Event>)
    requires !Encodable(bad) && OnlyAdds(later) && |later| < LIMIT
    ensures StoreRun(Added(s, bad, io), later).disk == s.disk
    ensures var m := StoreRun(Added(s, bad, io), later).memory;
      |m| > |later| && m[|m| - 1 - |later|] == bad
  {
    if later == [] {
      var m := Added(s, bad, io).memory;
      assert m[|m| - 1] == bad;
    } else {
      var before := later[..|later| - 1];
      NonFiniteBlocksFile(s, bad, io, before);
      var m := StoreRun(Added(s, bad, io), before).memory;
      var next := Keep(m + [later[|later| - 1].record]);
      assert next[|next| - 1 - |later|] == bad;
    }
  }

  // The hundredth finite add after it pushes the sample out, and is saved.
  lemma NonFiniteLeaves(s: State, later: seq<Event>)
    requires OnlyAdds(later) && |later| == LIMIT && later[LIMIT - 1].io
    requires forall i :: 0 <= i < LIMIT ==> Encodable(later[i].record)
    ensures var t := StoreRun(s, later); t.disk == Some(t.memory) && |t.memory| == LIMIT
  {
    MemoryIs(s, later);
    var t, records := StoreRun(s, later), Records(later);
    assert t.memory == records;
    forall i | 0 <= i < |t.memory| ensures Encodable(t.memory[i]) {
      assert t.memory[i] == later[i].record;
    }
  }

  function Records(adds: seq<Event>): seq<Record>
    requires OnlyAdds(adds)
  {
    seq(|adds|, i requires 0 <= i < |adds| => adds[i].record)
  }

  lemma {:induction false} MemoryIs(s: State, adds: seq<Event>)
    requires OnlyAdds(adds) && adds != []
    ensures StoreRun(s, adds).memory == Keep(s.memory + Records(adds))
  {
    var n := |adds| - 1;
    var last := adds[n].record;
    if n == 0 {
      assert Records(adds) == [last];
    } else {
      var before := Records(adds[..n]);
      MemoryIs(s, adds[..n]);
      KeepTwice(s.memory + before, [last]);
      assert Records(adds) == before + [last];
      assert s.memory + Records(adds) == s.memory + before + [last];
    }
  }
}
