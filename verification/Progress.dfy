/** Checklist progress (internal/progress/store.go): canonical step lists and a
    copy-on-write map whose file may be torn by a swallowed write error. */
module Progress {
  import opened Wrappers
  import opened Sorting

  const MAX_STEPS := 100
  const MAX_STEP := 999
  const MAX_NOTES := 16000

  // Notes are counted in bytes; a character of `notes` stands for one byte.
  datatype Record = Record(steps: seq<int>, notes: string)

  // The file: absent, a complete encoding of a map, or an incomplete write.
  datatype Disk = Missing | Holds(records: map<string, Record>) | Torn

  // The results of the file-system calls of one Put, in the order they are made.
  datatype IO = IO(mkdir: bool, create: bool, chmod: bool, write: bool, close: bool, rename: bool)

  datatype State = State(records: map<string, Record>, disk: Disk)

  predicate Alphanumeric(c: char) { 'a' <= c <= 'z' || '0' <= c <= '9' }

  predicate ValidID(id: string) {
    && 1 <= |id| <= 63
    && Alphanumeric(id[0])
    && forall i :: 1 <= i < |id| ==> Alphanumeric(id[i]) || id[i] == '-'
  }

  /// Canonical step lists
  /// --------------------

  predicate StepsAllowed(steps: seq<int>) {
    |steps| <= MAX_STEPS && forall i :: 0 <= i < |steps| ==> 0 <= steps[i] <= MAX_STEP
  }

  ghost predicate Canonical(steps: seq<int>) {
    StepsAllowed(steps) && StrictlySorted(steps, IntLeq)
  }

  // Duplicate-free steps in any order; map iteration order is unspecified.
  method Distinguish(steps: seq<int>) returns (members: seq<int>)
    ensures Distinct(members)
    ensures forall x :: x in members <==> x in steps
    ensures |members| <= |steps|
  {
    var found: set<int> := {};
    for i := 0 to |steps|
      invariant found == set j | 0 <= j < i :: steps[j]
      invariant |found| <= i
    {
      found := found + {steps[i]};
    }
    members := [];
    var rest := found;
    while rest != {}
      invariant Distinct(members)
      invariant forall x :: x in members <==> x in found && x !in rest
      invariant rest <= found && |members| + |rest| == |found|
      decreases rest
    {
      assert (forall x: int :: x !in rest) ==> rest == {};
      var step: int :| step in rest;
      rest := rest - {step};
      members := members + [step];
    }
  }

  method Normalize(steps: seq<int>) returns (r: Result<seq<int>>)
    ensures r.Ok? <==> StepsAllowed(steps)
    ensures r.Ok? ==> Canonical(r.value) && forall x :: x in r.value <==> x in steps
  {
    if |steps| > MAX_STEPS {
      return Err;
    }
    for i := 0 to |steps|
      invariant forall j :: 0 <= j < i ==> 0 <= steps[j] <= MAX_STEP
    {
      if steps[i] < 0 || steps[i] > MAX_STEP {
        return Err;
      }
    }
    var members := Distinguish(steps);
    SortDistinct(members, IntLeq);
    var sorted := Sort(members, IntLeq);
    forall i | 0 <= i < |sorted| ensures 0 <= sorted[i] <= MAX_STEP {
      assert sorted[i] in sorted;
    }
    return Ok(sorted);
  }

  // The canonical form as a function: it does not depend on iteration order.
  function CanonicalForm(steps: seq<int>): seq<int> {
    Sort(Dedup(steps), IntLeq)
  }

  function Dedup(steps: seq<int>): seq<int> {
    if steps == [] then []
    else if steps[0] in steps[1..] then Dedup(steps[1..])
    else [steps[0]] + Dedup(steps[1..])
  }

  lemma {:induction false} DedupMembers(steps: seq<int>)
    ensures Distinct(Dedup(steps)) && |Dedup(steps)| <= |steps|
    ensures forall x :: x in Dedup(steps) <==> x in steps
  {
    if steps != [] {
      assert steps == [steps[0]] + steps[1..];
      DedupMembers(steps[1..]);
    }
  }

  // There is one canonical list for each set of steps, and it is the canonical form.
  lemma CanonicalUnique(steps: seq<int>, canonical: seq<int>)
    requires StepsAllowed(steps) && Canonical(canonical) && forall x :: x in canonical <==> x in steps
    ensures canonical == CanonicalForm(steps)
  {
    DedupMembers(steps);
    SortDistinct(Dedup(steps), IntLeq);
    forall x ensures x in canonical <==> x in CanonicalForm(steps) {
      assert x in CanonicalForm(steps) <==> x in Dedup(steps);
    }
    StrictlySortedUnique(canonical, CanonicalForm(steps), IntLeq);
  }

  // Lists with the same elements have the same form, and a canonical list is its own form.
  lemma CanonicalIdempotent(steps: seq<int>)
    requires Canonical(steps)
    ensures CanonicalForm(steps) == steps
  {
    CanonicalUnique(steps, steps);
  }

  /// The store
  /// ---------

  predicate PutAllowed(id: string, steps: seq<int>, notes: string) {
    ValidID(id) && StepsAllowed(steps) && |notes| <= MAX_NOTES
  }

  // A failed chmod or write is swallowed; a failed close is not.
  predicate Committed(io: IO) {
    io.mkdir && io.create && io.close && io.rename
  }

  function PutState(s: State, id: string, steps: seq<int>, notes: string, io: IO): State {
    if !PutAllowed(id, steps, notes) || !Committed(io) then s
    else
      var next := s.records[id := Record(CanonicalForm(steps), notes)];
      State(next, if io.chmod && io.write then Holds(next) else Torn)
  }

  // What opening a file gives: every identifier and step list is checked again.
  function OpenResult(disk: Disk): Result<map<string, Record>> {
    match disk
    case Missing => Ok(map[])
    case Torn => Err
    case Holds(records) =>
      if forall id :: id in records ==> ValidID(id) && StepsAllowed(records[id].steps)
      then Ok(map id | id in records :: records[id].(steps := CanonicalForm(records[id].steps)))
      else Err
  }

  // One pass over the decoded map, as opening a store makes it.
  method OpenRecords(disk: Disk) returns (r: Result<map<string, Record>>)
    ensures r == OpenResult(disk)
  {
    match disk
    case Missing => return Ok(map[]);
    case Torn => return Err;
    case Holds(records) =>
      var result: map<string, Record> := map[];
      var rest := records.Keys;
      while rest != {}
        invariant rest <= records.Keys && result.Keys == records.Keys - rest
        invariant forall id :: id in result ==>
          ValidID(id) && StepsAllowed(records[id].steps)
          && result[id] == records[id].(steps := CanonicalForm(records[id].steps))
        decreases rest
      {
        var id :| id in rest;
        if !ValidID(id) {
          return Err;
        }
        var steps := Normalize(records[id].steps);
        if steps.Err? {
          return Err;
        }
        CanonicalUnique(records[id].steps, steps.value);
        result := result[id := records[id].(steps := steps.value)];
        rest := rest - {id};
      }
      assert result == map id | id in records :: records[id].(steps := CanonicalForm(records[id].steps));
      return Ok(result);
  }

  class Store {
    var records: map<string, Record>
    var disk: Disk

    function View(): State
      reads this
    {
      State(records, disk)
    }

    constructor (records: map<string, Record>, disk: Disk)
      requires OpenResult(disk) == Ok(records)
      ensures View() == State(records, disk)
    {
      this.records := records;
      this.disk := disk;
    }

    method Put(id: string, steps: seq<int>, notes: string, io: IO) returns (r: Result<Record>)
      modifies this
      ensures View() == PutState(old(View()), id, steps, notes, io)
      ensures r == if PutAllowed(id, steps, notes) && Committed(io)
                   then Ok(Record(CanonicalForm(steps), notes)) else Err
    {
      if !ValidID(id) {
        return Err;
      }
      var normal := Normalize(steps);
      if normal.Err? {
        return Err;
      }
      CanonicalUnique(steps, normal.value);
      if |notes| > MAX_NOTES {
        return Err;
      }
      var record := Record(normal.value, notes);
      var next := records[id := record];
      if !io.mkdir {
        return Err;
      }
      if !io.create {
        return Err;
      }
      var complete := false;
      if io.chmod {
        complete := io.write;
      }
      if !io.close {
        return Err;
      }
      if !io.rename {
        return Err;
      }
      disk := if complete then Holds(next) else Torn;
      records := next;
      return Ok(record);
    }
  }

  /// What holds over every sequence of Puts and restarts
  /// ---------------------------------------------------

  datatype Put = Put(id: string, steps: seq<int>, notes: string, io: IO)

  datatype Event = Change(put: Put) | Reopen

  // A process with an open store, or one that could not open its file.
  datatype Server = Serving(state: State) | Refusing(disk: Disk)

  function Step(s: Server, e: Event): Server {
    match s
    case Refusing(_) => s
    case Serving(state) =>
      match e
      case Change(p) => Serving(PutState(state, p.id, p.steps, p.notes, p.io))
      case Reopen =>
        var loaded := OpenResult(state.disk);
        if loaded.Ok? then Serving(State(loaded.value, state.disk)) else Refusing(state.disk)
  }

  function Run(s: Server, events: seq<Event>): Server {
    if events == [] then s else Step(Run(s, events[..|events| - 1]), events[|events| - 1])
  }

  predicate Takes(p: Put) { PutAllowed(p.id, p.steps, p.notes) && Committed(p.io) }

  predicate Clean(p: Put) { p.io.chmod && p.io.write }

  ghost predicate CanonicalRecords(records: map<string, Record>) {
    forall id :: id in records ==>
      ValidID(id) && Canonical(records[id].steps) && |records[id].notes| <= MAX_NOTES
  }

  // No file, or one that holds canonical records.
  ghost predicate Whole(disk: Disk) {
    disk.Missing? || (disk.Holds? && CanonicalRecords(disk.records))
  }

  function Stored(disk: Disk): map<string, Record> {
    if disk.Holds? then disk.records else map[]
  }

  function Start(disk: Disk): Server {
    Serving(State(Stored(disk), disk))
  }

  // The last Put that reported success for an identifier, if any.
  function LastTaken(events: seq<Event>, id: string): Option<Put> {
    if events == [] then None
    else
      var last := events[|events| - 1];
      if last.Change? && Takes(last.put) && last.put.id == id then Some(last.put)
      else LastTaken(events[..|events| - 1], id)
  }

  // The last Put that reported success for any identifier.
  function LastWrite(events: seq<Event>): Option<Put> {
    if events == [] then None
    else
      var last := events[|events| - 1];
      if last.Change? && Takes(last.put) then Some(last.put) else LastWrite(events[..|events| - 1])
  }

  // The last Put that took effect was not written in full, though it reported success.
  predicate TornBy(events: seq<Event>) {
    LastWrite(events).Some? && !Clean(LastWrite(events).value)
  }

  // Some restart finds a torn file.
  ghost predicate Breaks(events: seq<Event>) {
    exists k :: 0 <= k < |events| && events[k].Reopen? && TornBy(events[..k])
  }

  lemma BreaksNext(events: seq<Event>)
    requires events != []
    ensures var n := |events| - 1;
      Breaks(events) <==> Breaks(events[..n]) || (events[n].Reopen? && TornBy(events[..n]))
  {
    hide TornBy;
    var n := |events| - 1;
    forall k | 0 <= k < n ensures events[..n][..k] == events[..k] {}
    if Breaks(events[..n]) {
      var k :| 0 <= k < n && events[..n][k].Reopen? && TornBy(events[..n][..k]);
      assert events[k].Reopen? && TornBy(events[..k]);
    }
    if Breaks(events) {
      var k :| 0 <= k < |events| && events[k].Reopen? && TornBy(events[..k]);
      if k < n {
        assert events[..n][k].Reopen? && TornBy(events[..n][..k]);
      }
    }
  }

  // Memory: for each identifier the canonical form of the last successful Put, or what
  // was stored at the start.
  ghost predicate Latest(records: map<string, Record>, start: Disk, events: seq<Event>) {
    forall id :: match LastTaken(events, id)
                 case None => (id in records <==> id in Stored(start)) && (id in records ==> records[id] == Stored(start)[id])
                 case Some(p) => id in records && records[id] == Record(CanonicalForm(p.steps), p.notes)
  }

  // The file: untouched, complete, or torn by the last successful Put.
  function FileAfter(start: Disk, events: seq<Event>, records: map<string, Record>): Disk {
    match LastWrite(events)
    case None => start
    case Some(p) => if Clean(p) then Holds(records) else Torn
  }

  lemma {:induction false} NothingTaken(events: seq<Event>, id: string)
    requires LastWrite(events).None?
    ensures LastTaken(events, id) == None
  {
    if events != [] {
      NothingTaken(events[..|events| - 1], id);
    }
  }

  // A file a clean Put wrote is accepted by Open and gives back the same records.
  lemma OpenReproduces(records: map<string, Record>)
    requires CanonicalRecords(records)
    ensures OpenResult(Holds(records)) == Ok(records)
  {
    forall id | id in records ensures CanonicalForm(records[id].steps) == records[id].steps {
      CanonicalIdempotent(records[id].steps);
    }
    var reread := map id | id in records :: records[id].(steps := CanonicalForm(records[id].steps));
    assert reread == records;
  }

  // Opening the file after any events reproduces memory, unless the file is torn.
  lemma OpensIff(start: Disk, events: seq<Event>, records: map<string, Record>)
    requires Whole(start) && CanonicalRecords(records) && Latest(records, start, events)
    ensures var loaded := OpenResult(FileAfter(start, events, records));
      if TornBy(events) then loaded.Err? else loaded == Ok(records)
  {
    hide CanonicalRecords;
    OpenReproduces(records);
    if LastWrite(events).None? {
      forall id ensures (id in records <==> id in Stored(start)) && (id in records ==> records[id] == Stored(start)[id]) {
        NothingTaken(events, id);
      }
      assert records == Stored(start);
    }
  }

  lemma TakenNext(events: seq<Event>, p: Put, id: string)
    ensures var all := events + [Change(p)];
      LastTaken(all, id) == if Takes(p) && p.id == id then Some(p) else LastTaken(events, id)
    ensures LastWrite(events + [Change(p)]) == if Takes(p) then Some(p) else LastWrite(events)
  {
    assert (events + [Change(p)])[..|events|] == events;
  }

  lemma LatestNext(records: map<string, Record>, start: Disk, events: seq<Event>, p: Put)
    requires Latest(records, start, events)
    ensures !Takes(p) ==> Latest(records, start, events + [Change(p)])
    ensures Takes(p) ==> Latest(records[p.id := Record(CanonicalForm(p.steps), p.notes)], start, events + [Change(p)])
  {
    hide Takes, LastTaken, CanonicalForm;
    forall id { TakenNext(events, p, id); }
  }

  lemma FormIsCanonical(steps: seq<int>)
    requires StepsAllowed(steps)
    ensures Canonical(CanonicalForm(steps)) && forall x :: x in CanonicalForm(steps) <==> x in steps
  {
    DedupMembers(steps);
    SortDistinct(Dedup(steps), IntLeq);
    var c := CanonicalForm(steps);
    forall i | 0 <= i < |c| ensures 0 <= c[i] <= MAX_STEP {
      assert c[i] in c;
    }
  }

  lemma CanonicalNext(records: map<string, Record>, p: Put)
    requires CanonicalRecords(records) && Takes(p)
    ensures CanonicalRecords(records[p.id := Record(CanonicalForm(p.steps), p.notes)])
  {
    FormIsCanonical(p.steps);
    hide Canonical, CanonicalForm;
  }

  lemma PutTaken(s: State, start: Disk, events: seq<Event>, p: Put)
    requires CanonicalRecords(s.records) && Latest(s.records, start, events)
    requires s.disk == FileAfter(start, events, s.records)
    ensures var t, all := PutState(s, p.id, p.steps, p.notes, p.io), events + [Change(p)];
      CanonicalRecords(t.records) && Latest(t.records, start, all) && t.disk == FileAfter(start, all, t.records)
  {
    hide CanonicalRecords, Latest, CanonicalForm, PutAllowed, Committed, LastWrite, LastTaken;
    TakenNext(events, p, p.id);
    LatestNext(s.records, start, events, p);
    if Takes(p) {
      CanonicalNext(s.records, p);
    }
  }

  // Over any Puts, failed ones included, and any restarts, from any whole file: the
  // process serves exactly as long as no restart has found a torn file; then memory holds
  // for each identifier the canonical form of the last successful Put, and the file the
  // same map unless that Put tore it.
  lemma {:induction false} PutsKeepCanonicalRecords(start: Disk, events: seq<Event>)
    requires Whole(start)
    ensures var t := Run(Start(start), events);
      && (t.Serving? <==> !Breaks(events))
      && (t.Serving? ==>
            && CanonicalRecords(t.state.records) && Latest(t.state.records, start, events)
            && t.state.disk == FileAfter(start, events, t.state.records))
  {
    if events != [] {
      hide Breaks, CanonicalRecords, OpenResult, PutState, Whole, Latest, FileAfter, TornBy;
      var n := |events| - 1;
      var before, e := events[..n], events[n];
      PutsKeepCanonicalRecords(start, before);
      BreaksNext(events);
      assert events == before + [e];
      var s := Run(Start(start), before);
      if s.Serving? {
        match e {
          case Change(p) => PutTaken(s.state, start, before, p);
          case Reopen => OpensIff(start, before, s.state.records);
        }
      }
    }
  }

  // A restart after any such events reproduces memory if and only if the last successful
  // Put, if there was one, had its chmod and write succeed; otherwise the store no longer
  // opens although every Put that took effect reported success.
  lemma ReopenIff(start: Disk, events: seq<Event>)
    requires Whole(start) && !Breaks(events)
    ensures var s := Run(Start(start), events);
      s.Serving? && Step(s, Reopen) == if TornBy(events) then Refusing(s.state.disk) else s
  {
    PutsKeepCanonicalRecords(start, events);
    OpensIff(start, events, Run(Start(start), events).state.records);
  }

  // A Put that reports success over a swallowed write error, after which the store
  // does not open.
  lemma SwallowedWriteError()
    ensures var put := Put("a", [1], "", IO(true, true, true, false, true, true));
      Takes(put) && Run(Start(Missing), [Change(put), Reopen]).Refusing?
  {
    var put := Put("a", [1], "", IO(true, true, true, false, true, true));
    var events := [Change(put), Reopen];
    assert events[..1] == [Change(put)] && [Change(put)][..0] == [];
    assert Run(Start(Missing), []) == Start(Missing);
    assert Run(Start(Missing), [Change(put)]) == Step(Start(Missing), Change(put));
  }

  /// What is accepted
  /// ----------------

  // A checklist identifier: 1 to 63 small letters, digits and hyphens, no hyphen in front.
  ghost predicate Slug(id: string) {
    && 1 <= |id| <= 63 && id[0] != '-'
    && forall c :: c in id ==> 'a' <= c <= 'z' || '0' <= c <= '9' || c == '-'
  }

  ghost predicate Steps(steps: seq<int>) {
    |steps| <= 100 && forall x :: x in steps ==> 0 <= x <= 999
  }

  // A Put reports success exactly for such an identifier, at most 100 steps from 0 to 999 and
  // at most 16000 bytes of notes, when the directory, the temporary file, its close and its
  // rename succeed; chmod and write do not count. It leaves the store alone otherwise.
  lemma PutIff(s: State, p: Put)
    ensures Takes(p) <==>
            && Slug(p.id) && Steps(p.steps) && |p.notes| <= 16000
            && p.io.mkdir && p.io.create && p.io.close && p.io.rename
    ensures !Takes(p) ==> PutState(s, p.id, p.steps, p.notes, p.io) == s
  {
    assert p.id != "" ==> p.id[0] in p.id;
    forall i | 0 <= i < |p.id| ensures p.id[i] in p.id {}
    forall i | 0 <= i < |p.steps| ensures p.steps[i] in p.steps {}
    SlugIff(p.id);
  }

  lemma SlugIff(id: string)
    ensures ValidID(id) <==> Slug(id)
  {
    if Slug(id) {
      forall i | 0 <= i < |id| ensures Alphanumeric(id[i]) || id[i] == '-' {
        assert id[i] in id;
      }
      assert id[0] in id;
    }
  }

  // A file opens exactly when it is absent, or complete with only such identifiers and steps;
  // then each step list is in its canonical form and each note as it was.
  lemma OpenIff(disk: Disk)
    ensures var r := OpenResult(disk);
      && (r.Ok? <==> disk.Missing?
                     || (disk.Holds? && forall id :: id in disk.records ==> Slug(id) && Steps(disk.records[id].steps)))
      && (r.Ok? ==> forall id ::
            && (id in r.value <==> id in Stored(disk))
            && (id in r.value ==>
                  r.value[id].notes == Stored(disk)[id].notes && Canonical(r.value[id].steps)
                  && forall x :: x in r.value[id].steps <==> x in Stored(disk)[id].steps))
  {
    if disk.Holds? {
      forall id | id in disk.records
        ensures ValidID(id) <==> Slug(id)
        ensures StepsAllowed(disk.records[id].steps) <==> Steps(disk.records[id].steps) {
        SlugIff(id);
        forall i | 0 <= i < |disk.records[id].steps| ensures disk.records[id].steps[i] in disk.records[id].steps {}
      }
      forall id | id in disk.records && StepsAllowed(disk.records[id].steps)
        ensures Canonical(CanonicalForm(disk.records[id].steps))
        ensures forall x :: x in CanonicalForm(disk.records[id].steps) <==> x in disk.records[id].steps {
        FormIsCanonical(disk.records[id].steps);
      }
    }
  }
}
