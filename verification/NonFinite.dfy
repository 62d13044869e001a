/** Where values that are not finite numbers get in: an objective that validation accepts,
    and a sample that keeps the run history from being written. */
module NonFinite {
  import opened Wrappers
  import opened Floats
  import opened Scenarios
  import opened Runtime
  import opened RuntimeInvariant
  import opened RuntimePaths
  import opened Attainment
  import History

  /// An objective no evidence meets
  /// ------------------------------

  const TRAFFIC := Traffic("constant", FromInt(1), 1, ZERO, ZERO, 0, 0, ZERO, ZERO, 0, 0, 0)
  const CPU_FAULT := Fault(APITarget, CpuWork, FaultConfig(1, ZERO, 0, 0, 0, 0, 0))

  // A definition whose availability objective is not a number, and nothing else odd.
  function Uncomparable(id: ScenarioId): Scenario {
    Scenario(SCHEMA_VERSION, id, "Title", Beginner, "Text", ["Learn"], "Goal", ["One", "Two"],
             ["None"], ["curl"], ["Guess"], true, true, TRAFFIC, [CPU_FAULT], Objectives(NaN, 100),
             Grading(ServiceRecovery, 1, 1, FromInt(1)), ["Hint"], 1, 1)
  }

  lemma Letter(s: string)
    requires s != [] && 'A' <= s[0] <= 'z'
    ensures !Blank(s) && StringsOk([s])
  {
    assert !IsSpace(s[0]);
  }

  // Validation accepts it under every required identifier.
  lemma UncomparableAccepted(id: ScenarioId)
    requires Required(id)
    ensures Valid(Uncomparable(id))
    ensures Attainable(Uncomparable(id)) <==> !ServiceExercise(id)
  {
    Letter("Title"); Letter("Text"); Letter("Goal"); Letter("Learn"); Letter("None"); Letter("curl");
    Letter("Guess"); Letter("Hint");
    hide Blank, StringsOk;
    assert FaultValid(CPU_FAULT) && TrafficValid(TRAFFIC);
    hide FaultValid, TrafficValid;
  }

  // Every required exercise, with such an objective.
  function UncomparableConfig(gateway: bool): Config {
    Config(map id | id in REQUIRED :: Uncomparable(id), gateway)
  }

  lemma UncomparableLookup(gateway: bool)
    ensures var c := UncomparableConfig(gateway);
      forall id :: (id in c.catalog <==> Required(id)) && (id in c.catalog ==> c.catalog[id] == Uncomparable(id))
  {
    hide REQUIRED, Required, Uncomparable;
    RequiredIds();
  }

  lemma UncomparableCatalog(gateway: bool)
    ensures var c := UncomparableConfig(gateway);
      && ValidConfig(c)
      && forall id :: Required(id) ==>
           Valid(c.catalog[id]) && (Attainable(c.catalog[id]) <==> !ServiceExercise(id))
  {
    hide UncomparableConfig, Uncomparable, Valid, Attainable, Required, ServiceExercise;
    UncomparableLookup(gateway);
    forall id | Required(id) ensures Valid(Uncomparable(id)) && Uncomparable(id).id == id
                                     && (Attainable(Uncomparable(id)) <==> !ServiceExercise(id)) {
      UncomparableAccepted(id);
      UncomparableId(id);
    }
  }

  // So there is a catalog, every definition of which is accepted, whose ten service
  // exercises can never be passed.
  lemma NeverPassed(gateway: bool, s: Sys, input: CheckInput)
    requires s.active.Some? && ServiceExercise(s.active.value.scenario)
    ensures var c := UncomparableConfig(gateway);
      && ValidConfig(c) && (forall id :: Required(id) ==> Valid(c.catalog[id]))
      && Check(c, s, input).report.Report? && !Check(c, s, input).report.passed
  {
    var c := UncomparableConfig(gateway);
    UncomparableCatalog(gateway);
    hide Valid, UncomparableConfig, Check, Attainable;
    CheckStores(c, s, input);
    if Check(c, s, input).report.passed {
      CheckAttainable(c, s, input);
    }
  }

  lemma UncomparableId(id: ScenarioId)
    ensures Uncomparable(id).id == id
  {}

  /// A sample that blocks the history
  /// --------------------------------

  ghost predicate KeptEncodable(h: History.State) {
    forall r :: r in h.memory[History.Cut(h)..] ==> History.Encodable(r)
  }

  // A check saves the history exactly when the file system allows it, its own availability
  // and latency are finite, and so are the 99 records before it.
  lemma CheckSavesIff(c: Config, s: Sys, input: CheckInput)
    requires s.active.Some? && s.active.value.scenario in c.catalog
    ensures var d, e := Check(c, s, input), ServiceEvidence(input.good, input.total, input.p95);
      && d.report.Report?
      && (d.report.historySaved <==>
            input.historyIO && e.availability.Finite? && e.p95.Finite? && KeptEncodable(s.history))
      && d.sys.history.disk == (if d.report.historySaved then Some(d.sys.history.memory) else s.history.disk)
  {
    var r := s.active.value;
    var item, e := c.catalog[r.scenario], ServiceEvidence(input.good, input.total, input.p95);
    var record := HistoryRecord(r, item, e, s.profile, input.profileIO);
    assert History.Encodable(record) <==> e.availability.Finite? && e.p95.Finite?;
    AddedEncodable(s.history, record);
    hide Check, HistoryRecord, ServiceEvidence, History.Encodable, History.AllEncodable;
  }

  lemma AddedEncodable(h: History.State, record: History.Record)
    ensures History.AllEncodable(History.Keep(h.memory + [record])) <==> KeptEncodable(h) && History.Encodable(record)
  {
    hide History.Encodable;
    var before, kept := h.memory[History.Cut(h)..], History.Keep(h.memory + [record]);
    assert kept == before + [record];
    if History.AllEncodable(kept) {
      assert History.Encodable(kept[|before|]);
      forall r | r in before ensures History.Encodable(r) {
        var i :| 0 <= i < |before| && before[i] == r;
        assert kept[i] == r;
      }
    }
    if KeptEncodable(h) && History.Encodable(record) {
      forall i | 0 <= i < |kept| ensures History.Encodable(kept[i]) {
        if i < |before| { assert kept[i] in before; }
      }
    }
  }

  // A latency query that returns no number, as over a window without requests, blocks the
  // file: this check is not saved, nor is any of the next 99 records.
  lemma NoLatencyBlocksHistory(c: Config, s: Sys, input: CheckInput, later: seq<History.Event>)
    requires s.active.Some? && s.active.value.scenario in c.catalog && input.p95.value.NaN?
    requires History.OnlyAdds(later) && |later| < History.LIMIT
    ensures var d := Check(c, s, input);
      && d.report.Report? && !d.report.historySaved && d.sys.history.disk == s.history.disk
      && History.StoreRun(d.sys.history, later).disk == s.history.disk
  {
    var r := s.active.value;
    var item, e := c.catalog[r.scenario], ServiceEvidence(input.good, input.total, input.p95);
    assert e.p95.NaN?;
    var record := HistoryRecord(r, item, e, s.profile, input.profileIO);
    assert !History.Encodable(record);
    hide Check, HistoryRecord, ServiceEvidence, History.Encodable, History.StoreRun, History.Added;
    CheckSavesIff(c, s, input);
    History.NonFiniteBlocksFile(s.history, record, input.historyIO, later);
  }
}
