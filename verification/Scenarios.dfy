/** The installed exercise catalog (internal/scenario/scenario.go): validation of decoded
    definitions, and loading a catalog that is complete and free of duplicates. */
module Scenarios {
  import opened Wrappers
  import opened Floats

  const SCHEMA_VERSION := 1
  const MAX_RATE := 1000
  const MAX_DURATION := 3600000000000  // one hour in nanoseconds

  // A decoded identifier: one of the thirteen required ones, or any other text.
  datatype ScenarioId =
    | CpuSaturation | UsefulAlerts | SloBurnRate | VerticalHorizontal | DependencyBottleneck
    | ConnectionPool | LatencySlo | DnsFailure | RetryStorm | MemoryLeak | AutoscalerOscillation
    | FileForensics | BlockedTraffic
    | Unknown(text: string)

  function Name(id: ScenarioId): string {
    match id
    case CpuSaturation => "cpu-saturation"
    case UsefulAlerts => "useful-alerts"
    case SloBurnRate => "slo-burn-rate"
    case VerticalHorizontal => "vertical-horizontal"
    case DependencyBottleneck => "dependency-bottleneck"
    case ConnectionPool => "connection-pool"
    case LatencySlo => "latency-slo"
    case DnsFailure => "dns-failure"
    case RetryStorm => "retry-storm"
    case MemoryLeak => "memory-leak"
    case AutoscalerOscillation => "autoscaler-oscillation"
    case FileForensics => "file-forensics"
    case BlockedTraffic => "blocked-traffic"
    case Unknown(text) => text
  }

  // The required names differ in length or first character.
  function NamedBy(length: nat, first: char): ScenarioId {
    if length == 22 then AutoscalerOscillation
    else if length == 21 then DependencyBottleneck
    else if length == 19 then VerticalHorizontal
    else if length == 15 then if first == 'c' then ConnectionPool else BlockedTraffic
    else if length == 14 then if first == 'c' then CpuSaturation else FileForensics
    else if length == 13 then if first == 'u' then UsefulAlerts else SloBurnRate
    else if first == 'l' then LatencySlo
    else if first == 'd' then DnsFailure
    else if first == 'r' then RetryStorm
    else MemoryLeak
  }

  lemma NameInverse(id: ScenarioId)
    requires !id.Unknown?
    ensures Name(id) != "" && NamedBy(|Name(id)|, Name(id)[0]) == id
  {
    match id { case _ => }
  }

  lemma {:induction false} NamesSize(ids: set<ScenarioId>)
    requires forall id :: id in ids ==> !id.Unknown?
    ensures |set id | id in ids :: Name(id)| == |ids|
    decreases |ids|
  {
    hide Name, NamedBy;
    var names := set id | id in ids :: Name(id);
    if ids == {} {
      assert names == {};
    } else {
      var x :| x in ids;
      NamesSize(ids - {x});
      var fewer := set id | id in ids - {x} :: Name(id);
      forall id | id in ids - {x} ensures Name(id) != Name(x) {
        NameInverse(id);
        NameInverse(x);
      }
      assert names == fewer + {Name(x)} && Name(x) !in fewer;
    }
  }

  // The exercises whose checks can award XP.
  const AWARDABLE: set<ScenarioId> :=
    {CpuSaturation, UsefulAlerts, SloBurnRate, VerticalHorizontal, DependencyBottleneck, ConnectionPool,
     LatencySlo, DnsFailure, RetryStorm, MemoryLeak, AutoscalerOscillation, BlockedTraffic}

  const REQUIRED: set<ScenarioId> := AWARDABLE + {FileForensics}

  predicate Required(id: ScenarioId) { !id.Unknown? }

  predicate Awardable(id: ScenarioId) { Required(id) && !id.FileForensics? }

  datatype Traffic = Traffic(profile: string, rps: Float, duration: int,
                             fromRPS: Float, toRPS: Float, ramp: int, hold: int,
                             baselineRPS: Float, peakRPS: Float, before: int, spike: int, after: int)

  datatype FaultConfig = FaultConfig(workUnits: int, probability: Float, latencyMS: int, retries: int,
                                     maxConcurrency: int, memoryMB: int, failureEvery: int)

  datatype Target = APITarget | DependencyTarget | OtherTarget

  datatype FaultType = CpuWork | ErrorRate | DependencyLatency | ConnectionExhaustion | DnsFault | RetryFault
                     | MemoryFault | Oscillation | FileHandle | NetworkPolicyFault | OtherFault

  datatype Fault = Fault(target: Target, kind: FaultType, config: FaultConfig)

  datatype Objectives = Objectives(availability: Float, p95LatencyMS: int)

  datatype Difficulty = Beginner | Intermediate | Advanced | OtherDifficulty

  datatype GradingKind = ServiceRecovery | AlertBehavior | BurnRateAlert | FileForensicsKind | OtherGrading

  datatype Grading = Grading(kind: GradingKind, window: int, minimumRequests: int, minimumOfferedRPS: Float)

  datatype Scenario = Scenario(
    schemaVersion: int, id: ScenarioId, title: string, difficulty: Difficulty, description: string,
    learningObjectives: seq<string>, goal: string, successCriteria: seq<string>,
    prerequisites: seq<string>, requiredTools: seq<string>, falseHypotheses: seq<string>,
    dockerRuntime: bool, apiDependencyTopology: bool,
    traffic: Traffic, faults: seq<Fault>, objectives: Objectives, grading: Grading,
    hints: seq<string>, diagramNodes: nat, diagramEdges: nat)

  /// Validation
  /// ----------

  predicate IsSpace(c: char) {
    c == ' ' || '\t' <= c <= '\r' || c == '\U{0085}' || c == '\U{00A0}'
  }

  predicate Blank(s: string) {
    forall i :: 0 <= i < |s| ==> IsSpace(s[i])
  }

  predicate StringsOk(values: seq<string>) {
    values != [] && forall i :: 0 <= i < |values| ==> !Blank(values[i])
  }

  predicate DurationOk(d: int) { !(d <= 0 || d > MAX_DURATION) }

  // The tests reject a rate that compares as too low or too high; a NaN does neither.
  predicate RateOk(rate: Float) {
    !AtLeast(ZERO, rate) && !(AtLeast(rate, FromInt(MAX_RATE)) && rate != FromInt(MAX_RATE))
  }

  predicate PeakOk(baseline: Float, peak: Float) {
    !AtLeast(baseline, peak) && !(AtLeast(peak, FromInt(MAX_RATE)) && peak != FromInt(MAX_RATE))
  }

  predicate TrafficValid(t: Traffic) {
    if t.profile == "constant" then
      && RateOk(t.rps) && t.fromRPS == ZERO && t.toRPS == ZERO && t.baselineRPS == ZERO && t.peakRPS == ZERO
      && t.ramp == 0 && t.hold == 0 && t.before == 0 && t.spike == 0 && t.after == 0
      && DurationOk(t.duration)
    else if t.profile == "ramp" then
      && RateOk(t.fromRPS) && RateOk(t.toRPS) && t.rps == ZERO && t.duration == 0
      && t.baselineRPS == ZERO && t.peakRPS == ZERO && t.before == 0 && t.spike == 0 && t.after == 0
      && DurationOk(t.ramp) && DurationOk(t.hold)
    else if t.profile == "spike" then
      && RateOk(t.baselineRPS) && PeakOk(t.baselineRPS, t.peakRPS) && t.rps == ZERO && t.duration == 0
      && t.fromRPS == ZERO && t.toRPS == ZERO && t.ramp == 0 && t.hold == 0
      && DurationOk(t.before) && DurationOk(t.spike) && DurationOk(t.after)
    else false
  }

  const NO_CONFIG := FaultConfig(0, ZERO, 0, 0, 0, 0, 0)

  predicate FaultValid(f: Fault) {
    !f.target.OtherTarget? &&
    match f.kind
    case CpuWork => f.target.APITarget? && f.config.workUnits > 0 && f.config.probability == ZERO
    case ErrorRate =>
      f.config.workUnits == 0 && !AtLeast(ZERO, f.config.probability)
      && !(AtLeast(f.config.probability, FromInt(1)) && f.config.probability != FromInt(1))
    case DependencyLatency => f.target.DependencyTarget? && 0 < f.config.latencyMS <= 10000
    case ConnectionExhaustion => f.target.APITarget? && 0 < f.config.maxConcurrency <= 1000
    case DnsFault => f.target.DependencyTarget?
    case RetryFault => f.target.APITarget? && 0 < f.config.retries <= 10
    case MemoryFault => f.target.APITarget? && 0 < f.config.memoryMB <= 1024
    case Oscillation => f.target.APITarget?
    case FileHandle => f.target.APITarget? && f.config == NO_CONFIG
    case NetworkPolicyFault => f.target.DependencyTarget? && f.config == NO_CONFIG
    case OtherFault => false
  }

  predicate ObjectivesOk(o: Objectives) {
    && !AtLeast(ZERO, o.availability)
    && !(AtLeast(o.availability, FromInt(1)) && o.availability != FromInt(1))
    && 0 < o.p95LatencyMS <= 60000
  }

  predicate Valid(s: Scenario) {
    && s.schemaVersion == SCHEMA_VERSION
    && !Blank(s.goal) && |s.successCriteria| >= 2
    && Required(s.id)
    && !Blank(s.title) && !Blank(s.description)
    && !s.difficulty.OtherDifficulty?
    && StringsOk(s.learningObjectives) && StringsOk(s.prerequisites)
    && StringsOk(s.requiredTools) && StringsOk(s.falseHypotheses)
    && s.dockerRuntime && s.apiDependencyTopology
    && TrafficValid(s.traffic)
    && s.faults != [] && (forall i :: 0 <= i < |s.faults| ==> FaultValid(s.faults[i]))
    && ObjectivesOk(s.objectives)
    && !s.grading.kind.OtherGrading?
    && DurationOk(s.grading.window) && s.grading.minimumRequests > 0 && RateOk(s.grading.minimumOfferedRPS)
    && StringsOk(s.hints)
    && s.diagramNodes > 0 && s.diagramEdges > 0
  }

  /// Which numbers are accepted
  /// --------------------------

  predicate Rate(r: Float) { r.NaN? || (r.Finite? && 0.0 < r.value <= 1000.0) }

  predicate Share(x: Float) { x.NaN? || (x.Finite? && 0.0 < x.value <= 1.0) }

  // Rates, among them the minimum offered rate of a grading, are positive and at most 1000,
  // or not a number.
  lemma RateIff(r: Float)
    ensures RateOk(r) <==> Rate(r)
  {}

  // Objectives are an availability in (0, 1], or not a number, and a latency in (0, 60000].
  lemma ObjectivesIff(o: Objectives)
    ensures ObjectivesOk(o) <==> Share(o.availability) && 0 < o.p95LatencyMS <= 60000
  {}

  // An error-rate fault has a probability in (0, 1], or not a number, and no work units.
  lemma ErrorRateIff(f: Fault)
    requires f.kind.ErrorRate?
    ensures FaultValid(f) <==> !f.target.OtherTarget? && f.config.workUnits == 0 && Share(f.config.probability)
  {}

  /// What a valid traffic section means
  /// ----------------------------------

  // The three shapes a learner's traffic can take, each with its own parameters only.
  datatype Shape =
    | Constant(rps: Float, duration: int)
    | Ramp(fromRPS: Float, toRPS: Float, ramp: int, hold: int)
    | Spike(baselineRPS: Float, peakRPS: Float, before: int, spike: int, after: int)

  function Encode(s: Shape): Traffic {
    match s
    case Constant(r, d) => Traffic("constant", r, d, ZERO, ZERO, 0, 0, ZERO, ZERO, 0, 0, 0)
    case Ramp(f, t, r, h) => Traffic("ramp", ZERO, 0, f, t, r, h, ZERO, ZERO, 0, 0, 0)
    case Spike(b, p, x, y, z) => Traffic("spike", ZERO, 0, ZERO, ZERO, 0, 0, b, p, x, y, z)
  }

  predicate Hour(d: int) { 0 < d <= 3600000000000 }

  // A rate above another one, as the float comparison sees it.
  predicate NotBelow(low: Float, high: Float) {
    low.NaN? || high.NaN? || (low.Finite? && high.Finite? && low.value < high.value)
  }

  ghost predicate InBounds(s: Shape) {
    match s
    case Constant(r, d) => Rate(r) && Hour(d)
    case Ramp(f, t, r, h) => Rate(f) && Rate(t) && Hour(r) && Hour(h)
    case Spike(b, p, x, y, z) =>
      Rate(b) && NotBelow(b, p) && (p.NaN? || p == NegInf || (p.Finite? && p.value <= 1000.0))
      && Hour(x) && Hour(y) && Hour(z)
  }

  // A traffic section is accepted exactly when it encodes one shape whose durations are
  // within an hour and whose rates are within bounds or not a number.
  lemma TrafficValidIff(t: Traffic)
    ensures TrafficValid(t) <==> exists s :: InBounds(s) && Encode(s) == t
  {
    if TrafficValid(t) {
      var s := if t.profile == "constant" then Constant(t.rps, t.duration)
               else if t.profile == "ramp" then Ramp(t.fromRPS, t.toRPS, t.ramp, t.hold)
               else Spike(t.baselineRPS, t.peakRPS, t.before, t.spike, t.after);
      assert InBounds(s) && Encode(s) == t;
    }
    if s :| InBounds(s) && Encode(s) == t {
      assert "constant" != "ramp" && "constant" != "spike" && "ramp" != "spike" by {
        assert |"constant"| == 8 && |"ramp"| == 4 && |"spike"| == 5;
      }
      assert TrafficValid(t);
    }
  }

  /// What a valid definition is
  /// --------------------------

  // Some character that is not white space.
  ghost predicate HasText(s: string) {
    exists c :: c in s && c !in [' ', '\t', '\n', '\U{000B}', '\U{000C}', '\r', '\U{0085}', '\U{00A0}']
  }

  ghost predicate Listed(values: seq<string>) {
    values != [] && forall v :: v in values ==> HasText(v)
  }

  lemma BlankIff(s: string)
    ensures Blank(s) <==> !HasText(s)
  {
    if !Blank(s) {
      var i :| 0 <= i < |s| && !IsSpace(s[i]);
      assert s[i] in s;
    }
  }

  lemma StringsIff(values: seq<string>)
    ensures StringsOk(values) <==> Listed(values)
  {
    hide Blank, HasText;
    forall v { BlankIff(v); }
    forall i | 0 <= i < |values| ensures values[i] in values {}
  }

  // A fault a definition may declare: where it goes and how large it is.
  predicate Injects(f: Fault) {
    match f.kind
    case CpuWork => f.target == APITarget && 0 < f.config.workUnits && f.config.probability == Finite(0.0)
    case ErrorRate => f.target != OtherTarget && f.config.workUnits == 0 && Share(f.config.probability)
    case DependencyLatency => f.target == DependencyTarget && 0 < f.config.latencyMS <= 10000
    case ConnectionExhaustion => f.target == APITarget && 0 < f.config.maxConcurrency <= 1000
    case DnsFault => f.target == DependencyTarget
    case RetryFault => f.target == APITarget && 0 < f.config.retries <= 10
    case MemoryFault => f.target == APITarget && 0 < f.config.memoryMB <= 1024
    case Oscillation => f.target == APITarget
    case FileHandle => f.target == APITarget && f.config == FaultConfig(0, Finite(0.0), 0, 0, 0, 0, 0)
    case NetworkPolicyFault => f.target == DependencyTarget && f.config == FaultConfig(0, Finite(0.0), 0, 0, 0, 0, 0)
    case OtherFault => false
  }

  lemma FaultIff(f: Fault)
    ensures FaultValid(f) <==> Injects(f)
  {}

  // A definition is accepted exactly when it has this schema, one of the thirteen identifiers,
  // text wherever text is asked for, a traffic shape and faults within bounds, reachable
  // objectives, a known grading, at least one hint and a diagram.
  lemma ValidIff(s: Scenario)
    ensures Valid(s) <==>
            && s.schemaVersion == 1 && !s.id.Unknown? && s.difficulty in {Beginner, Intermediate, Advanced}
            && HasText(s.goal) && HasText(s.title) && HasText(s.description) && |s.successCriteria| >= 2
            && Listed(s.learningObjectives) && Listed(s.prerequisites) && Listed(s.requiredTools)
            && Listed(s.falseHypotheses) && Listed(s.hints)
            && s.dockerRuntime && s.apiDependencyTopology
            && (exists shape :: InBounds(shape) && Encode(shape) == s.traffic)
            && s.faults != [] && (forall f :: f in s.faults ==> Injects(f))
            && Share(s.objectives.availability) && 0 < s.objectives.p95LatencyMS <= 60000
            && s.grading.kind in {ServiceRecovery, AlertBehavior, BurnRateAlert, FileForensicsKind}
            && 0 < s.grading.window <= 3600000000000 && s.grading.minimumRequests > 0 && Rate(s.grading.minimumOfferedRPS)
            && s.diagramNodes > 0 && s.diagramEdges > 0
  {
    BlankIff(s.goal); BlankIff(s.title); BlankIff(s.description);
    StringsIff(s.learningObjectives); StringsIff(s.prerequisites); StringsIff(s.requiredTools);
    StringsIff(s.falseHypotheses); StringsIff(s.hints);
    TrafficValidIff(s.traffic);
    ObjectivesIff(s.objectives);
    RateIff(s.grading.minimumOfferedRPS);
    forall f { FaultIff(f); }
    forall i | 0 <= i < |s.faults| ensures s.faults[i] in s.faults {}
    hide Blank, StringsOk, HasText, Listed, TrafficValid, InBounds, Encode, ObjectivesOk, RateOk, FaultValid, Injects, Share, Rate;
  }

  /// Loading
  /// -------

  // A definition file decodes to a scenario or is rejected by the strict decoder.
  datatype Definition = Decoded(scenario: Scenario) | Undecodable

  ghost predicate DistinctIds(scenarios: seq<Scenario>) {
    forall i, j :: 0 <= i < j < |scenarios| ==> scenarios[i].id != scenarios[j].id
  }

  predicate Present(scenarios: seq<Scenario>, id: ScenarioId) {
    exists i :: 0 <= i < |scenarios| && scenarios[i].id == id
  }

  // A complete catalog without duplicates.
  ghost predicate Covers(scenarios: seq<Scenario>) {
    DistinctIds(scenarios) && forall id :: Required(id) ==> Present(scenarios, id)
  }

  ghost predicate OnlyRequired(scenarios: seq<Scenario>) {
    forall i :: 0 <= i < |scenarios| ==> Required(scenarios[i].id)
  }

  function Decode(entries: seq<Definition>): seq<Scenario>
    requires forall i :: 0 <= i < |entries| ==> entries[i].Decoded?
  {
    seq(|entries|, i requires 0 <= i < |entries| => entries[i].scenario)
  }

  predicate Accepted(d: Definition) { d.Decoded? && Valid(d.scenario) }

  // The identifiers of the definitions read so far.
  function Seen(scenarios: seq<Scenario>): set<ScenarioId> {
    set i | 0 <= i < |scenarios| :: scenarios[i].id
  }

  lemma SeenAppend(scenarios: seq<Scenario>, s: Scenario)
    ensures Seen(scenarios + [s]) == Seen(scenarios) + {s.id}
    ensures s.id !in Seen(scenarios) && DistinctIds(scenarios) ==> DistinctIds(scenarios + [s])
    ensures s.id in Seen(scenarios) ==> !DistinctIds(scenarios + [s])
  {
    var all := scenarios + [s];
    forall id | id in Seen(scenarios) ensures id in Seen(all) {
      var i :| 0 <= i < |scenarios| && scenarios[i].id == id;
      assert all[i].id == id;
    }
    assert all[|scenarios|].id == s.id;
    if s.id in Seen(scenarios) {
      var i :| 0 <= i < |scenarios| && scenarios[i].id == s.id;
      assert all[i].id == all[|scenarios|].id;
    }
  }

  // The first loop: decode, validate and reject duplicates.
  method Read(entries: seq<Definition>) returns (r: Result<seq<Scenario>>)
    ensures r.Ok? ==> (forall i :: 0 <= i < |entries| ==> Accepted(entries[i]))
                      && r.value == Decode(entries) && DistinctIds(r.value)
    ensures r.Err? && (forall i :: 0 <= i < |entries| ==> Accepted(entries[i])) ==> !DistinctIds(Decode(entries))
  {
    hide Valid;
    var scenarios: seq<Scenario> := [];
    var seen: set<ScenarioId> := {};
    for i := 0 to |entries|
      invariant forall j :: 0 <= j < i ==> Accepted(entries[j])
      invariant |scenarios| == i && forall j :: 0 <= j < i ==> entries[j].Decoded? && scenarios[j] == entries[j].scenario
      invariant DistinctIds(scenarios) && seen == Seen(scenarios)
    {
      if entries[i].Undecodable? {
        return Err;
      }
      var definition := entries[i].scenario;
      if !Valid(definition) {
        return Err;
      }
      SeenAppend(scenarios, definition);
      if definition.id in seen {
        ghost var j :| 0 <= j < |scenarios| && scenarios[j].id == definition.id;
        assert (forall k :: 0 <= k < |entries| ==> Accepted(entries[k])) ==>
          Decode(entries)[j].id == Decode(entries)[i].id;
        return Err;
      }
      seen := seen + {definition.id};
      scenarios := scenarios + [definition];
    }
    return Ok(scenarios);
  }

  // The second loop: every required exercise must have been seen.
  method AllPresent(scenarios: seq<Scenario>) returns (ok: bool)
    ensures ok <==> forall id :: Required(id) ==> Present(scenarios, id)
  {
    RequiredIds();
    hide REQUIRED, Required;
    var seen := Seen(scenarios);
    forall id ensures id in seen <==> Present(scenarios, id) {}
    var rest := REQUIRED;
    while rest != {}
      invariant rest <= REQUIRED
      invariant forall id :: id in REQUIRED && id !in rest ==> id in seen
      decreases rest
    {
      var id :| id in rest;
      if id !in seen {
        return false;
      }
      rest := rest - {id};
    }
    return true;
  }

  method Load(entries: seq<Definition>) returns (r: Result<seq<Scenario>>)
    ensures r.Ok? ==> (forall i :: 0 <= i < |entries| ==> Accepted(entries[i])) && r.value == Decode(entries)
    ensures r.Ok? <==> (forall i :: 0 <= i < |entries| ==> Accepted(entries[i])) && Covers(Decode(entries))
  {
    hide Valid;
    if |entries| == 0 {
      assert Required(CpuSaturation) && !Present([], CpuSaturation);
      return Err;
    }
    r := Read(entries);
    if r.Ok? {
      var complete := AllPresent(r.value);
      if !complete {
        return Err;
      }
    }
  }

  lemma {:induction false} IdsSize(scenarios: seq<Scenario>)
    requires DistinctIds(scenarios)
    ensures |Seen(scenarios)| == |scenarios|
  {
    if scenarios != [] {
      var n := |scenarios| - 1;
      assert scenarios == scenarios[..n] + [scenarios[n]];
      IdsSize(scenarios[..n]);
      SeenAppend(scenarios[..n], scenarios[n]);
    }
  }

  lemma AwardableSize()
    ensures |AWARDABLE| == 12
  {
    var capacity := {CpuSaturation, VerticalHorizontal, ConnectionPool, MemoryLeak, AutoscalerOscillation, RetryStorm};
    var others := {UsefulAlerts, SloBurnRate, DependencyBottleneck, LatencySlo, DnsFailure, BlockedTraffic};
    assert |capacity| == 6 && |others| == 6 && capacity !! others;
    assert AWARDABLE == capacity + others;
  }

  lemma AwardableIds()
    ensures forall id: ScenarioId :: id in AWARDABLE <==> Awardable(id)
  {}

  lemma RequiredIds()
    ensures forall id: ScenarioId :: id in REQUIRED <==> Required(id)
    ensures forall id: ScenarioId :: id in AWARDABLE <==> Awardable(id)
    ensures |AWARDABLE| == 12 && |REQUIRED| == 13
  {
    hide AWARDABLE;
    AwardableSize();
    AwardableIds();
    assert FileForensics !in AWARDABLE;
    assert |REQUIRED| == |AWARDABLE| + 1;
  }

  lemma ValidIds(scenarios: seq<Scenario>)
    requires forall i :: 0 <= i < |scenarios| ==> Valid(scenarios[i])
    ensures OnlyRequired(scenarios)
  {}

  // An accepted catalog is in bijection with the thirteen required identifiers.
  lemma CatalogBijection(scenarios: seq<Scenario>)
    requires Covers(scenarios) && OnlyRequired(scenarios)
    ensures |scenarios| == 13
    ensures forall id :: Required(id) ==> Present(scenarios, id)
    ensures forall i, j :: 0 <= i < |scenarios| && 0 <= j < |scenarios| && scenarios[i].id == scenarios[j].id ==> i == j
  {
    assert |Seen(scenarios)| == |scenarios| by { IdsSize(scenarios); }
    assert Seen(scenarios) == REQUIRED by { SeenIsRequired(scenarios); }
    assert |REQUIRED| == 13 by { RequiredIds(); }
  }

  lemma SeenIsRequired(scenarios: seq<Scenario>)
    requires Covers(scenarios) && OnlyRequired(scenarios)
    ensures Seen(scenarios) == REQUIRED
  {
    RequiredIds();
    hide DistinctIds, REQUIRED, Required;
    forall id ensures id in Seen(scenarios) <==> id in REQUIRED {
      if id in REQUIRED {
        assert Present(scenarios, id);
      }
    }
  }

  // The lookup table the runtime builds from an accepted catalog.
  function ById(scenarios: seq<Scenario>): map<ScenarioId, Scenario> {
    if scenarios == [] then map[]
    else
      var last := scenarios[|scenarios| - 1];
      ById(scenarios[..|scenarios| - 1])[last.id := last]
  }

  lemma {:induction false} ByIdMembers(scenarios: seq<Scenario>)
    ensures forall id :: id in ById(scenarios) ==> ById(scenarios)[id] in scenarios && ById(scenarios)[id].id == id
    ensures forall i :: 0 <= i < |scenarios| ==> scenarios[i].id in ById(scenarios)
  {
    if scenarios != [] {
      ByIdMembers(scenarios[..|scenarios| - 1]);
    }
  }

  // Every required exercise can be looked up, and nothing else can.
  lemma ByIdComplete(scenarios: seq<Scenario>)
    requires Covers(scenarios) && OnlyRequired(scenarios)
    ensures forall id :: id in ById(scenarios) <==> Required(id)
    ensures forall id :: Required(id) ==> ById(scenarios)[id].id == id && ById(scenarios)[id] in scenarios
  {
    hide ById, Covers, DistinctIds, REQUIRED, Required, OnlyRequired;
    ByIdMembers(scenarios);
    SeenIsRequired(scenarios);
    RequiredIds();
    forall id ensures id in ById(scenarios) <==> id in Seen(scenarios) {}
  }
}
