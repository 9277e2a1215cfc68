/**
 * The control-effectiveness workflow (third version): parse the risk and control
 * data, count key and non-key controls by test outcome, ask the model for a
 * rating, and assemble a report whose zero totals read "no data available".
 *
 * The workflow state is one dict that every stage updates in place; the agent
 * also keeps the last metrics it counted and the last report it built.
 */
module ControlEffectivenessV3 {
  import opened Py

  const NoData: string := "no data available"

  // ---------------------------------------------------------------------------
  // Control metrics

  /** The metrics record, with its field defaults. */
  datatype ControlMetrics = ControlMetrics(
    keyTotal: int, nonkeyTotal: int,
    keyPassed: int, keyFailed: int,
    nonkeyPassed: int, nonkeyFailed: int,
    withoutResults: int,
    dataAvailability: string)

  const ZeroMetrics := ControlMetrics(0, 0, 0, 0, 0, 0, 0, "complete")

  /** The metric names, in the order the metrics dict lists them. */
  const KeyTotalName: string := "key_controls_total"
  const NonkeyTotalName: string := "nonkey_controls_total"
  const KeyPassedName: string := "key_controls_passed"
  const KeyFailedName: string := "key_controls_failed"
  const NonkeyPassedName: string := "nonkey_controls_passed"
  const NonkeyFailedName: string := "nonkey_controls_failed"
  const WithoutResultsName: string := "controls_without_results"
  const AvailabilityName: string := "data_availability"

  /** `metrics.dict()`, in the order the fields are declared. */
  function MetricsFields(m: ControlMetrics): (fs: Fields)
    ensures |fs| == 8
  {
    [(KeyTotalName, JInt(m.keyTotal)),
     (NonkeyTotalName, JInt(m.nonkeyTotal)),
     (KeyPassedName, JInt(m.keyPassed)),
     (KeyFailedName, JInt(m.keyFailed)),
     (NonkeyPassedName, JInt(m.nonkeyPassed)),
     (NonkeyFailedName, JInt(m.nonkeyFailed)),
     (WithoutResultsName, JInt(m.withoutResults)),
     (AvailabilityName, JStr(m.dataAvailability))]
  }

  /** The metrics written when there are no controls to count. */
  function NoDataMetrics(): Fields {
    [(KeyTotalName, JStr(NoData)),
     (NonkeyTotalName, JStr(NoData)),
     (KeyPassedName, JStr(NoData)),
     (KeyFailedName, JStr(NoData)),
     (NonkeyPassedName, JStr(NoData)),
     (NonkeyFailedName, JStr(NoData)),
     (WithoutResultsName, JStr(NoData)),
     (AvailabilityName, JStr("incomplete"))]
  }

  /** What a control's test says. */
  datatype Outcome = PassedTest | FailedTest | NoResult

  /**
   * How one control is counted: whether it is key, and its outcome. `get` on a
   * control that is not a dict raises, and so does `lower()` on a test result
   * that is not a string.
   */
  function Classify(c: Json): Result<(bool, Outcome)>
  {
    match Get(c, "isKey", JBool(false))
    case Raised(e) => Raised(e)
    case Ok(isKey) =>
      var key := Truthy(isKey);
      if "testResult" !in Keys(c.fields) then Ok((key, NoResult))
      else
        var tr := Lookup(c.fields, "testResult").value;
        if !tr.JStr? then Raised(NoAttribute(tr, "lower"))
        else if Lower(tr.s) == "passed" then Ok((key, PassedTest))
        else Ok((key, FailedTest))
  }

  /**
   * A control is counted when it is a dict whose test result, if any, is a string;
   * it is key exactly when `isKey` is truthy (missing means non-key), it has no
   * result exactly when `testResult` is missing, and it passed exactly when the
   * result lower-cases to "passed" (so "" and "Failed" count as failed).
   */
  lemma ClassifyRules(c: Json)
    ensures Classify(c).Ok? <==>
              c.JDict? && ("testResult" in Keys(c.fields) ==> Lookup(c.fields, "testResult").value.JStr?)
    ensures Classify(c).Ok? ==> (Classify(c).value.0 <==> Truthy(Lookup(c.fields, "isKey").GetOr(JBool(false))))
    ensures Classify(c).Ok? ==> (Classify(c).value.1 == NoResult <==> "testResult" !in Keys(c.fields))
    ensures Classify(c).Ok? ==>
              (Classify(c).value.1 == PassedTest <==>
                 "testResult" in Keys(c.fields) && Lower(Lookup(c.fields, "testResult").value.s) == "passed")
  {
  }

  /** The counters one control moves. */
  function Bump(m: ControlMetrics, key: bool, o: Outcome): ControlMetrics {
    if key then
      var m1 := m.(keyTotal := m.keyTotal + 1);
      match o
      case PassedTest => m1.(keyPassed := m1.keyPassed + 1)
      case FailedTest => m1.(keyFailed := m1.keyFailed + 1)
      case NoResult => m1.(withoutResults := m1.withoutResults + 1)
    else
      var m1 := m.(nonkeyTotal := m.nonkeyTotal + 1);
      match o
      case PassedTest => m1.(nonkeyPassed := m1.nonkeyPassed + 1)
      case FailedTest => m1.(nonkeyFailed := m1.nonkeyFailed + 1)
      case NoResult => m1.(withoutResults := m1.withoutResults + 1)
  }

  /** The counting loop, from counters `m` over the remaining controls. */
  function CountFold(m: ControlMetrics, cs: seq<Json>): Result<ControlMetrics>
    decreases |cs|
  {
    if cs == [] then Ok(m)
    else
      match Classify(cs[0])
      case Raised(e) => Raised(e)
      case Ok(kc) => CountFold(Bump(m, kc.0, kc.1), cs[1..])
  }

  /** One step of the fold, at position k. */
  lemma CountFoldAt(m: ControlMetrics, cs: seq<Json>, k: nat)
    requires k < |cs|
    ensures Classify(cs[k]).Raised? ==> CountFold(m, cs[k..]) == Raised(Classify(cs[k]).msg)
    ensures Classify(cs[k]).Ok? ==>
              var kc := Classify(cs[k]).value;
              CountFold(m, cs[k..]) == CountFold(Bump(m, kc.0, kc.1), cs[k + 1..])
  {
    assert cs[k..][0] == cs[k] && cs[k..][1..] == cs[k + 1..];
  }

  /** Data is incomplete only when no control was counted at all. */
  function WithAvailability(m: ControlMetrics): ControlMetrics {
    if m.keyTotal == 0 && m.nonkeyTotal == 0 then m.(dataAvailability := "incomplete") else m
  }

  /** The loop of `calculate_control_metrics`. */
  method CountControls(cs: seq<Json>) returns (r: Result<ControlMetrics>)
    ensures r == CountFold(ZeroMetrics, cs)
  {
    var m := ZeroMetrics;
    var k := 0;
    while k < |cs|
      invariant 0 <= k <= |cs|
      invariant CountFold(m, cs[k..]) == CountFold(ZeroMetrics, cs)
    {
      var kc := Classify(cs[k]);
      CountFoldAt(m, cs, k);
      if kc.Raised? {
        return Raised(kc.msg);
      }
      var (isKey, outcome) := kc.value;
      ghost var before := m;
      if isKey {
        m := m.(keyTotal := m.keyTotal + 1);
        if outcome == PassedTest {
          m := m.(keyPassed := m.keyPassed + 1);
        } else if outcome == FailedTest {
          m := m.(keyFailed := m.keyFailed + 1);
        } else {
          m := m.(withoutResults := m.withoutResults + 1);
        }
      } else {
        m := m.(nonkeyTotal := m.nonkeyTotal + 1);
        if outcome == PassedTest {
          m := m.(nonkeyPassed := m.nonkeyPassed + 1);
        } else if outcome == FailedTest {
          m := m.(nonkeyFailed := m.nonkeyFailed + 1);
        } else {
          m := m.(withoutResults := m.withoutResults + 1);
        }
      }
      assert m == Bump(before, isKey, outcome);
      k := k + 1;
    }
    assert cs[k..] == [];
    return Ok(m);
  }

  // ---------------------------------------------------------------------------
  // Counting, independently: classify every control, then count classes

  /** Every control classified, or the first one that raises. */
  function ClassifyAll(cs: seq<Json>): (r: Result<seq<(bool, Outcome)>>)
    ensures r.Ok? ==> |r.value| == |cs|
    ensures r.Ok? ==> forall i :: 0 <= i < |cs| ==> Classify(cs[i]) == Ok(r.value[i])
    decreases |cs|
  {
    if cs == [] then Ok([])
    else
      match Classify(cs[0])
      case Raised(e) => Raised(e)
      case Ok(kc) =>
        match ClassifyAll(cs[1..])
        case Raised(e) => Raised(e)
        case Ok(rest) => Ok([kc] + rest)
  }

  /** How many classified controls are key (or non-key) with outcome `o`. */
  function CountOf(cls: seq<(bool, Outcome)>, key: bool, o: Outcome): nat
    decreases |cls|
  {
    if cls == [] then 0
    else (if cls[0] == (key, o) then 1 else 0) + CountOf(cls[1..], key, o)
  }

  /** How many classified controls are key (or non-key). */
  function KeyCount(cls: seq<(bool, Outcome)>, key: bool): nat
    decreases |cls|
  {
    if cls == [] then 0
    else (if cls[0].0 == key then 1 else 0) + KeyCount(cls[1..], key)
  }

  function Tally(m: ControlMetrics, cls: seq<(bool, Outcome)>): ControlMetrics {
    m.(keyTotal := m.keyTotal + KeyCount(cls, true),
       nonkeyTotal := m.nonkeyTotal + KeyCount(cls, false),
       keyPassed := m.keyPassed + CountOf(cls, true, PassedTest),
       keyFailed := m.keyFailed + CountOf(cls, true, FailedTest),
       nonkeyPassed := m.nonkeyPassed + CountOf(cls, false, PassedTest),
       nonkeyFailed := m.nonkeyFailed + CountOf(cls, false, FailedTest),
       withoutResults := m.withoutResults + CountOf(cls, true, NoResult) + CountOf(cls, false, NoResult))
  }

  /** Counting one control, then the rest, is counting them all. */
  lemma TallyCons(m: ControlMetrics, c: (bool, Outcome), rest: seq<(bool, Outcome)>)
    ensures Tally(Bump(m, c.0, c.1), rest) == Tally(m, [c] + rest)
  {
    var cls := [c] + rest;
    assert cls[0] == c && cls[1..] == rest;
  }

  /** The loop raises exactly when some control cannot be classified, or else counts every class. */
  lemma {:induction false} CountFoldTally(m: ControlMetrics, cs: seq<Json>)
    ensures CountFold(m, cs).Raised? <==> ClassifyAll(cs).Raised?
    ensures CountFold(m, cs).Raised? ==> CountFold(m, cs) == Raised(ClassifyAll(cs).msg)
    ensures CountFold(m, cs).Ok? ==> CountFold(m, cs).value == Tally(m, ClassifyAll(cs).value)
    decreases |cs|
  {
    if cs != [] {
      var kc := Classify(cs[0]);
      if kc.Ok? {
        CountFoldTally(Bump(m, kc.value.0, kc.value.1), cs[1..]);
        if ClassifyAll(cs[1..]).Ok? {
          TallyCons(m, kc.value, ClassifyAll(cs[1..]).value);
        }
      }
    }
  }

  /** Each control is key or non-key. */
  lemma {:induction false} KeyPartition(cls: seq<(bool, Outcome)>)
    ensures KeyCount(cls, true) + KeyCount(cls, false) == |cls|
    decreases |cls|
  {
    if cls != [] {
      KeyPartition(cls[1..]);
    }
  }

  /** Within a class, each control passed, failed, or has no result. */
  lemma {:induction false} OutcomePartition(cls: seq<(bool, Outcome)>, key: bool)
    ensures CountOf(cls, key, PassedTest) + CountOf(cls, key, FailedTest) + CountOf(cls, key, NoResult)
              == KeyCount(cls, key)
    decreases |cls|
  {
    if cls != [] {
      OutcomePartition(cls[1..], key);
      var (k, o) := cls[0];
      assert o == PassedTest || o == FailedTest || o == NoResult;
    }
  }

  // ---------------------------------------------------------------------------
  // Report formatting

  /** Python's `value == 0`, which `False` also satisfies. */
  predicate IsZero(v: Json) {
    v == JInt(0) || v == JBool(false)
  }

  /** The formatted value of one metrics entry. */
  function FormatValue(k: string, v: Json): (r: Json)
    ensures r != v <==> k != AvailabilityName && IsZero(v) && EndsWith(k, "_total")
    ensures r != v ==> r == JStr(NoData)
  {
    if k == AvailabilityName then v
    else if IsZero(v) && EndsWith(k, "_total") then JStr(NoData)
    else v
  }

  /** The formatting loop, from the dict built so far over the remaining entries. */
  function FormatFold(acc: Fields, items: Fields): Fields
    decreases |items|
  {
    if items == [] then acc
    else FormatFold(DictSet(acc, items[0].0, FormatValue(items[0].0, items[0].1)), items[1..])
  }

  /** The formatting loop of `generate_assessment_report` and `get_metrics_report`. */
  method FormatMetrics(items: Fields) returns (r: Fields)
    ensures r == FormatFold([], items)
  {
    r := [];
    var k := 0;
    while k < |items|
      invariant 0 <= k <= |items|
      invariant FormatFold(r, items[k..]) == FormatFold([], items)
    {
      assert items[k..][1..] == items[k + 1..];
      var (key, value) := items[k];
      var formatted := value;
      if key == AvailabilityName {
        formatted := value;
      } else if IsZero(value) && EndsWith(key, "_total") {
        formatted := JStr(NoData);
      } else {
        formatted := value;
      }
      r := DictSet(r, key, formatted);
      k := k + 1;
    }
    assert items[k..] == [];
  }

  function Formatted(items: Fields): Fields {
    seq(|items|, i requires 0 <= i < |items| => (items[i].0, FormatValue(items[i].0, items[i].1)))
  }

  /** Distinctness depends on the keys alone. */
  lemma DistinctByKeys(a: Fields, b: Fields)
    requires Keys(a) == Keys(b) && DistinctKeys(a)
    ensures DistinctKeys(b)
  {
    forall i, j | 0 <= i < j < |b| ensures b[i].0 != b[j].0 {
      assert b[i].0 == Keys(b)[i] && b[j].0 == Keys(b)[j];
      assert a[i].0 == Keys(a)[i] && a[j].0 == Keys(a)[j];
    }
  }

  /** With distinct keys, formatting keeps every key in place and formats each value on its own. */
  lemma {:induction false} FormatFoldPointwise(acc: Fields, items: Fields)
    requires DistinctKeys(acc + items)
    ensures FormatFold(acc, items) == acc + Formatted(items)
    decreases |items|
  {
    if items != [] {
      var k := items[0].0;
      var e := (k, FormatValue(k, items[0].1));
      assert k !in Keys(acc) by {
        forall i | 0 <= i < |acc| ensures acc[i].0 != k {
          assert (acc + items)[i] == acc[i] && (acc + items)[|acc|] == items[0];
        }
      }
      DictSetNewKey(acc, k, FormatValue(k, items[0].1));
      var next := acc + [e];
      assert Keys(next + items[1..]) == Keys(acc + items);
      DistinctByKeys(acc + items, next + items[1..]);
      FormatFoldPointwise(next, items[1..]);
      assert Formatted(items) == [e] + Formatted(items[1..]);
      assert next + Formatted(items[1..]) == acc + ([e] + Formatted(items[1..]));
    }
  }

  lemma KeysOfFormatted(items: Fields)
    ensures Keys(Formatted(items)) == Keys(items)
  {
  }

  /** Formatting twice is formatting once. */
  lemma FormatIdempotent(items: Fields)
    requires DistinctKeys(items)
    ensures FormatFold([], FormatFold([], items)) == FormatFold([], items)
  {
    assert [] + items == items;
    FormatFoldPointwise([], items);
    var f := Formatted(items);
    assert [] + f == f;
    KeysOfFormatted(items);
    DistinctByKeys(items, f);
    assert [] + f == f;
    FormatFoldPointwise([], f);
    assert Formatted(f) == f;
  }

  /** The metric names differ in length, except the passed and failed pairs, which differ in one letter. */
  lemma MetricsKeysDistinct(m: ControlMetrics)
    ensures DistinctKeys(MetricsFields(m))
  {
    var ks := Keys(MetricsFields(m));
    assert |ks[0]| == 18 && |ks[1]| == 21 && |ks[2]| == 19 && |ks[3]| == 19;
    assert |ks[4]| == 22 && |ks[5]| == 22 && |ks[6]| == 24 && |ks[7]| == 17;
    assert ks[2][13] == 'p' && ks[3][13] == 'f';
    assert ks[4][16] == 'p' && ks[5][16] == 'f';
  }

  /** The formatted metrics record: only the two zero totals are replaced. */
  lemma MetricsReport(m: ControlMetrics)
    ensures FormatFold([], MetricsFields(m)) ==
              [(KeyTotalName, if m.keyTotal == 0 then JStr(NoData) else JInt(m.keyTotal)),
               (NonkeyTotalName, if m.nonkeyTotal == 0 then JStr(NoData) else JInt(m.nonkeyTotal)),
               (KeyPassedName, JInt(m.keyPassed)),
               (KeyFailedName, JInt(m.keyFailed)),
               (NonkeyPassedName, JInt(m.nonkeyPassed)),
               (NonkeyFailedName, JInt(m.nonkeyFailed)),
               (WithoutResultsName, JInt(m.withoutResults)),
               (AvailabilityName, JStr(m.dataAvailability))]
  {
    MetricsFormattedPointwise(m);
    FormattedMetricsFields(m);
  }

  lemma MetricsFormattedPointwise(m: ControlMetrics)
    ensures FormatFold([], MetricsFields(m)) == Formatted(MetricsFields(m))
  {
    var fs := MetricsFields(m);
    MetricsKeysDistinct(m);
    assert [] + fs == fs;
    FormatFoldPointwise([], fs);
    assert [] + Formatted(fs) == Formatted(fs);
  }

  lemma FormattedMetricsFields(m: ControlMetrics)
    ensures Formatted(MetricsFields(m)) ==
              [(KeyTotalName, if m.keyTotal == 0 then JStr(NoData) else JInt(m.keyTotal)),
               (NonkeyTotalName, if m.nonkeyTotal == 0 then JStr(NoData) else JInt(m.nonkeyTotal)),
               (KeyPassedName, JInt(m.keyPassed)),
               (KeyFailedName, JInt(m.keyFailed)),
               (NonkeyPassedName, JInt(m.nonkeyPassed)),
               (NonkeyFailedName, JInt(m.nonkeyFailed)),
               (WithoutResultsName, JInt(m.withoutResults)),
               (AvailabilityName, JStr(m.dataAvailability))]
  {
    var fs := MetricsFields(m);
    TotalSuffixes();
    var f := Formatted(fs);
    var w := [(KeyTotalName, if m.keyTotal == 0 then JStr(NoData) else JInt(m.keyTotal)),
              (NonkeyTotalName, if m.nonkeyTotal == 0 then JStr(NoData) else JInt(m.nonkeyTotal)),
              fs[2], fs[3], fs[4], fs[5], fs[6], fs[7]];
    forall i | 0 <= i < 8 ensures f[i] == w[i] {
      assert f[i] == (fs[i].0, FormatValue(fs[i].0, fs[i].1));
    }
    assert f == w;
  }

  /** Which metric names end in "_total". */
  lemma TotalSuffixes()
    ensures EndsWith(KeyTotalName, "_total") && EndsWith(NonkeyTotalName, "_total")
    ensures !EndsWith(KeyPassedName, "_total") && !EndsWith(KeyFailedName, "_total")
    ensures !EndsWith(NonkeyPassedName, "_total") && !EndsWith(NonkeyFailedName, "_total")
    ensures !EndsWith(WithoutResultsName, "_total")
  {
    assert KeyTotalName[12..] == "_total";
    assert NonkeyTotalName[15..] == "_total";
    assert KeyPassedName[13..][0] == 'p';
    assert KeyFailedName[13..][0] == 'f';
    assert NonkeyPassedName[16..][0] == 'p';
    assert NonkeyFailedName[16..][0] == 'f';
    assert WithoutResultsName[18..][0] == 'e';
  }

  // ---------------------------------------------------------------------------
  // The stages, on the workflow state

  type State = map<string, Json>

  /** `parse_input_data`. */
  function ParseStep(st: State, decode: Decoder): State {
    var input := MapGet(st, "input_data", JNull);
    if !Truthy(input) then st["error" := JStr("Input data not provided")]
    else if !(input.JDict? || input.JStr?) then
      st["error" := JStr("Unsupported input data type: " + ClassText(input))]
    else
      match (if input.JDict? then Ok(input) else Loads(decode, input.s))
      case Raised(e) => st["error" := JStr("Error parsing input data: " + e)]
      case Ok(parsed) =>
        match Get(parsed, "risks", JList([]))
        case Raised(e) => st["error" := JStr("Error parsing input data: " + e)]
        case Ok(risks) =>
          var controls := Get(parsed, "controls", JList([])).value;
          st["risks" := risks]["controls" := controls]
  }

  /** What counting decides: there was nothing to count, or these are the metrics. */
  datatype MetricsOutcome = NoControls | Counted(metrics: ControlMetrics)

  /** `calculate_control_metrics`, which raises out of the workflow on a malformed control. */
  function MetricsStep(st: State): Result<MetricsOutcome> {
    var controls := MapGet(st, "controls", JList([]));
    if !Truthy(controls) then Ok(NoControls)
    else
      match Iterate(controls)
      case Raised(e) => Raised(e)
      case Ok(cs) =>
        match CountFold(ZeroMetrics, cs)
        case Raised(e) => Raised(e)
        case Ok(m) => Ok(Counted(WithAvailability(m)))
  }

  const EvaluationError: string := "Error evaluating control effectiveness: "
  const NoControlsMessage: string := "No controls available for metric calculation"
  const InsufficientData: string := "Insufficient data for effectiveness evaluation"
  const InsufficientJustification: string := "Insufficient data to evaluate effectiveness"
  const EvaluationParseFailure: string := "Failed to parse effectiveness evaluation result as JSON"

  function ApplyMetrics(st: State, o: MetricsOutcome): State {
    match o
    case NoControls =>
      st["error" := JStr(NoControlsMessage)]["metrics" := JDict(NoDataMetrics())]
    case Counted(m) => st["metrics" := JDict(MetricsFields(m))]
  }

  /** What the two model calls come to. */
  datatype ModelVerdict =
    | Rated(rating: Json, justification: Json)
    | Unparsed(evaluation: string)
    | CallFailed(message: string)

  /**
   * The evaluation call, the extraction call, and the decoding of the extraction:
   * a reply that is not JSON keeps the evaluation text; a decoded value that is
   * not a dict raises on `get` like a failed call.
   */
  function AskModel(evaluation: Reply, extraction: Reply, decode: Decoder): ModelVerdict {
    match evaluation
    case Failed(e) => CallFailed(e)
    case Answer(text) =>
      match extraction
      case Failed(e) => CallFailed(e)
      case Answer(x) =>
        match decode(x)
        case DecodeError(_) => Unparsed(text)
        case Parsed(v) =>
          match Get(v, "rating", JNull)
          case Raised(e) => CallFailed(e)
          case Ok(rating) => Rated(rating, Get(v, "justification", JNull).value)
  }

  /** `evaluate_control_effectiveness`: refuse without risks or controls, else ask the model. */
  function EvaluateStep(st: State, evaluation: Reply, extraction: Reply, decode: Decoder): State {
    var risks := MapGet(st, "risks", JList([]));
    var controls := MapGet(st, "controls", JList([]));
    if !Truthy(risks) || !Truthy(controls) then
      st["error" := JStr(InsufficientData)]
        ["effectiveness_rating" := JStr(NoData)]
        ["effectiveness_justification" := JStr(InsufficientJustification)]
    else
      match AskModel(evaluation, extraction, decode)
      case CallFailed(e) => st["error" := JStr(EvaluationError + e)]
      case Unparsed(text) =>
        st["effectiveness_rating" := JStr(NoData)]
          ["effectiveness_justification" := JStr(text)]
          ["error" := JStr(EvaluationParseFailure)]
      case Rated(rating, justification) =>
        st["effectiveness_rating" := rating]["effectiveness_justification" := justification]
  }

  /** The report dict. */
  function Report(rating: Json, justification: Json, metrics: Fields): Json {
    JDict([("effectiveness_rating", rating),
           ("effectiveness_justification", justification),
           ("metrics", JDict(FormatFold([], metrics)))])
  }

  /** `generate_assessment_report`: the report, or the exception `items()` raises on a non-dict. */
  function ReportStep(st: State): Result<Json> {
    match Items(MapGet(st, "metrics", JDict([])))
    case Raised(e) => Raised(e)
    case Ok(fs) =>
      Ok(Report(MapGet(st, "effectiveness_rating", JStr(NoData)),
                MapGet(st, "effectiveness_justification", JStr("")), fs))
  }

  /** `run`: the four stages in sequence; the report, or the exception that ended the run. */
  function RunSpec(input: Json, evaluation: Reply, extraction: Reply, decode: Decoder): Result<Json> {
    var st1 := ParseStep(map["input_data" := input], decode);
    match MetricsStep(st1)
    case Raised(e) => Raised(e)
    case Ok(o) =>
      var st3 := EvaluateStep(ApplyMetrics(st1, o), evaluation, extraction, decode);
      ReportStep(st3)
  }

  // ---------------------------------------------------------------------------
  // The agent

  class ControlEffectivenessAgent {
    /** The workflow state dict the stages pass along and update. */
    var state: State
    var controlMetrics: ControlMetrics
    var assessmentResults: Json

    constructor()
      ensures state == map[] && controlMetrics == ZeroMetrics && assessmentResults == JDict([])
    {
      state := map[];
      controlMetrics := ZeroMetrics;
      assessmentResults := JDict([]);
    }

    method ParseInputData(decode: Decoder)
      modifies this
      ensures state == ParseStep(old(state), decode)
      ensures controlMetrics == old(controlMetrics) && assessmentResults == old(assessmentResults)
    {
      var input := MapGet(state, "input_data", JNull);
      if !Truthy(input) {
        state := state["error" := JStr("Input data not provided")];
        return;
      }
      var parsed: Json;
      if input.JDict? {
        parsed := input;
      } else if input.JStr? {
        var d := Loads(decode, input.s);
        if d.Raised? {
          state := state["error" := JStr("Error parsing input data: " + d.msg)];
          return;
        }
        parsed := d.value;
      } else {
        state := state["error" := JStr("Unsupported input data type: " + ClassText(input))];
        return;
      }
      var risks := Get(parsed, "risks", JList([]));
      if risks.Raised? {
        state := state["error" := JStr("Error parsing input data: " + risks.msg)];
        return;
      }
      var controls := Get(parsed, "controls", JList([]));
      state := state["risks" := risks.value];
      state := state["controls" := controls.value];
    }

    /** Returns the message of the exception that escapes the stage, if any. */
    method CalculateControlMetrics() returns (raised: Option<string>)
      modifies this
      ensures MetricsStep(old(state)).Raised? ==>
                raised == Some(MetricsStep(old(state)).msg) && state == old(state)
                && controlMetrics == old(controlMetrics)
      ensures MetricsStep(old(state)).Ok? ==>
                raised.None? && state == ApplyMetrics(old(state), MetricsStep(old(state)).value)
                && controlMetrics == (match MetricsStep(old(state)).value
                                      case NoControls => old(controlMetrics)
                                      case Counted(m) => m)
      ensures assessmentResults == old(assessmentResults)
    {
      var controls := MapGet(state, "controls", JList([]));
      if !Truthy(controls) {
        state := state["error" := JStr(NoControlsMessage)];
        state := state["metrics" := JDict(NoDataMetrics())];
        return None;
      }
      var cs := Iterate(controls);
      if cs.Raised? {
        return Some(cs.msg);
      }
      var counted := CountControls(cs.value);
      if counted.Raised? {
        return Some(counted.msg);
      }
      var m := counted.value;
      if m.keyTotal == 0 && m.nonkeyTotal == 0 {
        m := m.(dataAvailability := "incomplete");
      }
      state := state["metrics" := JDict(MetricsFields(m))];
      controlMetrics := m;
      return None;
    }

    method EvaluateControlEffectiveness(evaluation: Reply, extraction: Reply, decode: Decoder)
      modifies this
      ensures state == EvaluateStep(old(state), evaluation, extraction, decode)
      ensures controlMetrics == old(controlMetrics) && assessmentResults == old(assessmentResults)
    {
      state := EvaluateStep(state, evaluation, extraction, decode);
    }

    /** Returns the message of the exception that escapes the stage, if any. */
    method GenerateAssessmentReport() returns (raised: Option<string>)
      modifies this
      ensures ReportStep(old(state)).Raised? ==>
                raised == Some(ReportStep(old(state)).msg) && state == old(state)
                && assessmentResults == old(assessmentResults)
      ensures ReportStep(old(state)).Ok? ==>
                raised.None? && state == old(state)["assessment_report" := ReportStep(old(state)).value]
                && assessmentResults == ReportStep(old(state)).value
      ensures controlMetrics == old(controlMetrics)
    {
      var metrics := MapGet(state, "metrics", JDict([]));
      var items := Items(metrics);
      if items.Raised? {
        return Some(items.msg);
      }
      var formatted := FormatMetrics(items.value);
      var report := JDict([("effectiveness_rating", MapGet(state, "effectiveness_rating", JStr(NoData))),
                           ("effectiveness_justification", MapGet(state, "effectiveness_justification", JStr(""))),
                           ("metrics", JDict(formatted))]);
      state := state["assessment_report" := report];
      assessmentResults := report;
      return None;
    }

    /** `get_metrics_report`: the last counted metrics, formatted. */
    method GetMetricsReport() returns (r: Fields)
      ensures r == FormatFold([], MetricsFields(controlMetrics))
    {
      r := FormatMetrics(MetricsFields(controlMetrics));
    }

    /** `run`: the report, or the message of the exception that ended the workflow. */
    method Run(input: Json, evaluation: Reply, extraction: Reply, decode: Decoder) returns (r: Result<Json>)
      modifies this
      ensures r == RunSpec(input, evaluation, extraction, decode)
    {
      state := map["input_data" := input];
      ParseInputData(decode);
      var raised := CalculateControlMetrics();
      if raised.Some? {
        return Raised(raised.value);
      }
      EvaluateControlEffectiveness(evaluation, extraction, decode);
      raised := GenerateAssessmentReport();
      if raised.Some? {
        return Raised(raised.value);
      }
      return Ok(MapGet(state, "assessment_report", JDict([])));
    }
  }

  // ---------------------------------------------------------------------------
  // Properties

  /**
   * The loop against an independent count: key and non-key totals, and per
   * class the passed, failed and result-less controls.
   */
  lemma CountControlsTally(cs: seq<Json>)
    requires CountFold(ZeroMetrics, cs).Ok?
    ensures ClassifyAll(cs).Ok?
    ensures var m := CountFold(ZeroMetrics, cs).value;
            var cls := ClassifyAll(cs).value;
            && m.keyTotal == KeyCount(cls, true) && m.nonkeyTotal == KeyCount(cls, false)
            && m.keyPassed == CountOf(cls, true, PassedTest) && m.keyFailed == CountOf(cls, true, FailedTest)
            && m.nonkeyPassed == CountOf(cls, false, PassedTest) && m.nonkeyFailed == CountOf(cls, false, FailedTest)
            && m.withoutResults == CountOf(cls, true, NoResult) + CountOf(cls, false, NoResult)
            && m.dataAvailability == "complete"
  {
    CountFoldTally(ZeroMetrics, cs);
  }

  /**
   * The totals account for every control, and so do the outcome counts; within
   * each class, passed, failed and result-less controls make up the class total.
   */
  lemma CountControlsPartition(cs: seq<Json>)
    requires CountFold(ZeroMetrics, cs).Ok?
    ensures ClassifyAll(cs).Ok?
    ensures var m := CountFold(ZeroMetrics, cs).value;
            var cls := ClassifyAll(cs).value;
            && m.keyTotal + m.nonkeyTotal == |cs|
            && m.keyPassed + m.keyFailed + m.nonkeyPassed + m.nonkeyFailed + m.withoutResults == |cs|
            && m.keyPassed + m.keyFailed + CountOf(cls, true, NoResult) == m.keyTotal
            && m.nonkeyPassed + m.nonkeyFailed + CountOf(cls, false, NoResult) == m.nonkeyTotal
  {
    CountControlsTally(cs);
    var cls := ClassifyAll(cs).value;
    KeyPartition(cls);
    OutcomePartition(cls, true);
    OutcomePartition(cls, false);
  }

  /** On the counting path data stays "complete": a non-empty list counts at least one control. */
  lemma CountedComplete(st: State)
    requires MetricsStep(st).Ok? && MetricsStep(st).value.Counted?
    ensures MetricsStep(st).value.metrics.dataAvailability == "complete"
    ensures MetricsStep(st).value.metrics.keyTotal + MetricsStep(st).value.metrics.nonkeyTotal >= 1
  {
    var controls := MapGet(st, "controls", JList([]));
    var cs := Iterate(controls).value;
    assert cs != [] by {
      if controls.JDict? {
        assert |cs| == |controls.fields|;
      } else if controls.JStr? {
        assert |cs| == |controls.s|;
      } else {
        assert cs == controls.items;
      }
    }
    CountControlsPartition(cs);
    CountControlsTally(cs);
    var m := CountFold(ZeroMetrics, cs).value;
    assert MetricsStep(st).value.metrics == WithAvailability(m);
  }

  /** Empty or missing controls: an error, "no data available" in every count, and incomplete data. */
  lemma NoControlsRecorded(st: State)
    requires !Truthy(MapGet(st, "controls", JList([])))
    ensures MetricsStep(st) == Ok(NoControls)
    ensures var r := ApplyMetrics(st, NoControls);
            && r["error"] == JStr(NoControlsMessage)
            && r["metrics"].JDict?
            && (forall i :: 0 <= i < 7 ==> r["metrics"].fields[i].1 == JStr(NoData))
            && r["metrics"].fields[7] == (AvailabilityName, JStr("incomplete"))
  {
  }

  /** With nothing to evaluate the model is not asked: the replies make no difference. */
  lemma EvaluateGuard(st: State, e1: Reply, x1: Reply, e2: Reply, x2: Reply, decode: Decoder)
    requires !Truthy(MapGet(st, "risks", JList([]))) || !Truthy(MapGet(st, "controls", JList([])))
    ensures EvaluateStep(st, e1, x1, decode) == EvaluateStep(st, e2, x2, decode)
    ensures var r := EvaluateStep(st, e1, x1, decode);
            && r["error"] == JStr(InsufficientData)
            && r["effectiveness_rating"] == JStr(NoData)
  {
  }

  /** A falsy input is reported and nothing else is written. */
  lemma ParseFalsy(st: State, decode: Decoder)
    requires !Truthy(MapGet(st, "input_data", JNull))
    ensures ParseStep(st, decode) == st["error" := JStr("Input data not provided")]
  {
  }

  /** A dict input is used as it is; missing lists default to empty. */
  lemma ParseDict(st: State, fs: Fields, decode: Decoder)
    requires MapGet(st, "input_data", JNull) == JDict(fs) && fs != []
    ensures ParseStep(st, decode) ==
              st["risks" := Lookup(fs, "risks").GetOr(JList([]))]["controls" := Lookup(fs, "controls").GetOr(JList([]))]
  {
  }

  /** An input that is neither a dict nor a string, a list included, is refused by its type. */
  lemma ParseUnsupported(st: State, decode: Decoder)
    requires var input := MapGet(st, "input_data", JNull);
             Truthy(input) && !input.JDict? && !input.JStr?
    ensures ParseStep(st, decode) ==
              st["error" := JStr("Unsupported input data type: " + ClassText(MapGet(st, "input_data", JNull)))]
    ensures "risks" in ParseStep(st, decode) <==> "risks" in st
  {
  }

  /** Parsing writes only the error, the risks and the controls. */
  lemma ParseFrame(st: State, decode: Decoder)
    ensures ParseStep(st, decode) - {"error", "risks", "controls"} == st - {"error", "risks", "controls"}
  {
  }

  /** Parsing adds no key besides the error, the risks and the controls. */
  lemma ParseKeepsOut(st: State, decode: Decoder, k: string)
    requires k !in st && k != "error" && k != "risks" && k != "controls"
    ensures k !in ParseStep(st, decode)
  {
  }

  /** Counting adds no key besides the error and the metrics. */
  lemma MetricsKeepsOut(st: State, o: MetricsOutcome, k: string)
    requires k !in st && k != "error" && k != "metrics"
    ensures k !in ApplyMetrics(st, o)
  {
  }

  /** Counting writes only the error and the metrics. */
  lemma MetricsFrame(st: State, o: MetricsOutcome)
    ensures ApplyMetrics(st, o) - {"error", "metrics"} == st - {"error", "metrics"}
  {
  }

  /** Evaluation writes only the error, the rating and the justification. */
  lemma EvaluateFrame(st: State, evaluation: Reply, extraction: Reply, decode: Decoder)
    ensures EvaluateStep(st, evaluation, extraction, decode)
              - {"error", "effectiveness_rating", "effectiveness_justification"}
            == st - {"error", "effectiveness_rating", "effectiveness_justification"}
  {
  }

  /** The report always has the rating, the justification and the metrics, in that order. */
  lemma ReportKeys(st: State)
    requires ReportStep(st).Ok?
    ensures ReportStep(st).value.JDict?
    ensures Keys(ReportStep(st).value.fields) == ["effectiveness_rating", "effectiveness_justification", "metrics"]
  {
  }

  lemma RunReportKeys(input: Json, evaluation: Reply, extraction: Reply, decode: Decoder)
    requires RunSpec(input, evaluation, extraction, decode).Ok?
    ensures var r := RunSpec(input, evaluation, extraction, decode).value;
            r.JDict? && Keys(r.fields) == ["effectiveness_rating", "effectiveness_justification", "metrics"]
  {
    var st1 := ParseStep(map["input_data" := input], decode);
    var o := MetricsStep(st1).value;
    ReportKeys(EvaluateStep(ApplyMetrics(st1, o), evaluation, extraction, decode));
  }

  /** A failed evaluation call records the error and writes no rating. */
  lemma EvaluateCallFailed(st: State, message: string, extraction: Reply, decode: Decoder)
    ensures var r := EvaluateStep(st, Failed(message), extraction, decode);
            if !Truthy(MapGet(st, "risks", JList([]))) || !Truthy(MapGet(st, "controls", JList([]))) then
              r["effectiveness_rating"] == JStr(NoData)
              && r["effectiveness_justification"] == JStr(InsufficientJustification)
            else
              r == st["error" := JStr(EvaluationError + message)]
  {
  }

  /**
   * When the first model call fails, the report's rating falls back to
   * "no data available", and the justification to "" (or to the
   * insufficient-data text when there was nothing to evaluate).
   */
  lemma RunEvaluationFails(input: Json, message: string, extraction: Reply, decode: Decoder)
    requires RunSpec(input, Failed(message), extraction, decode).Ok?
    ensures var r := RunSpec(input, Failed(message), extraction, decode).value;
            && r.JDict? && |r.fields| == 3
            && r.fields[0].1 == JStr(NoData)
            && (r.fields[1].1 == JStr("") || r.fields[1].1 == JStr(InsufficientJustification))
  {
    var st0 := map["input_data" := input];
    var st1 := ParseStep(st0, decode);
    ParseKeepsOut(st0, decode, "effectiveness_rating");
    ParseKeepsOut(st0, decode, "effectiveness_justification");
    var o := MetricsStep(st1).value;
    var st2 := ApplyMetrics(st1, o);
    MetricsKeepsOut(st1, o, "effectiveness_rating");
    MetricsKeepsOut(st1, o, "effectiveness_justification");
    assert RunSpec(input, Failed(message), extraction, decode) == ReportStep(EvaluateStep(st2, Failed(message), extraction, decode));
    FailedEvaluationReport(st2, message, extraction, decode);
  }

  /** The report after a failed evaluation call on a state without a rating or justification. */
  lemma FailedEvaluationReport(st: State, message: string, extraction: Reply, decode: Decoder)
    requires "effectiveness_rating" !in st && "effectiveness_justification" !in st
    requires ReportStep(EvaluateStep(st, Failed(message), extraction, decode)).Ok?
    ensures var r := ReportStep(EvaluateStep(st, Failed(message), extraction, decode)).value;
            && r.JDict? && |r.fields| == 3
            && r.fields[0].1 == JStr(NoData)
            && (r.fields[1].1 == JStr("") || r.fields[1].1 == JStr(InsufficientJustification))
  {
    var st3 := EvaluateStep(st, Failed(message), extraction, decode);
    EvaluateCallFailed(st, message, extraction, decode);
    ReportKeys(st3);
  }
}
