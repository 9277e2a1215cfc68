/**
 * The test-results variant of the control-effectiveness agent: parsing the
 * input, extracting pass/fail counts, sample ratios and the country deviation
 * partition, listing patterns, and the evaluation guard. The workflow state is
 * a record of the keys these stages read and write; `float()` is an oracle.
 */
module ControlEffectivenessV4 {
  import opened Py
  import V3 = ControlEffectivenessV3

  // ---------------------------------------------------------------------------
  // float() and str.replace

  /** `float(s)`, left abstract: the number a text denotes, or none when `float` rejects it. */
  type FloatParser = string -> Option<real>

  function ToFloat(parse: FloatParser, s: string): (r: Result<real>)
    ensures r.Ok? <==> parse(s).Some?
  {
    match parse(s)
    case Some(x) => Ok(x)
    case None => Raised("could not convert string to float: " + Repr(JStr(s)))
  }

  /** `s.replace("%", "")`: every percent sign removed, everything else kept in order. */
  function DropPercent(s: string): (r: string)
    ensures '%' !in r
    ensures '%' !in s ==> r == s
    ensures |r| + multiset(s)['%'] == |s|
  {
    if s == [] then []
    else
      assert s == [s[0]] + s[1..];
      (if s[0] == '%' then [] else [s[0]]) + DropPercent(s[1..])
  }

  /** `v.replace("%", "")`, which only a string has. */
  function ReplacePercent(v: Json): (r: Result<string>)
    ensures r.Ok? <==> v.JStr?
  {
    if v.JStr? then Ok(DropPercent(v.s)) else Raised(NoAttribute(v, "replace"))
  }

  // ---------------------------------------------------------------------------
  // Metrics

  datatype CountryDeviation = CountryDeviation(country: string, deviation: real)

  datatype TestMetrics = TestMetrics(
    totalTests: int,
    passedTests: int,
    failedTests: int,
    countriesWithFailures: Json,
    sampleRatioAverage: real,
    sampleRatioDeviation: real,
    highDeviationCountries: seq<CountryDeviation>,
    lowDeviationCountries: seq<CountryDeviation>,
    defectPatterns: seq<string>)

  /** `ControlMetrics()` with its field defaults. */
  const DefaultMetrics := TestMetrics(0, 0, 0, JList([]), 0.0, 0.0, [], [], [])

  const PassedKey: string := "Summary for Passed Tests"
  const FailedKey: string := "Summary for Failed Tests"
  const AnomaliesKey: string := "Potential Patterns or Anomalies"
  const RecommendationsKey: string := "Recommendations for Further Analysis"

  /** `next((item[key] for item in items if key in item), None)`: later items are never looked at. */
  function FirstWith(items: seq<Json>, key: string): Result<Option<Json>>
  {
    if items == [] then Ok(None)
    else
      match In(key, items[0])
      case Raised(e) => Raised(e)
      case Ok(found) =>
        if !found then FirstWith(items[1..], key)
        else
          match Subscript(items[0], key)
          case Raised(e) => Raised(e)
          case Ok(v) => Ok(Some(v))
  }

  /** The summary the block works on, when `next` found a truthy one. */
  predicate Present(s: Option<Json>) {
    s.Some? && Truthy(s.value)
  }

  /** `float(s) if s else 0` on a key observation with its percent signs removed. */
  function RatioField(ko: Json, k: string, parse: FloatParser): Result<real> {
    match Get(ko, k, JStr("0%"))
    case Raised(e) => Raised(e)
    case Ok(v) =>
      match ReplacePercent(v)
      case Raised(e) => Raised(e)
      case Ok(s) => if s == "" then Ok(0.0) else ToFloat(parse, s)
  }

  /** One country's record, its deviation read from the text without its percent signs. */
  function CountryRecord(entry: (string, Json), parse: FloatParser): (r: Result<CountryDeviation>)
    ensures r.Ok? <==> entry.1.JStr? && parse(DropPercent(entry.1.s)).Some?
    ensures r.Ok? ==> r.value.country == entry.0 && Some(r.value.deviation) == parse(DropPercent(entry.1.s))
  {
    match ReplacePercent(entry.1)
    case Raised(e) => Raised(e)
    case Ok(s) =>
      match ToFloat(parse, s)
      case Raised(e) => Raised(e)
      case Ok(d) => Ok(CountryDeviation(entry.0, d))
  }

  const HighThreshold: real := 50.0
  const LowThreshold: real := 10.0

  /** The country loop, appending to the high and low lists as it goes. */
  function PartitionFold(high: seq<CountryDeviation>, low: seq<CountryDeviation>, entries: Fields, parse: FloatParser)
    : Result<(seq<CountryDeviation>, seq<CountryDeviation>)>
    decreases |entries|
  {
    if entries == [] then Ok((high, low))
    else
      match CountryRecord(entries[0], parse)
      case Raised(e) => Raised(e)
      case Ok(c) =>
        if c.deviation > HighThreshold then PartitionFold(high + [c], low, entries[1..], parse)
        else if c.deviation < LowThreshold then PartitionFold(high, low + [c], entries[1..], parse)
        else PartitionFold(high, low, entries[1..], parse)
  }

  method PartitionCountries(high0: seq<CountryDeviation>, low0: seq<CountryDeviation>, entries: Fields, parse: FloatParser)
    returns (r: Result<(seq<CountryDeviation>, seq<CountryDeviation>)>)
    ensures r == PartitionFold(high0, low0, entries, parse)
  {
    var high, low := high0, low0;
    var i := 0;
    while i < |entries|
      invariant 0 <= i <= |entries|
      invariant PartitionFold(high, low, entries[i..], parse) == PartitionFold(high0, low0, entries, parse)
    {
      assert entries[i..][1..] == entries[i + 1..];
      var c := CountryRecord(entries[i], parse);
      if c.Raised? {
        return Raised(c.msg);
      }
      var info := c.value;
      if info.deviation > HighThreshold {
        high := high + [info];
      } else if info.deviation < LowThreshold {
        low := low + [info];
      }
      i := i + 1;
    }
    return Ok((high, low));
  }

  /** The text for one string-valued entry: "key: value", or "Recommendation: value". */
  function EntryLine(k: string, v: string, keyed: bool): string {
    if keyed then k + ": " + v else "Recommendation: " + v
  }

  /** One line per string-valued entry, in order; other entries are skipped. */
  function StringEntryLines(fs: Fields, keyed: bool): seq<string>
    decreases |fs|
  {
    if fs == [] then []
    else
      var last := fs[|fs| - 1];
      StringEntryLines(fs[..|fs| - 1], keyed) + (if last.1.JStr? then [EntryLine(last.0, last.1.s, keyed)] else [])
  }

  /** The counts and sample ratios the passed-tests block reads from its key observations. */
  function Observations(m: TestMetrics, ko: Json, parse: FloatParser): Result<TestMetrics> {
    match Get(ko, "Total Tests", JInt(0))
    case Raised(e) => Raised(e)
    case Ok(t) =>
      match ToInt(t)
      case Raised(e) => Raised(e)
      case Ok(n) =>
        match RatioField(ko, "Sample Ratio Average", parse)
        case Raised(e) => Raised(e)
        case Ok(avg) =>
          match RatioField(ko, "Sample Ratio Standard Deviation", parse)
          case Raised(e) => Raised(e)
          case Ok(sd) =>
            Ok(m.(totalTests := m.totalTests + n, passedTests := n,
                  sampleRatioAverage := avg, sampleRatioDeviation := sd))
  }

  /** `passed.get(anomalies, {}).get("By Country", {}).items()`. */
  function CountryEntries(passed: Json): Result<Fields> {
    match Get(passed, AnomaliesKey, JDict([]))
    case Raised(e) => Raised(e)
    case Ok(an) =>
      match Get(an, "By Country", JDict([]))
      case Raised(e) => Raised(e)
      case Ok(cd) => Items(cd)
  }

  /** The passed-tests block of `extract_test_metrics`. */
  function WithPassed(m: TestMetrics, passed: Json, parse: FloatParser): Result<TestMetrics> {
    match Get(passed, "Key Observations", JDict([]))
    case Raised(e) => Raised(e)
    case Ok(ko) =>
      match Observations(m, ko, parse)
      case Raised(e) => Raised(e)
      case Ok(m1) =>
        match CountryEntries(passed)
        case Raised(e) => Raised(e)
        case Ok(entries) =>
          match PartitionFold(m1.highDeviationCountries, m1.lowDeviationCountries, entries, parse)
          case Raised(e) => Raised(e)
          case Ok(hl) => Ok(m1.(highDeviationCountries := hl.0, lowDeviationCountries := hl.1))
  }

  /** `block.get(anomalies, {}).items()`. */
  function AnomalyItems(block: Json): Result<Fields> {
    match Get(block, AnomaliesKey, JDict([]))
    case Raised(e) => Raised(e)
    case Ok(an) => Items(an)
  }

  /** The failed-tests block of `extract_test_metrics`. */
  function WithFailed(m: TestMetrics, failed: Json): Result<TestMetrics> {
    match Get(failed, "Key Observations", JDict([]))
    case Raised(e) => Raised(e)
    case Ok(ko) =>
      match Get(ko, "Total Tests Conducted", JInt(0))
      case Raised(e) => Raised(e)
      case Ok(t) =>
        match ToInt(t)
        case Raised(e) => Raised(e)
        case Ok(n) =>
          match Get(ko, "Countries Impacted", JList([]))
          case Raised(e) => Raised(e)
          case Ok(countries) =>
            match AnomalyItems(failed)
            case Raised(e) => Raised(e)
            case Ok(fs) =>
              Ok(m.(totalTests := m.totalTests + n, failedTests := n,
                    countriesWithFailures := countries, defectPatterns := StringEntryLines(fs, true)))
  }

  /** The body of the `try` in `extract_test_metrics`. */
  function MetricsOf(parsed: Json, parse: FloatParser): Result<TestMetrics> {
    match Iterate(parsed)
    case Raised(e) => Raised(e)
    case Ok(items) =>
      match FirstWith(items, PassedKey)
      case Raised(e) => Raised(e)
      case Ok(p) =>
        match (if Present(p) then WithPassed(DefaultMetrics, p.value, parse) else Ok(DefaultMetrics))
        case Raised(e) => Raised(e)
        case Ok(m) =>
          match FirstWith(items, FailedKey)
          case Raised(e) => Raised(e)
          case Ok(f) => if Present(f) then WithFailed(m, f.value) else Ok(m)
  }

  // ---------------------------------------------------------------------------
  // Patterns

  const NotAvailable: Json := JStr("N/A")

  /** The deviation-range line, when both ends are given and neither is "N/A". */
  function RangeLines(anomalies: Json): Result<seq<string>> {
    match Get(anomalies, "Min Deviation", NotAvailable)
    case Raised(e) => Raised(e)
    case Ok(lo) =>
      match Get(anomalies, "Max Deviation", NotAvailable)
      case Raised(e) => Raised(e)
      case Ok(hi) =>
        Ok(if lo != NotAvailable && hi != NotAvailable
           then ["Sample ratio deviation ranges from " + Str(lo) + " to " + Str(hi)]
           else [])
  }

  /** "Recommendation: <rec>" for everything iterating the recommendations gives. */
  function RecommendationLines(xs: seq<Json>): (r: seq<string>)
    decreases |xs|
  {
    if xs == [] then []
    else RecommendationLines(xs[..|xs| - 1]) + ["Recommendation: " + Str(xs[|xs| - 1])]
  }

  /** The deviation-range line of a passed-tests block. */
  function RangeOf(passed: Json): Result<seq<string>> {
    match Get(passed, AnomaliesKey, JDict([]))
    case Raised(e) => Raised(e)
    case Ok(an) => RangeLines(an)
  }

  /** What iterating the passed-tests recommendations gives. */
  function PassedRecommendations(passed: Json): Result<seq<Json>> {
    match Get(passed, RecommendationsKey, JList([]))
    case Raised(e) => Raised(e)
    case Ok(recs) => Iterate(recs)
  }

  /** The passed-tests block of `identify_patterns`. */
  function PassedPatterns(passed: Json): Result<seq<string>> {
    match RangeOf(passed)
    case Raised(e) => Raised(e)
    case Ok(range) =>
      match PassedRecommendations(passed)
      case Raised(e) => Raised(e)
      case Ok(xs) => Ok(range + RecommendationLines(xs))
  }

  /** `failed.get(recommendations, {}).items()`. */
  function RecommendationItems(failed: Json): Result<Fields> {
    match Get(failed, RecommendationsKey, JDict([]))
    case Raised(e) => Raised(e)
    case Ok(recs) => Items(recs)
  }

  /** The failed-tests block of `identify_patterns`. */
  function FailedPatterns(failed: Json): Result<seq<string>> {
    match AnomalyItems(failed)
    case Raised(e) => Raised(e)
    case Ok(fs) =>
      match RecommendationItems(failed)
      case Raised(e) => Raised(e)
      case Ok(rs) => Ok(StringEntryLines(fs, true) + StringEntryLines(rs, false))
  }

  /** The body of the `try` in `identify_patterns`. */
  function PatternsOf(parsed: Json): Result<seq<string>> {
    match Iterate(parsed)
    case Raised(e) => Raised(e)
    case Ok(items) =>
      match FirstWith(items, PassedKey)
      case Raised(e) => Raised(e)
      case Ok(p) =>
        match (if Present(p) then PassedPatterns(p.value) else Ok([]))
        case Raised(e) => Raised(e)
        case Ok(ps) =>
          match FirstWith(items, FailedKey)
          case Raised(e) => Raised(e)
          case Ok(f) =>
            match (if Present(f) then FailedPatterns(f.value) else Ok([]))
            case Raised(e) => Raised(e)
            case Ok(fs) => Ok(ps + fs)
  }

  /** The lines of a block appended after `ps`, or the exception the block raised. */
  function Extended(ps: seq<string>, block: Result<seq<string>>): Result<seq<string>> {
    match block
    case Raised(e) => Raised(e)
    case Ok(lines) => Ok(ps + lines)
  }

  lemma AppendAssoc<T>(a: seq<T>, b: seq<T>, c: seq<T>)
    ensures (a + b) + c == a + (b + c)
  {
  }

  /** Appends "Recommendation: <rec>" for each recommendation. */
  method AppendRecommendations(ps: seq<string>, xs: seq<Json>) returns (r: seq<string>)
    ensures r == ps + RecommendationLines(xs)
  {
    r := ps;
    var i := 0;
    while i < |xs|
      invariant 0 <= i <= |xs|
      invariant r == ps + RecommendationLines(xs[..i])
    {
      assert xs[..i + 1][..i] == xs[..i];
      r := r + ["Recommendation: " + Str(xs[i])];
      i := i + 1;
    }
    assert xs[..i] == xs;
  }

  /** Appends a line for each string-valued entry. */
  method AppendStringEntries(ps: seq<string>, fs: Fields, keyed: bool) returns (r: seq<string>)
    ensures r == ps + StringEntryLines(fs, keyed)
  {
    r := ps;
    var i := 0;
    while i < |fs|
      invariant 0 <= i <= |fs|
      invariant r == ps + StringEntryLines(fs[..i], keyed)
    {
      assert fs[..i + 1][..i] == fs[..i];
      if fs[i].1.JStr? {
        r := r + [EntryLine(fs[i].0, fs[i].1.s, keyed)];
      }
      i := i + 1;
    }
    assert fs[..i] == fs;
  }

  // ---------------------------------------------------------------------------
  // The stages, on the workflow state

  /** The keys of the workflow state dict these stages read and write; `None` is an absent key. */
  datatype State = State(
    inputData: Json,
    parsedData: Option<Json>,
    error: Option<string>,
    metrics: Option<TestMetrics>,
    identifiedPatterns: Option<seq<string>>,
    rating: Option<Json>,
    justification: Option<Json>)

  /** `state.get("parsed_data")`. */
  function ParsedData(st: State): Json {
    st.parsedData.GetOr(JNull)
  }

  /** `parse_input_data`. */
  function ParseStep(st: State, decode: Decoder): State {
    var input := st.inputData;
    if !Truthy(input) then st.(error := Some("Input data not provided"))
    else if input.JDict? || input.JList? then st.(parsedData := Some(input))
    else if input.JStr? then
      match Loads(decode, input.s)
      case Raised(e) => st.(error := Some("Error parsing input data: " + e))
      case Ok(v) => st.(parsedData := Some(v))
    else st.(error := Some("Unsupported input data type: " + ClassText(input)))
  }

  /** What `extract_test_metrics` decides. */
  datatype Extraction = NoParsedData | ExtractionFailed(message: string) | Extracted(metrics: TestMetrics)

  function Extract(st: State, parse: FloatParser): Extraction {
    if !Truthy(ParsedData(st)) then NoParsedData
    else
      match MetricsOf(ParsedData(st), parse)
      case Raised(e) => ExtractionFailed(e)
      case Ok(m) => Extracted(m)
  }

  function ApplyExtraction(st: State, x: Extraction): State {
    match x
    case NoParsedData => st.(error := Some("No parsed data available for metric extraction"))
    case ExtractionFailed(e) => st.(error := Some("Error extracting test metrics: " + e))
    case Extracted(m) => st.(metrics := Some(m))
  }

  /** `identify_patterns`. */
  function IdentifyStep(st: State): State {
    if !Truthy(ParsedData(st)) then st.(error := Some("No parsed data available for pattern identification"))
    else
      match PatternsOf(ParsedData(st))
      case Raised(e) => st.(error := Some("Error identifying patterns: " + e))
      case Ok(ps) => st.(identifiedPatterns := Some(ps))
  }

  /** `evaluate_control_effectiveness`: refuse without parsed data, else ask the model. */
  function EvaluateStep(st: State, evaluation: Reply, extraction: Reply, decode: Decoder): State {
    if !Truthy(ParsedData(st)) then
      st.(error := Some("Insufficient data for effectiveness evaluation"),
          rating := Some(JStr(V3.NoData)),
          justification := Some(JStr("Insufficient data to evaluate effectiveness")))
    else
      var verdict := V3.AskModel(evaluation, extraction, decode);
      if verdict.CallFailed? then st.(error := Some(V3.EvaluationError + verdict.message))
      else if verdict.Unparsed? then
        st.(rating := Some(JStr(V3.NoData)), justification := Some(JStr(verdict.evaluation)),
            error := Some("Failed to parse effectiveness evaluation result as JSON"))
      else st.(rating := Some(verdict.rating), justification := Some(verdict.justification))
  }

  /** The first four stages along the workflow's unconditional edges. */
  function WorkflowSpec(st: State, decode: Decoder, parse: FloatParser,
                        evaluation: Reply, extraction: Reply): State {
    var st1 := ParseStep(st, decode);
    var st2 := ApplyExtraction(st1, Extract(st1, parse));
    var st3 := IdentifyStep(st2);
    EvaluateStep(st3, evaluation, extraction, decode)
  }

  // ---------------------------------------------------------------------------
  // The agent

  class ControlEffectivenessAgent {
    /** The workflow state dict the stages pass along and update. */
    var state: State
    var controlMetrics: TestMetrics

    constructor(st: State)
      ensures state == st && controlMetrics == DefaultMetrics
    {
      state := st;
      controlMetrics := DefaultMetrics;
    }

    method ParseInputData(decode: Decoder)
      modifies this
      ensures state == ParseStep(old(state), decode)
      ensures controlMetrics == old(controlMetrics)
    {
      var input := state.inputData;
      if !Truthy(input) {
        state := state.(error := Some("Input data not provided"));
        return;
      }
      if input.JDict? || input.JList? {
        state := state.(parsedData := Some(input));
      } else if input.JStr? {
        var d := Loads(decode, input.s);
        if d.Raised? {
          state := state.(error := Some("Error parsing input data: " + d.msg));
        } else {
          state := state.(parsedData := Some(d.value));
        }
      } else {
        state := state.(error := Some("Unsupported input data type: " + ClassText(input)));
      }
    }

    /** The passed-tests block: the observations, then the country loop. */
    static method CollectPassed(m: TestMetrics, passed: Json, parse: FloatParser) returns (r: Result<TestMetrics>)
      ensures r == WithPassed(m, passed, parse)
    {
      var ko := Get(passed, "Key Observations", JDict([]));
      if ko.Raised? { return Raised(ko.msg); }
      var metrics := Observations(m, ko.value, parse);
      if metrics.Raised? { return Raised(metrics.msg); }
      var entries := CountryEntries(passed);
      if entries.Raised? { return Raised(entries.msg); }
      var hl := PartitionCountries(metrics.value.highDeviationCountries, metrics.value.lowDeviationCountries,
                                   entries.value, parse);
      if hl.Raised? { return Raised(hl.msg); }
      return Ok(metrics.value.(highDeviationCountries := hl.value.0, lowDeviationCountries := hl.value.1));
    }

    method ExtractTestMetrics(parse: FloatParser)
      modifies this
      ensures state == ApplyExtraction(old(state), Extract(old(state), parse))
      ensures controlMetrics ==
                (if Extract(old(state), parse).Extracted? then Extract(old(state), parse).metrics
                 else old(controlMetrics))
    {
      var parsed := ParsedData(state);
      if !Truthy(parsed) {
        state := state.(error := Some("No parsed data available for metric extraction"));
        return;
      }
      var m := Metrics(parsed, parse);
      if m.Raised? {
        state := state.(error := Some("Error extracting test metrics: " + m.msg));
        return;
      }
      state := state.(metrics := Some(m.value));
      controlMetrics := m.value;
    }

    /** The `try` block of `extract_test_metrics`. */
    static method Metrics(parsed: Json, parse: FloatParser) returns (r: Result<TestMetrics>)
      ensures r == MetricsOf(parsed, parse)
    {
      var items := Iterate(parsed);
      if items.Raised? { return Raised(items.msg); }
      var p := FirstWith(items.value, PassedKey);
      if p.Raised? { return Raised(p.msg); }
      var m := DefaultMetrics;
      if Present(p.value) {
        var withPassed := CollectPassed(m, p.value.value, parse);
        if withPassed.Raised? { return Raised(withPassed.msg); }
        m := withPassed.value;
      }
      var f := FirstWith(items.value, FailedKey);
      if f.Raised? { return Raised(f.msg); }
      if Present(f.value) {
        r := WithFailed(m, f.value.value);
      } else {
        r := Ok(m);
      }
    }

    /** The passed-tests block of `identify_patterns`. */
    static method CollectPassedPatterns(patterns: seq<string>, passed: Json) returns (r: Result<seq<string>>)
      ensures r == Extended(patterns, PassedPatterns(passed))
    {
      var range := RangeOf(passed);
      if range.Raised? {
        return Raised(range.msg);
      }
      var xs := PassedRecommendations(passed);
      if xs.Raised? {
        return Raised(xs.msg);
      }
      var ps := AppendRecommendations(patterns + range.value, xs.value);
      AppendAssoc(patterns, range.value, RecommendationLines(xs.value));
      return Ok(ps);
    }

    /** The failed-tests block of `identify_patterns`. */
    static method CollectFailedPatterns(patterns: seq<string>, failed: Json) returns (r: Result<seq<string>>)
      ensures r == Extended(patterns, FailedPatterns(failed))
    {
      var fs := AnomalyItems(failed);
      if fs.Raised? {
        return Raised(fs.msg);
      }
      var ps := AppendStringEntries(patterns, fs.value, true);
      var rs := RecommendationItems(failed);
      if rs.Raised? {
        return Raised(rs.msg);
      }
      ps := AppendStringEntries(ps, rs.value, false);
      AppendAssoc(patterns, StringEntryLines(fs.value, true), StringEntryLines(rs.value, false));
      return Ok(ps);
    }

    /** The `try` block of `identify_patterns`, appending to `patterns` step by step. */
    static method Patterns(parsed: Json) returns (r: Result<seq<string>>)
      ensures r == PatternsOf(parsed)
    {
      var items := Iterate(parsed);
      if items.Raised? { return Raised(items.msg); }
      var patterns: seq<string> := [];
      var p := FirstWith(items.value, PassedKey);
      if p.Raised? { return Raised(p.msg); }
      if Present(p.value) {
        var withPassed := CollectPassedPatterns([], p.value.value);
        if withPassed.Raised? { return Raised(withPassed.msg); }
        patterns := withPassed.value;
        assert PassedPatterns(p.value.value).Ok?;
        assert [] + PassedPatterns(p.value.value).value == PassedPatterns(p.value.value).value;
        assert PassedPatterns(p.value.value) == Ok(patterns);
      }
      assert (if Present(p.value) then PassedPatterns(p.value.value) else Ok([])) == Ok(patterns);
      var f := FirstWith(items.value, FailedKey);
      if f.Raised? { return Raised(f.msg); }
      if Present(f.value) {
        r := CollectFailedPatterns(patterns, f.value.value);
      } else {
        assert patterns + [] == patterns;
        r := Ok(patterns);
      }
    }

    method IdentifyPatterns()
      modifies this
      ensures state == IdentifyStep(old(state))
      ensures controlMetrics == old(controlMetrics)
    {
      var parsed := ParsedData(state);
      if !Truthy(parsed) {
        state := state.(error := Some("No parsed data available for pattern identification"));
        return;
      }
      var ps := Patterns(parsed);
      if ps.Raised? {
        state := state.(error := Some("Error identifying patterns: " + ps.msg));
      } else {
        state := state.(identifiedPatterns := Some(ps.value));
      }
    }

    method EvaluateControlEffectiveness(evaluation: Reply, extraction: Reply, decode: Decoder)
      modifies this
      ensures state == EvaluateStep(old(state), evaluation, extraction, decode)
      ensures controlMetrics == old(controlMetrics)
    {
      state := EvaluateStep(state, evaluation, extraction, decode);
    }

    /** The stages in the order the workflow's edges give. */
    method RunWorkflow(decode: Decoder, parse: FloatParser, evaluation: Reply, extraction: Reply)
      modifies this
      ensures state == WorkflowSpec(old(state), decode, parse, evaluation, extraction)
    {
      ParseInputData(decode);
      ExtractTestMetrics(parse);
      IdentifyPatterns();
      EvaluateControlEffectiveness(evaluation, extraction, decode);
    }
  }

  // ---------------------------------------------------------------------------
  // Properties: parsing

  /**
   * Parsing changes only `parsed_data` and `error`: a dict or list is stored as
   * it is, a string as its decoding, and every other outcome is an error.
   */
  lemma ParseOutcome(st: State, decode: Decoder)
    ensures var r := ParseStep(st, decode);
            && r.(parsedData := st.parsedData, error := st.error) == st
            && (Truthy(st.inputData) && (st.inputData.JDict? || st.inputData.JList?) ==>
                  r.parsedData == Some(st.inputData) && r.error == st.error)
            && (st.inputData.JStr? && st.inputData.s != "" && decode(st.inputData.s).Parsed? ==>
                  r.parsedData == Some(decode(st.inputData.s).value) && r.error == st.error)
            && (r.error == st.error || r.parsedData == st.parsedData)
            && (!Truthy(st.inputData) ==> r.error == Some("Input data not provided"))
            && (Truthy(st.inputData) && !(st.inputData.JDict? || st.inputData.JList? || st.inputData.JStr?) ==>
                  r.error == Some("Unsupported input data type: " + ClassText(st.inputData)))
  {
  }

  // ---------------------------------------------------------------------------
  // Properties: the first summary

  /** `next` gives the key's value in the first dict that has the key; later items are never examined. */
  lemma {:induction false} FirstWithAt(items: seq<Json>, key: string, i: nat)
    requires i < |items|
    requires forall j :: 0 <= j <= i ==> items[j].JDict?
    requires forall j :: 0 <= j < i ==> key !in Keys(items[j].fields)
    requires key in Keys(items[i].fields)
    ensures FirstWith(items, key) == Ok(Lookup(items[i].fields, key))
  {
    if i > 0 {
      assert In(key, items[0]) == Ok(false);
      FirstWithAt(items[1..], key, i - 1);
    }
  }

  /** Without a dict holding the key, `next` falls back to `None`. */
  lemma {:induction false} FirstWithNone(items: seq<Json>, key: string)
    requires forall j :: 0 <= j < |items| ==> items[j].JDict? && key !in Keys(items[j].fields)
    ensures FirstWith(items, key) == Ok(None)
  {
    if items != [] {
      assert In(key, items[0]) == Ok(false);
      FirstWithNone(items[1..], key);
    }
  }

  // ---------------------------------------------------------------------------
  // Properties: the counts

  /** The passed-tests block adds its count to the total and leaves the failed-tests fields alone. */
  lemma PassedCounts(m: TestMetrics, passed: Json, parse: FloatParser)
    requires WithPassed(m, passed, parse).Ok?
    ensures var r := WithPassed(m, passed, parse).value;
            && r.totalTests == m.totalTests + r.passedTests && r.failedTests == m.failedTests
            && r.defectPatterns == m.defectPatterns && r.countriesWithFailures == m.countriesWithFailures
  {
    var ko := Get(passed, "Key Observations", JDict([])).value;
    ObservationsCounts(m, ko, parse);
  }

  lemma ObservationsCounts(m: TestMetrics, ko: Json, parse: FloatParser)
    requires Observations(m, ko, parse).Ok?
    ensures var r := Observations(m, ko, parse).value;
            && r.totalTests == m.totalTests + r.passedTests && r.failedTests == m.failedTests
            && r.defectPatterns == m.defectPatterns && r.countriesWithFailures == m.countriesWithFailures
  {
  }

  lemma FailedCounts(m: TestMetrics, failed: Json)
    requires WithFailed(m, failed).Ok?
    ensures var r := WithFailed(m, failed).value;
            r.totalTests == m.totalTests + r.failedTests && r.passedTests == m.passedTests
  {
  }

  /** The total is the passed-test count plus the failed-test count. */
  lemma TotalIsSum(st: State, parse: FloatParser)
    requires Extract(st, parse).Extracted?
    ensures var m := Extract(st, parse).metrics;
            m.totalTests == m.passedTests + m.failedTests
  {
    var items := Iterate(ParsedData(st)).value;
    var p := FirstWith(items, PassedKey).value;
    if Present(p) {
      PassedCounts(DefaultMetrics, p.value, parse);
    }
    var m := if Present(p) then WithPassed(DefaultMetrics, p.value, parse).value else DefaultMetrics;
    var f := FirstWith(items, FailedKey).value;
    if Present(f) {
      FailedCounts(m, f.value);
    }
  }

  /** An exception during extraction records the error and leaves `metrics` as it was. */
  lemma ExtractionFailureKeepsMetrics(st: State, parse: FloatParser)
    requires Extract(st, parse).ExtractionFailed?
    ensures var r := ApplyExtraction(st, Extract(st, parse));
            && r.metrics == st.metrics
            && r.error == Some("Error extracting test metrics: " + Extract(st, parse).message)
            && r.(error := st.error) == st
  {
  }

  // ---------------------------------------------------------------------------
  // Properties: the country partition against a filter

  /** Every country's record, or the first one whose deviation `float` rejects. */
  function Records(entries: Fields, parse: FloatParser): Result<seq<CountryDeviation>>
    decreases |entries|
  {
    if entries == [] then Ok([])
    else
      match CountryRecord(entries[0], parse)
      case Raised(e) => Raised(e)
      case Ok(c) =>
        match Records(entries[1..], parse)
        case Raised(e) => Raised(e)
        case Ok(cs) => Ok([c] + cs)
  }

  /** The records are there exactly when every entry parses, one per entry, in order. */
  lemma {:induction false} RecordsOk(entries: Fields, parse: FloatParser)
    ensures var r := Records(entries, parse);
            && (r.Ok? <==> forall i :: 0 <= i < |entries| ==> CountryRecord(entries[i], parse).Ok?)
            && (r.Ok? ==> |r.value| == |entries| &&
                          forall i :: 0 <= i < |entries| ==> CountryRecord(entries[i], parse) == Ok(r.value[i]))
    decreases |entries|
  {
    if entries != [] {
      RecordsOk(entries[1..], parse);
      assert forall i :: 1 <= i < |entries| ==> entries[1..][i - 1] == entries[i];
    }
  }

  /** The records above the threshold, in order. */
  function Above(cs: seq<CountryDeviation>, t: real): seq<CountryDeviation>
  {
    if cs == [] then []
    else (if cs[0].deviation > t then [cs[0]] else []) + Above(cs[1..], t)
  }

  /** The records below the threshold, in order. */
  function Below(cs: seq<CountryDeviation>, t: real): seq<CountryDeviation>
  {
    if cs == [] then []
    else (if cs[0].deviation < t then [cs[0]] else []) + Below(cs[1..], t)
  }

  /** `Above` keeps exactly the records over the threshold. */
  lemma {:induction false} AboveMembers(cs: seq<CountryDeviation>, t: real)
    ensures forall c :: c in Above(cs, t) <==> c in cs && c.deviation > t
  {
    if cs != [] {
      AboveMembers(cs[1..], t);
      assert cs == [cs[0]] + cs[1..];
    }
  }

  /** `Below` keeps exactly the records under the threshold. */
  lemma {:induction false} BelowMembers(cs: seq<CountryDeviation>, t: real)
    ensures forall c :: c in Below(cs, t) <==> c in cs && c.deviation < t
  {
    if cs != [] {
      BelowMembers(cs[1..], t);
      assert cs == [cs[0]] + cs[1..];
    }
  }

  /** The two lists after appending the above-50 and below-10 records, or the exception. */
  function Thresholded(high: seq<CountryDeviation>, low: seq<CountryDeviation>, records: Result<seq<CountryDeviation>>)
    : Result<(seq<CountryDeviation>, seq<CountryDeviation>)>
  {
    match records
    case Raised(e) => Raised(e)
    case Ok(cs) => Ok((high + Above(cs, HighThreshold), low + Below(cs, LowThreshold)))
  }

  /** The loop appends the strictly-above-50 records to one list and the strictly-below-10 ones to the other. */
  lemma {:induction false} PartitionByThreshold(high: seq<CountryDeviation>, low: seq<CountryDeviation>,
                                                entries: Fields, parse: FloatParser)
    ensures PartitionFold(high, low, entries, parse) == Thresholded(high, low, Records(entries, parse))
    decreases |entries|
  {
    if entries == [] {
      assert high + [] == high && low + [] == low;
    } else {
      var c := CountryRecord(entries[0], parse);
      if c.Ok? {
        var d := c.value;
        var rest := Records(entries[1..], parse);
        if d.deviation > HighThreshold {
          PartitionByThreshold(high + [d], low, entries[1..], parse);
          if rest.Ok? {
            var cs := [d] + rest.value;
            assert cs[1..] == rest.value;
            assert Records(entries, parse) == Ok(cs);
            assert Above(cs, HighThreshold) == [d] + Above(rest.value, HighThreshold);
            assert Below(cs, LowThreshold) == [] + Below(rest.value, LowThreshold) == Below(rest.value, LowThreshold);
            AppendAssoc(high, [d], Above(rest.value, HighThreshold));
          }
        } else if d.deviation < LowThreshold {
          PartitionByThreshold(high, low + [d], entries[1..], parse);
          if rest.Ok? {
            var cs := [d] + rest.value;
            assert cs[1..] == rest.value;
            assert Records(entries, parse) == Ok(cs);
            assert Above(cs, HighThreshold) == [] + Above(rest.value, HighThreshold) == Above(rest.value, HighThreshold);
            assert Below(cs, LowThreshold) == [d] + Below(rest.value, LowThreshold);
            AppendAssoc(low, [d], Below(rest.value, LowThreshold));
          }
        } else {
          PartitionByThreshold(high, low, entries[1..], parse);
          if rest.Ok? {
            var cs := [d] + rest.value;
            assert cs[1..] == rest.value;
            assert Records(entries, parse) == Ok(cs);
            assert Above(cs, HighThreshold) == [] + Above(rest.value, HighThreshold) == Above(rest.value, HighThreshold);
            assert Below(cs, LowThreshold) == [] + Below(rest.value, LowThreshold) == Below(rest.value, LowThreshold);
          }
        }
      }
    }
  }

  /**
   * The country loop raises exactly when some deviation does not parse; otherwise
   * the high and low lists are the above-50 and below-10 records in input order,
   * no record is in both, and a record from 10 to 50 is in neither.
   */
  lemma CountryPartition(entries: Fields, parse: FloatParser)
    ensures var r := PartitionFold([], [], entries, parse);
            && (r.Ok? <==> forall i :: 0 <= i < |entries| ==> CountryRecord(entries[i], parse).Ok?)
            && (r.Ok? ==>
                  Records(entries, parse).Ok? &&
                  var cs := Records(entries, parse).value;
                  && r.value.0 == Above(cs, HighThreshold)
                  && r.value.1 == Below(cs, LowThreshold)
                  && (forall c :: c in r.value.0 ==> c !in r.value.1)
                  && (forall c :: c in cs && LowThreshold <= c.deviation <= HighThreshold ==>
                        c !in r.value.0 && c !in r.value.1))
  {
    PartitionByThreshold([], [], entries, parse);
    RecordsOk(entries, parse);
    var rs := Records(entries, parse);
    if rs.Ok? {
      AboveMembers(rs.value, HighThreshold);
      BelowMembers(rs.value, LowThreshold);
      assert [] + Above(rs.value, HighThreshold) == Above(rs.value, HighThreshold);
      assert [] + Below(rs.value, LowThreshold) == Below(rs.value, LowThreshold);
    }
  }

  // ---------------------------------------------------------------------------
  // Properties: the pattern lines

  /** Lines of two runs of entries are the lines of each, in order. */
  lemma {:induction false} StringEntryLinesAppend(a: Fields, b: Fields, keyed: bool)
    ensures StringEntryLines(a + b, keyed) == StringEntryLines(a, keyed) + StringEntryLines(b, keyed)
    decreases |b|
  {
    if b == [] {
      assert a + b == a;
    } else {
      var b' := b[..|b| - 1];
      assert (a + b)[..|a + b| - 1] == a + b';
      assert (a + b)[|a + b| - 1] == b[|b| - 1];
      StringEntryLinesAppend(a, b', keyed);
    }
  }

  /** A non-string entry contributes no line; a string entry contributes exactly its own. */
  lemma EntryContribution(k: string, v: Json, keyed: bool)
    ensures StringEntryLines([(k, v)], keyed) == if v.JStr? then [EntryLine(k, v.s, keyed)] else []
  {
    assert [(k, v)][..0] == [];
  }

  /** The range line appears exactly when both ends are given and neither is "N/A". */
  lemma RangeLineIff(anomalies: Json)
    requires anomalies.JDict?
    ensures RangeLines(anomalies).Ok?
    ensures var lo := Lookup(anomalies.fields, "Min Deviation");
            var hi := Lookup(anomalies.fields, "Max Deviation");
            (RangeLines(anomalies).value != []) <==>
              (lo.Some? && lo.value != NotAvailable && hi.Some? && hi.value != NotAvailable)
    ensures |RangeLines(anomalies).value| <= 1
  {
  }

  /** In the failed-tests block, the anomaly lines come first and are the defect patterns. */
  lemma DefectPatternsLead(m: TestMetrics, failed: Json)
    requires WithFailed(m, failed).Ok? && FailedPatterns(failed).Ok?
    ensures var d := WithFailed(m, failed).value.defectPatterns;
            |d| <= |FailedPatterns(failed).value| && FailedPatterns(failed).value[..|d|] == d
  {
    var fs := AnomalyItems(failed).value;
    var rs := RecommendationItems(failed).value;
    var d := StringEntryLines(fs, true);
    assert (d + StringEntryLines(rs, false))[..|d|] == d;
  }

  /** What the prefix of a later part holds, the whole holds. */
  lemma PrefixOfSuffixMembers(a: seq<string>, b: seq<string>, d: seq<string>)
    requires |d| <= |b| && b[..|d|] == d
    ensures forall l :: l in d ==> l in a + b
  {
    forall l | l in d ensures l in a + b {
      var k :| 0 <= k < |d| && d[k] == l;
      assert (a + b)[|a| + k] == b[k];
    }
  }

  /** The defect patterns the extraction records, when its failed-tests block ran. */
  lemma MetricsOfFailed(parsed: Json, parse: FloatParser)
    requires MetricsOf(parsed, parse).Ok?
    ensures var items := Iterate(parsed).value;
            var f := FirstWith(items, FailedKey).value;
            var p := FirstWith(items, PassedKey).value;
            var m := if Present(p) then WithPassed(DefaultMetrics, p.value, parse).value else DefaultMetrics;
            MetricsOf(parsed, parse) == if Present(f) then WithFailed(m, f.value) else Ok(m)
  {
  }

  /** The identified patterns: the passed-tests lines, then the failed-tests lines. */
  lemma PatternsOfParts(parsed: Json)
    requires PatternsOf(parsed).Ok?
    ensures var items := Iterate(parsed).value;
            var f := FirstWith(items, FailedKey).value;
            var p := FirstWith(items, PassedKey).value;
            var pp: seq<string> := if Present(p) then PassedPatterns(p.value).value else [];
            (Present(f) ==> FailedPatterns(f.value).Ok? && PatternsOf(parsed).value == pp + FailedPatterns(f.value).value)
  {
  }

  /** Every defect pattern the extraction records is also an identified pattern. */
  lemma DefectPatternsIdentified(parsed: Json, parse: FloatParser)
    requires MetricsOf(parsed, parse).Ok? && PatternsOf(parsed).Ok?
    ensures forall l :: l in MetricsOf(parsed, parse).value.defectPatterns ==> l in PatternsOf(parsed).value
  {
    var items := Iterate(parsed).value;
    var p := FirstWith(items, PassedKey).value;
    var f := FirstWith(items, FailedKey).value;
    var m := if Present(p) then WithPassed(DefaultMetrics, p.value, parse).value else DefaultMetrics;
    MetricsOfFailed(parsed, parse);
    if Present(f) {
      PatternsOfParts(parsed);
      DefectPatternsLead(m, f.value);
      var pp: seq<string> := if Present(p) then PassedPatterns(p.value).value else [];
      PrefixOfSuffixMembers(pp, FailedPatterns(f.value).value, WithFailed(m, f.value).value.defectPatterns);
    } else if Present(p) {
      PassedCounts(DefaultMetrics, p.value, parse);
    }
  }

  // ---------------------------------------------------------------------------
  // Properties: evaluation and the workflow

  /** Without parsed data no model call is made: the replies make no difference. */
  lemma EvaluateGuard(st: State, e1: Reply, x1: Reply, e2: Reply, x2: Reply, decode: Decoder)
    requires !Truthy(ParsedData(st))
    ensures EvaluateStep(st, e1, x1, decode) == EvaluateStep(st, e2, x2, decode)
    ensures EvaluateStep(st, e1, x1, decode).rating == Some(JStr(V3.NoData))
    ensures EvaluateStep(st, e1, x1, decode).error == Some("Insufficient data for effectiveness evaluation")
  {
  }

  /** Evaluation changes only the error, the rating and the justification. */
  lemma EvaluateFrame(st: State, evaluation: Reply, extraction: Reply, decode: Decoder)
    ensures EvaluateStep(st, evaluation, extraction, decode).(error := st.error, rating := st.rating,
                                                              justification := st.justification) == st
  {
  }

  /**
   * The edges are unconditional: when parsing leaves no usable data, every later
   * stage still runs, each overwrites the error, and the run ends with the
   * evaluation guard's error and rating, having written no metrics or patterns.
   */
  lemma WorkflowWithoutData(st: State, decode: Decoder, parse: FloatParser, evaluation: Reply, extraction: Reply)
    requires !Truthy(ParsedData(ParseStep(st, decode)))
    ensures var r := WorkflowSpec(st, decode, parse, evaluation, extraction);
            && r.error == Some("Insufficient data for effectiveness evaluation")
            && r.rating == Some(JStr(V3.NoData))
            && r.metrics == st.metrics
            && r.identifiedPatterns == st.identifiedPatterns
  {
    ParseOutcome(st, decode);
  }
}
