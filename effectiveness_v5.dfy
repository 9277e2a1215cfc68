/**
 * The structured-output variant of the control-effectiveness agent. Every
 * stage builds a fresh state dict from the keys it was given plus its own;
 * the model calls and the structured-output chains are oracles, and the
 * recommendation text is normalised into a list.
 */
module ControlEffectivenessV5 {
  import opened Py

  type State = map<string, Json>

  /** `state[k]`, raising `KeyError` when the key is missing. */
  function Key(st: State, k: string): (r: Result<Json>)
    ensures r.Ok? <==> k in st
    ensures r.Ok? ==> r.value == st[k]
  {
    if k in st then Ok(st[k]) else Raised(StrRepr(k))
  }

  // ---------------------------------------------------------------------------
  // Recommendations

  /** What the comprehension keeps of one line: the stripped line, when it starts with "- ". */
  function DashLine(line: string): Option<string> {
    var t := Strip(line);
    if StartsWith(t, "- ") then Some(t) else None
  }

  /** `[line.strip() for line in lines if line.strip().startswith("- ")]`. */
  function DashLines(lines: seq<string>): (r: seq<string>)
    ensures |r| <= |lines|
  {
    Somes(seq(|lines|, i requires 0 <= i < |lines| => DashLine(lines[i])))
  }

  /** The text path: the dash lines, or the whole reply when there are none. */
  function TextRecommendations(content: string): (r: seq<string>)
    ensures r != []
  {
    var ls := DashLines(Split(content, '\n'));
    if ls == [] then [content] else ls
  }

  function Strs(ls: seq<string>): (r: seq<Json>)
    ensures |r| == |ls|
    ensures forall i :: 0 <= i < |ls| ==> r[i] == JStr(ls[i])
  {
    seq(|ls|, i requires 0 <= i < |ls| => JStr(ls[i]))
  }

  /** What `_generate_recommendations` makes of the model's reply. */
  function Recommendations(content: string, decode: Decoder): Json {
    match decode(content)
    case Parsed(v) =>
      if v.JDict? && "recommendations" in Keys(v.fields) then Lookup(v.fields, "recommendations").value
      else if v.JList? then v
      else JList([JStr(content)])
    case DecodeError(_) => JList(Strs(TextRecommendations(content)))
  }

  // ---------------------------------------------------------------------------
  // The stages

  /** `_parse_input`, with `reply` the model's answer when the input is a string that is not JSON. */
  function ParseInput(st: State, decode: Decoder, reply: Reply): Result<State> {
    match Key(st, "input")
    case Raised(e) => Raised(e)
    case Ok(input) =>
      if input.JStr? && decode(input.s).DecodeError? then
        match reply
        case Failed(e) => Raised(e)
        case Answer(content) =>
          var parsed := match decode(content)
                        case Parsed(v) => v
                        case DecodeError(_) => JDict([("raw_text", JStr(content))]);
          match Key(st, "history")
          case Raised(e) => Raised(e)
          case Ok(h) => Ok(map["input" := input, "history" := h, "parsed_data" := parsed])
      else
        var data := if input.JStr? then decode(input.s).value else input;
        match Key(st, "history")
        case Raised(e) => Raised(e)
        case Ok(h) => Ok(map["input" := data, "history" := h, "parsed_data" := data])
  }

  /** `_extract_metrics`, with `metrics` what the structured-output chain returns or raises. */
  function ExtractMetrics(st: State, metrics: Result<Json>): Result<State> {
    match Key(st, "parsed_data")
    case Raised(e) => Raised(e)
    case Ok(pd) =>
      match metrics
      case Raised(e) => Raised(e)
      case Ok(m) =>
        match Key(st, "input")
        case Raised(e) => Raised(e)
        case Ok(input) =>
          match Key(st, "history")
          case Raised(e) => Raised(e)
          case Ok(h) => Ok(map["input" := input, "history" := h, "parsed_data" := pd, "metrics" := m])
  }

  /** `_assess_effectiveness`, with `assessment` what the structured-output chain returns or raises. */
  function AssessEffectiveness(st: State, assessment: Result<Json>): Result<State> {
    match Key(st, "metrics")
    case Raised(e) => Raised(e)
    case Ok(m) =>
      match Key(st, "parsed_data")
      case Raised(e) => Raised(e)
      case Ok(pd) =>
        match assessment
        case Raised(e) => Raised(e)
        case Ok(a) =>
          match Key(st, "input")
          case Raised(e) => Raised(e)
          case Ok(input) =>
            match Key(st, "history")
            case Raised(e) => Raised(e)
            case Ok(h) =>
              Ok(map["input" := input, "history" := h, "parsed_data" := pd, "metrics" := m, "assessment" := a])
  }

  /** The model's answer to the recommendation prompt, normalised; a failed call raises. */
  function RecommendationsReply(reply: Reply, decode: Decoder): Result<Json> {
    match reply
    case Failed(e) => Raised(e)
    case Answer(content) => Ok(Recommendations(content, decode))
  }

  /**
   * `_generate_recommendations`, with `recs` what `RecommendationsReply` makes
   * of the model's answer: the keys the prompt reads are looked up first, then
   * the model is asked, then the state is rebuilt.
   */
  function GenerateRecommendations(st: State, recs: Result<Json>): Result<State> {
    match Key(st, "metrics")
    case Raised(e) => Raised(e)
    case Ok(m) =>
      match Key(st, "assessment")
      case Raised(e) => Raised(e)
      case Ok(a) =>
        match Key(st, "parsed_data")
        case Raised(e) => Raised(e)
        case Ok(pd) =>
          match recs
          case Raised(e) => Raised(e)
          case Ok(rs) =>
            match Key(st, "input")
            case Raised(e) => Raised(e)
            case Ok(input) =>
              match Key(st, "history")
              case Raised(e) => Raised(e)
              case Ok(h) =>
                Ok(map["input" := input, "history" := h, "parsed_data" := pd, "metrics" := m,
                       "assessment" := a, "recommendations" := rs])
  }

  /** Building `ControlAssessment(metrics=..., assessment=..., recommendations=...)`, left abstract. */
  type Validator = (Json, Json, Json) -> Result<Json>

  /** `_format_output`: only the input, the history and the combined assessment remain. */
  function FormatOutput(st: State, validate: Validator): Result<State> {
    match Key(st, "metrics")
    case Raised(e) => Raised(e)
    case Ok(m) =>
      match Key(st, "assessment")
      case Raised(e) => Raised(e)
      case Ok(a) =>
        match Key(st, "recommendations")
        case Raised(e) => Raised(e)
        case Ok(recs) =>
          match validate(m, a, recs)
          case Raised(e) => Raised(e)
          case Ok(ca) =>
            match Key(st, "input")
            case Raised(e) => Raised(e)
            case Ok(input) =>
              match Key(st, "history")
              case Raised(e) => Raised(e)
              case Ok(h) => Ok(map["input" := input, "history" := h, "assessment" := ca])
  }

  /** What the model and the chains give back over one run. */
  datatype Oracles = Oracles(
    decode: Decoder,
    parseReply: Reply,
    metrics: Result<Json>,
    assessment: Result<Json>,
    recommendationReply: Reply,
    validate: Validator)

  function InitialState(input: Json): State {
    map["input" := input, "history" := JList([]), "assessment" := JDict([])]
  }

  /** The states along the five unconditional edges, or the exception that stopped the run. */
  function Stages(input: Json, o: Oracles): Result<seq<State>> {
    var st0 := InitialState(input);
    match ParseInput(st0, o.decode, o.parseReply)
    case Raised(e) => Raised(e)
    case Ok(st1) =>
      match ExtractMetrics(st1, o.metrics)
      case Raised(e) => Raised(e)
      case Ok(st2) =>
        match AssessEffectiveness(st2, o.assessment)
        case Raised(e) => Raised(e)
        case Ok(st3) =>
          match GenerateRecommendations(st3, RecommendationsReply(o.recommendationReply, o.decode))
          case Raised(e) => Raised(e)
          case Ok(st4) =>
            match FormatOutput(st4, o.validate)
            case Raised(e) => Raised(e)
            case Ok(st5) => Ok([st0, st1, st2, st3, st4, st5])
  }

  /** `run`: the final state's assessment. */
  function Run(input: Json, o: Oracles): Result<Json> {
    match Stages(input, o)
    case Raised(e) => Raised(e)
    case Ok(sts) => Key(sts[|sts| - 1], "assessment")
  }

  // ---------------------------------------------------------------------------
  // Properties: recommendations

  /** Each JSON shape gives its own recommendations: the dict's value, the list itself, or the raw reply. */
  lemma RecommendationsFromJson(content: string, decode: Decoder, v: Json)
    requires decode(content) == Parsed(v)
    ensures v.JDict? && "recommendations" in Keys(v.fields) ==>
              Subscript(v, "recommendations") == Ok(Recommendations(content, decode))
    ensures v.JList? ==> Recommendations(content, decode) == v
    ensures v == JList([]) ==> Recommendations(content, decode) == JList([])
    ensures !v.JList? && !(v.JDict? && "recommendations" in Keys(v.fields)) ==>
              Recommendations(content, decode) == JList([JStr(content)])
  {
  }

  /** Every dash line is stripped and starts with "- ". */
  lemma DashLinesShape(lines: seq<string>)
    ensures forall l :: l in DashLines(lines) ==> Strip(l) == l && StartsWith(l, "- ")
  {
    var xs := seq(|lines|, i requires 0 <= i < |lines| => DashLine(lines[i]));
    assert DashLines(lines) == Somes(xs);
    SomesFrom(xs);
    forall l | l in Somes(xs) ensures Strip(l) == l && StartsWith(l, "- ") {
      var i :| 0 <= i < |xs| && xs[i] == Some(l);
      DashLineShape(lines[i]);
    }
  }

  lemma DashLineShape(line: string)
    ensures DashLine(line).Some? ==> Strip(DashLine(line).value) == DashLine(line).value
                                     && StartsWith(DashLine(line).value, "- ")
  {
    StripIdempotent(line);
  }

  /** Lines that are already stripped dash lines are all kept, in order. */
  lemma DashLinesAll(lines: seq<string>)
    requires forall i :: 0 <= i < |lines| ==> Strip(lines[i]) == lines[i] && StartsWith(lines[i], "- ")
    ensures DashLines(lines) == lines
  {
    var xs := seq(|lines|, i requires 0 <= i < |lines| => DashLine(lines[i]));
    forall i | 0 <= i < |lines| ensures xs[i] == Some(lines[i]) {
      DashLineKept(lines[i]);
    }
    SomesAll(xs, lines);
  }

  lemma DashLineKept(l: string)
    requires Strip(l) == l && StartsWith(l, "- ")
    ensures DashLine(l) == Some(l)
  {
  }

  /** A reply that is not JSON always yields at least one recommendation, each a string. */
  lemma TextPathNeverEmpty(content: string, decode: Decoder)
    requires decode(content).DecodeError?
    ensures Recommendations(content, decode).JList?
    ensures Recommendations(content, decode).items != []
    ensures forall x :: x in Recommendations(content, decode).items ==> x.JStr?
  {
  }

  /**
   * A reply that is not JSON and lists stripped "- " items one per line yields
   * exactly those items, in order.
   */
  lemma TextRoundTrip(items: seq<string>, decode: Decoder)
    requires items != []
    requires forall i :: 0 <= i < |items| ==> '\n' !in items[i] && Strip(items[i]) == items[i] && StartsWith(items[i], "- ")
    requires decode(Join("\n", items)).DecodeError?
    ensures Recommendations(Join("\n", items), decode) == JList(Strs(items))
  {
    TextOfDashItems(items);
  }

  lemma TextOfDashItems(items: seq<string>)
    requires items != []
    requires forall i :: 0 <= i < |items| ==> '\n' !in items[i] && Strip(items[i]) == items[i] && StartsWith(items[i], "- ")
    ensures TextRecommendations(Join("\n", items)) == items
  {
    SplitJoin(items, '\n');
    DashLinesAll(items);
  }

  // ---------------------------------------------------------------------------
  // Properties: the stages

  /**
   * A non-string input is both `input` and `parsed_data`; a JSON string is
   * replaced by its value; any other string stays the input, and the parsed data
   * is the model's JSON reply or else `{"raw_text": reply}`.
   */
  lemma ParseInputCases(st: State, decode: Decoder, reply: Reply)
    requires "input" in st && "history" in st
    ensures var r := ParseInput(st, decode, reply);
            var input := st["input"];
            && (!input.JStr? ==> r == Ok(map["input" := input, "history" := st["history"], "parsed_data" := input]))
            && (input.JStr? && decode(input.s).Parsed? ==>
                  var v := decode(input.s).value;
                  r == Ok(map["input" := v, "history" := st["history"], "parsed_data" := v]))
            && (input.JStr? && decode(input.s).DecodeError? ==>
                  (reply.Failed? ==> r == Raised(reply.message))
                  && (reply.Answer? ==>
                        && r.Ok? && r.value["input"] == input
                        && r.value["parsed_data"] == (if decode(reply.content).Parsed? then decode(reply.content).value
                                                      else JDict([("raw_text", JStr(reply.content))]))))
  {
  }

  /** `_parse_input` passes `history` on and returns exactly three keys. */
  lemma ParseInputThreads(st: State, decode: Decoder, reply: Reply, r: State)
    requires ParseInput(st, decode, reply) == Ok(r)
    ensures "input" in st && "history" in st && r["history"] == st["history"]
    ensures r.Keys == {"input", "history", "parsed_data"}
  {
  }

  /** `_extract_metrics` passes `input` and `history` on and adds `metrics`. */
  lemma ExtractMetricsThreads(st: State, metrics: Result<Json>, r: State)
    requires ExtractMetrics(st, metrics) == Ok(r)
    ensures "input" in st && "history" in st && r["input"] == st["input"] && r["history"] == st["history"]
    ensures r.Keys == {"input", "history", "parsed_data"} + {"metrics"}
  {
  }

  /** `_assess_effectiveness` passes `input` and `history` on and adds `assessment`. */
  lemma AssessThreads(st: State, assessment: Result<Json>, r: State)
    requires AssessEffectiveness(st, assessment) == Ok(r)
    ensures "input" in st && "history" in st && r["input"] == st["input"] && r["history"] == st["history"]
    ensures r.Keys == {"input", "history", "parsed_data", "metrics"} + {"assessment"}
  {
  }

  /** `_generate_recommendations` passes `input` and `history` on and adds `recommendations`. */
  lemma RecommendationsThreads(st: State, recs: Result<Json>, r: State)
    requires GenerateRecommendations(st, recs) == Ok(r)
    ensures "input" in st && "history" in st && r["input"] == st["input"] && r["history"] == st["history"]
    ensures r.Keys == {"input", "history", "parsed_data", "metrics", "assessment"} + {"recommendations"}
  {
  }

  /** `_format_output` passes `input` and `history` on and keeps only them and the combined assessment. */
  lemma FormatThreads(st: State, validate: Validator, r: State)
    requires FormatOutput(st, validate) == Ok(r)
    ensures "input" in st && "history" in st && r["input"] == st["input"] && r["history"] == st["history"]
    ensures r.Keys == {"input", "history", "assessment"}
    ensures "metrics" in st && "assessment" in st && "recommendations" in st
    ensures Key(r, "assessment") == validate(st["metrics"], st["assessment"], st["recommendations"])
  {
  }

  /** The states of a run, each the previous one's stage result. */
  lemma StagesLinks(input: Json, o: Oracles)
    requires Stages(input, o).Ok?
    ensures var sts := Stages(input, o).value;
            && |sts| == 6 && sts[0] == InitialState(input)
            && ParseInput(sts[0], o.decode, o.parseReply) == Ok(sts[1])
            && ExtractMetrics(sts[1], o.metrics) == Ok(sts[2])
            && AssessEffectiveness(sts[2], o.assessment) == Ok(sts[3])
            && GenerateRecommendations(sts[3], RecommendationsReply(o.recommendationReply, o.decode)) == Ok(sts[4])
            && FormatOutput(sts[4], o.validate) == Ok(sts[5])
  {
  }

  /**
   * Over a whole run the history is never appended to: every state holds the
   * empty list `run` starts with, every state after parsing holds the same
   * input, and the result is the combined assessment the validator built.
   */
  lemma RunHistory(input: Json, o: Oracles)
    requires Stages(input, o).Ok?
    ensures var sts := Stages(input, o).value;
            && |sts| == 6
            && (forall i :: 0 <= i < 6 ==> "history" in sts[i] && sts[i]["history"] == JList([]))
            && (forall i :: 1 <= i < 6 ==> "input" in sts[i] && sts[i]["input"] == sts[1]["input"])
            && Run(input, o) == o.validate(sts[4]["metrics"], sts[4]["assessment"], sts[4]["recommendations"])
  {
    var sts := Stages(input, o).value;
    StagesLinks(input, o);
    ParseInputThreads(sts[0], o.decode, o.parseReply, sts[1]);
    ExtractMetricsThreads(sts[1], o.metrics, sts[2]);
    AssessThreads(sts[2], o.assessment, sts[3]);
    RecommendationsThreads(sts[3], RecommendationsReply(o.recommendationReply, o.decode), sts[4]);
    FormatThreads(sts[4], o.validate, sts[5]);
  }
}
