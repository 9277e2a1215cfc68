/**
 * The document-reading variant of the control-effectiveness agent. A workflow
 * state dict is passed through a fixed chain of stages: the document is read,
 * then risks, controls and an effectiveness assessment are extracted by two
 * model calls each (an analysis, then a conversion to JSON), and the gap
 * identification starts from the same inputs. The model and the file read are
 * oracles; `json.loads` is the shared decoder oracle.
 */
module ControlEffectivenessV2 {
  import opened Py

  type State = map<string, Json>

  // ---------------------------------------------------------------------------
  // Workflow topology

  /** The workflow's nodes, and `END`. */
  datatype Node = ReadDocument | ExtractRisks | ExtractControls | AssessControlEffectiveness
                | IdentifyGaps | GenerateRecommendations | PrepareFinalReport | End
  {
    function Name(): string {
      match this
      case ReadDocument => "read_document"
      case ExtractRisks => "extract_risks"
      case ExtractControls => "extract_controls"
      case AssessControlEffectiveness => "assess_control_effectiveness"
      case IdentifyGaps => "identify_gaps"
      case GenerateRecommendations => "generate_recommendations"
      case PrepareFinalReport => "prepare_final_report"
      case End => "__end__"
    }
  }

  /** The nodes in the order the unconditional edges chain them. */
  const Nodes: seq<Node> := [ReadDocument, ExtractRisks, ExtractControls, AssessControlEffectiveness,
                             IdentifyGaps, GenerateRecommendations, PrepareFinalReport]

  /** The `add_edge` calls, in order; none of them depends on the state. */
  const Edges: seq<(Node, Node)> := [
    (ReadDocument, ExtractRisks),
    (ExtractRisks, ExtractControls),
    (ExtractControls, AssessControlEffectiveness),
    (AssessControlEffectiveness, IdentifyGaps),
    (IdentifyGaps, GenerateRecommendations),
    (GenerateRecommendations, PrepareFinalReport),
    (PrepareFinalReport, End)]

  /** The target of the first edge leaving `node` in `edges`. */
  function Successor(edges: seq<(Node, Node)>, node: Node): (r: Option<Node>)
    ensures r.None? ==> forall i :: 0 <= i < |edges| ==> edges[i].0 != node
    ensures r.Some? ==> (node, r.value) in edges
  {
    if edges == [] then None
    else if edges[0].0 == node then Some(edges[0].1)
    else Successor(edges[1..], node)
  }

  /** An edge whose source no earlier edge has is the one followed. */
  lemma {:induction false} SuccessorAt(edges: seq<(Node, Node)>, i: nat)
    requires i < |edges|
    requires forall j :: 0 <= j < i ==> edges[j].0 != edges[i].0
    ensures Successor(edges, edges[i].0) == Some(edges[i].1)
  {
    if i > 0 {
      SuccessorAt(edges[1..], i - 1);
    }
  }

  /** The nodes a run along `edges` visits from `node`, following at most `fuel` edges. */
  function Walk(edges: seq<(Node, Node)>, node: Node, fuel: nat): seq<Node>
    decreases fuel
  {
    match Successor(edges, node)
    case None => [node]
    case Some(n) => if fuel == 0 then [node] else [node] + Walk(edges, n, fuel - 1)
  }

  /** Each node leaves by its own edge. */
  lemma NodeSuccessor(i: nat)
    requires i < 7
    ensures Successor(Edges, Nodes[i]) == Some(if i < 6 then Nodes[i + 1] else End)
  {
    assert Edges[i].0 == Nodes[i];
    SuccessorAt(Edges, i);
  }

  /** One step of a walk along an edge. */
  lemma WalkStep(edges: seq<(Node, Node)>, node: Node, fuel: nat, n: Node)
    requires fuel > 0 && Successor(edges, node) == Some(n)
    ensures Walk(edges, node, fuel) == [node] + Walk(edges, n, fuel - 1)
  {
  }

  /** A run from the first node of any chain of edges ending in END visits the chain in order, then ends. */
  lemma {:induction false} WalkChain(edges: seq<(Node, Node)>, ns: seq<Node>)
    requires |ns| >= 1
    requires forall j :: 0 <= j < |ns| - 1 ==> Successor(edges, ns[j]) == Some(ns[j + 1])
    requires Successor(edges, ns[|ns| - 1]) == Some(End)
    requires Successor(edges, End).None?
    ensures Walk(edges, ns[0], |ns|) == ns + [End]
    decreases |ns|
  {
    if |ns| == 1 {
      WalkStep(edges, ns[0], 1, End);
      assert Walk(edges, End, 0) == [End];
    } else {
      WalkStep(edges, ns[0], |ns|, ns[1]);
      WalkChain(edges, ns[1..]);
      assert ns == [ns[0]] + ns[1..];
    }
  }

  /** Every node has exactly one way on, and from the start a run visits all seven nodes in order, then ends. */
  lemma WorkflowIsChain()
    ensures forall i :: 0 <= i < 6 ==> Successor(Edges, Nodes[i]) == Some(Nodes[i + 1])
    ensures Successor(Edges, Nodes[6]) == Some(End) && Successor(Edges, End).None?
    ensures Walk(Edges, ReadDocument, 7) == Nodes + [End]
  {
    forall i | 0 <= i < 6 ensures Successor(Edges, Nodes[i]) == Some(Nodes[i + 1]) {
      NodeSuccessor(i);
    }
    NodeSuccessor(6);
    NoEdgeFromEnd();
    WalkChain(Edges, Nodes);
  }

  /** No edge leaves END. */
  lemma NoEdgeFromEnd()
    ensures Successor(Edges, End).None?
  {
    assert forall i :: 0 <= i < |Edges| ==> Edges[i].0 != End;
  }

  // ---------------------------------------------------------------------------
  // Oracles

  /** `open(path).read()`: the file's text, or the message of the exception it raises. */
  type Reader = Json -> Reply

  /** The three stages that extract a JSON value from the document. */
  datatype Extraction = Risks | Controls | Assessment {
    /** The state key (and agent field) the decoded value goes to. */
    function Key(): string {
      match this
      case Risks => "risks"
      case Controls => "controls"
      case Assessment => "effectiveness_assessment"
    }

    /** The list key of the empty wrapper stored when the reply is not JSON. */
    function ListKey(): string {
      match this
      case Risks => "risks"
      case Controls => "controls"
      case Assessment => "assessments"
    }

    /** Where the undecodable reply is kept. */
    function RawKey(): string {
      match this
      case Risks => "risk_extraction_raw"
      case Controls => "control_extraction_raw"
      case Assessment => "assessment_raw"
    }

    function MissingContent(): string {
      match this
      case Risks => "Document content not available for risk extraction"
      case Controls => "Document content not available for control extraction"
      case Assessment => "Document content not available for control effectiveness assessment"
    }

    function ParseFailure(): string {
      match this
      case Risks => "Failed to parse risk extraction result as JSON"
      case Controls => "Failed to parse control extraction result as JSON"
      case Assessment => "Failed to parse effectiveness assessment result as JSON"
    }

    function ErrorPrefix(): string {
      match this
      case Risks => "Error extracting risks: "
      case Controls => "Error extracting controls: "
      case Assessment => "Error assessing control effectiveness: "
    }
  }

  /** What a stage asks the model: the analysis of its inputs, then the JSON form of that analysis. */
  datatype Request = Analyse(task: Extraction, inputs: seq<Json>) | Structure(task: Extraction, analysis: string)

  /** The model behind both chains of a stage: the reply text, or the message of the exception raised. */
  type Llm = Request -> Reply

  // ---------------------------------------------------------------------------
  // Stage specifications

  /** `{key: []}`, the value stored when a reply cannot be decoded and the default for a missing upstream value. */
  function Wrapper(key: string): Json {
    JDict([(key, JList([]))])
  }

  function Content(st: State): Json {
    MapGet(st, "document_content", JNull)
  }

  /** The values a stage puts into its analysis prompt, with the defaults for missing upstream results. */
  function Upstream(st: State, x: Extraction): seq<Json> {
    var risks := MapGet(st, "risks", Wrapper("risks"));
    var controls := MapGet(st, "controls", Wrapper("controls"));
    match x
    case Risks => [Content(st)]
    case Controls => [Content(st), risks]
    case Assessment => [Content(st), risks, controls]
  }

  const NoPath: string := "Document path not provided in the state"

  /** `read_document`: raises without a document path; otherwise records the text or the read error. */
  function ReadStep(st: State, read: Reader): Result<State> {
    var path := MapGet(st, "document_path", JNull);
    if !Truthy(path) then Raised(NoPath)
    else match read(path)
      case Answer(text) => Ok(st["document_content" := JStr(text)])
      case Failed(e) => Ok(st["error" := JStr("Error reading document: " + e)])
  }

  /** The new state of an extraction stage, and the decoded value it also stores in the agent, if any. */
  datatype StageResult = StageResult(state: State, stored: Option<Json>)

  /** What a stage's model calls come to: no content to work on, an exception, a decoded reply, or an undecodable one. */
  datatype Outcome = NoContent | CallFailed(message: string) | Decoded(value: Json) | Undecodable(text: string)

  /** The outcome of stage x on the document content and the upstream inputs. */
  function StageOutcome(x: Extraction, content: Json, inputs: seq<Json>, llm: Llm, decode: Decoder): Outcome {
    if !Truthy(content) then NoContent
    else match llm(Analyse(x, inputs))
      case Failed(e) => CallFailed(e)
      case Answer(analysis) =>
        match llm(Structure(x, analysis))
        case Failed(e) => CallFailed(e)
        case Answer(text) =>
          match decode(text)
          case Parsed(v) => Decoded(v)
          case DecodeError(_) => Undecodable(text)
  }

  /** How stage x records an outcome in the state. */
  function Record(x: Extraction, st: State, o: Outcome): StageResult {
    match o
    case NoContent => StageResult(st["error" := JStr(x.MissingContent())], None)
    case CallFailed(e) => StageResult(st["error" := JStr(x.ErrorPrefix() + e)], None)
    case Decoded(v) => StageResult(st[x.Key() := v], Some(v))
    case Undecodable(text) =>
      StageResult(st[x.Key() := Wrapper(x.ListKey())][x.RawKey() := JStr(text)]["error" := JStr(x.ParseFailure())], None)
  }

  function ExtractStep(x: Extraction, st: State, llm: Llm, decode: Decoder): StageResult {
    Record(x, st, StageOutcome(x, Content(st), Upstream(st, x), llm, decode))
  }

  const NoContentForGaps: string := "Document content not available for gap identification"

  /** How `identify_gaps` starts: it stops with an error, or goes on to the model with these inputs. */
  datatype GapsStart = Stopped(state: State) | Proceeds(inputs: seq<Json>)

  function GapsStep(st: State): GapsStart {
    if !Truthy(Content(st)) then Stopped(st["error" := JStr(NoContentForGaps)])
    else Proceeds([Content(st), MapGet(st, "risks", Wrapper("risks")), MapGet(st, "controls", Wrapper("controls")),
                   MapGet(st, "effectiveness_assessment", Wrapper("assessments"))])
  }

  /** The unconditional chain from `read_document` through the assessment stage. */
  function Chain(st: State, read: Reader, llm: Llm, decode: Decoder): Result<State> {
    match ReadStep(st, read)
    case Raised(e) => Raised(e)
    case Ok(s1) =>
      var s2 := ExtractStep(Risks, s1, llm, decode).state;
      var s3 := ExtractStep(Controls, s2, llm, decode).state;
      Ok(ExtractStep(Assessment, s3, llm, decode).state)
  }

  // ---------------------------------------------------------------------------
  // The agent

  class ControlEffectivenessAgent {
    /** The workflow state dict the stages update in place. */
    var state: State
    var riskData: Json
    var controlData: Json
    var effectivenessAssessment: Json

    constructor(initial: State)
      ensures state == initial
      ensures riskData == JDict([]) && controlData == JDict([]) && effectivenessAssessment == JDict([])
    {
      state := initial;
      riskData := JDict([]);
      controlData := JDict([]);
      effectivenessAssessment := JDict([]);
    }

    /** Returns the message of the `ValueError` that escapes the stage, if any. */
    method ReadDocument(read: Reader) returns (raised: Option<string>)
      modifies this
      ensures ReadStep(old(state), read).Raised? ==> raised == Some(NoPath) && state == old(state)
      ensures ReadStep(old(state), read).Ok? ==> raised.None? && state == ReadStep(old(state), read).value
      ensures riskData == old(riskData) && controlData == old(controlData)
      ensures effectivenessAssessment == old(effectivenessAssessment)
    {
      var path := MapGet(state, "document_path", JNull);
      if !Truthy(path) {
        return Some(NoPath);
      }
      var r := read(path);
      match r {
        case Answer(text) =>
          state := state["document_content" := JStr(text)];
        case Failed(e) =>
          state := state["error" := JStr("Error reading document: " + e)];
      }
      return None;
    }

    /** The body shared by the three extraction stages; the caller stores the decoded value in its own field. */
    method Extract(x: Extraction, llm: Llm, decode: Decoder) returns (stored: Option<Json>)
      modifies this
      ensures state == ExtractStep(x, old(state), llm, decode).state
      ensures stored == ExtractStep(x, old(state), llm, decode).stored
      ensures riskData == old(riskData) && controlData == old(controlData)
      ensures effectivenessAssessment == old(effectivenessAssessment)
    {
      ghost var o := StageOutcome(x, Content(state), Upstream(state, x), llm, decode);
      var content := MapGet(state, "document_content", JNull);
      if !Truthy(content) {
        assert o == NoContent;
        state := state["error" := JStr(x.MissingContent())];
        return None;
      }
      var analysis := llm(Analyse(x, Upstream(state, x)));
      if analysis.Failed? {
        assert o == CallFailed(analysis.message);
        state := state["error" := JStr(x.ErrorPrefix() + analysis.message)];
        return None;
      }
      var reply := llm(Structure(x, analysis.content));
      if reply.Failed? {
        assert o == CallFailed(reply.message);
        state := state["error" := JStr(x.ErrorPrefix() + reply.message)];
        return None;
      }
      var decoded := decode(reply.content);
      if decoded.Parsed? {
        assert o == Decoded(decoded.value);
        state := state[x.Key() := decoded.value];
        return Some(decoded.value);
      }
      assert o == Undecodable(reply.content);
      state := state[x.Key() := Wrapper(x.ListKey())];
      state := state[x.RawKey() := JStr(reply.content)];
      state := state["error" := JStr(x.ParseFailure())];
      return None;
    }

    method ExtractRisks(llm: Llm, decode: Decoder)
      modifies this
      ensures state == ExtractStep(Risks, old(state), llm, decode).state
      ensures riskData == ExtractStep(Risks, old(state), llm, decode).stored.GetOr(old(riskData))
      ensures controlData == old(controlData) && effectivenessAssessment == old(effectivenessAssessment)
    {
      var stored := Extract(Risks, llm, decode);
      if stored.Some? {
        riskData := stored.value;
      }
    }

    method ExtractControls(llm: Llm, decode: Decoder)
      modifies this
      ensures state == ExtractStep(Controls, old(state), llm, decode).state
      ensures controlData == ExtractStep(Controls, old(state), llm, decode).stored.GetOr(old(controlData))
      ensures riskData == old(riskData) && effectivenessAssessment == old(effectivenessAssessment)
    {
      var stored := Extract(Controls, llm, decode);
      if stored.Some? {
        controlData := stored.value;
      }
    }

    method AssessControlEffectiveness(llm: Llm, decode: Decoder)
      modifies this
      ensures state == ExtractStep(Assessment, old(state), llm, decode).state
      ensures effectivenessAssessment ==
                ExtractStep(Assessment, old(state), llm, decode).stored.GetOr(old(effectivenessAssessment))
      ensures riskData == old(riskData) && controlData == old(controlData)
    {
      var stored := Extract(Assessment, llm, decode);
      if stored.Some? {
        effectivenessAssessment := stored.value;
      }
    }

    /** The start of `identify_gaps`: the guard, and the inputs of its analysis prompt. */
    method IdentifyGaps() returns (inputs: Option<seq<Json>>)
      modifies this
      ensures GapsStep(old(state)).Stopped? ==> inputs.None? && state == GapsStep(old(state)).state
      ensures GapsStep(old(state)).Proceeds? ==> inputs == Some(GapsStep(old(state)).inputs) && state == old(state)
      ensures riskData == old(riskData) && controlData == old(controlData)
      ensures effectivenessAssessment == old(effectivenessAssessment)
    {
      var content := MapGet(state, "document_content", JNull);
      var risks := MapGet(state, "risks", Wrapper("risks"));
      var controls := MapGet(state, "controls", Wrapper("controls"));
      var assessment := MapGet(state, "effectiveness_assessment", Wrapper("assessments"));
      if !Truthy(content) {
        state := state["error" := JStr(NoContentForGaps)];
        return None;
      }
      return Some([content, risks, controls, assessment]);
    }
  }

  // ---------------------------------------------------------------------------
  // Properties

  /**
   * `read_document` raises exactly when the path is missing or falsy; a failed
   * read records the error and leaves `document_content` as it was; a
   * successful one records the text and touches no other key.
   */
  lemma ReadOutcome(st: State, read: Reader)
    ensures ReadStep(st, read).Raised? <==> !Truthy(MapGet(st, "document_path", JNull))
    ensures var r := ReadStep(st, read);
            r.Ok? && read(st["document_path"]).Failed? ==>
              && r.value["error"] == JStr("Error reading document: " + read(st["document_path"]).message)
              && ("document_content" in r.value <==> "document_content" in st)
              && r.value - {"error"} == st - {"error"}
    ensures var r := ReadStep(st, read);
            r.Ok? && read(st["document_path"]).Answer? ==>
              && r.value["document_content"] == JStr(read(st["document_path"]).content)
              && r.value - {"document_content"} == st - {"document_content"}
  {
  }

  /** Without document content a stage writes only its own error message and stores nothing. */
  lemma GuardStops(x: Extraction, st: State, llm: Llm, decode: Decoder)
    requires !Truthy(Content(st))
    ensures var r := ExtractStep(x, st, llm, decode);
            r.state == st["error" := JStr(x.MissingContent())] && r.stored.None?
  {
  }

  /** A stage writes no key but its own, its raw-reply key and `error`. */
  lemma ExtractFrame(x: Extraction, st: State, llm: Llm, decode: Decoder, k: string)
    requires k != x.Key() && k != x.RawKey() && k != "error"
    ensures var r := ExtractStep(x, st, llm, decode).state;
            (k in r <==> k in st) && (k in st ==> r[k] == st[k])
  {
    RecordFrame(x, st, StageOutcome(x, Content(st), Upstream(st, x), llm, decode), k);
  }

  lemma RecordFrame(x: Extraction, st: State, o: Outcome, k: string)
    requires k != x.Key() && k != x.RawKey() && k != "error"
    ensures var r := Record(x, st, o).state;
            (k in r <==> k in st) && (k in st ==> r[k] == st[k])
  {
  }

  /** A decoded reply is stored both in the state and in the agent's field, and clears nothing. */
  lemma DecodedStored(x: Extraction, st: State, llm: Llm, decode: Decoder)
    ensures var r := ExtractStep(x, st, llm, decode);
            r.stored.Some? ==>
              && r.state == st[x.Key() := r.stored.value]
              && Truthy(Content(st))
              && llm(Analyse(x, Upstream(st, x))).Answer?
    ensures var r := ExtractStep(x, st, llm, decode);
            r.stored.None? ==> r.state["error"].JStr?
  {
  }

  /**
   * An undecodable JSON reply leaves the empty wrapper under the stage's key,
   * the reply itself under the raw key, and the parse-failure message.
   */
  lemma DecodeFallback(x: Extraction, st: State, llm: Llm, decode: Decoder, analysis: string, text: string)
    requires Truthy(Content(st))
    requires llm(Analyse(x, Upstream(st, x))) == Answer(analysis)
    requires llm(Structure(x, analysis)) == Answer(text)
    requires decode(text).DecodeError?
    ensures var r := ExtractStep(x, st, llm, decode);
            && r.stored.None?
            && r.state[x.Key()] == JDict([(x.ListKey(), JList([]))])
            && r.state[x.RawKey()] == JStr(text)
            && r.state["error"] == JStr(x.ParseFailure())
  {
  }

  /** Later stages see the upstream results, or `{key: []}` for any that is missing. */
  lemma UpstreamDefaults(st: State)
    ensures "risks" !in st ==> Upstream(st, Controls)[1] == JDict([("risks", JList([]))])
    ensures "controls" !in st ==> Upstream(st, Assessment)[2] == JDict([("controls", JList([]))])
    ensures "risks" in st ==> Upstream(st, Assessment)[1] == st["risks"]
    ensures "effectiveness_assessment" !in st && Truthy(Content(st)) ==>
              GapsStep(st).inputs[3] == JDict([("assessments", JList([]))])
  {
  }

  /**
   * No stage looks at `error`: a state carrying an earlier error is processed
   * exactly like the same state without it, apart from that key.
   */
  lemma ErrorIgnored(x: Extraction, st: State, e: Json, llm: Llm, decode: Decoder)
    ensures var r1 := ExtractStep(x, st["error" := e], llm, decode);
            var r2 := ExtractStep(x, st, llm, decode);
            && "error" in r1.state
            && r1.state == r2.state["error" := r1.state["error"]]
            && r1.stored == r2.stored
  {
    UpstreamIgnoresError(x, st, e);
    RecordIgnoresError(x, st, e, StageOutcome(x, Content(st), Upstream(st, x), llm, decode));
  }

  /** Recording an outcome over an earlier error gives the same state apart from `error`. */
  lemma RecordIgnoresError(x: Extraction, st: State, e: Json, o: Outcome)
    ensures var r1 := Record(x, st["error" := e], o);
            var r2 := Record(x, st, o);
            && "error" in r1.state
            && r1.state == r2.state["error" := r1.state["error"]]
            && r1.stored == r2.stored
  {
    KeysDistinct(x);
    var r1 := Record(x, st["error" := e], o);
    var r2 := Record(x, st, o);
    match o {
      case NoContent =>
        ErrorOverwritten(st, e, JStr(x.MissingContent()));
      case CallFailed(m) =>
        ErrorOverwritten(st, e, JStr(x.ErrorPrefix() + m));
      case Decoded(v) =>
        ErrorCommutes(st, e, x.Key(), v);
        assert r1.state == r2.state["error" := e];
      case Undecodable(text) =>
        var w := st[x.Key() := Wrapper(x.ListKey())][x.RawKey() := JStr(text)];
        ErrorCommutes(st, e, x.Key(), Wrapper(x.ListKey()));
        ErrorCommutes(st[x.Key() := Wrapper(x.ListKey())], e, x.RawKey(), JStr(text));
        ErrorOverwritten(w, e, JStr(x.ParseFailure()));
    }
  }

  /** A stage's two keys differ from `error`. */
  lemma KeysDistinct(x: Extraction)
    ensures x.Key() != "error" && x.RawKey() != "error"
  {
  }

  /** Writing `error` and another key gives the same map in either order. */
  lemma ErrorCommutes(st: State, e: Json, k: string, v: Json)
    requires k != "error"
    ensures st["error" := e][k := v] == st[k := v]["error" := e]
  {
  }

  /** The prompt inputs do not include `error`. */
  lemma UpstreamIgnoresError(x: Extraction, st: State, e: Json)
    ensures Content(st["error" := e]) == Content(st)
    ensures Upstream(st["error" := e], x) == Upstream(st, x)
  {
  }

  /** Writing `error` twice keeps only the second value. */
  lemma ErrorOverwritten(st: State, e: Json, v: Json)
    ensures st["error" := e]["error" := v] == st["error" := v]
    ensures st["error" := v]["error" := v] == st["error" := v]
  {
  }

  /**
   * When the read fails, every later stage still runs, and each overwrites the
   * previous error: the chain ends with the assessment stage's message and
   * the gap identification stops with its own.
   */
  lemma ReadFailureCascade(st: State, read: Reader, llm: Llm, decode: Decoder)
    requires Truthy(MapGet(st, "document_path", JNull))
    requires read(st["document_path"]).Failed?
    requires !Truthy(Content(st))
    ensures Chain(st, read, llm, decode).Ok?
    ensures var s := Chain(st, read, llm, decode).value;
            && s["error"] == JStr(Assessment.MissingContent())
            && s - {"error"} == st - {"error"}
            && GapsStep(s) == Stopped(s["error" := JStr(NoContentForGaps)])
  {
    var s1 := ReadStep(st, read).value;
    assert Content(s1) == Content(st);
    var s2 := ExtractStep(Risks, s1, llm, decode).state;
    assert Content(s2) == Content(st);
    var s3 := ExtractStep(Controls, s2, llm, decode).state;
    assert Content(s3) == Content(st);
    var s4 := ExtractStep(Assessment, s3, llm, decode).state;
    assert s4 - {"error"} == st - {"error"};
  }

  /** An empty document is read without error, but every later stage then reports missing content. */
  lemma EmptyDocument(st: State, read: Reader, llm: Llm, decode: Decoder)
    requires Truthy(MapGet(st, "document_path", JNull))
    requires read(st["document_path"]) == Answer("")
    ensures Chain(st, read, llm, decode).Ok?
    ensures var s := Chain(st, read, llm, decode).value;
            && s["document_content"] == JStr("")
            && s["error"] == JStr(Assessment.MissingContent())
            && GapsStep(s).Stopped?
  {
    var s1 := ReadStep(st, read).value;
    assert Content(s1) == JStr("");
    var s2 := ExtractStep(Risks, s1, llm, decode).state;
    assert Content(s2) == JStr("");
    var s3 := ExtractStep(Controls, s2, llm, decode).state;
    assert Content(s3) == JStr("");
  }

  /** Only a missing path makes the chain raise; every other run reaches the gap identification. */
  lemma ChainRaisesOnlyWithoutPath(st: State, read: Reader, llm: Llm, decode: Decoder)
    ensures Chain(st, read, llm, decode).Raised? <==> !Truthy(MapGet(st, "document_path", JNull))
    ensures Chain(st, read, llm, decode).Raised? ==> Chain(st, read, llm, decode).msg == NoPath
  {
  }
}
