/**
 * The control-effectiveness evaluator with self-reflection: a `State` record
 * that three stages (evaluate, reflect, reassess) update in place, and a
 * graph that runs them in that order and stops early when `error` is truthy.
 *
 * Each stage asks the language model for a reply (a parameter here), pulls the
 * JSON text out of it (module JsonFence), decodes it with `json.loads` (an
 * abstract `Decoder`) and copies fields of the decoded value into the state.
 * Any exception on the way is caught: `error := str(e)` and `status := "error"`,
 * keeping whatever fields the stage had already written.
 */
module SelfReflection {
  import opened Py
  import JsonFence

  datatype Status = Initialized | Evaluated | Reflected | Completed | Error {
    /** The string the state's `status` field holds. */
    function Name(): string {
      match this
      case Initialized => "initialized"
      case Evaluated => "evaluated"
      case Reflected => "reflected"
      case Completed => "completed"
      case Error => "error"
    }
  }

  /**
   * The value of a `State` at one moment. The stages store the decoded JSON
   * values as they come (the record does not validate assignments), hence `Json`.
   */
  datatype Snap = Snap(
    assessmentLearned: Option<Json>,
    error: Option<string>,
    inputText: string,
    rating: Option<Json>,
    rationale: Option<string>,
    metricsEvaluation: Option<Fields>,
    status: Status,
    reflection: Option<Json>,
    finalAssessment: Option<Json>,
    finalRating: Option<Json>)

  /** `State(input_text=text)`: every optional field unset, status "initialized". */
  function Initial(text: string): Snap {
    Snap(None, None, text, None, None, None, Initialized, None, None, None)
  }

  /** `if state.error:` — an error message counts only when it is non-empty. */
  predicate HasError(s: Snap) {
    s.error.Some? && s.error.value != ""
  }

  /** The `except` block every stage ends with. */
  function Failure(s: Snap, msg: string): Snap {
    s.(error := Some(msg), status := Error)
  }

  /** The model call, the fence extraction and `json.loads`, in that order. */
  function DecodeReply(reply: Reply, decode: Decoder): Result<Json> {
    match reply
    case Failed(m) => Raised(m)
    case Answer(content) =>
      match decode(JsonFence.JsonText(content))
      case Parsed(v) => Ok(v)
      case DecodeError(m) => Raised(m)
  }

  // ---------------------------------------------------------------------------
  // Evaluate

  /** `result["metrics"].items()` */
  function MetricItems(result: Json): Result<Fields> {
    match Subscript(result, "metrics")
    case Raised(m) => Raised(m)
    case Ok(metrics) => Items(metrics)
  }

  /** The loop `for metric, data in items: scores[metric] = data["score"]`, continued from `acc`. */
  function ScoreFold(acc: Fields, items: Fields): Result<Fields>
    decreases |items|
  {
    if items == [] then Ok(acc)
    else
      match Subscript(items[0].1, "score")
      case Raised(m) => Raised(m)
      case Ok(score) => ScoreFold(DictSet(acc, items[0].0, score), items[1..])
  }

  /** The list `[f"{metric}: {data['rationale']}" for metric, data in items]`. */
  function RationaleLines(items: Fields): Result<seq<string>>
    decreases |items|
  {
    if items == [] then Ok([])
    else
      match Subscript(items[0].1, "rationale")
      case Raised(m) => Raised(m)
      case Ok(r) =>
        match RationaleLines(items[1..])
        case Raised(m) => Raised(m)
        case Ok(rest) => Ok([items[0].0 + ": " + Str(r)] + rest)
  }

  /** What `evaluate_effectiveness` makes of a state, given the model's reply. */
  function EvaluateStep(s: Snap, reply: Reply, decode: Decoder): Snap {
    match DecodeReply(reply, decode)
    case Raised(m) => Failure(s, m)
    case Ok(result) =>
      match MetricItems(result)
      case Raised(m) => Failure(s, m)
      case Ok(items) =>
        match ScoreFold([], items)
        case Raised(m) => Failure(s, m)
        case Ok(scores) => RecordEvaluation(s.(metricsEvaluation := Some(scores)), result, items)
  }

  /** The assignments after `state.metrics_evaluation = ...`, each of which may raise. */
  function RecordEvaluation(s: Snap, result: Json, items: Fields): Snap {
    match Subscript(result, "overall_score")
    case Raised(m) => Failure(s, m)
    case Ok(rating) =>
      var s1 := s.(rating := Some(rating));
      match Subscript(result, "overall_assessment")
      case Raised(m) => Failure(s1, m)
      case Ok(assessment) =>
        var s2 := s1.(assessmentLearned := Some(assessment));
        match RationaleLines(items)
        case Raised(m) => Failure(s2, m)
        case Ok(lines) => s2.(rationale := Some(Join("\n", lines)), status := Evaluated)
  }

  /** The `for` loop that builds `metrics_evaluation`. */
  method ComputeScores(items: Fields) returns (r: Result<Fields>)
    ensures r == ScoreFold([], items)
  {
    var scores: Fields := [];
    var k := 0;
    while k < |items|
      invariant 0 <= k <= |items|
      invariant ScoreFold(scores, items[k..]) == ScoreFold([], items)
    {
      var score := Subscript(items[k].1, "score");
      if score.Raised? {
        return Raised(score.msg);
      }
      assert items[k..][1..] == items[k + 1..];
      scores := DictSet(scores, items[k].0, score.value);
      k := k + 1;
    }
    return Ok(scores);
  }

  // ---------------------------------------------------------------------------
  // Reflect

  /** `result["feedback_points"]`, as the comprehension walks over it. */
  function FeedbackPoints(result: Json): Result<seq<Json>> {
    match Subscript(result, "feedback_points")
    case Raised(m) => Raised(m)
    case Ok(points) => Iterate(points)
  }

  function Bullets(points: seq<Json>): (lines: seq<string>)
    ensures |lines| == |points|
    ensures forall i :: 0 <= i < |points| ==> lines[i] == "- " + Str(points[i])
  {
    seq(|points|, i requires 0 <= i < |points| => "- " + Str(points[i]))
  }

  const FeedbackHeading: string := "Key feedback points:"
  const ChangesHeading: string := "Perspective changes to consider: "

  /** The reflection text the stage composes from the three fields of the reply. */
  function ReflectionText(summary: Json, points: seq<Json>, changes: Json): string {
    Str(summary) + ("\n\n" + (FeedbackHeading + ("\n" + (Join("\n", Bullets(points))
      + ("\n\n" + (ChangesHeading + Str(changes)))))))
  }

  /** What `self_reflection` makes of a state. `reflection` first holds the raw summary. */
  function ReflectStep(s: Snap, reply: Reply, decode: Decoder): Snap {
    match DecodeReply(reply, decode)
    case Raised(m) => Failure(s, m)
    case Ok(result) =>
      match Subscript(result, "reflection_summary")
      case Raised(m) => Failure(s, m)
      case Ok(summary) =>
        var s1 := s.(reflection := Some(summary));
        match FeedbackPoints(result)
        case Raised(m) => Failure(s1, m)
        case Ok(points) =>
          match Subscript(result, "perspective_changes")
          case Raised(m) => Failure(s1, m)
          case Ok(changes) =>
            s1.(reflection := Some(JStr(ReflectionText(summary, points, changes))), status := Reflected)
  }

  // ---------------------------------------------------------------------------
  // Reassess

  /** What `reassess` makes of a state. */
  function ReassessStep(s: Snap, reply: Reply, decode: Decoder): Snap {
    match DecodeReply(reply, decode)
    case Raised(m) => Failure(s, m)
    case Ok(result) =>
      match Subscript(result, "final_score")
      case Raised(m) => Failure(s, m)
      case Ok(score) =>
        var s1 := s.(finalRating := Some(score));
        match Subscript(result, "final_assessment")
        case Raised(m) => Failure(s1, m)
        case Ok(assessment) => s1.(finalAssessment := Some(assessment), status := Completed)
  }

  // ---------------------------------------------------------------------------
  // The state object and the three stages as methods on it

  class State {
    var assessmentLearned: Option<Json>
    var error: Option<string>
    var inputText: string
    var rating: Option<Json>
    var rationale: Option<string>
    var metricsEvaluation: Option<Fields>
    var status: Status
    var reflection: Option<Json>
    var finalAssessment: Option<Json>
    var finalRating: Option<Json>

    function Current(): Snap
      reads this
    {
      Snap(assessmentLearned, error, inputText, rating, rationale, metricsEvaluation,
           status, reflection, finalAssessment, finalRating)
    }

    constructor (text: string)
      ensures Current() == Initial(text)
    {
      assessmentLearned := None;
      error := None;
      inputText := text;
      rating := None;
      rationale := None;
      metricsEvaluation := None;
      status := Initialized;
      reflection := None;
      finalAssessment := None;
      finalRating := None;
    }

    method Fail(msg: string)
      modifies this
      ensures Current() == Failure(old(Current()), msg)
    {
      error := Some(msg);
      status := Error;
    }

    /** `evaluate_effectiveness` */
    method Evaluate(reply: Reply, decode: Decoder)
      modifies this
      ensures Current() == EvaluateStep(old(Current()), reply, decode)
    {
      var decoded := DecodeReply(reply, decode);
      if decoded.Raised? {
        Fail(decoded.msg);
        return;
      }
      var result := decoded.value;
      var metrics := MetricItems(result);
      if metrics.Raised? {
        Fail(metrics.msg);
        return;
      }
      var items := metrics.value;
      var scores := ComputeScores(items);
      if scores.Raised? {
        Fail(scores.msg);
        return;
      }
      metricsEvaluation := Some(scores.value);
      StoreEvaluation(result, items);
    }

    /** Lines 103-106 of the stage: rating, assessment, rationale and status. */
    method StoreEvaluation(result: Json, items: Fields)
      modifies this
      ensures Current() == RecordEvaluation(old(Current()), result, items)
    {
      var overall := Subscript(result, "overall_score");
      if overall.Raised? {
        Fail(overall.msg);
        return;
      }
      rating := Some(overall.value);
      var assessment := Subscript(result, "overall_assessment");
      if assessment.Raised? {
        Fail(assessment.msg);
        return;
      }
      assessmentLearned := Some(assessment.value);
      var lines := RationaleLines(items);
      if lines.Raised? {
        Fail(lines.msg);
        return;
      }
      rationale := Some(Join("\n", lines.value));
      status := Evaluated;
    }

    /** `self_reflection` */
    method Reflect(reply: Reply, decode: Decoder)
      modifies this
      ensures Current() == ReflectStep(old(Current()), reply, decode)
    {
      var decoded := DecodeReply(reply, decode);
      if decoded.Raised? {
        Fail(decoded.msg);
        return;
      }
      var result := decoded.value;
      var summary := Subscript(result, "reflection_summary");
      if summary.Raised? {
        Fail(summary.msg);
        return;
      }
      reflection := Some(summary.value);
      var points := FeedbackPoints(result);
      if points.Raised? {
        Fail(points.msg);
        return;
      }
      var changes := Subscript(result, "perspective_changes");
      if changes.Raised? {
        Fail(changes.msg);
        return;
      }
      reflection := Some(JStr(ReflectionText(summary.value, points.value, changes.value)));
      status := Reflected;
    }

    /** `reassess` */
    method Reassess(reply: Reply, decode: Decoder)
      modifies this
      ensures Current() == ReassessStep(old(Current()), reply, decode)
    {
      var decoded := DecodeReply(reply, decode);
      if decoded.Raised? {
        Fail(decoded.msg);
        return;
      }
      var result := decoded.value;
      var score := Subscript(result, "final_score");
      if score.Raised? {
        Fail(score.msg);
        return;
      }
      finalRating := Some(score.value);
      var assessment := Subscript(result, "final_assessment");
      if assessment.Raised? {
        Fail(assessment.msg);
        return;
      }
      finalAssessment := Some(assessment.value);
      status := Completed;
    }
  }

  // ---------------------------------------------------------------------------
  // The graph

  datatype Node = EvaluateNode | ReflectNode | ReassessNode | End

  /** `decide_after_evaluation` */
  function DecideAfterEvaluation(s: Snap): string {
    if HasError(s) then "error" else "reflect"
  }

  /** `decide_after_reflection` */
  function DecideAfterReflection(s: Snap): string {
    if HasError(s) then "error" else "reassess"
  }

  /** `decide_after_reassessment` */
  function DecideAfterReassessment(s: Snap): string {
    if HasError(s) then "error" else "complete"
  }

  /** The router attached to a stage node. */
  function Decide(n: Node, s: Snap): string
    requires n != End
  {
    match n
    case EvaluateNode => DecideAfterEvaluation(s)
    case ReflectNode => DecideAfterReflection(s)
    case ReassessNode => DecideAfterReassessment(s)
  }

  /** The label-to-node map passed with each router to `add_conditional_edges`. */
  function Edges(n: Node): map<string, Node>
    requires n != End
  {
    match n
    case EvaluateNode => map["error" := End, "reflect" := ReflectNode]
    case ReflectNode => map["error" := End, "reassess" := ReassessNode]
    case ReassessNode => map["error" := End, "complete" := End]
  }

  /** How many stages at most remain from a node. */
  function Rank(n: Node): nat {
    match n
    case EvaluateNode => 3
    case ReflectNode => 2
    case ReassessNode => 1
    case End => 0
  }

  /** The node the graph moves to after running `n`; every router label has an edge. */
  function Next(n: Node, s: Snap): (m: Node)
    requires n != End
    ensures Rank(m) < Rank(n)
  {
    var choice := Decide(n, s);
    assert choice in Edges(n);
    Edges(n)[choice]
  }

  /** The three model replies the run receives, one per stage. */
  datatype Replies = Replies(evaluate: Reply, reflect: Reply, reassess: Reply)

  function RunNode(n: Node, s: Snap, replies: Replies, decode: Decoder): Snap
    requires n != End
  {
    match n
    case EvaluateNode => EvaluateStep(s, replies.evaluate, decode)
    case ReflectNode => ReflectStep(s, replies.reflect, decode)
    case ReassessNode => ReassessStep(s, replies.reassess, decode)
  }

  /** One executed stage and the state it left. */
  datatype Visit = Visit(node: Node, after: Snap)

  /** The stages the compiled graph runs from `n` on, in order. */
  function Walk(n: Node, s: Snap, replies: Replies, decode: Decoder): seq<Visit>
    decreases Rank(n)
  {
    if n == End then []
    else
      var s' := RunNode(n, s, replies, decode);
      [Visit(n, s')] + Walk(Next(n, s'), s', replies, decode)
  }

  /** `graph.invoke(State(input_text=text))`: the entry point is the evaluate node. */
  function Invoke(text: string, replies: Replies, decode: Decoder): seq<Visit> {
    Walk(EvaluateNode, Initial(text), replies, decode)
  }

  function Nodes(trace: seq<Visit>): (ns: seq<Node>)
    ensures |ns| == |trace|
    ensures forall i :: 0 <= i < |trace| ==> ns[i] == trace[i].node
  {
    seq(|trace|, i requires 0 <= i < |trace| => trace[i].node)
  }

  function Statuses(trace: seq<Visit>): (ss: seq<string>)
    ensures |ss| == |trace|
    ensures forall i :: 0 <= i < |trace| ==> ss[i] == trace[i].after.status.Name()
  {
    seq(|trace|, i requires 0 <= i < |trace| => trace[i].after.status.Name())
  }

  // ---------------------------------------------------------------------------
  // Routing and runs

  /** After a stage the graph ends exactly when `error` is truthy, and always after reassess. */
  lemma RoutingRule(n: Node, s: Snap)
    requires n != End
    ensures Next(n, s) == End <==> HasError(s) || n == ReassessNode
    ensures n == EvaluateNode && !HasError(s) ==> Next(n, s) == ReflectNode
    ensures n == ReflectNode && !HasError(s) ==> Next(n, s) == ReassessNode
  {
  }

  /** A run is evaluate, then reflect unless evaluate left an error, then reassess unless reflect did. */
  lemma InvokeTrace(text: string, replies: Replies, decode: Decoder)
    ensures var s1 := EvaluateStep(Initial(text), replies.evaluate, decode);
            var s2 := ReflectStep(s1, replies.reflect, decode);
            var s3 := ReassessStep(s2, replies.reassess, decode);
            Invoke(text, replies, decode) ==
              [Visit(EvaluateNode, s1)] +
              (if HasError(s1) then []
               else [Visit(ReflectNode, s2)] + (if HasError(s2) then [] else [Visit(ReassessNode, s3)]))
  {
    var s1 := EvaluateStep(Initial(text), replies.evaluate, decode);
    var s2 := ReflectStep(s1, replies.reflect, decode);
    var s3 := ReassessStep(s2, replies.reassess, decode);
    assert Walk(End, s3, replies, decode) == [];
    if !HasError(s2) {
      assert Walk(ReassessNode, s2, replies, decode) == [Visit(ReassessNode, s3)];
    }
    if !HasError(s1) {
      assert Walk(ReflectNode, s1, replies, decode) ==
               [Visit(ReflectNode, s2)] + Walk(Next(ReflectNode, s2), s2, replies, decode);
    }
  }

  // ---------------------------------------------------------------------------
  // The shapes of reply each stage accepts

  predicate ScoresShaped(items: Fields) {
    forall i :: 0 <= i < |items| ==> items[i].1.JDict? && "score" in Keys(items[i].1.fields)
  }

  predicate RationalesShaped(items: Fields) {
    forall i :: 0 <= i < |items| ==> items[i].1.JDict? && "rationale" in Keys(items[i].1.fields)
  }

  /** A decoded evaluation every step of which succeeds. */
  predicate EvaluationShaped(result: Json) {
    && MetricItems(result).Ok?
    && ScoresShaped(MetricItems(result).value)
    && RationalesShaped(MetricItems(result).value)
    && result.JDict?
    && "overall_score" in Keys(result.fields)
    && "overall_assessment" in Keys(result.fields)
  }

  predicate ReflectionShaped(result: Json) {
    && result.JDict?
    && "reflection_summary" in Keys(result.fields)
    && FeedbackPoints(result).Ok?
    && "perspective_changes" in Keys(result.fields)
  }

  predicate ReassessmentShaped(result: Json) {
    result.JDict? && "final_score" in Keys(result.fields) && "final_assessment" in Keys(result.fields)
  }

  /** The model answered, the answer decoded, and the decoded value has what evaluate reads. */
  predicate EvaluationAccepted(reply: Reply, decode: Decoder) {
    DecodeReply(reply, decode).Ok? && EvaluationShaped(DecodeReply(reply, decode).value)
  }

  predicate ReflectionAccepted(reply: Reply, decode: Decoder) {
    DecodeReply(reply, decode).Ok? && ReflectionShaped(DecodeReply(reply, decode).value)
  }

  predicate ReassessmentAccepted(reply: Reply, decode: Decoder) {
    DecodeReply(reply, decode).Ok? && ReassessmentShaped(DecodeReply(reply, decode).value)
  }

  lemma {:induction false} ScoreFoldOk(acc: Fields, items: Fields)
    ensures ScoreFold(acc, items).Ok? <==> ScoresShaped(items)
    decreases |items|
  {
    if items != [] {
      var sc := Subscript(items[0].1, "score");
      if sc.Ok? {
        ScoreFoldOk(DictSet(acc, items[0].0, sc.value), items[1..]);
        assert ScoresShaped(items) <==> ScoresShaped(items[1..]) by {
          if ScoresShaped(items[1..]) {
            forall i | 0 <= i < |items|
              ensures items[i].1.JDict? && "score" in Keys(items[i].1.fields)
            {
              if i > 0 { assert items[i] == items[1..][i - 1]; }
            }
          }
          if ScoresShaped(items) {
            forall i | 0 <= i < |items| - 1
              ensures items[1..][i].1.JDict? && "score" in Keys(items[1..][i].1.fields)
            {
              assert items[1..][i] == items[i + 1];
            }
          }
        }
      }
    }
  }

  lemma {:induction false} RationaleLinesOk(items: Fields)
    ensures RationaleLines(items).Ok? <==> RationalesShaped(items)
    ensures RationaleLines(items).Ok? ==>
              |RationaleLines(items).value| == |items| &&
              forall i :: 0 <= i < |items| ==>
                RationaleLines(items).value[i] ==
                  items[i].0 + ": " + Str(Subscript(items[i].1, "rationale").value)
    decreases |items|
  {
    if items != [] {
      RationaleLinesOk(items[1..]);
      RationalesShapedCons(items);
      var rs := RationaleLines(items);
      if rs.Ok? {
        var rest := RationaleLines(items[1..]).value;
        var r0 := Subscript(items[0].1, "rationale").value;
        assert rs.value == [items[0].0 + ": " + Str(r0)] + rest;
        forall i | 0 <= i < |items|
          ensures rs.value[i] == items[i].0 + ": " + Str(Subscript(items[i].1, "rationale").value)
        {
          if i > 0 {
            assert items[i] == items[1..][i - 1];
            assert rs.value[i] == rest[i - 1];
          }
        }
      }
    }
  }

  /** Every metric has a rationale exactly when the first one does and so do the rest. */
  lemma RationalesShapedCons(items: Fields)
    requires items != []
    ensures RationalesShaped(items) <==>
              items[0].1.JDict? && "rationale" in Keys(items[0].1.fields) && RationalesShaped(items[1..])
  {
    if RationalesShaped(items[1..]) && items[0].1.JDict? && "rationale" in Keys(items[0].1.fields) {
      forall i | 0 <= i < |items|
        ensures items[i].1.JDict? && "rationale" in Keys(items[i].1.fields)
      {
        if i > 0 { assert items[i] == items[1..][i - 1]; }
      }
    }
    if RationalesShaped(items) {
      forall i | 0 <= i < |items| - 1
        ensures items[1..][i].1.JDict? && "rationale" in Keys(items[1..][i].1.fields)
      {
        assert items[1..][i] == items[i + 1];
      }
    }
  }

  /**
   * Under distinct metric names (as `json.loads` produces), the scores are the
   * metrics in order, each mapped to its "score".
   */
  lemma {:induction false} ScoreFoldFresh(acc: Fields, items: Fields)
    requires ScoresShaped(items)
    requires DistinctKeys(items)
    requires forall i :: 0 <= i < |items| ==> items[i].0 !in Keys(acc)
    ensures ScoreFold(acc, items).Ok?
    ensures var r := ScoreFold(acc, items).value;
            && |r| == |acc| + |items|
            && r[..|acc|] == acc
            && forall i :: 0 <= i < |items| ==>
                 r[|acc| + i].0 == items[i].0 && Subscript(items[i].1, "score") == Ok(r[|acc| + i].1)
    decreases |items|
  {
    if items != [] {
      var sc := Subscript(items[0].1, "score");
      assert items[0].1.JDict? && "score" in Keys(items[0].1.fields);
      DictSetNewKey(acc, items[0].0, sc.value);
      var acc' := acc + [(items[0].0, sc.value)];
      assert Keys(acc') == Keys(acc) + [items[0].0];
      forall i | 0 <= i < |items| - 1 ensures items[1..][i].0 !in Keys(acc') {
        assert items[1..][i] == items[i + 1];
        assert items[i + 1].0 != items[0].0;
      }
      assert ScoresShaped(items[1..]) by {
        forall i | 0 <= i < |items| - 1
          ensures items[1..][i].1.JDict? && "score" in Keys(items[1..][i].1.fields)
        {
          assert items[1..][i] == items[i + 1];
        }
      }
      assert DistinctKeys(items[1..]) by {
        forall i, j | 0 <= i < j < |items| - 1 ensures items[1..][i].0 != items[1..][j].0 {
          assert items[1..][i] == items[i + 1] && items[1..][j] == items[j + 1];
        }
      }
      ScoreFoldFresh(acc', items[1..]);
      var r := ScoreFold(acc, items).value;
      assert r == ScoreFold(acc', items[1..]).value;
      assert r[..|acc|] == r[..|acc'|][..|acc|];
      forall i | 0 <= i < |items|
        ensures r[|acc| + i].0 == items[i].0 && Subscript(items[i].1, "score") == Ok(r[|acc| + i].1)
      {
        if i == 0 {
          assert r[|acc|] == r[..|acc'|][|acc|] == acc'[|acc|];
        } else {
          assert items[i] == items[1..][i - 1];
          assert |acc| + i == |acc'| + (i - 1);
        }
      }
    }
  }

  // ---------------------------------------------------------------------------
  // What each stage writes

  /** Evaluate reaches "evaluated" exactly when the decoded reply has every field it reads. */
  lemma EvaluateSucceeds(s: Snap, reply: Reply, decode: Decoder)
    ensures EvaluateStep(s, reply, decode).status == Evaluated <==> EvaluationAccepted(reply, decode)
  {
    var d := DecodeReply(reply, decode);
    if d.Ok? && MetricItems(d.value).Ok? {
      var items := MetricItems(d.value).value;
      ScoreFoldOk([], items);
      RationaleLinesOk(items);
    }
  }

  /** A successful evaluation stores the rationale lines joined by newlines. */
  lemma EvaluateRationale(s: Snap, reply: Reply, decode: Decoder)
    requires EvaluationAccepted(reply, decode)
    ensures var items := MetricItems(DecodeReply(reply, decode).value).value;
            && RationaleLines(items).Ok?
            && EvaluateStep(s, reply, decode).rationale == Some(Join("\n", RationaleLines(items).value))
  {
    var items := MetricItems(DecodeReply(reply, decode).value).value;
    ScoreFoldOk([], items);
    RationaleLinesOk(items);
  }

  /**
   * On an accepted reply: `metrics_evaluation` has exactly the metric names, in
   * order, each with its score; `rating` is "overall_score"; `assessment_learned`
   * is "overall_assessment"; `rationale` is one "metric: rationale" line per
   * metric; status is "evaluated"; nothing else changes.
   */
  lemma EvaluateWrites(s: Snap, reply: Reply, decode: Decoder)
    requires EvaluationAccepted(reply, decode)
    requires DistinctKeys(MetricItems(DecodeReply(reply, decode).value).value)
    ensures var result := DecodeReply(reply, decode).value;
            var items := MetricItems(result).value;
            var r := EvaluateStep(s, reply, decode);
            && r.status == Evaluated
            && r.metricsEvaluation.Some?
            && Keys(r.metricsEvaluation.value) == Keys(items)
            && (forall i :: 0 <= i < |items| ==>
                  Subscript(items[i].1, "score") == Ok(r.metricsEvaluation.value[i].1))
            && r.rating.Some? && Subscript(result, "overall_score") == Ok(r.rating.value)
            && r.assessmentLearned.Some? && Subscript(result, "overall_assessment") == Ok(r.assessmentLearned.value)
            && RationaleLines(items).Ok? && r.rationale == Some(Join("\n", RationaleLines(items).value))
            && r == s.(metricsEvaluation := r.metricsEvaluation, rating := r.rating,
                       assessmentLearned := r.assessmentLearned, rationale := r.rationale, status := Evaluated)
  {
    var result := DecodeReply(reply, decode).value;
    var items := MetricItems(result).value;
    ScoreFoldFresh([], items);
    RationaleLinesOk(items);
    var sc := ScoreFold([], items).value;
    assert Keys(sc) == Keys(items);
  }

  /**
   * Fields are written one after another, so a reply that lacks "overall_assessment"
   * leaves `metrics_evaluation` and `rating` set and the rest as it was.
   */
  lemma EvaluateKeepsEarlierWrites(s: Snap, reply: Reply, decode: Decoder)
    requires DecodeReply(reply, decode).Ok?
    requires var result := DecodeReply(reply, decode).value;
             && MetricItems(result).Ok? && ScoresShaped(MetricItems(result).value)
             && result.JDict? && "overall_score" in Keys(result.fields)
             && "overall_assessment" !in Keys(result.fields)
    ensures var result := DecodeReply(reply, decode).value;
            var r := EvaluateStep(s, reply, decode);
            && ScoreFold([], MetricItems(result).value).Ok?
            && r == s.(metricsEvaluation := Some(ScoreFold([], MetricItems(result).value).value),
                       rating := Some(Subscript(result, "overall_score").value),
                       error := Some("'overall_assessment'"), status := Error)
  {
    var result := DecodeReply(reply, decode).value;
    var items := MetricItems(result).value;
    ScoreFoldOk([], items);
    var s1 := s.(metricsEvaluation := Some(ScoreFold([], items).value));
    assert EvaluateStep(s, reply, decode) == RecordEvaluation(s1, result, items);
    RecordStopsAtAssessment(s1, result, items);
  }

  /** The text of the KeyError on "overall_assessment". */
  lemma AssessmentKeyError()
    ensures StrRepr("overall_assessment") == "'overall_assessment'"
  {
    PlainRepr("overall_assessment");
  }

  /** The text of the KeyError on "feedback_points". */
  lemma FeedbackKeyError()
    ensures StrRepr("feedback_points") == "'feedback_points'"
  {
    PlainRepr("feedback_points");
  }

  lemma RecordStopsAtAssessment(s: Snap, result: Json, items: Fields)
    requires result.JDict? && "overall_score" in Keys(result.fields)
    requires "overall_assessment" !in Keys(result.fields)
    ensures RecordEvaluation(s, result, items) ==
              s.(rating := Some(Subscript(result, "overall_score").value),
                 error := Some("'overall_assessment'"), status := Error)
  {
    var rating := Subscript(result, "overall_score").value;
    var missing := Subscript(result, "overall_assessment");
    AssessmentKeyError();
    assert missing == Raised("'overall_assessment'");
    assert RecordEvaluation(s, result, items) == Failure(s.(rating := Some(rating)), missing.msg);
  }

  /**
   * Every stage either reaches its own status with `error` untouched, or sets
   * status "error" with a message; no stage writes a field another stage owns.
   */
  lemma EvaluateFrame(s: Snap, reply: Reply, decode: Decoder)
    ensures var r := EvaluateStep(s, reply, decode);
            && ((r.status == Evaluated && r.error == s.error) || (r.status == Error && r.error.Some?))
            && r == s.(metricsEvaluation := r.metricsEvaluation, rating := r.rating,
                       assessmentLearned := r.assessmentLearned, rationale := r.rationale,
                       error := r.error, status := r.status)
  {
    var d := DecodeReply(reply, decode);
    if d.Ok? && MetricItems(d.value).Ok? && ScoreFold([], MetricItems(d.value).value).Ok? {
      var s1 := s.(metricsEvaluation := Some(ScoreFold([], MetricItems(d.value).value).value));
      RecordFrame(s1, d.value, MetricItems(d.value).value);
    }
  }

  lemma RecordFrame(s: Snap, result: Json, items: Fields)
    ensures var r := RecordEvaluation(s, result, items);
            && ((r.status == Evaluated && r.error == s.error) || (r.status == Error && r.error.Some?))
            && r == s.(rating := r.rating, assessmentLearned := r.assessmentLearned,
                       rationale := r.rationale, error := r.error, status := r.status)
  {
  }

  lemma ReflectFrame(s: Snap, reply: Reply, decode: Decoder)
    ensures var r := ReflectStep(s, reply, decode);
            && ((r.status == Reflected && r.error == s.error) || (r.status == Error && r.error.Some?))
            && r == s.(reflection := r.reflection, error := r.error, status := r.status)
  {
  }

  lemma ReassessFrame(s: Snap, reply: Reply, decode: Decoder)
    ensures var r := ReassessStep(s, reply, decode);
            && ((r.status == Completed && r.error == s.error) || (r.status == Error && r.error.Some?))
            && r == s.(finalRating := r.finalRating, finalAssessment := r.finalAssessment,
                       error := r.error, status := r.status)
  {
  }

  /** A failed model call or decode records its message and changes nothing else. */
  lemma DecodeFailureRecorded(s: Snap, reply: Reply, decode: Decoder)
    requires DecodeReply(reply, decode).Raised?
    ensures var m := DecodeReply(reply, decode).msg;
            && EvaluateStep(s, reply, decode) == Failure(s, m)
            && ReflectStep(s, reply, decode) == Failure(s, m)
            && ReassessStep(s, reply, decode) == Failure(s, m)
  {
  }

  /** Reflect stores the raw summary before composing the text, so a reply without "feedback_points" leaves it there. */
  lemma ReflectKeepsRawSummary(s: Snap, reply: Reply, decode: Decoder)
    requires DecodeReply(reply, decode).Ok?
    requires var result := DecodeReply(reply, decode).value;
             result.JDict? && "reflection_summary" in Keys(result.fields)
             && "feedback_points" !in Keys(result.fields)
    ensures var result := DecodeReply(reply, decode).value;
            ReflectStep(s, reply, decode) ==
              s.(reflection := Some(Subscript(result, "reflection_summary").value),
                 error := Some("'feedback_points'"), status := Error)
  {
    var result := DecodeReply(reply, decode).value;
    FeedbackKeyError();
    assert FeedbackPoints(result) == Raised("'feedback_points'");
  }

  /** Reflect reaches "reflected" exactly when the decoded reply has the three fields it reads. */
  lemma ReflectSucceeds(s: Snap, reply: Reply, decode: Decoder)
    ensures ReflectStep(s, reply, decode).status == Reflected <==> ReflectionAccepted(reply, decode)
    ensures ReflectStep(s, reply, decode).status == Reflected ==>
              var result := DecodeReply(reply, decode).value;
              ReflectStep(s, reply, decode).reflection ==
                Some(JStr(ReflectionText(Subscript(result, "reflection_summary").value,
                                         FeedbackPoints(result).value,
                                         Subscript(result, "perspective_changes").value)))
  {
  }

  /** Reassess reaches "completed" exactly when the reply has "final_score" and "final_assessment", and stores them. */
  lemma ReassessSucceeds(s: Snap, reply: Reply, decode: Decoder)
    ensures ReassessStep(s, reply, decode).status == Completed <==> ReassessmentAccepted(reply, decode)
    ensures ReassessStep(s, reply, decode).status == Completed ==>
              var result := DecodeReply(reply, decode).value;
              && Subscript(result, "final_score") == Ok(ReassessStep(s, reply, decode).finalRating.value)
              && Subscript(result, "final_assessment") == Ok(ReassessStep(s, reply, decode).finalAssessment.value)
  {
  }

  lemma ThreeHeads(a: string, h: string, x: seq<string>, z: seq<string>)
    ensures [a] + ([""] + ([h] + (x + z))) == [a, "", h] + x + z
  {
  }

  /** Splitting "a, blank, h, the lines of `body`, blank, c" joined by `sep`. */
  lemma BlockLayout(a: string, h: string, body: seq<string>, c: string, sep: char)
    requires sep !in a && sep !in h && sep !in c
    requires forall i :: 0 <= i < |body| ==> sep !in body[i]
    ensures Split(a + ([sep, sep] + (h + ([sep] + (Join([sep], body) + ([sep, sep] + c))))), sep) ==
              [a, "", h] + (if body == [] then [""] else body) + ["", c]
  {
    assert [sep, sep] + c == [sep] + ([sep] + c);
    var t3 := [sep] + c;
    SplitLeadingSep(c, sep);
    SplitJoin([c], sep);
    assert Split(t3, sep) == ["", c];
    SplitJoinThen(body, t3, sep);
    assert Join([sep], body) + [sep] + t3 == Join([sep], body) + ([sep] + t3);
    var t2 := Join([sep], body) + ([sep] + t3);
    SplitAfterLine(h, t2, sep);
    var x := if body == [] then [""] else body;
    assert Split(t2, sep) == x + ["", c];
    var t1 := h + ([sep] + t2);
    assert Split(t1, sep) == [h] + (x + ["", c]);
    assert [sep, sep] + t1 == [sep] + ([sep] + t1);
    SplitLeadingSep(t1, sep);
    SplitAfterLine(a, [sep] + t1, sep);
    ThreeHeads(a, h, x, ["", c]);
  }

  /**
   * The reflection text read line by line: the summary, a blank line, the
   * heading, one "- point" line per feedback point (a blank line when there are
   * none), a blank line, and the perspective-changes line.
   */
  lemma ReflectionLines(summary: Json, points: seq<Json>, changes: Json)
    requires '\n' !in Str(summary) && '\n' !in Str(changes)
    requires forall i :: 0 <= i < |points| ==> '\n' !in Str(points[i])
    ensures Split(ReflectionText(summary, points, changes), '\n') ==
              [Str(summary), "", FeedbackHeading]
              + (if points == [] then [""] else Bullets(points))
              + ["", ChangesHeading + Str(changes)]
  {
    BulletsOneLine(points);
    assert '\n' !in FeedbackHeading;
    assert '\n' !in ChangesHeading;
    assert '\n' !in ChangesHeading + Str(changes);
    BlockLayout(Str(summary), FeedbackHeading, Bullets(points), ChangesHeading + Str(changes), '\n');
  }

  lemma BulletsOneLine(points: seq<Json>)
    requires forall i :: 0 <= i < |points| ==> '\n' !in Str(points[i])
    ensures forall i :: 0 <= i < |points| ==> '\n' !in Bullets(points)[i]
  {
    forall i | 0 <= i < |points| ensures '\n' !in Bullets(points)[i] {
      assert Bullets(points)[i] == "- " + Str(points[i]);
    }
  }

  // ---------------------------------------------------------------------------
  // Whole runs

  /** An accepted reply moves a stage to its own status and leaves `error` as it was. */
  lemma EvaluateAccepted(s: Snap, reply: Reply, decode: Decoder)
    requires EvaluationAccepted(reply, decode)
    ensures EvaluateStep(s, reply, decode).status == Evaluated
    ensures EvaluateStep(s, reply, decode).error == s.error
  {
    EvaluateSucceeds(s, reply, decode);
    EvaluateFrame(s, reply, decode);
  }

  lemma ReflectAccepted(s: Snap, reply: Reply, decode: Decoder)
    requires ReflectionAccepted(reply, decode)
    ensures ReflectStep(s, reply, decode).status == Reflected
    ensures ReflectStep(s, reply, decode).error == s.error
  {
    ReflectSucceeds(s, reply, decode);
    ReflectFrame(s, reply, decode);
  }

  lemma ReassessAccepted(s: Snap, reply: Reply, decode: Decoder)
    requires ReassessmentAccepted(reply, decode)
    ensures ReassessStep(s, reply, decode).status == Completed
    ensures ReassessStep(s, reply, decode).error == s.error
  {
    ReassessSucceeds(s, reply, decode);
    ReassessFrame(s, reply, decode);
  }

  /** Without a truthy error after evaluate and after reflect, the run visits all three stages. */
  lemma AllStagesRun(text: string, replies: Replies, decode: Decoder)
    requires !HasError(EvaluateStep(Initial(text), replies.evaluate, decode))
    requires !HasError(ReflectStep(EvaluateStep(Initial(text), replies.evaluate, decode), replies.reflect, decode))
    ensures var s1 := EvaluateStep(Initial(text), replies.evaluate, decode);
            var s2 := ReflectStep(s1, replies.reflect, decode);
            Invoke(text, replies, decode) ==
              [Visit(EvaluateNode, s1), Visit(ReflectNode, s2),
               Visit(ReassessNode, ReassessStep(s2, replies.reassess, decode))]
  {
    var s1 := EvaluateStep(Initial(text), replies.evaluate, decode);
    var s2 := ReflectStep(s1, replies.reflect, decode);
    var s3 := ReassessStep(s2, replies.reassess, decode);
    InvokeTrace(text, replies, decode);
    assert [Visit(EvaluateNode, s1)] + ([Visit(ReflectNode, s2)] + [Visit(ReassessNode, s3)])
        == [Visit(EvaluateNode, s1), Visit(ReflectNode, s2), Visit(ReassessNode, s3)];
  }

  lemma ThreeVisits(trace: seq<Visit>, s1: Snap, s2: Snap, s3: Snap)
    requires trace == [Visit(EvaluateNode, s1), Visit(ReflectNode, s2), Visit(ReassessNode, s3)]
    ensures Nodes(trace) == [EvaluateNode, ReflectNode, ReassessNode]
    ensures Statuses(trace) == [s1.status.Name(), s2.status.Name(), s3.status.Name()]
  {
  }

  lemma LaterStagesAccepted(s1: Snap, replies: Replies, decode: Decoder)
    requires ReflectionAccepted(replies.reflect, decode)
    requires ReassessmentAccepted(replies.reassess, decode)
    ensures var s2 := ReflectStep(s1, replies.reflect, decode);
            var s3 := ReassessStep(s2, replies.reassess, decode);
            && s2.status == Reflected && s2.error == s1.error
            && s3.status == Completed && s3.error == s1.error
  {
    ReflectAccepted(s1, replies.reflect, decode);
    ReassessAccepted(ReflectStep(s1, replies.reflect, decode), replies.reassess, decode);
  }

  /** When every reply is accepted, the run visits all three stages and the status goes initialized, evaluated, reflected, completed. */
  lemma HappyPath(text: string, replies: Replies, decode: Decoder)
    requires EvaluationAccepted(replies.evaluate, decode)
    requires ReflectionAccepted(replies.reflect, decode)
    requires ReassessmentAccepted(replies.reassess, decode)
    ensures var trace := Invoke(text, replies, decode);
            && Nodes(trace) == [EvaluateNode, ReflectNode, ReassessNode]
            && [Initial(text).status.Name()] + Statuses(trace) == ["initialized", "evaluated", "reflected", "completed"]
            && trace[2].after.error == None
  {
    var s1 := EvaluateStep(Initial(text), replies.evaluate, decode);
    var s2 := ReflectStep(s1, replies.reflect, decode);
    var s3 := ReassessStep(s2, replies.reassess, decode);
    EvaluateAccepted(Initial(text), replies.evaluate, decode);
    ReflectAccepted(s1, replies.reflect, decode);
    ReassessAccepted(s2, replies.reassess, decode);
    AllStagesRun(text, replies, decode);
    HappyTrace(Invoke(text, replies, decode), Initial(text), s1, s2, s3);
  }

  lemma HappyTrace(trace: seq<Visit>, s0: Snap, s1: Snap, s2: Snap, s3: Snap)
    requires trace == [Visit(EvaluateNode, s1), Visit(ReflectNode, s2), Visit(ReassessNode, s3)]
    requires s0.status == Initialized && s1.status == Evaluated && s2.status == Reflected && s3.status == Completed
    requires s3.error == None
    ensures Nodes(trace) == [EvaluateNode, ReflectNode, ReassessNode]
    ensures [s0.status.Name()] + Statuses(trace) == ["initialized", "evaluated", "reflected", "completed"]
    ensures trace[2].after.error == None
  {
    ThreeVisits(trace, s1, s2, s3);
  }

  /**
   * Routing looks at `error`, not at `status`: a stage that fails with an empty
   * message sets status "error", yet the run goes on to the next stage.
   */
  lemma EmptyMessageDoesNotStop(text: string, replies: Replies, decode: Decoder)
    requires replies.evaluate == Failed("")
    ensures var trace := Invoke(text, replies, decode);
            && |trace| >= 2
            && trace[0].after.status == Error && trace[0].after.error == Some("")
            && trace[1].node == ReflectNode
            && trace[1].after == ReflectStep(trace[0].after, replies.reflect, decode)
  {
    InvokeTrace(text, replies, decode);
  }

  /** ... and when the later stages succeed, the run ends "completed" with `error` still "". */
  lemma EmptyMessageRunCompletes(text: string, replies: Replies, decode: Decoder)
    requires replies.evaluate == Failed("")
    requires ReflectionAccepted(replies.reflect, decode)
    requires ReassessmentAccepted(replies.reassess, decode)
    ensures var trace := Invoke(text, replies, decode);
            && Nodes(trace) == [EvaluateNode, ReflectNode, ReassessNode]
            && trace[0].after.status == Error && trace[1].after.status == Reflected
            && trace[2].after.status == Completed
            && trace[2].after.error == Some("")
  {
    var s1 := Failure(Initial(text), "");
    assert EvaluateStep(Initial(text), replies.evaluate, decode) == s1;
    LaterStagesAccepted(s1, replies, decode);
    AllStagesRun(text, replies, decode);
    var s2 := ReflectStep(s1, replies.reflect, decode);
    var s3 := ReassessStep(s2, replies.reassess, decode);
    ThreeVisits(Invoke(text, replies, decode), s1, s2, s3);
  }
}
