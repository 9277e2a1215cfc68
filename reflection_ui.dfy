/**
 * The pure display rules of the self-reflection dashboard: the colour band of a
 * rating or score, the badge that reports how the rating moved, and the way the
 * rationale text is cut into "metric: explanation" rows.
 */
module ReflectionUi {
  import opened Py
  import opened SelfReflection

  // ---------------------------------------------------------------------------
  // Colour bands

  const Green: string := "#4CAF50"
  const Yellow: string := "#FFC107"
  const Red: string := "#F44336"

  /** The colour a rating or a metric score is shown in. */
  function ScoreColour(score: int): (c: string)
    ensures c == Green <==> score >= 4
    ensures c == Yellow <==> 3 <= score < 4
    ensures c == Red <==> score < 3
  {
    if score >= 4 then Green
    else if score >= 3 then Yellow
    else Red
  }

  /** Red below yellow below green. */
  function BandRank(c: string): nat {
    if c == Green then 2 else if c == Yellow then 1 else 0
  }

  /** A higher score is never shown in a worse colour. */
  lemma ColourMonotone(a: int, b: int)
    requires a <= b
    ensures BandRank(ScoreColour(a)) <= BandRank(ScoreColour(b))
  {
  }

  // ---------------------------------------------------------------------------
  // Rating difference

  /** The arrow glyphs exactly as the page writes them (a mis-decoded emoji). */
  const UpArrow: string := "\U{201A}\U{00A8}\U{00DC}\U{00D4}\U{220F}\U{00E8}"
  const DownArrow: string := "\U{201A}\U{00A8}\U{00E1}\U{00D4}\U{220F}\U{00E8}"
  const UpLead: string := UpArrow + " Improved by "
  const DownLead: string := DownArrow + " Reduced by "

  /** "point", with an "s" only for a magnitude above one. */
  function PointWord(m: nat): string {
    if m > 1 then " points" else " point"
  }

  datatype Badge = Badge(text: string, colour: string)

  /** The badge shown after self-reflection; none when the rating did not move. */
  function DiffBadge(rating: int, finalRating: int): (b: Option<Badge>)
    ensures b.None? <==> finalRating == rating
    ensures b.Some? ==> (b.value.colour == Green <==> finalRating > rating)
    ensures b.Some? ==> (b.value.colour == Red <==> finalRating < rating)
  {
    var d := finalRating - rating;
    if d == 0 then None
    else if d > 0 then Some(Badge(UpLead + (NatToStr(d) + PointWord(d)), Green))
    else Some(Badge(DownLead + (NatToStr(-d) + PointWord(-d)), Red))
  }

  /** Reads the number back from "<digits> point" or "<digits> points". */
  function Magnitude(r: string): Option<nat> {
    if EndsWith(r, " points") && AllDigits(r[..|r| - 7]) then Some(DigitsValue(r[..|r| - 7]))
    else if EndsWith(r, " point") && AllDigits(r[..|r| - 6]) then Some(DigitsValue(r[..|r| - 6]))
    else None
  }

  /** Reads the signed rating change back from a badge text. */
  function ParseDiff(t: string): Option<int> {
    if StartsWith(t, UpLead) then
      match Magnitude(t[|UpLead|..])
      case None => None
      case Some(m) => Some(m)
    else if StartsWith(t, DownLead) then
      match Magnitude(t[|DownLead|..])
      case None => None
      case Some(m) => Some(0 - m as int)
    else None
  }

  lemma MagnitudeOf(m: nat)
    requires m >= 1
    ensures Magnitude(NatToStr(m) + PointWord(m)) == Some(m)
  {
    var d := NatToStr(m);
    var r := d + PointWord(m);
    NatToStrValue(m);
    if m > 1 {
      assert r[..|r| - 7] == d;
      assert r[|r| - 7..] == " points";
    } else {
      assert d == "1";
      assert r == "1 point";
      assert r[..|r| - 6] == d;
    }
  }

  lemma LeadFollowed(lead: string, rest: string)
    ensures StartsWith(lead + rest, lead)
    ensures (lead + rest)[|lead|..] == rest
  {
    assert (lead + rest)[..|lead|] == lead;
  }

  /** The badge says by how much, and in which direction, the rating moved. */
  lemma DiffRoundTrip(rating: int, finalRating: int)
    requires rating != finalRating
    ensures ParseDiff(DiffBadge(rating, finalRating).value.text) == Some(finalRating - rating)
  {
    var d := finalRating - rating;
    if d > 0 {
      ParseUp(d);
    } else {
      ParseDown(-d);
    }
  }

  lemma ParseUp(m: nat)
    requires m >= 1
    ensures ParseDiff(UpLead + (NatToStr(m) + PointWord(m))) == Some(m)
  {
    MagnitudeOf(m);
    LeadFollowed(UpLead, NatToStr(m) + PointWord(m));
  }

  lemma ParseDown(m: nat)
    requires m >= 1
    ensures ParseDiff(DownLead + (NatToStr(m) + PointWord(m))) == Some(0 - m)
  {
    var rest := NatToStr(m) + PointWord(m);
    var t := DownLead + rest;
    MagnitudeOf(m);
    LeadFollowed(DownLead, rest);
    DownNotUp(rest);
  }

  /** The two leads differ in their third character, so a downward badge never reads as upward. */
  lemma DownNotUp(rest: string)
    ensures !StartsWith(DownLead + rest, UpLead)
  {
    var t := DownLead + rest;
    assert t[2] == DownLead[2] == '\U{00E1}';
    assert UpLead[2] == '\U{00DC}';
  }

  /** The plural is used exactly when the rating moved by more than one point. */
  lemma DiffPlural(rating: int, finalRating: int)
    requires rating != finalRating
    ensures var t := DiffBadge(rating, finalRating).value.text;
            EndsWith(t, "s") <==> (finalRating - rating > 1 || rating - finalRating > 1)
  {
    var d := finalRating - rating;
    var m: nat := if d > 0 then d else -d;
    var lead := if d > 0 then UpLead else DownLead;
    var t := lead + (NatToStr(m) + PointWord(m));
    assert t[|t| - 1] == PointWord(m)[|PointWord(m)| - 1];
    assert EndsWith(t, "s") <==> t[|t| - 1] == 's';
  }

  // ---------------------------------------------------------------------------
  // Rationale rows

  /** A rationale line with a colon is shown as a bold metric and its explanation. */
  datatype Row = Labelled(metric: string, explanation: string) | PlainLine(line: string)

  /** What one line of the rationale becomes; nothing for a blank line. */
  function LineRow(line: string): Option<Row> {
    if Strip(line) == [] then None
    else match SplitOnce(line, ':')
      case Some((m, e)) => Some(Labelled(Strip(m), Strip(e)))
      case None => Some(PlainLine(line))
  }

  function RowsOf(lines: seq<string>): (rows: seq<Row>)
    ensures |rows| <= |lines|
  {
    Somes(seq(|lines|, i requires 0 <= i < |lines| => LineRow(lines[i])))
  }

  /** The rows the detailed-metrics panel shows for a rationale text. */
  function RationaleRows(rationale: string): seq<Row> {
    RowsOf(Split(rationale, '\n'))
  }

  /** The markdown each row is rendered as. */
  function Markdown(row: Row): string {
    match row
    case Labelled(m, e) => "**" + m + ":** " + e
    case PlainLine(l) => l
  }

  /** A "metric: explanation" line with a colon-free metric is read back as that pair. */
  lemma MetricLineRow(m: string, e: string)
    requires ':' !in m
    ensures LineRow(m + ": " + e) == Some(Labelled(Strip(m), Strip(e)))
  {
    var line := m + ": " + e;
    assert line == m + [':'] + (" " + e);
    assert line[|m|] == ':';
    assert !AllSpace(line);
    SplitOnceAt(m, " " + e, ':');
    StripLeadingSpace(' ', e);
  }

  /** The rows of metrics ms with explanations es, each stripped, in order. */
  function LabelledRows(ms: seq<string>, es: seq<string>): (rows: seq<Row>)
    requires |ms| == |es|
    ensures |rows| == |ms|
  {
    seq(|ms|, i requires 0 <= i < |ms| => Labelled(Strip(ms[i]), Strip(es[i])))
  }

  lemma RowsOfMetricLines(lines: seq<string>, ms: seq<string>, es: seq<string>)
    requires |ms| == |lines| && |es| == |lines|
    requires forall i :: 0 <= i < |lines| ==> lines[i] == ms[i] + ": " + es[i] && ':' !in ms[i]
    ensures RowsOf(lines) == LabelledRows(ms, es)
  {
    var rows := LabelledRows(ms, es);
    var rs := seq(|lines|, i requires 0 <= i < |lines| => LineRow(lines[i]));
    forall i | 0 <= i < |lines| ensures rs[i] == Some(rows[i]) {
      MetricLineRow(ms[i], es[i]);
    }
    SomesAll(rs, rows);
  }

  /** A metric and an explanation without newlines make a line without one. */
  lemma OneLine(m: string, e: string)
    requires '\n' !in m && '\n' !in e
    ensures '\n' !in m + ": " + e
  {
    var line := m + ": " + e;
    forall j | 0 <= j < |line| ensures line[j] != '\n' {
      if j >= |m| + 2 {
        assert line[j] == e[j - |m| - 2];
      } else if j < |m| {
        assert line[j] == m[j];
      }
    }
  }

  /**
   * Joining "metric: explanation" lines with newlines and reading them back in
   * the panel gives the pairs again, stripped, when no metric holds a colon and
   * neither part holds a newline.
   */
  lemma RationaleRoundTrip(lines: seq<string>, ms: seq<string>, es: seq<string>)
    requires |ms| == |lines| && |es| == |lines|
    requires forall i :: 0 <= i < |lines| ==> lines[i] == ms[i] + ": " + es[i]
    requires forall i :: 0 <= i < |lines| ==> ':' !in ms[i] && '\n' !in ms[i] && '\n' !in es[i]
    ensures RationaleRows(Join("\n", lines)) == LabelledRows(ms, es)
  {
    if lines == [] {
      assert Split(Join("\n", lines), '\n') == [""];
    } else {
      forall i | 0 <= i < |lines| ensures '\n' !in lines[i] {
        OneLine(ms[i], es[i]);
      }
      SplitJoin(lines, '\n');
    }
    RowsOfMetricLines(lines, ms, es);
  }

  /**
   * After a successful evaluation the panel shows one row per metric, in the
   * reply's order, pairing the metric's name with its rationale.
   */
  lemma EvaluationRowsShown(s: Snap, reply: Reply, decode: Decoder)
    requires EvaluationAccepted(reply, decode)
    requires var items := MetricItems(DecodeReply(reply, decode).value).value;
             forall i :: 0 <= i < |items| ==>
               ':' !in items[i].0 && '\n' !in items[i].0
               && '\n' !in Str(Subscript(items[i].1, "rationale").value)
    ensures var items := MetricItems(DecodeReply(reply, decode).value).value;
            var r := EvaluateStep(s, reply, decode);
            && r.rationale.Some?
            && RationaleRows(r.rationale.value) == LabelledRows(Names(items), Explanations(items))
  {
    var items := MetricItems(DecodeReply(reply, decode).value).value;
    EvaluateRationale(s, reply, decode);
    RationaleItemsShown(items);
  }

  /** The rationale text built from the metrics reads back as one row per metric. */
  lemma RationaleItemsShown(items: Fields)
    requires RationalesShaped(items) && RationaleLines(items).Ok?
    requires forall i :: 0 <= i < |items| ==>
               ':' !in items[i].0 && '\n' !in items[i].0
               && '\n' !in Str(Subscript(items[i].1, "rationale").value)
    ensures RationaleRows(Join("\n", RationaleLines(items).value)) == LabelledRows(Names(items), Explanations(items))
  {
    var lines := RationaleLines(items).value;
    var ms, es := Names(items), Explanations(items);
    LinesOfItems(items);
    RationaleRoundTrip(lines, ms, es);
  }

  /** The metric names, in order. */
  function Names(items: Fields): (ms: seq<string>)
    ensures |ms| == |items| && forall i :: 0 <= i < |items| ==> ms[i] == items[i].0
  {
    seq(|items|, i requires 0 <= i < |items| => items[i].0)
  }

  /** The metrics' rationales as text, in order. */
  function Explanations(items: Fields): (es: seq<string>)
    requires RationalesShaped(items)
    ensures |es| == |items|
    ensures forall i :: 0 <= i < |items| ==> es[i] == Str(Subscript(items[i].1, "rationale").value)
  {
    seq(|items|, i requires 0 <= i < |items| => Str(Subscript(items[i].1, "rationale").value))
  }

  /** Each rationale line is a name, ": " and the rationale's text. */
  lemma LinesOfItems(items: Fields)
    requires RationalesShaped(items) && RationaleLines(items).Ok?
    ensures var lines := RationaleLines(items).value;
            |lines| == |items|
            && forall i :: 0 <= i < |items| ==> lines[i] == Names(items)[i] + ": " + Explanations(items)[i]
  {
    RationaleLinesOk(items);
  }
}
