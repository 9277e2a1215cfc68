/**
 * The pagination of a Word document into numbered pages. A paragraph loop
 * fills the current page's heading slots and paragraph list, closes the page
 * at an explicit page break or once it holds ten paragraphs, and afterwards
 * every table goes to the last page and the first section's footer to the
 * first. The document is given as plain values: paragraph text, style name
 * and the XML of its runs; table cell texts; footer paragraph texts.
 */
module DocxPages {
  import opened Py

  // ---------------------------------------------------------------------------
  // The document and the result

  datatype Paragraph = Paragraph(text: string, style: string, runXml: seq<string>)

  /** A table as the texts of its cells, row by row. */
  type Table = seq<seq<string>>

  /** A section, by the texts of its footer's paragraphs. */
  datatype Section = Section(footer: seq<string>)

  /** `author` is "" when the core property is unset; `created` is its ISO text, if set. */
  datatype Docx = Docx(author: string, created: Option<string>, paragraphs: seq<Paragraph>,
                       tables: seq<Table>, sections: seq<Section>)

  datatype Content = Content(heading1: Option<string>, heading2: Option<string>, paragraph: seq<string>,
                             table: seq<seq<seq<string>>>, footers: seq<string>)

  datatype Page = Page(page: string, content: Content)

  datatype Metadata = Metadata(author: string, created: string)

  datatype Output = Output(metadata: Metadata, pages: seq<Page>)

  const EmptyContent: Content := Content(None, None, [], [], [])

  /** The most paragraphs a page holds before it is closed. */
  const PageSize: nat := 10

  const PageBreakTag: string := "<w:br w:type=\"page\""

  /** `any(...)` over the slots of a page: a heading counts when it is a non-empty string. */
  predicate HasContent(c: Content) {
    (c.heading1.Some? && c.heading1.value != "") || (c.heading2.Some? && c.heading2.value != "")
    || c.paragraph != [] || c.table != [] || c.footers != []
  }

  // ---------------------------------------------------------------------------
  // One paragraph

  datatype Kind = Blank | Heading1 | Heading2 | PageBreak | Body

  predicate HasPageBreak(p: Paragraph) {
    exists i :: 0 <= i < |p.runXml| && IsSubstring(PageBreakTag, p.runXml[i])
  }

  /** What the loop does with a paragraph, tested in the loop's order. */
  function KindOf(p: Paragraph): Kind {
    if Strip(p.text) == [] then Blank
    else if IsSubstring("heading 1", Lower(p.style)) then Heading1
    else if IsSubstring("heading 2", Lower(p.style)) then Heading2
    else if HasPageBreak(p) then PageBreak
    else Body
  }

  /** A paragraph as the loop sees it: what it does with it, and its stripped text. */
  datatype Line = Line(kind: Kind, text: string)

  function Classify(p: Paragraph): Line {
    Line(KindOf(p), Strip(p.text))
  }

  /** Only a blank paragraph has an empty stripped text. */
  predicate WellFormed(l: Line) {
    l.kind != Blank ==> l.text != []
  }

  function Lines(ps: seq<Paragraph>): (ls: seq<Line>)
    ensures |ls| == |ps|
    ensures forall i :: 0 <= i < |ps| ==> ls[i] == Classify(ps[i])
  {
    seq(|ps|, i requires 0 <= i < |ps| => Classify(ps[i]))
  }

  /** The pages closed so far, the number the current page will get, and the current page. */
  datatype Progress = Progress(pages: seq<Page>, pageCount: nat, current: Content)

  const Initial: Progress := Progress([], 1, EmptyContent)

  /** `start_new_page`. */
  function Flush(a: Progress): Progress {
    Progress(a.pages + [Page(NatToStr(a.pageCount), a.current)], a.pageCount + 1, EmptyContent)
  }

  /** The flush after every non-blank paragraph. */
  function Check(a: Progress): Progress {
    if |a.current.paragraph| >= PageSize then Flush(a) else a
  }

  /** One turn of the paragraph loop. */
  function Step(a: Progress, l: Line): Progress {
    var text := l.text;
    match l.kind
    case Blank => a
    case Heading1 => Check(a.(current := a.current.(heading1 := Some(text))))
    case Heading2 => Check(a.(current := a.current.(heading2 := Some(text))))
    case PageBreak => Check(Flush(a))
    case Body => Check(a.(current := a.current.(paragraph := a.current.paragraph + [text])))
  }

  /** The state after the loop has seen `ls`. */
  function Paginate(ls: seq<Line>): Progress {
    if ls == [] then Initial else Step(Paginate(ls[..|ls| - 1]), ls[|ls| - 1])
  }

  /** The pages after the loop: the current page is pushed when it has content. */
  function Close(a: Progress): seq<Page> {
    if HasContent(a.current) then a.pages + [Page(NatToStr(a.pageCount), a.current)] else a.pages
  }

  // ---------------------------------------------------------------------------
  // Tables, footer, metadata

  /** `[[cell.text.strip() for cell in row.cells] for row in table.rows]`. */
  function Rows(t: Table): seq<seq<string>> {
    seq(|t|, i requires 0 <= i < |t| => seq(|t[i]|, j requires 0 <= j < |t[i]| => Strip(t[i][j])))
  }

  function AttachTable(pages: seq<Page>, t: Table): (r: seq<Page>)
    requires pages != []
    ensures |r| == |pages|
  {
    var last := pages[|pages| - 1];
    pages[|pages| - 1 := last.(content := last.content.(table := last.content.table + [Rows(t)]))]
  }

  /** The table loop: every table, in order, is appended to the last page. */
  function AttachTables(pages: seq<Page>, ts: seq<Table>): (r: seq<Page>)
    requires pages != []
    ensures |r| == |pages|
  {
    if ts == [] then pages else AttachTable(AttachTables(pages, ts[..|ts| - 1]), ts[|ts| - 1])
  }

  /** The tables step: nothing without tables; otherwise a first page is made if there is none. */
  function WithTables(pages: seq<Page>, pageCount: nat, ts: seq<Table>): seq<Page> {
    if ts == [] then pages
    else AttachTables(if pages == [] then [Page(NatToStr(pageCount), EmptyContent)] else pages, ts)
  }

  /** `" ".join(p.text.strip() for p in footer_texts if p.text.strip())`. */
  function FooterText(texts: seq<string>): string {
    Join(" ", Somes(seq(|texts|, i requires 0 <= i < |texts| =>
      if Strip(texts[i]) == [] then None else Some(Strip(texts[i])))))
  }

  const IndexOutOfRange: string := "list index out of range"

  /** The footer step: page 1 gets the first section's footer; with no page this raises. */
  function WithFooter(pages: seq<Page>, sections: seq<Section>): Result<seq<Page>> {
    if sections == [] || sections[0].footer == [] then Ok(pages)
    else if pages == [] then Raised(IndexOutOfRange)
    else
      var first := pages[0];
      Ok(pages[0 := first.(content := first.content.(footers := first.content.footers + [FooterText(sections[0].footer)]))])
  }

  /** `author or "Unknown"`, and the creation time or else the current time `now`. */
  function MetadataOf(doc: Docx, now: string): Metadata {
    Metadata(if doc.author == "" then "Unknown" else doc.author,
             match doc.created case Some(t) => t case None => now)
  }

  /** `extract_docx_content_by_pages_2` on an already opened document. */
  function Extract(doc: Docx, now: string): Result<Output> {
    var a := Paginate(Lines(doc.paragraphs));
    match WithFooter(WithTables(Close(a), a.pageCount, doc.tables), doc.sections)
    case Raised(e) => Raised(e)
    case Ok(pages) => Ok(Output(MetadataOf(doc, now), pages))
  }

  // ---------------------------------------------------------------------------
  // The loop, imperatively

  /** The variables `start_new_page` rebinds, and the `pages` list it appends to. */
  class Paginator {
    var pages: seq<Page>
    var pageCount: nat
    var current: Content

    function Snapshot(): Progress
      reads this
    {
      Progress(pages, pageCount, current)
    }

    constructor()
      ensures Snapshot() == Initial
    {
      pages := [];
      pageCount := 1;
      current := EmptyContent;
    }

    method StartNewPage()
      modifies this
      ensures Snapshot() == Flush(old(Snapshot()))
    {
      pages := pages + [Page(NatToStr(pageCount), current)];
      pageCount := pageCount + 1;
      current := EmptyContent;
    }

    method AddParagraph(p: Paragraph)
      modifies this
      ensures Snapshot() == Step(old(Snapshot()), Classify(p))
    {
      var l := Classify(p);
      match l.kind {
        case Blank =>
          return;
        case Heading1 =>
          current := current.(heading1 := Some(l.text));
        case Heading2 =>
          current := current.(heading2 := Some(l.text));
        case PageBreak =>
          StartNewPage();
        case Body =>
          current := current.(paragraph := current.paragraph + [l.text]);
      }
      if |current.paragraph| >= PageSize {
        StartNewPage();
      }
    }
  }

  /** The paragraph loop. */
  method PaginateParagraphs(ps: seq<Paragraph>) returns (a: Progress)
    ensures a == Paginate(Lines(ps))
  {
    var pg := new Paginator();
    for i := 0 to |ps|
      invariant pg.Snapshot() == Paginate(Lines(ps[..i]))
    {
      LinesSnoc(ps, i);
      pg.AddParagraph(ps[i]);
    }
    assert ps[..|ps|] == ps;
    return pg.Snapshot();
  }

  /** One more paragraph is one more loop step. */
  lemma LinesSnoc(ps: seq<Paragraph>, i: nat)
    requires i < |ps|
    ensures Paginate(Lines(ps[..i + 1])) == Step(Paginate(Lines(ps[..i])), Classify(ps[i]))
  {
    var ls := Lines(ps[..i + 1]);
    assert ls[..i] == Lines(ps[..i]);
  }

  /** The table loop: `pages[-1]["content"]["table"].append(rows)` for every table. */
  method AppendTables(start: seq<Page>, ts: seq<Table>) returns (pages: seq<Page>)
    requires start != []
    ensures pages == AttachTables(start, ts)
  {
    pages := start;
    for t := 0 to |ts|
      invariant pages == AttachTables(start, ts[..t])
    {
      assert ts[..t + 1][..t] == ts[..t];
      var last := pages[|pages| - 1];
      pages := pages[|pages| - 1 := last.(content := last.content.(table := last.content.table + [Rows(ts[t])]))];
    }
    assert ts[..|ts|] == ts;
  }

  method ExtractDocxContentByPages(doc: Docx, now: string) returns (r: Result<Output>)
    ensures r == Extract(doc, now)
  {
    var metadata := MetadataOf(doc, now);
    var a := PaginateParagraphs(doc.paragraphs);
    var pages := a.pages;
    if HasContent(a.current) {
      pages := pages + [Page(NatToStr(a.pageCount), a.current)];
    }
    assert pages == Close(a);
    if doc.tables != [] {
      if pages == [] {
        pages := [Page(NatToStr(a.pageCount), EmptyContent)];
      }
      pages := AppendTables(pages, doc.tables);
    }
    assert pages == WithTables(Close(a), a.pageCount, doc.tables);
    if doc.sections != [] && doc.sections[0].footer != [] {
      if pages == [] {
        return Raised(IndexOutOfRange);
      }
      var first := pages[0];
      pages := pages[0 := first.(content := first.content.(footers := first.content.footers + [FooterText(doc.sections[0].footer)]))];
    }
    return Ok(Output(metadata, pages));
  }

  // ---------------------------------------------------------------------------
  // Properties of the loop

  /** Page labels are "1", "2", ... in order. */
  predicate Numbered(pages: seq<Page>) {
    forall j :: 0 <= j < |pages| ==> pages[j].page == NatToStr(j + 1)
  }

  /** What holds after every turn of the loop. */
  predicate Good(a: Progress) {
    && a.pageCount == |a.pages| + 1
    && Numbered(a.pages)
    && (forall j :: 0 <= j < |a.pages| ==>
          |a.pages[j].content.paragraph| <= PageSize && a.pages[j].content.table == [] && a.pages[j].content.footers == [])
    && |a.current.paragraph| < PageSize && a.current.table == [] && a.current.footers == []
  }

  lemma FlushGood(a: Progress)
    requires a.pageCount == |a.pages| + 1 && Numbered(a.pages)
    requires forall j :: 0 <= j < |a.pages| ==>
               |a.pages[j].content.paragraph| <= PageSize && a.pages[j].content.table == [] && a.pages[j].content.footers == []
    requires |a.current.paragraph| <= PageSize && a.current.table == [] && a.current.footers == []
    ensures Good(Flush(a))
  {
    var b := Flush(a);
    assert forall j :: 0 <= j < |a.pages| ==> b.pages[j] == a.pages[j];
  }

  /** A blank paragraph changes nothing, even when it carries a page break. */
  lemma BlankSkipped(a: Progress, l: Line)
    requires l.kind == Blank
    ensures Step(a, l) == a
  {
  }

  /** A heading fills its slot on the current page, replacing any earlier one, and closes no page. */
  lemma HeadingSetsSlot(a: Progress, l: Line)
    requires Good(a)
    requires l.kind == Heading1 || l.kind == Heading2
    ensures var b := Step(a, l);
            && b.pages == a.pages && b.pageCount == a.pageCount
            && b.current.paragraph == a.current.paragraph
            && (l.kind == Heading1 ==> b.current == a.current.(heading1 := Some(l.text)))
            && (l.kind == Heading2 ==> b.current == a.current.(heading2 := Some(l.text)))
  {
  }

  /** A page break closes the current page as it stands; the paragraph's own text is dropped. */
  lemma PageBreakCloses(a: Progress, l: Line)
    requires Good(a)
    requires l.kind == PageBreak
    ensures Step(a, l) == Flush(a)
    ensures Step(a, l).current == EmptyContent
  {
  }

  /** A body paragraph joins the current page, and the tenth one closes it. */
  lemma BodyAppends(a: Progress, l: Line)
    requires Good(a)
    requires l.kind == Body
    ensures var c := a.current.(paragraph := a.current.paragraph + [l.text]);
            Step(a, l) == if |c.paragraph| == PageSize then Flush(a.(current := c)) else a.(current := c)
  {
  }

  lemma StepGood(a: Progress, l: Line)
    requires Good(a)
    ensures Good(Step(a, l))
  {
    match l.kind
    case Blank =>
    case Heading1 =>
    case Heading2 =>
    case PageBreak =>
      FlushGood(a);
    case Body =>
      var c := a.current.(paragraph := a.current.paragraph + [l.text]);
      if |c.paragraph| >= PageSize {
        FlushGood(a.(current := c));
      }
  }

  lemma {:induction false} PaginateGood(ps: seq<Line>)
    ensures Good(Paginate(ps))
  {
    if ps != [] {
      PaginateGood(ps[..|ps| - 1]);
      StepGood(Paginate(ps[..|ps| - 1]), ps[|ps| - 1]);
    }
  }

  /** The paragraph lists of the pages, one after another. */
  function Flatten(pages: seq<Page>): seq<string> {
    if pages == [] then [] else Flatten(pages[..|pages| - 1]) + pages[|pages| - 1].content.paragraph
  }

  lemma FlattenSnoc(pages: seq<Page>, p: Page)
    ensures Flatten(pages + [p]) == Flatten(pages) + p.content.paragraph
  {
    assert (pages + [p])[..|pages|] == pages;
  }

  /** The stripped texts of the non-blank, non-heading paragraphs without a page break, in order. */
  function BodyTexts(ps: seq<Line>): seq<string> {
    if ps == [] then []
    else BodyTexts(ps[..|ps| - 1]) + (if ps[|ps| - 1].kind == Body then [ps[|ps| - 1].text] else [])
  }

  /** The closed pages and the current one hold between them every body text seen, in order. */
  function Written(a: Progress): seq<string> {
    Flatten(a.pages) + a.current.paragraph
  }

  lemma FlushWritten(a: Progress)
    ensures Written(Flush(a)) == Written(a)
  {
    FlattenSnoc(a.pages, Page(NatToStr(a.pageCount), a.current));
  }

  lemma StepWritten(a: Progress, l: Line)
    ensures Written(Step(a, l)) == Written(a) + (if l.kind == Body then [l.text] else [])
  {
    var text := l.text;
    match l.kind
    case Blank =>
    case Heading1 =>
      FlushWritten(a.(current := a.current.(heading1 := Some(text))));
    case Heading2 =>
      FlushWritten(a.(current := a.current.(heading2 := Some(text))));
    case PageBreak =>
      FlushWritten(a);
      FlushWritten(Flush(a));
    case Body =>
      var b := a.(current := a.current.(paragraph := a.current.paragraph + [text]));
      FlushWritten(b);
      AppendAssoc(Flatten(a.pages), a.current.paragraph, [text]);
  }

  lemma {:induction false} PaginateWritten(ps: seq<Line>)
    ensures Written(Paginate(ps)) == BodyTexts(ps)
  {
    if ps != [] {
      PaginateWritten(ps[..|ps| - 1]);
      StepWritten(Paginate(ps[..|ps| - 1]), ps[|ps| - 1]);
    }
  }

  lemma AppendAssoc<T>(a: seq<T>, b: seq<T>, c: seq<T>)
    ensures (a + b) + c == a + (b + c)
  {
  }

  /** Whether any page has been started: the loop never returns to the empty start. */
  predicate Started(a: Progress) {
    a.pages != [] || HasContent(a.current)
  }

  lemma StepStarted(a: Progress, l: Line)
    requires WellFormed(l)
    ensures Started(a) ==> Started(Step(a, l))
    ensures l.kind != Blank ==> Started(Step(a, l))
  {
    var text := l.text;
    var k := l.kind;
    if k == Heading1 {
      var b := a.(current := a.current.(heading1 := Some(text)));
      assert HasContent(b.current);
      FlushStarted(b);
    } else if k == Heading2 {
      var b := a.(current := a.current.(heading2 := Some(text)));
      assert HasContent(b.current);
      FlushStarted(b);
    } else if k == PageBreak {
      FlushStarted(a);
      FlushStarted(Flush(a));
    } else if k == Body {
      var b := a.(current := a.current.(paragraph := a.current.paragraph + [text]));
      assert HasContent(b.current);
      FlushStarted(b);
    }
  }

  lemma FlushStarted(a: Progress)
    ensures Started(Flush(a))
    ensures Started(a) ==> Started(Check(a))
  {
  }

  /** The loop has started a page exactly when some paragraph is not blank. */
  lemma {:induction false} PaginateStarted(ls: seq<Line>)
    requires forall i :: 0 <= i < |ls| ==> WellFormed(ls[i])
    ensures Started(Paginate(ls)) <==> exists i :: 0 <= i < |ls| && ls[i].kind != Blank
  {
    if ls != [] {
      var init := ls[..|ls| - 1];
      PaginateStarted(init);
      StepStarted(Paginate(init), ls[|ls| - 1]);
      assert forall i :: 0 <= i < |init| ==> init[i] == ls[i];
    }
  }

  // ---------------------------------------------------------------------------
  // Properties of the result

  lemma CloseGood(a: Progress)
    requires Good(a)
    ensures var pages := Close(a);
            && Numbered(pages)
            && Flatten(pages) == Written(a)
            && (pages == [] <==> !Started(a))
            && (forall j :: 0 <= j < |pages| ==>
                  |pages[j].content.paragraph| <= PageSize && pages[j].content.table == [] && pages[j].content.footers == [])
  {
    if HasContent(a.current) {
      FlattenSnoc(a.pages, Page(NatToStr(a.pageCount), a.current));
      assert forall j :: 0 <= j < |a.pages| ==> Close(a)[j] == a.pages[j];
    }
  }

  /** The table loop extends the last page's tables by every table's rows, and touches nothing else. */
  lemma {:induction false} AttachTablesLast(pages: seq<Page>, ts: seq<Table>)
    requires pages != []
    ensures var r := AttachTables(pages, ts);
            var n := |pages| - 1;
            && (forall j :: 0 <= j < n ==> r[j] == pages[j])
            && r[n].page == pages[n].page
            && r[n].content == pages[n].content.(table := pages[n].content.table + seq(|ts|, i requires 0 <= i < |ts| => Rows(ts[i])))
  {
    var n := |pages| - 1;
    if ts == [] {
      assert pages[n].content.table + [] == pages[n].content.table;
    } else {
      var init := ts[..|ts| - 1];
      AttachTablesLast(pages, init);
      var s := AttachTables(pages, init);
      var all := seq(|ts|, i requires 0 <= i < |ts| => Rows(ts[i]));
      var some := seq(|init|, i requires 0 <= i < |init| => Rows(init[i]));
      assert all == some + [Rows(ts[|ts| - 1])];
      AppendAssoc(pages[n].content.table, some, [Rows(ts[|ts| - 1])]);
    }
  }

  /** The tables all go to the last page; with no page, a page "1" is made for them. */
  lemma TablesGoLast(a: Progress, ts: seq<Table>)
    requires Good(a) && ts != []
    ensures var pages := WithTables(Close(a), a.pageCount, ts);
            && pages != []
            && Numbered(pages)
            && (forall j :: 0 <= j < |pages| - 1 ==> pages[j] == Close(a)[j])
            && pages[|pages| - 1].content.table == seq(|ts|, i requires 0 <= i < |ts| => Rows(ts[i]))
            && (Close(a) == [] ==> |pages| == 1 && pages[0].page == "1")
  {
    CloseGood(a);
    var closed := Close(a);
    var base := if closed == [] then [Page(NatToStr(a.pageCount), EmptyContent)] else closed;
    AttachTablesLast(base, ts);
    if closed == [] {
      assert a.pageCount == 1;
    }
  }

  /**
   * A successful run yields pages numbered "1", "2", ... that each hold at
   * most ten paragraphs and together hold every body text in document order.
   */
  lemma ExtractPages(doc: Docx, now: string)
    requires Extract(doc, now).Ok?
    ensures var pages := Extract(doc, now).value.pages;
            && Numbered(pages)
            && (forall j :: 0 <= j < |pages| ==> |pages[j].content.paragraph| <= PageSize)
            && Flatten(pages) == BodyTexts(Lines(doc.paragraphs))
  {
    var ls := Lines(doc.paragraphs);
    var a := Paginate(ls);
    PaginateGood(ls);
    PaginateWritten(ls);
    CloseGood(a);
    var closed := Close(a);
    var tabled := WithTables(closed, a.pageCount, doc.tables);
    if doc.tables != [] {
      TablesGoLast(a, doc.tables);
      TablesKeepParagraphs(a, doc.tables);
    }
    FooterKeepsParagraphs(tabled, doc.sections);
  }

  lemma TablesKeepParagraphs(a: Progress, ts: seq<Table>)
    requires Good(a) && ts != []
    ensures var pages := WithTables(Close(a), a.pageCount, ts);
            && Flatten(pages) == Flatten(Close(a))
            && (forall j :: 0 <= j < |pages| ==> |pages[j].content.paragraph| <= PageSize)
  {
    CloseGood(a);
    var closed := Close(a);
    var base := if closed == [] then [Page(NatToStr(a.pageCount), EmptyContent)] else closed;
    assert WithTables(closed, a.pageCount, ts) == AttachTables(base, ts);
    AttachTablesLast(base, ts);
    var pages := AttachTables(base, ts);
    forall j | 0 <= j < |pages|
      ensures pages[j].content.paragraph == base[j].content.paragraph
    {
    }
    SameParagraphs(base, pages);
    if closed == [] {
      assert Flatten(base) == Flatten([]) + [];
    }
  }

  /** Pages that differ only outside their paragraph lists flatten alike. */
  lemma {:induction false} SameParagraphs(p: seq<Page>, q: seq<Page>)
    requires |p| == |q|
    requires forall j :: 0 <= j < |p| ==> p[j].content.paragraph == q[j].content.paragraph
    ensures Flatten(p) == Flatten(q)
  {
    if p != [] {
      SameParagraphs(p[..|p| - 1], q[..|q| - 1]);
    }
  }

  lemma FooterKeepsParagraphs(pages: seq<Page>, sections: seq<Section>)
    requires WithFooter(pages, sections).Ok?
    ensures var r := WithFooter(pages, sections).value;
            && |r| == |pages|
            && (forall j :: 0 <= j < |r| ==> r[j].page == pages[j].page)
            && (forall j :: 0 <= j < |r| ==> r[j].content.paragraph == pages[j].content.paragraph)
            && Flatten(r) == Flatten(pages)
  {
    var r := WithFooter(pages, sections).value;
    SameParagraphs(pages, r);
  }

  /**
   * The run raises exactly when the first section has footer paragraphs and
   * there is no page at all: every paragraph blank and no table.
   */
  lemma RaisesWithoutPages(doc: Docx, now: string)
    ensures Extract(doc, now).Raised? <==>
              && doc.sections != [] && doc.sections[0].footer != []
              && doc.tables == []
              && (forall i :: 0 <= i < |doc.paragraphs| ==> Strip(doc.paragraphs[i].text) == [])
  {
    var ls := Lines(doc.paragraphs);
    var a := Paginate(ls);
    LinesBlank(doc.paragraphs);
    PaginateGood(ls);
    PaginateStarted(ls);
    CloseGood(a);
    if doc.tables != [] {
      TablesGoLast(a, doc.tables);
    }
  }

  /** The lines of a document are well formed, and blank exactly where the paragraph text is. */
  lemma LinesBlank(ps: seq<Paragraph>)
    ensures forall i :: 0 <= i < |ps| ==> WellFormed(Lines(ps)[i])
    ensures (exists i :: 0 <= i < |ps| && Lines(ps)[i].kind != Blank) <==>
              !(forall i :: 0 <= i < |ps| ==> Strip(ps[i].text) == [])
  {
    forall i | 0 <= i < |ps| ensures WellFormed(Lines(ps)[i]) && (Lines(ps)[i].kind == Blank <==> Strip(ps[i].text) == []) {
      assert Lines(ps)[i] == Classify(ps[i]);
    }
  }

  /** The footer goes to page 1 only. */
  lemma FooterOnFirstPage(doc: Docx, now: string)
    requires Extract(doc, now).Ok? && doc.sections != [] && doc.sections[0].footer != []
    ensures var pages := Extract(doc, now).value.pages;
            && pages[0].content.footers == [FooterText(doc.sections[0].footer)]
            && (forall j :: 1 <= j < |pages| ==> pages[j].content.footers == [])
  {
    var ls := Lines(doc.paragraphs);
    var a := Paginate(ls);
    PaginateGood(ls);
    CloseGood(a);
    if doc.tables != [] {
      TablesKeepFooters(a, doc.tables);
    }
  }

  lemma TablesKeepFooters(a: Progress, ts: seq<Table>)
    requires Good(a) && ts != []
    ensures var pages := WithTables(Close(a), a.pageCount, ts);
            forall j :: 0 <= j < |pages| ==> pages[j].content.footers == []
  {
    CloseGood(a);
    var closed := Close(a);
    var base := if closed == [] then [Page(NatToStr(a.pageCount), EmptyContent)] else closed;
    AttachTablesLast(base, ts);
  }

  /** An unset author reads "Unknown", and an unset creation time is the current time. */
  lemma MetadataDefaults(doc: Docx, now: string)
    ensures MetadataOf(doc, now).author == (if doc.author == "" then "Unknown" else doc.author)
    ensures doc.created.None? ==> MetadataOf(doc, now).created == now
  {
  }

  /** A document that is one page break yields one empty page: an explicit break can emit an empty page. */
  lemma LonePageBreak(l: Line)
    requires l.kind == PageBreak
    ensures Close(Paginate([l])) == [Page("1", EmptyContent)]
  {
    assert [l][..0] == [];
  }
}
