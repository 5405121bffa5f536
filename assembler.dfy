/** `createPdf`: the lab record's title page, its five content sections, and the header and
    footer stamped on every page after the title page. */
module Assembler {
  import opened Style
  import opened Strings
  import opened Wrapper
  import opened Seqs
  import opened Layout
  import opened Drawer

  /** The fields of a lab record, as submitted by the form. */
  datatype LabRecord = LabRecord(
    studentName: string,
    rollNumber: string,
    subject: string,
    collegeName: string,
    aim: string,
    theory: string,
    code: string,
    output: string,
    conclusion: string)

  // ---------------------------------------------------------------------------------------
  // The document before the header and footer

  /** The title page: a fresh page with the college and the subject as centred titles, the aim as a
      wrapped heading, and the "Submitted by" block at fixed positions. */
  function TitlePage(env: Env, data: LabRecord): (r: Doc)
    ensures |r.pages| == 1
  {
    var d0 := Layout.AddPage(Doc([], 0));
    var d1 := DrawTitle(env, d0, data.collegeName, 250);
    var d2 := DrawTitle(env, d1, data.subject, 300);
    var d3 := DrawHeading1(env, d2, "Aim: " + data.aim, 350);
    var d4 := DrawText(env, d3, "Submitted by:", 40.0, 680, HelveticaBold, H2Size, HeadingColor);
    var d5 := DrawText(env, d4, data.studentName, 40.0, 700, Helvetica, BodySize, BodyColor);
    DrawText(env, d5, data.rollNumber, 40.0, 720, Helvetica, BodySize, BodyColor)
  }

  /** The content sections, after their first page is added: the five sections, each a heading followed by its text. */
  function Sections(env: Env, d: Doc, data: LabRecord): (r: Doc)
    requires |d.pages| > 0
    ensures |r.pages| >= |d.pages|
  {
    var s1 := DrawBody(env, DrawHeading2(env, d, "Aim"), data.aim);
    var s2 := DrawBody(env, DrawHeading2(env, s1, "Theory / Apparatus"), data.theory);
    var s3 := DrawCodeBlock(env, DrawHeading2(env, s2, "Code / Procedure"), data.code);
    var s4 := DrawCodeBlock(env, DrawHeading2(env, s3, "Output / Observations"), data.output);
    DrawBody(env, DrawHeading2(env, s4, "Conclusion"), data.conclusion)
  }

  /** The document before the header/footer pass: the title page, a cursor reset, a fresh page, the sections. */
  function Assemble(env: Env, data: LabRecord): (r: Doc)
    ensures |r.pages| >= 2
  {
    Sections(env, Layout.AddPage(ResetCursor(TitlePage(env, data))), data)
  }

  // ---------------------------------------------------------------------------------------
  // Header and footer

  /** The header: student and subject, at the left margin, half a margin below the top. */
  function Header(env: Env, data: LabRecord): (r: DrawOp)
    ensures IsChrome(r) && r.x == Margin as real && r.y == env.pageHeight - 36.0
  {
    Text(data.studentName + " | " + data.subject, Margin as real, env.pageHeight - (Margin as real) / 2.0,
         Helvetica, HeaderFooterSize, HeaderFooterColor)
  }

  /** The footer text of page `i` (counted from 0) of `n`. */
  function PageLabel(i: nat, n: nat): string
  {
    "Page " + NatToString(i + 1) + " of " + NatToString(n)
  }

  /** The label reads back: split at its spaces it is "Page", the page number counted from 1,
      "of" and the page count, and both numbers parse back to their values. */
  lemma PageLabelReadsBack(i: nat, n: nat)
    ensures Split(PageLabel(i, n), ' ') == ["Page", NatToString(i + 1), "of", NatToString(n)]
    ensures ParseNat(NatToString(i + 1)) == i + 1 && ParseNat(NatToString(n)) == n
  {
    var a := NatToString(i + 1);
    var b := NatToString(n);
    var parts := ["Page", a, "of", b];
    assert parts[1..] == [a, "of", b] && parts[1..][1..] == ["of", b] && parts[1..][1..][1..] == [b];
    assert Join(["of", b], ' ') == "of" + [' '] + Join([b], ' ');
    assert Join([a, "of", b], ' ') == a + [' '] + Join(["of", b], ' ');
    assert Join(parts, ' ') == "Page" + [' '] + Join([a, "of", b], ' ');
    assert PageLabel(i, n) == Join(parts, ' ');
    SplitJoin(parts, ' ');
    NatToStringRoundTrip(i + 1);
    NatToStringRoundTrip(n);
  }

  /** The footer: the page label, 40 left of the right margin, half a margin above the bottom. */
  function Footer(env: Env, i: nat, n: nat): (r: DrawOp)
    ensures IsChrome(r) && r.text == PageLabel(i, n) && r.y == 36.0
    ensures r.x == env.pageWidth - 112.0
  {
    Text(PageLabel(i, n), env.pageWidth - (Margin + 40) as real, (Margin as real) / 2.0,
         Helvetica, HeaderFooterSize, HeaderFooterColor)
  }

  /** The header/footer pass on page `i`: the title page is skipped, every other page gets the header and then
      the footer. */
  function StampPage(env: Env, data: LabRecord, pages: seq<Page>, i: nat): (r: Page)
    requires i < |pages|
    ensures pages[i] <= r
    ensures i == 0 <==> r == pages[i]
    ensures i > 0 ==> r[|pages[i]|..] == [Header(env, data), Footer(env, i, |pages|)]
  {
    if i == 0 then pages[0] else pages[i] + [Header(env, data), Footer(env, i, |pages|)]
  }

  /** The header/footer pass on the whole document. */
  function Stamp(env: Env, data: LabRecord, pages: seq<Page>): (r: seq<Page>)
    ensures |r| == |pages|
    ensures forall i :: 0 <= i < |pages| ==> pages[i] <= r[i]
  {
    seq(|pages|, i requires 0 <= i < |pages| => StampPage(env, data, pages, i))
  }

  // ---------------------------------------------------------------------------------------
  // The title page

  /** The wrapped aim heading of the title page, line `i` centred `350 + 24 * i` below the top. */
  function AimHeading(env: Env, data: LabRecord): seq<DrawOp>
  {
    var lines := Wrap("Aim: " + data.aim, ContentWidth(env), env.measure, Helvetica, H1Size);
    seq(|lines|, i requires 0 <= i < |lines| => Heading1Op(env, lines[i], 350 + HeadingLineHeight * i))
  }

  /** The "Submitted by" block: label, name and roll number, 40 from the left edge. */
  function SubmittedBy(env: Env, data: LabRecord): seq<DrawOp>
  {
    [Text("Submitted by:", 40.0, env.pageHeight - 680.0, HelveticaBold, H2Size, HeadingColor),
     Text(data.studentName, 40.0, env.pageHeight - 700.0, Helvetica, BodySize, BodyColor),
     Text(data.rollNumber, 40.0, env.pageHeight - 720.0, Helvetica, BodySize, BodyColor)]
  }

  /** The two centred titles of the title page. */
  function Titles(env: Env, data: LabRecord): seq<DrawOp>
  {
    [Text(data.collegeName, Centred(env, data.collegeName, HelveticaBold, TitleSize),
          env.pageHeight - 250.0, HelveticaBold, TitleSize, TitleColor),
     Text(data.subject, Centred(env, data.subject, HelveticaBold, TitleSize),
          env.pageHeight - 300.0, HelveticaBold, TitleSize, TitleColor)]
  }

  lemma TitlesDrawn(env: Env, d: Doc, data: LabRecord)
    requires |d.pages| > 0
    ensures var r := DrawTitle(env, DrawTitle(env, d, data.collegeName, 250), data.subject, 300);
            && r.y == d.y && |r.pages| == |d.pages| && Extends(d.pages, r.pages)
            && Added(d.pages, r.pages) == Titles(env, data)
  {
    var d1 := DrawTitle(env, d, data.collegeName, 250);
    AddedTrans(d.pages, d1.pages, DrawTitle(env, d1, data.subject, 300).pages);
  }

  lemma AimHeadingDrawn(env: Env, d: Doc, data: LabRecord)
    requires |d.pages| > 0
    ensures var r := DrawHeading1(env, d, "Aim: " + data.aim, 350);
            && r.y == d.y && |r.pages| == |d.pages| && Extends(d.pages, r.pages)
            && Added(d.pages, r.pages) == AimHeading(env, data)
  {
    Heading1Placement(env, d, "Aim: " + data.aim, 350);
  }

  lemma SubmittedByDrawn(env: Env, d: Doc, data: LabRecord)
    requires |d.pages| > 0
    ensures var d1 := DrawText(env, d, "Submitted by:", 40.0, 680, HelveticaBold, H2Size, HeadingColor);
            var d2 := DrawText(env, d1, data.studentName, 40.0, 700, Helvetica, BodySize, BodyColor);
            var r := DrawText(env, d2, data.rollNumber, 40.0, 720, Helvetica, BodySize, BodyColor);
            && r.y == d.y && |r.pages| == |d.pages| && Extends(d.pages, r.pages)
            && Added(d.pages, r.pages) == SubmittedBy(env, data)
  {
    var d1 := DrawText(env, d, "Submitted by:", 40.0, 680, HelveticaBold, H2Size, HeadingColor);
    var d2 := DrawText(env, d1, data.studentName, 40.0, 700, Helvetica, BodySize, BodyColor);
    var r := DrawText(env, d2, data.rollNumber, 40.0, 720, Helvetica, BodySize, BodyColor);
    AddedTrans(d.pages, d1.pages, d2.pages);
    AddedTrans(d.pages, d2.pages, r.pages);
  }

  /** The title page holds, in drawing order: the college and the subject centred 250 and 300
      below the top, the wrapped aim heading, and the "Submitted by" block; nothing else. Its
      cursor is the top margin of the page. */
  lemma TitlePageSpec(env: Env, data: LabRecord)
    ensures var t := TitlePage(env, data);
            t.y == Margin && t.pages[0] == Titles(env, data) + AimHeading(env, data) + SubmittedBy(env, data)
  {
    var d0 := Layout.AddPage(Doc([], 0));
    var d2 := DrawTitle(env, DrawTitle(env, d0, data.collegeName, 250), data.subject, 300);
    var d3 := DrawHeading1(env, d2, "Aim: " + data.aim, 350);
    var d4 := DrawText(env, d3, "Submitted by:", 40.0, 680, HelveticaBold, H2Size, HeadingColor);
    var d5 := DrawText(env, d4, data.studentName, 40.0, 700, Helvetica, BodySize, BodyColor);
    var t := DrawText(env, d5, data.rollNumber, 40.0, 720, Helvetica, BodySize, BodyColor);
    TitlesDrawn(env, d0, data);
    AimHeadingDrawn(env, d2, data);
    SubmittedByDrawn(env, d3, data);
    AddedTrans(d0.pages, d2.pages, d3.pages);
    AddedTrans(d0.pages, d3.pages, t.pages);
    OneBlankPage(d0.pages, t.pages);
  }

  /** Drawing on a document that is one blank page: what is drawn is that page. */
  lemma OneBlankPage(a: seq<Page>, b: seq<Page>)
    requires a == [[]] && Extends(a, b) && |b| == 1
    ensures b[0] == Added(a, b)
  {
    assert a[..0] == [] && b[..0] == [];
    assert Ops(a) == [];
    assert b == [b[0]];
  }

  /** The instructions of the title page are in the title, heading and body colours. */
  lemma TitleOpsPlain(env: Env, data: LabRecord)
    ensures forall op :: op in Titles(env, data) + AimHeading(env, data) + SubmittedBy(env, data) ==> !IsChrome(op)
  {
    var h := AimHeading(env, data);
    forall op | op in h
      ensures !IsChrome(op)
    {
      var i :| 0 <= i < |h| && h[i] == op;
    }
  }

  /** A one-page document holds the instructions of its page. */
  lemma OnePageOps(pages: seq<Page>)
    requires |pages| == 1
    ensures Ops(pages) == pages[0]
  {
    assert pages[..0] == [];
  }

  /** The title page draws no header or footer. */
  lemma TitlePagePlain(env: Env, data: LabRecord)
    ensures NoChrome(TitlePage(env, data).pages)
  {
    var t := TitlePage(env, data);
    TitlePageSpec(env, data);
    TitleOpsPlain(env, data);
    OnePageOps(t.pages);
  }

  // ---------------------------------------------------------------------------------------
  // The content pages

  lemma Heading2Plain(env: Env, d: Doc, text: string)
    requires |d.pages| > 0 && NoChrome(d.pages)
    ensures var r := DrawHeading2(env, d, text);
            Extends(d.pages, r.pages) && NoChrome(r.pages)
  {
    ChromeFree(d.pages, DrawHeading2(env, d, text).pages);
  }

  lemma BodyPlain(env: Env, d: Doc, text: string)
    requires |d.pages| > 0 && NoChrome(d.pages)
    ensures var r := DrawBody(env, d, text);
            Extends(d.pages, r.pages) && NoChrome(r.pages)
  {
    BodySpec(env, d, text);
    ChromeFree(d.pages, DrawBody(env, d, text).pages);
  }

  lemma CodeBlockPlain(env: Env, d: Doc, text: string)
    requires |d.pages| > 0 && NoChrome(d.pages)
    ensures var r := DrawCodeBlock(env, d, text);
            Extends(d.pages, r.pages) && NoChrome(r.pages)
  {
    CodeBlockSpec(env, d, text);
    if text != "" {
      var r := DrawCodeBlock(env, d, text);
      var added := Added(d.pages, r.pages);
      forall j | 0 <= j < |added|
        ensures !IsChrome(added[j])
      {
        if j > 0 {
          assert IsLine(added[(j - 1) + 1], CodeLines(env, text)[j - 1], CodeStyle);
        }
      }
      ChromeFree(d.pages, r.pages);
    }
  }

  /** The sections only draw on from where they start, and draw no header or footer. */
  lemma SectionsPlain(env: Env, d: Doc, data: LabRecord)
    requires |d.pages| > 0 && NoChrome(d.pages)
    ensures var r := Sections(env, d, data);
            Extends(d.pages, r.pages) && NoChrome(r.pages)
  {
    var h1 := DrawHeading2(env, d, "Aim");
    Heading2Plain(env, d, "Aim");
    var s1 := DrawBody(env, h1, data.aim);
    BodyPlain(env, h1, data.aim);
    ExtendsTrans(d.pages, h1.pages, s1.pages);
    var h2 := DrawHeading2(env, s1, "Theory / Apparatus");
    Heading2Plain(env, s1, "Theory / Apparatus");
    ExtendsTrans(d.pages, s1.pages, h2.pages);
    var s2 := DrawBody(env, h2, data.theory);
    BodyPlain(env, h2, data.theory);
    ExtendsTrans(d.pages, h2.pages, s2.pages);
    var h3 := DrawHeading2(env, s2, "Code / Procedure");
    Heading2Plain(env, s2, "Code / Procedure");
    ExtendsTrans(d.pages, s2.pages, h3.pages);
    var s3 := DrawCodeBlock(env, h3, data.code);
    CodeBlockPlain(env, h3, data.code);
    ExtendsTrans(d.pages, h3.pages, s3.pages);
    var h4 := DrawHeading2(env, s3, "Output / Observations");
    Heading2Plain(env, s3, "Output / Observations");
    ExtendsTrans(d.pages, s3.pages, h4.pages);
    var s4 := DrawCodeBlock(env, h4, data.output);
    CodeBlockPlain(env, h4, data.output);
    ExtendsTrans(d.pages, h4.pages, s4.pages);
    var h5 := DrawHeading2(env, s4, "Conclusion");
    Heading2Plain(env, s4, "Conclusion");
    ExtendsTrans(d.pages, s4.pages, h5.pages);
    BodyPlain(env, h5, data.conclusion);
    ExtendsTrans(d.pages, h5.pages, DrawBody(env, h5, data.conclusion).pages);
  }

  // ---------------------------------------------------------------------------------------
  // What the sections draw

  /** A section heading: text in bold at the level-2 heading size. */
  predicate IsSectionHeading(op: DrawOp)
  {
    op.Text? && op.font == HelveticaBold && op.size == H2Size
  }

  /** The texts of the section headings among `ops`, in drawing order. */
  function Headings(ops: seq<DrawOp>): seq<string>
    decreases |ops|
  {
    if ops == [] then []
    else Headings(ops[..|ops| - 1]) + (if IsSectionHeading(ops[|ops| - 1]) then [ops[|ops| - 1].text] else [])
  }

  /** The texts drawn by `ops`, in drawing order; rectangles draw none. */
  function Texts(ops: seq<DrawOp>): seq<string>
    decreases |ops|
  {
    if ops == [] then []
    else Texts(ops[..|ops| - 1]) + (if ops[|ops| - 1].Text? then [ops[|ops| - 1].text] else [])
  }

  lemma {:induction false} HeadingsAppend(a: seq<DrawOp>, b: seq<DrawOp>)
    ensures Headings(a + b) == Headings(a) + Headings(b)
    ensures Texts(a + b) == Texts(a) + Texts(b)
    decreases |b|
  {
    AppendEmpty(a, b);
    if b != [] {
      HeadingsAppend(a, b[..|b| - 1]);
      DropLast(a, b);
    }
  }

  /** Lines drawn in a style other than the heading's show their texts and no heading. */
  lemma {:induction false} LinesTexts(env: Env, ops: seq<DrawOp>, lines: seq<string>, st: LineStyle)
    requires st.font != HelveticaBold
    requires LinesDrawn(env, ops, lines, st)
    ensures Texts(ops) == lines && Headings(ops) == []
    decreases |ops|
  {
    if ops != [] {
      var n := |ops| - 1;
      assert IsLine(ops[n], lines[n], st);
      LinesTexts(env, ops[..n], lines[..n], st);
      assert lines == lines[..n] + [lines[n]];
    }
  }

  /** One instruction shows its text, and is a heading when drawn in the heading style. */
  lemma OneOp(op: DrawOp)
    ensures Headings([op]) == (if IsSectionHeading(op) then [op.text] else [])
    ensures Texts([op]) == (if op.Text? then [op.text] else [])
  {
    assert [op][..0] == [];
  }

  /** What a heading and then a block draw, read as headings and as texts. */
  lemma HeadingThen(d: seq<Page>, h: seq<Page>, r: seq<Page>, title: string)
    requires Extends(d, h) && Extends(h, r)
    requires |Added(d, h)| == 1 && IsSectionHeading(Added(d, h)[0]) && Added(d, h)[0].text == title
    ensures Extends(d, r)
    ensures Headings(Added(d, r)) == [title] + Headings(Added(h, r))
    ensures Texts(Added(d, r)) == [title] + Texts(Added(h, r))
  {
    AddedTrans(d, h, r);
    var head := Added(d, h);
    assert head == [head[0]];
    OneOp(head[0]);
    HeadingsAppend(head, Added(h, r));
  }

  /** A heading followed by body text draws the heading and then the text's wrapped lines. */
  lemma BodySection(env: Env, d: Doc, title: string, text: string)
    requires |d.pages| > 0
    ensures var h := DrawHeading2(env, d, title);
            var r := DrawBody(env, h, text);
            && Extends(d.pages, r.pages)
            && Headings(Added(d.pages, r.pages)) == [title]
            && Texts(Added(d.pages, r.pages)) == [title] + Wrap(text, ContentWidth(env), env.measure, Helvetica, BodySize)
  {
    var h := DrawHeading2(env, d, title);
    var r := DrawBody(env, h, text);
    BodyLinesDrawn(env, h, text);
    LinesTexts(env, Added(h.pages, r.pages), Wrap(text, ContentWidth(env), env.measure, Helvetica, BodySize), BodyStyle);
    HeadingThen(d.pages, h.pages, r.pages, title);
  }

  /** A code block shows the code's wrapped lines and no heading; the box shows no text. */
  lemma CodeBlockTexts(env: Env, d: Doc, text: string)
    requires |d.pages| > 0
    ensures var r := DrawCodeBlock(env, d, text);
            && Extends(d.pages, r.pages)
            && Headings(Added(d.pages, r.pages)) == []
            && Texts(Added(d.pages, r.pages)) == CodeLines(env, text)
  {
    var r := DrawCodeBlock(env, d, text);
    if text != "" {
      var b := CodeBox(env, d, text);
      var t := PlaceLines(env, b, CodeLines(env, text), CodeStyle);
      CodeBlockAdded(env, d, text);
      CodeBoxSpec(env, d, text);
      PlaceLinesDrawn(env, b, CodeLines(env, text), CodeStyle);
      LinesTexts(env, Added(b.pages, t.pages), CodeLines(env, text), CodeStyle);
      OneOp(Added(d.pages, b.pages)[0]);
      HeadingsAppend(Added(d.pages, b.pages), Added(b.pages, t.pages));
    } else {
      assert Ops(r.pages)[|Ops(d.pages)|..] == [];
    }
  }

  /** A heading followed by a code block draws the heading, then (unless the code is empty) the
      background box and the code's wrapped lines. */
  lemma CodeSection(env: Env, d: Doc, title: string, text: string)
    requires |d.pages| > 0
    ensures var h := DrawHeading2(env, d, title);
            var r := DrawCodeBlock(env, h, text);
            && Extends(d.pages, r.pages)
            && Headings(Added(d.pages, r.pages)) == [title]
            && Texts(Added(d.pages, r.pages)) == [title] + CodeLines(env, text)
  {
    var h := DrawHeading2(env, d, title);
    var r := DrawCodeBlock(env, h, text);
    CodeBlockTexts(env, h, text);
    HeadingThen(d.pages, h.pages, r.pages, title);
  }

  /** The five sections are drawn in their fixed order: their headings are exactly "Aim",
      "Theory / Apparatus", "Code / Procedure", "Output / Observations" and "Conclusion", and the
      texts drawn are each heading followed by the wrapped lines of its field. */
  lemma SectionsSpec(env: Env, d: Doc, data: LabRecord)
    requires |d.pages| > 0
    ensures var r := Sections(env, d, data);
            && Extends(d.pages, r.pages)
            && Headings(Added(d.pages, r.pages))
               == ["Aim", "Theory / Apparatus", "Code / Procedure", "Output / Observations", "Conclusion"]
            && Texts(Added(d.pages, r.pages))
               == (["Aim"] + Wrap(data.aim, ContentWidth(env), env.measure, Helvetica, BodySize))
                  + (["Theory / Apparatus"] + Wrap(data.theory, ContentWidth(env), env.measure, Helvetica, BodySize))
                  + (["Code / Procedure"] + CodeLines(env, data.code))
                  + (["Output / Observations"] + CodeLines(env, data.output))
                  + (["Conclusion"] + Wrap(data.conclusion, ContentWidth(env), env.measure, Helvetica, BodySize))
  {
    var s1 := DrawBody(env, DrawHeading2(env, d, "Aim"), data.aim);
    var s2 := DrawBody(env, DrawHeading2(env, s1, "Theory / Apparatus"), data.theory);
    var s3 := DrawCodeBlock(env, DrawHeading2(env, s2, "Code / Procedure"), data.code);
    var s4 := DrawCodeBlock(env, DrawHeading2(env, s3, "Output / Observations"), data.output);
    var s5 := DrawBody(env, DrawHeading2(env, s4, "Conclusion"), data.conclusion);
    BodySection(env, d, "Aim", data.aim);
    BodySection(env, s1, "Theory / Apparatus", data.theory);
    CodeSection(env, s2, "Code / Procedure", data.code);
    CodeSection(env, s3, "Output / Observations", data.output);
    BodySection(env, s4, "Conclusion", data.conclusion);
    SectionsChain(d.pages, s1.pages, s2.pages, s3.pages, s4.pages, s5.pages);
    Five("Aim", "Theory / Apparatus", "Code / Procedure", "Output / Observations", "Conclusion");
  }

  /** What five successive extensions draw, read as headings and as texts, is what each draws,
      one after another. */
  lemma SectionsChain(p0: seq<Page>, p1: seq<Page>, p2: seq<Page>, p3: seq<Page>, p4: seq<Page>, p5: seq<Page>)
    requires Extends(p0, p1) && Extends(p1, p2) && Extends(p2, p3) && Extends(p3, p4) && Extends(p4, p5)
    ensures Extends(p0, p5)
    ensures Headings(Added(p0, p5)) == Headings(Added(p0, p1)) + Headings(Added(p1, p2)) + Headings(Added(p2, p3))
                                       + Headings(Added(p3, p4)) + Headings(Added(p4, p5))
    ensures Texts(Added(p0, p5)) == Texts(Added(p0, p1)) + Texts(Added(p1, p2)) + Texts(Added(p2, p3))
                                    + Texts(Added(p3, p4)) + Texts(Added(p4, p5))
  {
    AddedTrans(p0, p1, p2);
    AddedTrans(p0, p2, p3);
    AddedTrans(p0, p3, p4);
    AddedTrans(p0, p4, p5);
    HeadingsAppend(Added(p0, p1), Added(p1, p2));
    HeadingsAppend(Added(p0, p2), Added(p2, p3));
    HeadingsAppend(Added(p0, p3), Added(p3, p4));
    HeadingsAppend(Added(p0, p4), Added(p4, p5));
  }

  /** The assembled document has the title page followed by at least one content page; the
      title page is left exactly as it was drawn, and no page holds a header or footer yet. */
  lemma AssembleSpec(env: Env, data: LabRecord)
    ensures var pages := Assemble(env, data).pages;
            && |pages| >= 2
            && pages[0] == TitlePage(env, data).pages[0]
            && NoChrome(pages)
  {
    var t := TitlePage(env, data);
    var first := Layout.AddPage(ResetCursor(t));
    TitlePagePlain(env, data);
    ChromeFree(t.pages, first.pages);
    SectionsPlain(env, first, data);
  }

  // ---------------------------------------------------------------------------------------
  // Header and footer, page by page

  /** The header and footer instructions of a page, in order. */
  function ChromeOps(p: Page): seq<DrawOp>
  {
    if p == [] then []
    else (if IsChrome(p[0]) then [p[0]] else []) + ChromeOps(p[1..])
  }

  /** The other instructions of a page, in order. */
  function ContentOps(p: Page): seq<DrawOp>
  {
    if p == [] then []
    else (if IsChrome(p[0]) then [] else [p[0]]) + ContentOps(p[1..])
  }

  lemma {:induction false} ChromeOpsAppend(a: Page, b: Page)
    ensures ChromeOps(a + b) == ChromeOps(a) + ChromeOps(b)
  {
    AppendEmpty(a, b);
    if a != [] {
      ChromeOpsAppend(a[1..], b);
      DropFirst(a, b);
    }
  }

  lemma {:induction false} ContentOpsAppend(a: Page, b: Page)
    ensures ContentOps(a + b) == ContentOps(a) + ContentOps(b)
  {
    AppendEmpty(a, b);
    if a != [] {
      ContentOpsAppend(a[1..], b);
      DropFirst(a, b);
    }
  }

  lemma {:induction false} SplitOpsPlain(p: Page)
    requires forall i :: 0 <= i < |p| ==> !IsChrome(p[i])
    ensures ChromeOps(p) == [] && ContentOps(p) == p
  {
    if p != [] {
      SplitOpsPlain(p[1..]);
      assert [p[0]] + p[1..] == p;
    }
  }

  lemma StampsAreChrome(h: DrawOp, f: DrawOp)
    requires IsChrome(h) && IsChrome(f)
    ensures ChromeOps([h, f]) == [h, f] && ContentOps([h, f]) == []
  {
    assert [h, f][1..] == [f] && [f][1..] == [];
    assert ChromeOps([f]) == [f] && ContentOps([f]) == [];
  }

  /** Every instruction of a page is an instruction of the document. */
  lemma {:induction false} PageInOps(pages: seq<Page>, k: nat, j: nat)
    requires k < |pages| && j < |pages[k]|
    ensures pages[k][j] in Ops(pages)
    decreases |pages|
  {
    var n := |pages| - 1;
    if k < n {
      PageInOps(pages[..n], k, j);
    } else {
      assert Ops(pages) == Ops(pages[..n]) + pages[n];
    }
  }

  /** The header/footer pass adds the header and the footer, in that order, to every page after the first and to
      no other; removing them gives every page back as it was. */
  lemma StampChrome(env: Env, data: LabRecord, pages: seq<Page>)
    requires NoChrome(pages)
    ensures var pdf := Stamp(env, data, pages);
            && |pdf| == |pages|
            && (|pdf| > 0 ==> pdf[0] == pages[0] && ChromeOps(pdf[0]) == [])
            && (forall i :: 1 <= i < |pdf| ==> ChromeOps(pdf[i]) == [Header(env, data), Footer(env, i, |pdf|)])
            && (forall i :: 0 <= i < |pdf| ==> ContentOps(pdf[i]) == pages[i])
  {
    var pdf := Stamp(env, data, pages);
    forall i | 0 <= i < |pages|
      ensures ChromeOps(pdf[i]) == (if i == 0 then [] else [Header(env, data), Footer(env, i, |pdf|)])
      ensures ContentOps(pdf[i]) == pages[i]
    {
      forall j | 0 <= j < |pages[i]|
        ensures !IsChrome(pages[i][j])
      {
        PageInOps(pages, i, j);
      }
      SplitOpsPlain(pages[i]);
      if i > 0 {
        var stamps := [Header(env, data), Footer(env, i, |pdf|)];
        ChromeOpsAppend(pages[i], stamps);
        ContentOpsAppend(pages[i], stamps);
        StampsAreChrome(Header(env, data), Footer(env, i, |pdf|));
      }
    }
  }

  /** A heading followed by empty body text, with room for both: no page is added and the
      cursor moves by 54. */
  lemma EmptyBodySection(env: Env, d: Doc, title: string)
    requires |d.pages| > 0 && Fits(env, d.y, 72)
    ensures var r := DrawBody(env, DrawHeading2(env, d, title), "");
            |r.pages| == |d.pages| && r.y == d.y + 54
  {
    var h := DrawHeading2(env, d, title);
    BodySpec(env, h, "");
  }

  /** A heading followed by an empty code block, with room for the heading: no page is added
      and the cursor moves by 54. */
  lemma EmptyCodeSection(env: Env, d: Doc, title: string)
    requires |d.pages| > 0 && Fits(env, d.y, 48)
    ensures var r := DrawCodeBlock(env, DrawHeading2(env, d, title), "");
            |r.pages| == |d.pages| && r.y == d.y + 54
  {
    CodeBlockSpec(env, DrawHeading2(env, d, title), "");
  }

  /** The five sections of a record without content take 270 below the cursor and no new page. */
  lemma EmptySections(env: Env, d: Doc, data: LabRecord)
    requires data.aim == "" && data.theory == "" && data.code == "" && data.output == "" && data.conclusion == ""
    requires |d.pages| > 0 && Fits(env, d.y, 288)
    ensures var r := Sections(env, d, data);
            |r.pages| == |d.pages| && r.y == d.y + 270
  {
    var s1 := DrawBody(env, DrawHeading2(env, d, "Aim"), data.aim);
    EmptyBodySection(env, d, "Aim");
    var s2 := DrawBody(env, DrawHeading2(env, s1, "Theory / Apparatus"), data.theory);
    EmptyBodySection(env, s1, "Theory / Apparatus");
    var s3 := DrawCodeBlock(env, DrawHeading2(env, s2, "Code / Procedure"), data.code);
    EmptyCodeSection(env, s2, "Code / Procedure");
    var s4 := DrawCodeBlock(env, DrawHeading2(env, s3, "Output / Observations"), data.output);
    EmptyCodeSection(env, s3, "Output / Observations");
    EmptyBodySection(env, s4, "Conclusion");
  }

  /** A record with every content field empty fits on one content page when the page is at
      least 432 high: the document has two pages, and the second ends with the header and the
      footer "Page 2 of 2". */
  lemma EmptyRecordTwoPages(env: Env, data: LabRecord)
    requires data.aim == "" && data.theory == "" && data.code == "" && data.output == "" && data.conclusion == ""
    requires env.pageHeight >= 432.0
    ensures var pages := Assemble(env, data).pages;
            var pdf := Stamp(env, data, pages);
            && |pdf| == 2
            && pdf[1] == pages[1] + [Header(env, data), Footer(env, 1, 2)]
            && Footer(env, 1, 2).text == "Page 2 of 2"
  {
    var first := Layout.AddPage(ResetCursor(TitlePage(env, data)));
    EmptySections(env, first, data);
    var pages := Assemble(env, data).pages;
    assert |pages| == 2;
    StampedSecondPage(env, data, pages);
    SecondOfTwo();
  }

  /** Stamping a two-page document adds the header and the footer of page 2 of 2 to its second page. */
  lemma StampedSecondPage(env: Env, data: LabRecord, pages: seq<Page>)
    requires |pages| == 2
    ensures var pdf := Stamp(env, data, pages);
            |pdf| == 2 && pdf[1] == pages[1] + [Header(env, data), Footer(env, 1, 2)]
  {
  }

  /** The label of the second of two pages. */
  lemma SecondOfTwo()
    ensures PageLabel(1, 2) == "Page 2 of 2"
  {
    assert NatToString(2) == [DigitChar(2)] == "2";
  }

  /** `createPdf(data)`: the pages of the finished document. The fonts' metrics and the page
      size are `env`; serialising the pages to bytes is not modelled. */
  method CreatePdf(env: Env, data: LabRecord) returns (pdf: seq<Page>)
    ensures pdf == Stamp(env, data, Assemble(env, data).pages)
  {
    var draw := new TextDrawer(env);
    DrawTitlePage(draw, data);
    ghost var title := draw.State();
    draw.ResetCursor();
    draw.AddPage();
    ghost var first := draw.State();
    DrawSections(draw, data);
    AssembleSteps(env, data, title, first, draw.State());
    pdf := StampPages(env, data, draw.pages);
  }

  /** The title page and the content sections, taken one call at a time, make `Assemble`. */
  lemma AssembleSteps(env: Env, data: LabRecord, title: Doc, first: Doc, r: Doc)
    requires title == TitlePage(env, data)
    requires first == Layout.AddPage(ResetCursor(title))
    requires r == Sections(env, first, data)
    ensures r == Assemble(env, data)
  {
  }

  /** The loop of the header/footer pass: every page but the first gets the header, then the footer. */
  method StampPages(env: Env, data: LabRecord, doc: seq<Page>) returns (pdf: seq<Page>)
    ensures pdf == Stamp(env, data, doc)
  {
    pdf := doc;
    var pageCount := |pdf|;
    for i := 0 to pageCount
      invariant |pdf| == pageCount
      invariant forall k :: 0 <= k < i ==> pdf[k] == StampPage(env, data, doc, k)
      invariant forall k :: i <= k < pageCount ==> pdf[k] == doc[k]
    {
      if i == 0 {
        continue;
      }
      pdf := pdf[i := pdf[i] + [Header(env, data)]];
      pdf := pdf[i := pdf[i] + [Footer(env, i, pageCount)]];
    }
  }

  /** The title page, drawn on the drawer. */
  method DrawTitlePage(draw: TextDrawer, data: LabRecord)
    requires draw.pages == [] && draw.y == 0
    modifies draw
    ensures draw.State() == TitlePage(draw.env, data)
  {
    draw.AddPage();
    draw.DrawTitle(data.collegeName, 250);
    draw.DrawTitle(data.subject, 300);
    draw.DrawHeading1("Aim: " + data.aim, 350);
    draw.DrawText("Submitted by:", 40.0, 680, HelveticaBold, H2Size, HeadingColor);
    draw.DrawText(data.studentName, 40.0, 700, Helvetica, BodySize, BodyColor);
    draw.DrawText(data.rollNumber, 40.0, 720, Helvetica, BodySize, BodyColor);
  }

  /** The content sections after their first page, drawn on the drawer. */
  method DrawSections(draw: TextDrawer, data: LabRecord)
    requires |draw.pages| > 0
    modifies draw
    ensures draw.State() == Sections(draw.env, old(draw.State()), data)
  {
    draw.DrawHeading2("Aim");
    draw.DrawBody(data.aim);
    draw.DrawHeading2("Theory / Apparatus");
    draw.DrawBody(data.theory);
    draw.DrawHeading2("Code / Procedure");
    draw.DrawCodeBlock(data.code);
    draw.DrawHeading2("Output / Observations");
    draw.DrawCodeBlock(data.output);
    draw.DrawHeading2("Conclusion");
    draw.DrawBody(data.conclusion);
  }
}
