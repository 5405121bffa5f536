/** The document and page cursor of `TextDrawer`, and each of its operations as a function from
    the drawer's state before the call to its state after. Positions handed to the drawing
    primitive are measured from the bottom of the page, as in PDF; the cursor `y` is the
    distance from the top. */
module Layout {
  import opened Style
  import opened Seqs
  import opened Wrapper

  /** One drawing instruction on a page: a run of text or a filled rectangle. */
  datatype DrawOp =
    | Text(text: string, x: real, y: real, font: Font, size: nat, color: Color)
    | Rect(x: real, y: real, width: real, height: real, color: Color)

  type Page = seq<DrawOp>

  /** The page size (every page has the document's default size) and the font metrics. */
  datatype Env = Env(pageWidth: real, pageHeight: real, measure: Measure)

  /** The drawer's state: the document's pages, the last of which is the current page, and the
      cursor `y`, the distance from the top of the current page already used. */
  datatype Doc = Doc(pages: seq<Page>, y: int)

  /** The bottom-based coordinate of a point `top` units below the top of the page. */
  function Flip(env: Env, top: int): real
  {
    env.pageHeight - top as real
  }

  /** Content of height `h` starting `y` below the top stays above the bottom margin. */
  predicate Fits(env: Env, y: int, h: int)
  {
    (y + h) as real <= env.pageHeight - Margin as real
  }

  /** The usable line width between the left and right margins. */
  function ContentWidth(env: Env): real
  {
    env.pageWidth - (Margin * 2) as real
  }

  /** The usable width inside a code block, inset 10 further on each side. */
  function CodeWidth(env: Env): real
  {
    env.pageWidth - ((Margin + 10) * 2) as real
  }

  /** The x at which `s` is horizontally centred on the page. */
  function Centred(env: Env, s: string, font: Font, size: nat): real
  {
    (env.pageWidth - env.measure(s, font, size)) / 2.0
  }

  // ---------------------------------------------------------------------------------------
  // Pages only grow

  /** All instructions of the document, page after page. */
  function Ops(pages: seq<Page>): seq<DrawOp>
    decreases |pages|
  {
    if pages == [] then [] else Ops(pages[..|pages| - 1]) + pages[|pages| - 1]
  }

  /** `b` is `a` after further drawing: the pages of `a` before its current page are untouched,
      its current page has only had instructions appended, and pages may have been added. */
  predicate Extends(a: seq<Page>, b: seq<Page>)
  {
    && |a| <= |b|
    && (forall i :: 0 <= i < |a| - 1 ==> b[i] == a[i])
    && (|a| > 0 ==> a[|a| - 1] <= b[|a| - 1])
  }

  lemma {:induction false} OpsAppend(a: seq<Page>, b: seq<Page>)
    ensures Ops(a + b) == Ops(a) + Ops(b)
    decreases |b|
  {
    AppendEmpty(a, b);
    if b != [] {
      OpsAppend(a, b[..|b| - 1]);
      DropLast(a, b);
    }
  }

  /** Drawing only appends to the sequence of all instructions. */
  lemma ExtendsOps(a: seq<Page>, b: seq<Page>)
    requires Extends(a, b)
    ensures Ops(a) <= Ops(b)
  {
    if a != [] {
      var k := |a| - 1;
      assert a == a[..k] + [a[k]];
      assert b == b[..k] + [b[k]] + b[k + 1..];
      assert a[..k] == b[..k];
      OpsAppend(a[..k], [a[k]]);
      OpsAppend(b[..k] + [b[k]], b[k + 1..]);
      OpsAppend(b[..k], [b[k]]);
      assert [a[k]][..0] == [] && [b[k]][..0] == [];
    }
  }

  lemma ExtendsTrans(a: seq<Page>, b: seq<Page>, c: seq<Page>)
    requires Extends(a, b) && Extends(b, c)
    ensures Extends(a, c)
  {
    if |a| > 0 && |a| < |b| {
      assert b[|a| - 1] == a[|a| - 1] || |a| - 1 < |b| - 1;
    }
  }

  /** The instructions drawn on the way from `a` to `b`, in drawing order. */
  function Added(a: seq<Page>, b: seq<Page>): seq<DrawOp>
    requires Extends(a, b)
  {
    ExtendsOps(a, b);
    Ops(b)[|Ops(a)|..]
  }

  lemma AddedTrans(a: seq<Page>, b: seq<Page>, c: seq<Page>)
    requires Extends(a, b) && Extends(b, c)
    ensures Extends(a, c) && Added(a, c) == Added(a, b) + Added(b, c)
  {
    ExtendsTrans(a, b, c);
    ExtendsOps(a, b);
    ExtendsOps(b, c);
  }

  /** Header and footer instructions: text in the header/footer colour. */
  predicate IsChrome(op: DrawOp)
  {
    op.Text? && op.color == HeaderFooterColor
  }

  /** No page holds a header or footer instruction. */
  predicate NoChrome(pages: seq<Page>)
  {
    forall op :: op in Ops(pages) ==> !IsChrome(op)
  }

  lemma ChromeFree(a: seq<Page>, b: seq<Page>)
    requires Extends(a, b) && NoChrome(a)
    requires forall op :: op in Added(a, b) ==> !IsChrome(op)
    ensures NoChrome(b)
  {
    ExtendsOps(a, b);
    assert Ops(b) == Ops(a) + Added(a, b);
  }

  /** Every page of `b` beyond those of `a` opens with an instruction at the top margin. */
  predicate OpenAtTop(env: Env, a: seq<Page>, b: seq<Page>)
  {
    forall j :: |a| <= j < |b| ==> b[j] != [] && b[j][0].y == env.pageHeight - Margin as real
  }

  lemma OpenAtTopTrans(env: Env, a: seq<Page>, b: seq<Page>, c: seq<Page>)
    requires Extends(a, b) && Extends(b, c)
    requires OpenAtTop(env, a, b) && OpenAtTop(env, b, c)
    ensures OpenAtTop(env, a, c)
  {
    forall j | |a| <= j < |c|
      ensures c[j] != [] && c[j][0].y == env.pageHeight - Margin as real
    {
      if j < |b| {
        assert b[j] <= c[j];
        assert c[j][0] == b[j][0];
      }
    }
  }

  // ---------------------------------------------------------------------------------------
  // The page cursor

  /** Draw `op` on the current page (`currentPage.drawText` / `drawRectangle`). */
  function Emit(d: Doc, op: DrawOp): (r: Doc)
    requires |d.pages| > 0
    ensures |r.pages| == |d.pages| && r.y == d.y
    ensures Extends(d.pages, r.pages) && Added(d.pages, r.pages) == [op]
    ensures r.pages[..|d.pages| - 1] == d.pages[..|d.pages| - 1] && r.pages[|d.pages| - 1] == d.pages[|d.pages| - 1] + [op]
  {
    var n := |d.pages| - 1;
    var pages := d.pages[..n] + [d.pages[n] + [op]];
    assert pages[..n] == d.pages[..n];
    assert d.pages == d.pages[..n] + [d.pages[n]];
    Doc(pages, d.y)
  }

  /** `addPage`: a fresh empty page becomes current and the cursor moves to the top margin. */
  function AddPage(d: Doc): (r: Doc)
    ensures |r.pages| == |d.pages| + 1 && r.pages[|d.pages|] == [] && r.y == Margin
    ensures Extends(d.pages, r.pages) && Added(d.pages, r.pages) == []
  {
    var r := Doc(d.pages + [[]], Margin);
    assert r.pages[..|d.pages|] == d.pages;
    r
  }

  /** `resetCursor`: the cursor goes back to 0; no page is touched. */
  function ResetCursor(d: Doc): (r: Doc)
    ensures r.pages == d.pages && r.y == 0
  {
    d.(y := 0)
  }

  /** `_checkPageBreak(h)`: start a new page when content of height `h` would cross the bottom
      margin. Either nothing changes, or exactly one empty page is appended and the cursor sits
      at the top margin; in both cases the content now fits or starts a fresh page. */
  function CheckPageBreak(env: Env, d: Doc, h: int): (r: Doc)
    requires |d.pages| > 0
    ensures Extends(d.pages, r.pages) && Added(d.pages, r.pages) == []
    ensures Fits(env, d.y, h) ==> r == d
    ensures !Fits(env, d.y, h) ==> |r.pages| == |d.pages| + 1 && r.pages[|d.pages|] == [] && r.y == Margin
    ensures Fits(env, r.y, h) || r.y == Margin
  {
    if (d.y + h) as real > env.pageHeight - Margin as real then AddPage(d) else d
  }

  // ---------------------------------------------------------------------------------------
  // Absolute placements: the cursor is never consulted nor moved

  /** `drawText(text, x, y, options)`: one run of text `top` below the top of the current page. */
  function DrawText(env: Env, d: Doc, text: string, x: real, top: int, font: Font, size: nat, color: Color): (r: Doc)
    requires |d.pages| > 0
    ensures r.y == d.y && |r.pages| == |d.pages| && Extends(d.pages, r.pages)
    ensures Added(d.pages, r.pages) == [Text(text, x, env.pageHeight - top as real, font, size, color)]
  {
    Emit(d, Text(text, x, Flip(env, top), font, size, color))
  }

  /** `drawTitle(text, yPos)`: one centred title line at the absolute position `yPos`. */
  function DrawTitle(env: Env, d: Doc, text: string, yPos: int): (r: Doc)
    requires |d.pages| > 0
    ensures r.y == d.y && |r.pages| == |d.pages| && Extends(d.pages, r.pages)
    ensures Added(d.pages, r.pages) ==
      [Text(text, Centred(env, text, HelveticaBold, TitleSize), env.pageHeight - yPos as real,
            HelveticaBold, TitleSize, TitleColor)]
  {
    Emit(d, Text(text, Centred(env, text, HelveticaBold, TitleSize), Flip(env, yPos), HelveticaBold, TitleSize, TitleColor))
  }

  /** The instruction for a heading-1 line `top` below the top of the page, centred: the middle
      of the line is the middle of the page. */
  function Heading1Op(env: Env, line: string, top: int): (r: DrawOp)
    ensures r.Text? && r.text == line && r.y == env.pageHeight - top as real
    ensures r.x + env.measure(line, Helvetica, H1Size) / 2.0 == env.pageWidth / 2.0
  {
    Text(line, Centred(env, line, Helvetica, H1Size), Flip(env, top), Helvetica, H1Size, HeadingColor)
  }

  /** The loop of `drawHeading1`: line `i` goes `HeadingLineHeight * i` below `yPos`. */
  function Heading1Lines(env: Env, d: Doc, lines: seq<string>, yPos: int): (r: Doc)
    requires |d.pages| > 0
    ensures |r.pages| == |d.pages|
    decreases |lines|
  {
    if lines == [] then d
    else
      var n := |lines| - 1;
      Emit(Heading1Lines(env, d, lines[..n], yPos), Heading1Op(env, lines[n], yPos + HeadingLineHeight * n))
  }

  /** One more heading line is one more step of the loop. */
  lemma Heading1LinesSnoc(env: Env, d: Doc, lines: seq<string>, i: nat, yPos: int, top: int, prev: Doc, op: DrawOp, next: Doc)
    requires |d.pages| > 0 && i < |lines|
    requires prev == Heading1Lines(env, d, lines[..i], yPos)
    requires top == yPos + HeadingLineHeight * i && op == Heading1Op(env, lines[i], top)
    requires next == Emit(prev, op)
    ensures next == Heading1Lines(env, d, lines[..i + 1], yPos)
  {
    TakeSnoc(lines, i);
  }

  /** `drawHeading1(text, yPos)`: the text wrapped to the content width, each line centred. */
  function DrawHeading1(env: Env, d: Doc, text: string, yPos: int): (r: Doc)
    requires |d.pages| > 0
    ensures |r.pages| == |d.pages|
  {
    Heading1Lines(env, d, Wrap(text, ContentWidth(env), env.measure, Helvetica, H1Size), yPos)
  }

  lemma {:induction false} Heading1LinesPlacement(env: Env, d: Doc, lines: seq<string>, yPos: int)
    requires |d.pages| > 0
    ensures var r := Heading1Lines(env, d, lines, yPos);
            && r.y == d.y && Extends(d.pages, r.pages)
            && |Added(d.pages, r.pages)| == |lines|
            && forall i :: 0 <= i < |lines| ==>
                 Added(d.pages, r.pages)[i] == Heading1Op(env, lines[i], yPos + HeadingLineHeight * i)
    decreases |lines|
  {
    if lines != [] {
      var n := |lines| - 1;
      var p := Heading1Lines(env, d, lines[..n], yPos);
      Heading1LinesPlacement(env, d, lines[..n], yPos);
      var op := Heading1Op(env, lines[n], yPos + HeadingLineHeight * n);
      var r := Emit(p, op);
      AddedTrans(d.pages, p.pages, r.pages);
      var before := Added(d.pages, p.pages);
      assert |before| == n;
      forall i | 0 <= i < |lines|
        ensures (before + [op])[i] == Heading1Op(env, lines[i], yPos + HeadingLineHeight * i)
      {
        if i < n {
          assert (before + [op])[i] == before[i] && lines[..n][i] == lines[i];
        } else {
          assert (before + [op])[i] == op;
        }
      }
    }
  }

  /** `drawHeading1` never moves the cursor nor adds a page; wrapped line `i` is drawn, centred,
      `yPos + 24 * i` below the top of the current page. */
  lemma Heading1Placement(env: Env, d: Doc, text: string, yPos: int)
    requires |d.pages| > 0
    ensures var r := DrawHeading1(env, d, text, yPos);
            var lines := Wrap(text, ContentWidth(env), env.measure, Helvetica, H1Size);
            && r.y == d.y && |r.pages| == |d.pages| && Extends(d.pages, r.pages)
            && |Added(d.pages, r.pages)| == |lines|
            && forall i :: 0 <= i < |lines| ==>
                 Added(d.pages, r.pages)[i] ==
                   Text(lines[i], Centred(env, lines[i], Helvetica, H1Size),
                        env.pageHeight - (yPos + 24 * i) as real, Helvetica, H1Size, HeadingColor)
  {
    var lines := Wrap(text, ContentWidth(env), env.measure, Helvetica, H1Size);
    var r := Heading1Lines(env, d, lines, yPos);
    Heading1LinesPlacement(env, d, lines, yPos);
    Heading1OpsText(env, Added(d.pages, r.pages), lines, yPos);
  }

  /** Heading-1 instructions written out. */
  lemma Heading1OpsText(env: Env, ops: seq<DrawOp>, lines: seq<string>, yPos: int)
    requires |ops| == |lines|
    requires forall i :: 0 <= i < |lines| ==> ops[i] == Heading1Op(env, lines[i], yPos + HeadingLineHeight * i)
    ensures forall i :: 0 <= i < |lines| ==>
              ops[i] == Text(lines[i], Centred(env, lines[i], Helvetica, H1Size),
                             env.pageHeight - (yPos + 24 * i) as real, Helvetica, H1Size, HeadingColor)
  {
  }

  // ---------------------------------------------------------------------------------------
  // Cursor-driven blocks

  /** `drawHeading2(text)`: make room for two heading lines, leave a gap of 36, draw the heading
      at the left margin, then leave one body line. Without a page break the cursor advances by
      exactly 54; after one it stands 54 below the top margin of the new page. */
  function DrawHeading2(env: Env, d: Doc, text: string): (r: Doc)
    requires |d.pages| > 0
    ensures Extends(d.pages, r.pages)
    ensures Added(d.pages, r.pages) ==
      [Text(text, Margin as real, env.pageHeight - (r.y - BodyLineHeight) as real, HelveticaBold, H2Size, HeadingColor)]
    ensures Fits(env, d.y, HeadingLineHeight * 2) ==> |r.pages| == |d.pages| && r.y == d.y + 54
    ensures !Fits(env, d.y, HeadingLineHeight * 2) ==> |r.pages| == |d.pages| + 1 && r.y == Margin + 54
    ensures Fits(env, d.y, HeadingLineHeight * 2) ==>
              r.pages == d.pages[..|d.pages| - 1] + [d.pages[|d.pages| - 1] + Added(d.pages, r.pages)]
    ensures !Fits(env, d.y, HeadingLineHeight * 2) ==> r.pages == d.pages + [Added(d.pages, r.pages)]
  {
    var c := CheckPageBreak(env, d, HeadingLineHeight * 2);
    var top := c.y + HeadingGap;
    var e := Emit(c.(y := top), Text(text, Margin as real, Flip(env, top), HelveticaBold, H2Size, HeadingColor));
    AddedTrans(d.pages, c.pages, e.pages);
    assert e.pages == c.pages[..|c.pages| - 1] + [c.pages[|c.pages| - 1] + Added(d.pages, e.pages)];
    e.(y := top + BodyLineHeight)
  }

  /** How a run of wrapped lines is set: x position, font, size, colour and line height. */
  datatype LineStyle = LineStyle(x: real, font: Font, size: nat, color: Color, lineHeight: int)

  const BodyStyle: LineStyle := LineStyle(Margin as real, Helvetica, BodySize, BodyColor, BodyLineHeight)
  const CodeStyle: LineStyle := LineStyle((Margin + 10) as real, Courier, CodeSize, CodeTextColor, CodeLineHeight)

  /** `op` draws `line` in style `st`. */
  predicate IsLine(op: DrawOp, line: string, st: LineStyle)
  {
    op.Text? && op.text == line && op.x == st.x && op.font == st.font && op.size == st.size && op.color == st.color
  }

  /** `op` sits at least a line above the bottom margin, or at the top margin of its page. */
  predicate AboveBottom(env: Env, op: DrawOp, lineHeight: int)
  {
    op.y >= (Margin + lineHeight) as real || op.y == env.pageHeight - Margin as real
  }

  /** One iteration of the line loops of `drawBody` and `drawCodeBlock`: check for a page
      break, draw the line at the cursor, advance by one line height. */
  function PlaceLine(env: Env, d: Doc, line: string, st: LineStyle): (r: Doc)
    requires |d.pages| > 0
    ensures |r.pages| >= |d.pages|
  {
    var c := CheckPageBreak(env, d, st.lineHeight);
    var e := Emit(c, Text(line, st.x, Flip(env, c.y), st.font, st.size, st.color));
    e.(y := c.y + st.lineHeight)
  }

  /** The line loops of `drawBody` and `drawCodeBlock`. */
  function PlaceLines(env: Env, d: Doc, lines: seq<string>, st: LineStyle): (r: Doc)
    requires |d.pages| > 0
    ensures |r.pages| >= |d.pages|
    decreases |lines|
  {
    if lines == [] then d
    else PlaceLine(env, PlaceLines(env, d, lines[..|lines| - 1], st), lines[|lines| - 1], st)
  }

  /** One more line is one more step of the loop. */
  lemma PlaceLinesSnoc(env: Env, d: Doc, lines: seq<string>, i: nat, st: LineStyle)
    requires |d.pages| > 0 && i < |lines|
    ensures PlaceLines(env, d, lines[..i + 1], st) == PlaceLine(env, PlaceLines(env, d, lines[..i], st), lines[i], st)
  {
    assert lines[..i + 1][..i] == lines[..i];
  }

  /** The three statements of a loop iteration, taken one at a time, make one `PlaceLine`. */
  lemma PlaceLineSteps(env: Env, d: Doc, checked: Doc, drawn: Doc, r: Doc, line: string, st: LineStyle)
    requires |d.pages| > 0
    requires checked == CheckPageBreak(env, d, st.lineHeight)
    requires drawn == Emit(checked, Text(line, st.x, env.pageHeight - checked.y as real, st.font, st.size, st.color))
    requires r == Doc(drawn.pages, checked.y + st.lineHeight)
    ensures r == PlaceLine(env, d, line, st)
  {
  }

  lemma PlaceLineSpec(env: Env, d: Doc, line: string, st: LineStyle)
    requires |d.pages| > 0
    ensures var r := PlaceLine(env, d, line, st);
            && Extends(d.pages, r.pages)
            && |Added(d.pages, r.pages)| == 1
            && IsLine(Added(d.pages, r.pages)[0], line, st)
            && AboveBottom(env, Added(d.pages, r.pages)[0], st.lineHeight)
            && Added(d.pages, r.pages)[0].y == env.pageHeight - CheckPageBreak(env, d, st.lineHeight).y as real
            && (|r.pages| == |d.pages| ==> r.y == d.y + st.lineHeight)
            && (|r.pages| != |d.pages| ==> |r.pages| == |d.pages| + 1 && r.y == Margin + st.lineHeight)
            && (Fits(env, d.y, st.lineHeight) ==>
                  r.pages == d.pages[..|d.pages| - 1] + [d.pages[|d.pages| - 1] + Added(d.pages, r.pages)])
            && (!Fits(env, d.y, st.lineHeight) ==> r.pages == d.pages + [Added(d.pages, r.pages)])
            && OpenAtTop(env, d.pages, r.pages)
  {
    var c := CheckPageBreak(env, d, st.lineHeight);
    var e := Emit(c, Text(line, st.x, Flip(env, c.y), st.font, st.size, st.color));
    AddedTrans(d.pages, c.pages, e.pages);
    assert e.pages == c.pages[..|c.pages| - 1] + [c.pages[|c.pages| - 1] + Added(d.pages, e.pages)];
  }

  /** `ops` draw `lines`, one instruction per line, in order, each in style `st` and clear of
      the bottom margin. */
  predicate LinesDrawn(env: Env, ops: seq<DrawOp>, lines: seq<string>, st: LineStyle)
  {
    && |ops| == |lines|
    && forall i :: 0 <= i < |lines| ==> IsLine(ops[i], lines[i], st) && AboveBottom(env, ops[i], st.lineHeight)
  }

  /** Lines drawn one after another: the ops for all but the last line, then one op for it. */
  lemma LinesDrawnSnoc(env: Env, ops: seq<DrawOp>, op: DrawOp, lines: seq<string>, st: LineStyle)
    requires |lines| > 0
    requires LinesDrawn(env, ops, lines[..|lines| - 1], st)
    requires IsLine(op, lines[|lines| - 1], st) && AboveBottom(env, op, st.lineHeight)
    ensures LinesDrawn(env, ops + [op], lines, st)
  {
    forall i | 0 <= i < |lines|
      ensures IsLine((ops + [op])[i], lines[i], st) && AboveBottom(env, (ops + [op])[i], st.lineHeight)
    {
      if i < |ops| {
        assert (ops + [op])[i] == ops[i] && lines[..|lines| - 1][i] == lines[i];
      }
    }
  }

  lemma {:induction false} PlaceLinesExtends(env: Env, d: Doc, lines: seq<string>, st: LineStyle)
    requires |d.pages| > 0
    ensures Extends(d.pages, PlaceLines(env, d, lines, st).pages)
    decreases |lines|
  {
    if lines != [] {
      var n := |lines| - 1;
      var p := PlaceLines(env, d, lines[..n], st);
      PlaceLinesExtends(env, d, lines[..n], st);
      PlaceLineSpec(env, p, lines[n], st);
      ExtendsTrans(d.pages, p.pages, PlaceLine(env, p, lines[n], st).pages);
    }
  }

  /** One instruction per line, in order, each in style `st` and clear of the bottom margin;
      without a page break the cursor advances by exactly one line height per line. */
  lemma {:induction false} PlaceLinesDrawn(env: Env, d: Doc, lines: seq<string>, st: LineStyle)
    requires |d.pages| > 0
    ensures Extends(d.pages, PlaceLines(env, d, lines, st).pages)
    ensures LinesDrawn(env, Added(d.pages, PlaceLines(env, d, lines, st).pages), lines, st)
    decreases |lines|
  {
    PlaceLinesExtends(env, d, lines, st);
    if lines != [] {
      var n := |lines| - 1;
      var p := PlaceLines(env, d, lines[..n], st);
      var r := PlaceLine(env, p, lines[n], st);
      PlaceLinesDrawn(env, d, lines[..n], st);
      PlaceLineSpec(env, p, lines[n], st);
      AddedTrans(d.pages, p.pages, r.pages);
      var op := Added(p.pages, r.pages)[0];
      assert Added(p.pages, r.pages) == [op];
      LinesDrawnSnoc(env, Added(d.pages, p.pages), op, lines, st);
    }
  }

  /** `a * (n + 1)` unfolded, kept apart so that the cursor induction below stays linear. */
  lemma MulSucc(a: int, n: int)
    ensures a * (n + 1) == a * n + a
  {
  }

  /** Without a page break, one line advances the cursor by one line height. */
  lemma PlaceLineCursor(env: Env, d: Doc, line: string, st: LineStyle)
    requires |d.pages| > 0
    ensures var r := PlaceLine(env, d, line, st);
            |r.pages| == |d.pages| ==> r.y == d.y + st.lineHeight
  {
  }

  /** Without a page break, the line loop advances the cursor by one line height per line. */
  lemma {:induction false} PlaceLinesCursor(env: Env, d: Doc, lines: seq<string>, st: LineStyle)
    requires |d.pages| > 0
    ensures |PlaceLines(env, d, lines, st).pages| == |d.pages| ==>
              PlaceLines(env, d, lines, st).y == d.y + st.lineHeight * |lines|
    decreases |lines|
  {
    if lines != [] {
      var n := |lines| - 1;
      var p := PlaceLines(env, d, lines[..n], st);
      var r := PlaceLine(env, p, lines[n], st);
      PlaceLinesCursor(env, d, lines[..n], st);
      PlaceLineCursor(env, p, lines[n], st);
      MulSucc(st.lineHeight, n);
    }
  }

  /** `ops` stand one line height apart, the first `top` below the top of the page. */
  predicate LinesAt(env: Env, ops: seq<DrawOp>, top: int, lineHeight: int)
  {
    forall i :: 0 <= i < |ops| ==> ops[i].y == env.pageHeight - (top + lineHeight * i) as real
  }

  /** One more line one line height further down. */
  lemma LinesAtSnoc(env: Env, ops: seq<DrawOp>, op: DrawOp, top: int, lineHeight: int)
    requires LinesAt(env, ops, top, lineHeight)
    requires op.y == env.pageHeight - (top + lineHeight * |ops|) as real
    ensures LinesAt(env, ops + [op], top, lineHeight)
  {
    forall i | 0 <= i < |ops| + 1
      ensures (ops + [op])[i].y == env.pageHeight - (top + lineHeight * i) as real
    {
      if i < |ops| {
        assert (ops + [op])[i] == ops[i];
      }
    }
  }

  /** Without a page break, line `i` of the loop is drawn `lineHeight * i` below the cursor the
      loop started from. */
  lemma {:induction false} PlaceLinesAt(env: Env, d: Doc, lines: seq<string>, st: LineStyle)
    requires |d.pages| > 0
    ensures Extends(d.pages, PlaceLines(env, d, lines, st).pages)
    ensures |Added(d.pages, PlaceLines(env, d, lines, st).pages)| == |lines|
    ensures |PlaceLines(env, d, lines, st).pages| == |d.pages| ==>
              LinesAt(env, Added(d.pages, PlaceLines(env, d, lines, st).pages), d.y, st.lineHeight)
    decreases |lines|
  {
    PlaceLinesExtends(env, d, lines, st);
    if lines != [] {
      var n := |lines| - 1;
      var p := PlaceLines(env, d, lines[..n], st);
      var r := PlaceLine(env, p, lines[n], st);
      PlaceLinesAt(env, d, lines[..n], st);
      PlaceLineSpec(env, p, lines[n], st);
      AddedTrans(d.pages, p.pages, r.pages);
      var op := Added(p.pages, r.pages)[0];
      assert Added(p.pages, r.pages) == [op];
      if |r.pages| == |d.pages| {
        PlaceLinesCursor(env, d, lines[..n], st);
        LinesAtSnoc(env, Added(d.pages, p.pages), op, d.y, st.lineHeight);
      }
    }
  }

  /** Every page the line loop adds is non-empty and opens with an instruction at the top
      margin: the line whose page-break check started it. */
  lemma {:induction false} PlaceLinesOpenAtTop(env: Env, d: Doc, lines: seq<string>, st: LineStyle)
    requires |d.pages| > 0
    ensures Extends(d.pages, PlaceLines(env, d, lines, st).pages)
    ensures OpenAtTop(env, d.pages, PlaceLines(env, d, lines, st).pages)
    decreases |lines|
  {
    PlaceLinesExtends(env, d, lines, st);
    if lines != [] {
      var n := |lines| - 1;
      var p := PlaceLines(env, d, lines[..n], st);
      PlaceLinesOpenAtTop(env, d, lines[..n], st);
      PlaceLineSpec(env, p, lines[n], st);
      OpenAtTopTrans(env, d.pages, p.pages, PlaceLine(env, p, lines[n], st).pages);
    }
  }

  /** Lines whose total height fits below the cursor all stay on the current page: the loop
      adds no page. */
  lemma {:induction false} PlaceLinesNoBreak(env: Env, d: Doc, lines: seq<string>, st: LineStyle)
    requires |d.pages| > 0
    ensures st.lineHeight >= 0 && Fits(env, d.y, st.lineHeight * |lines|) ==>
              |PlaceLines(env, d, lines, st).pages| == |d.pages|
    decreases |lines|
  {
    if lines != [] && st.lineHeight >= 0 && Fits(env, d.y, st.lineHeight * |lines|) {
      var n := |lines| - 1;
      var p := PlaceLines(env, d, lines[..n], st);
      MulSucc(st.lineHeight, n);
      PlaceLinesNoBreak(env, d, lines[..n], st);
      PlaceLinesCursor(env, d, lines[..n], st);
      assert Fits(env, p.y, st.lineHeight);
      PlaceLineSpec(env, p, lines[n], st);
    }
  }

  lemma PlaceLinesSpec(env: Env, d: Doc, lines: seq<string>, st: LineStyle)
    requires |d.pages| > 0
    ensures Extends(d.pages, PlaceLines(env, d, lines, st).pages)
    ensures LinesDrawn(env, Added(d.pages, PlaceLines(env, d, lines, st).pages), lines, st)
    ensures |PlaceLines(env, d, lines, st).pages| == |d.pages| ==>
              PlaceLines(env, d, lines, st).y == d.y + st.lineHeight * |lines|
    ensures |PlaceLines(env, d, lines, st).pages| == |d.pages| ==>
              LinesAt(env, Added(d.pages, PlaceLines(env, d, lines, st).pages), d.y, st.lineHeight)
    ensures OpenAtTop(env, d.pages, PlaceLines(env, d, lines, st).pages)
    ensures st.lineHeight >= 0 && Fits(env, d.y, st.lineHeight * |lines|) ==>
              |PlaceLines(env, d, lines, st).pages| == |d.pages|
  {
    PlaceLinesNoBreak(env, d, lines, st);
    PlaceLinesOpenAtTop(env, d, lines, st);
    PlaceLinesDrawn(env, d, lines, st);
    PlaceLinesCursor(env, d, lines, st);
    PlaceLinesAt(env, d, lines, st);
  }

  /** `drawBody(text)`: a page-break check for one body line, then the wrapped lines. */
  function DrawBody(env: Env, d: Doc, text: string): (r: Doc)
    requires |d.pages| > 0
    ensures |r.pages| >= |d.pages|
  {
    PlaceLines(env, CheckPageBreak(env, d, BodyLineHeight), Wrap(text, ContentWidth(env), env.measure, Helvetica, BodySize), BodyStyle)
  }

  /** The page-break check and the line loop, taken one at a time, make `DrawBody`. */
  lemma BodySteps(env: Env, d: Doc, checked: Doc, r: Doc, text: string, lines: seq<string>)
    requires |d.pages| > 0
    requires checked == CheckPageBreak(env, d, BodyLineHeight)
    requires lines == Wrap(text, ContentWidth(env), env.measure, Helvetica, BodySize)
    requires r == PlaceLines(env, checked, lines, BodyStyle)
    ensures r == DrawBody(env, d, text)
  {
  }

  /** `drawBody` draws each wrapped line, in order, in the body style. */
  lemma BodyLinesDrawn(env: Env, d: Doc, text: string)
    requires |d.pages| > 0
    ensures var r := DrawBody(env, d, text);
            && Extends(d.pages, r.pages)
            && LinesDrawn(env, Added(d.pages, r.pages), Wrap(text, ContentWidth(env), env.measure, Helvetica, BodySize), BodyStyle)
  {
    var c := CheckPageBreak(env, d, BodyLineHeight);
    var lines := Wrap(text, ContentWidth(env), env.measure, Helvetica, BodySize);
    PlaceLinesDrawn(env, c, lines, BodyStyle);
    AddedTrans(d.pages, c.pages, DrawBody(env, d, text).pages);
  }

  /** `drawBody` draws exactly one instruction per wrapped line, each at the left margin in the
      body style, and without a page break advances the cursor by 18 per line. Every page the
      line loop starts opens with a line at the top margin. Empty text draws nothing; only the
      initial page-break check may still start a page. */
  lemma BodySpec(env: Env, d: Doc, text: string)
    requires |d.pages| > 0
    ensures var r := DrawBody(env, d, text);
            var lines := Wrap(text, ContentWidth(env), env.measure, Helvetica, BodySize);
            && Extends(d.pages, r.pages)
            && |Added(d.pages, r.pages)| == |lines|
            && (forall i :: 0 <= i < |lines| ==>
                  var op := Added(d.pages, r.pages)[i];
                  op.Text? && op.text == lines[i] && op.x == Margin as real && op.font == Helvetica
                  && op.size == BodySize && op.color == BodyColor && AboveBottom(env, op, BodyLineHeight))
            && (|r.pages| == |d.pages| ==> r.y == d.y + 18 * |lines|)
            && (|r.pages| == |d.pages| ==> forall i :: 0 <= i < |lines| ==>
                  Added(d.pages, r.pages)[i].y == env.pageHeight - (d.y + 18 * i) as real)
            && (text == "" ==> Added(d.pages, r.pages) == []
                               && (Fits(env, d.y, BodyLineHeight) ==> r == d)
                               && (!Fits(env, d.y, BodyLineHeight) ==> |r.pages| == |d.pages| + 1 && r.y == Margin))
            && OpenAtTop(env, CheckPageBreak(env, d, BodyLineHeight).pages, r.pages)
            && (Fits(env, CheckPageBreak(env, d, BodyLineHeight).y, 18 * |lines|) ==>
                  |r.pages| == |CheckPageBreak(env, d, BodyLineHeight).pages|)
            && (Fits(env, d.y, BodyLineHeight) && Fits(env, d.y, 18 * |lines|) ==> |r.pages| == |d.pages|)
  {
    BodyNoBreak(env, d, text);
    var c := CheckPageBreak(env, d, BodyLineHeight);
    var lines := Wrap(text, ContentWidth(env), env.measure, Helvetica, BodySize);
    BodyLinesDrawn(env, d, text);
    BodyAt(env, d, text);
    PlaceLinesOpenAtTop(env, c, lines, BodyStyle);
  }

  /** Body text whose lines fit below the cursor adds no page: the line loop adds none when
      the lines fit below the cursor left by the initial check, and neither does that check
      when one line fits too. */
  lemma BodyNoBreak(env: Env, d: Doc, text: string)
    requires |d.pages| > 0
    ensures var r := DrawBody(env, d, text);
            var lines := Wrap(text, ContentWidth(env), env.measure, Helvetica, BodySize);
            var c := CheckPageBreak(env, d, BodyLineHeight);
            && (Fits(env, c.y, 18 * |lines|) ==> |r.pages| == |c.pages|)
            && (Fits(env, d.y, BodyLineHeight) && Fits(env, d.y, 18 * |lines|) ==> |r.pages| == |d.pages|)
  {
    var c := CheckPageBreak(env, d, BodyLineHeight);
    PlaceLinesNoBreak(env, c, Wrap(text, ContentWidth(env), env.measure, Helvetica, BodySize), BodyStyle);
  }

  /** Without a page break, `drawBody` draws line `i` 18·i below the cursor it started from
      and advances the cursor by 18 per line. */
  lemma BodyAt(env: Env, d: Doc, text: string)
    requires |d.pages| > 0
    ensures var r := DrawBody(env, d, text);
            var lines := Wrap(text, ContentWidth(env), env.measure, Helvetica, BodySize);
            && Extends(d.pages, r.pages)
            && |Added(d.pages, r.pages)| == |lines|
            && (|r.pages| == |d.pages| ==> r.y == d.y + 18 * |lines| && LinesAt(env, Added(d.pages, r.pages), d.y, 18))
  {
    var c := CheckPageBreak(env, d, BodyLineHeight);
    var lines := Wrap(text, ContentWidth(env), env.measure, Helvetica, BodySize);
    var r := PlaceLines(env, c, lines, BodyStyle);
    PlaceLinesAt(env, c, lines, BodyStyle);
    PlaceLinesCursor(env, c, lines, BodyStyle);
    AddedTrans(d.pages, c.pages, r.pages);
  }

  /** The wrapped lines of a code block. */
  function CodeLines(env: Env, text: string): seq<string>
  {
    Wrap(text, CodeWidth(env), env.measure, Courier, CodeSize)
  }

  /** Height of the background box of a code block of `n` lines: 5 of padding above and below. */
  function CodeBoxHeight(n: nat): int
  {
    n * CodeLineHeight + 10
  }

  /** The background box of a block of `n` code lines whose top is `top` below the top of the
      page: 5 right of the margin, 10 wider than the code lines, 5 lower than the block. */
  function CodeBoxRect(env: Env, top: int, n: nat): (r: DrawOp)
    ensures r.Rect? && r.height == (14 * n + 10) as real
    ensures r.x == (Margin + 5) as real && r.x + r.width == env.pageWidth - (Margin + 5) as real
    ensures r.y + r.height == env.pageHeight - top as real + 5.0
  {
    Rect((Margin + 5) as real, Flip(env, top + CodeBoxHeight(n)) + 5.0, CodeWidth(env) + 10.0, CodeBoxHeight(n) as real, CodeBgColor)
  }

  /** The first half of `drawCodeBlock`: a page-break check for two code lines, one for the
      whole block, the background box at the cursor, then the top padding. */
  function CodeBox(env: Env, d: Doc, text: string): (r: Doc)
    requires |d.pages| > 0
    ensures |r.pages| >= |d.pages|
  {
    var n := |CodeLines(env, text)|;
    var c := CheckPageBreak(env, CheckPageBreak(env, d, CodeLineHeight * 2), CodeBoxHeight(n));
    var e := Emit(c, CodeBoxRect(env, c.y, n));
    e.(y := c.y + 10)
  }

  /** The statements of the first half of `drawCodeBlock`, taken one at a time, make `CodeBox`. */
  lemma CodeBoxSteps(env: Env, d: Doc, c1: Doc, c2: Doc, drawn: Doc, r: Doc, text: string, lines: seq<string>)
    requires |d.pages| > 0
    requires lines == CodeLines(env, text)
    requires c1 == CheckPageBreak(env, d, CodeLineHeight * 2)
    requires c2 == CheckPageBreak(env, c1, CodeBoxHeight(|lines|))
    requires drawn == Emit(c2, CodeBoxRect(env, c2.y, |lines|))
    requires r == Doc(drawn.pages, c2.y + 10)
    ensures r == CodeBox(env, d, text)
  {
  }

  /** `drawCodeBlock(text)`: nothing for empty text; otherwise the box, the lines (each still
      checked for a page break), then the bottom padding. */
  function DrawCodeBlock(env: Env, d: Doc, text: string): (r: Doc)
    requires |d.pages| > 0
    ensures |r.pages| >= |d.pages|
  {
    if text == "" then d
    else
      var t := PlaceLines(env, CodeBox(env, d, text), CodeLines(env, text), CodeStyle);
      t.(y := t.y + 5)
  }

  /** The box, the line loop and the bottom padding, taken one at a time, make `DrawCodeBlock`. */
  lemma CodeBlockSteps(env: Env, d: Doc, placed: Doc, r: Doc, text: string)
    requires |d.pages| > 0 && text != ""
    requires placed == PlaceLines(env, CodeBox(env, d, text), CodeLines(env, text), CodeStyle)
    requires r == Doc(placed.pages, placed.y + 5)
    ensures r == DrawCodeBlock(env, d, text)
  {
  }

  /** The box is drawn at the cursor left by the two page-break checks: its top edge 5 above
      that cursor, its bottom edge `14 * n + 10` lower, 10 wider than the code lines; the cursor
      then moves 10 into it. */
  lemma CodeBoxSpec(env: Env, d: Doc, text: string)
    requires |d.pages| > 0
    ensures var b := CodeBox(env, d, text);
            var n := |CodeLines(env, text)|;
            var c := CheckPageBreak(env, CheckPageBreak(env, d, CodeLineHeight * 2), CodeBoxHeight(n));
            && Extends(d.pages, b.pages)
            && Added(d.pages, b.pages) ==
                 [Rect(77.0, env.pageHeight - (c.y + 14 * n + 10) as real + 5.0, env.pageWidth - 164.0 + 10.0,
                       (14 * n + 10) as real, CodeBgColor)]
            && b.y == c.y + 10
            && (|b.pages| == |d.pages| ==> b.y == d.y + 10)
  {
    var n := |CodeLines(env, text)|;
    var c := CheckPageBreak(env, CheckPageBreak(env, d, CodeLineHeight * 2), CodeBoxHeight(n));
    var box := CodeBoxRect(env, c.y, n);
    assert box == Rect(77.0, env.pageHeight - (c.y + 14 * n + 10) as real + 5.0, env.pageWidth - 164.0 + 10.0,
                       (14 * n + 10) as real, CodeBgColor);
    ChecksThenEmit(env, d, CodeLineHeight * 2, CodeBoxHeight(n), box);
  }

  /** Two page-break checks and then one instruction draw that instruction alone. */
  lemma ChecksThenEmit(env: Env, d: Doc, h1: int, h2: int, op: DrawOp)
    requires |d.pages| > 0
    ensures var c1 := CheckPageBreak(env, d, h1);
            var e := Emit(CheckPageBreak(env, c1, h2), op);
            && Extends(d.pages, e.pages) && Added(d.pages, e.pages) == [op]
            && (|e.pages| == |d.pages| ==> c1 == d && CheckPageBreak(env, c1, h2) == d)
  {
    var c1 := CheckPageBreak(env, d, h1);
    var c := CheckPageBreak(env, c1, h2);
    var e := Emit(c, op);
    AddedTrans(d.pages, c1.pages, c.pages);
    AddedTrans(d.pages, c.pages, e.pages);
  }

  /** The box adds at most two pages and is the last instruction of the current page. */
  lemma CodeBoxLast(env: Env, d: Doc, text: string)
    requires |d.pages| > 0
    ensures var b := CodeBox(env, d, text);
            && Extends(d.pages, b.pages)
            && |Added(d.pages, b.pages)| == 1
            && |d.pages| <= |b.pages| <= |d.pages| + 2
            && b.pages[|b.pages| - 1][|b.pages[|b.pages| - 1]| - 1] == Added(d.pages, b.pages)[0]
  {
    var n := |CodeLines(env, text)|;
    var c1 := CheckPageBreak(env, d, CodeLineHeight * 2);
    var c := CheckPageBreak(env, c1, CodeBoxHeight(n));
    var e := Emit(c, CodeBoxRect(env, c.y, n));
    assert CodeBox(env, d, text) == e.(y := c.y + 10);
    AddedTrans(d.pages, c1.pages, c.pages);
    AddedTrans(d.pages, c.pages, e.pages);
  }

  /** A non-empty code block draws its box and then its lines. */
  lemma CodeBlockOps(env: Env, d: Doc, text: string)
    requires |d.pages| > 0 && text != ""
    ensures var r := DrawCodeBlock(env, d, text);
            var lines := CodeLines(env, text);
            && Extends(d.pages, r.pages)
            && |Added(d.pages, r.pages)| == |lines| + 1
            && Added(d.pages, r.pages)[0].Rect?
            && Added(d.pages, r.pages)[0].height == CodeBoxHeight(|lines|) as real
            && (forall i :: 0 <= i < |lines| ==>
                  IsLine(Added(d.pages, r.pages)[i + 1], lines[i], CodeStyle)
                  && AboveBottom(env, Added(d.pages, r.pages)[i + 1], CodeLineHeight))
  {
    var b := CodeBox(env, d, text);
    var lines := CodeLines(env, text);
    var t := PlaceLines(env, b, lines, CodeStyle);
    CodeBoxSpec(env, d, text);
    PlaceLinesDrawn(env, b, lines, CodeStyle);
    AddedTrans(d.pages, b.pages, t.pages);
    var box := Added(d.pages, b.pages);
    var drawn := Added(b.pages, t.pages);
    assert (box + drawn)[0] == box[0];
    forall i | 0 <= i < |lines|
      ensures IsLine((box + drawn)[i + 1], lines[i], CodeStyle)
              && AboveBottom(env, (box + drawn)[i + 1], CodeLineHeight)
    {
      assert (box + drawn)[i + 1] == drawn[i];
    }
  }

  /** Without a page break, a non-empty code block of `n` lines advances the cursor by `14 * n + 15`. */
  lemma CodeBlockCursor(env: Env, d: Doc, text: string)
    requires |d.pages| > 0 && text != ""
    ensures var r := DrawCodeBlock(env, d, text);
            |r.pages| == |d.pages| ==> r.y == d.y + 14 * |CodeLines(env, text)| + 15
  {
    var b := CodeBox(env, d, text);
    var lines := CodeLines(env, text);
    var t := PlaceLines(env, b, lines, CodeStyle);
    CodeBoxSpec(env, d, text);
    PlaceLinesCursor(env, b, lines, CodeStyle);
    if |t.pages| == |d.pages| {
      assert |b.pages| == |d.pages|;
      assert CodeStyle.lineHeight * |lines| == 14 * |lines|;
    }
  }

  /** Lines one line height apart, drawn after one other instruction. */
  lemma LinesAtAfter(env: Env, first: DrawOp, ops: seq<DrawOp>, top: int, lineHeight: int)
    requires LinesAt(env, ops, top, lineHeight)
    ensures forall i :: 0 <= i < |ops| ==> ([first] + ops)[i + 1].y == env.pageHeight - (top + lineHeight * i) as real
  {
    forall i | 0 <= i < |ops|
      ensures ([first] + ops)[i + 1].y == env.pageHeight - (top + lineHeight * i) as real
    {
      assert ([first] + ops)[i + 1] == ops[i];
    }
  }

  /** A non-empty code block draws what its box draws, then what its line loop draws. */
  lemma CodeBlockAdded(env: Env, d: Doc, text: string)
    requires |d.pages| > 0 && text != ""
    ensures var b := CodeBox(env, d, text);
            var t := PlaceLines(env, b, CodeLines(env, text), CodeStyle);
            var r := DrawCodeBlock(env, d, text);
            && Extends(d.pages, b.pages) && Extends(b.pages, t.pages) && Extends(d.pages, r.pages)
            && r.pages == t.pages && |d.pages| <= |b.pages| <= |r.pages|
            && Added(d.pages, r.pages) == Added(d.pages, b.pages) + Added(b.pages, t.pages)
  {
    var b := CodeBox(env, d, text);
    var t := PlaceLines(env, b, CodeLines(env, text), CodeStyle);
    CodeBoxSpec(env, d, text);
    PlaceLinesExtends(env, b, CodeLines(env, text), CodeStyle);
    AddedTrans(d.pages, b.pages, t.pages);
  }

  /** With no page added, neither page-break check of the box fired. */
  lemma CodeBoxNoBreak(env: Env, d: Doc, text: string)
    requires |d.pages| > 0
    requires |CodeBox(env, d, text).pages| == |d.pages|
    ensures var c1 := CheckPageBreak(env, d, CodeLineHeight * 2);
            CheckPageBreak(env, c1, CodeBoxHeight(|CodeLines(env, text)|)) == d
  {
    var c1 := CheckPageBreak(env, d, CodeLineHeight * 2);
    var c := CheckPageBreak(env, c1, CodeBoxHeight(|CodeLines(env, text)|));
    assert |c.pages| == |d.pages|;
  }

  /** Without a page break, the box of a non-empty code block has its top edge 5 above the cursor. */
  lemma CodeBlockBoxAt(env: Env, d: Doc, text: string)
    requires |d.pages| > 0 && text != ""
    ensures var r := DrawCodeBlock(env, d, text);
            var n := |CodeLines(env, text)|;
            && Extends(d.pages, r.pages)
            && |Added(d.pages, r.pages)| == n + 1
            && (|r.pages| == |d.pages| ==>
                  Added(d.pages, r.pages)[0] ==
                    Rect(77.0, env.pageHeight - (d.y + 14 * n + 10) as real + 5.0, env.pageWidth - 164.0 + 10.0,
                         (14 * n + 10) as real, CodeBgColor))
  {
    var b := CodeBox(env, d, text);
    var lines := CodeLines(env, text);
    var t := PlaceLines(env, b, lines, CodeStyle);
    CodeBlockAdded(env, d, text);
    CodeBoxSpec(env, d, text);
    PlaceLinesAt(env, b, lines, CodeStyle);
    if |t.pages| == |d.pages| {
      CodeBoxNoBreak(env, d, text);
      var box := Added(d.pages, b.pages);
      assert (box + Added(b.pages, t.pages))[0] == box[0];
    }
  }

  /** Without a page break, code line `i` of a non-empty code block is drawn `10 + 14 * i` below
      the cursor the block started from. */
  lemma CodeBlockLinesAt(env: Env, d: Doc, text: string)
    requires |d.pages| > 0 && text != ""
    ensures var r := DrawCodeBlock(env, d, text);
            var n := |CodeLines(env, text)|;
            && Extends(d.pages, r.pages)
            && |Added(d.pages, r.pages)| == n + 1
            && (|r.pages| == |d.pages| ==>
                  forall i :: 0 <= i < n ==>
                    Added(d.pages, r.pages)[i + 1].y == env.pageHeight - (d.y + 10 + 14 * i) as real)
  {
    var b := CodeBox(env, d, text);
    var lines := CodeLines(env, text);
    var t := PlaceLines(env, b, lines, CodeStyle);
    CodeBlockAdded(env, d, text);
    CodeBoxSpec(env, d, text);
    PlaceLinesAt(env, b, lines, CodeStyle);
    if |t.pages| == |d.pages| {
      CodeBoxNoBreak(env, d, text);
      var box := Added(d.pages, b.pages);
      LinesAtAfter(env, box[0], Added(b.pages, t.pages), b.y, CodeLineHeight);
      assert box == [box[0]];
    }
  }

  /** `drawCodeBlock` on empty text changes nothing. Otherwise it draws one background box of
      height `14 * n + 10` before any of the `n` code lines, then one instruction per line in the
      code style; without a page break the box's top edge is 5 above the cursor, code line `i` is
      drawn `10 + 14 * i` below it, and the cursor advances by exactly `14 * n + 15`. Every page
      the line loop starts opens with a code line at the top margin. A block that fits below
      the cursor left by its checks, in particular one that would fit on a fresh page, keeps
      all its lines on the page of its box; one that fits below the starting cursor adds no
      page at all. */
  lemma CodeBlockSpec(env: Env, d: Doc, text: string)
    requires |d.pages| > 0
    ensures text == "" ==> DrawCodeBlock(env, d, text) == d
    ensures text != "" ==>
            var r := DrawCodeBlock(env, d, text);
            var lines := CodeLines(env, text);
            var n := |lines|;
            && Extends(d.pages, r.pages)
            && |Added(d.pages, r.pages)| == n + 1
            && Added(d.pages, r.pages)[0].Rect?
            && Added(d.pages, r.pages)[0].height == (14 * n + 10) as real
            && (forall i :: 0 <= i < n ==>
                  IsLine(Added(d.pages, r.pages)[i + 1], lines[i], CodeStyle)
                  && AboveBottom(env, Added(d.pages, r.pages)[i + 1], CodeLineHeight))
            && (|r.pages| == |d.pages| ==> r.y == d.y + 14 * n + 15)
            && (|r.pages| == |d.pages| ==>
                  && Added(d.pages, r.pages)[0] ==
                       Rect(77.0, env.pageHeight - (d.y + 14 * n + 10) as real + 5.0, env.pageWidth - 164.0 + 10.0,
                            (14 * n + 10) as real, CodeBgColor)
                  && forall i :: 0 <= i < n ==>
                       Added(d.pages, r.pages)[i + 1].y == env.pageHeight - (d.y + 10 + 14 * i) as real)
            && OpenAtTop(env, CodeBox(env, d, text).pages, r.pages)
            && (Fits(env, Margin, CodeBoxHeight(n)) ==> |r.pages| == |CodeBox(env, d, text).pages|)
            && (Fits(env, CheckPageBreak(env, CheckPageBreak(env, d, CodeLineHeight * 2), CodeBoxHeight(n)).y, CodeBoxHeight(n)) ==>
                  |r.pages| == |CodeBox(env, d, text).pages|)
            && (Fits(env, d.y, CodeLineHeight * 2) && Fits(env, d.y, CodeBoxHeight(n)) ==> |r.pages| == |d.pages|)
  {
    if text != "" {
      CodeBlockOnePage(env, d, text);
      CodeBlockOpenAtTop(env, d, text);
      CodeBlockOps(env, d, text);
      CodeBlockCursor(env, d, text);
      CodeBlockBoxAt(env, d, text);
      CodeBlockLinesAt(env, d, text);
    }
  }

  /** A code block that fits below the cursor left by its two checks keeps its lines on the
      page of its box; that is always so when the block would fit on a fresh page. When it fits
      below the starting cursor, no page is added at all. */
  lemma CodeBlockOnePage(env: Env, d: Doc, text: string)
    requires |d.pages| > 0 && text != ""
    ensures var n := |CodeLines(env, text)|;
            var c := CheckPageBreak(env, CheckPageBreak(env, d, CodeLineHeight * 2), CodeBoxHeight(n));
            var b := CodeBox(env, d, text);
            var r := DrawCodeBlock(env, d, text);
            && (Fits(env, c.y, CodeBoxHeight(n)) ==> |r.pages| == |b.pages|)
            && (Fits(env, Margin, CodeBoxHeight(n)) ==> |r.pages| == |b.pages|)
            && (Fits(env, d.y, CodeLineHeight * 2) && Fits(env, d.y, CodeBoxHeight(n)) ==> |r.pages| == |d.pages|)
  {
    var lines := CodeLines(env, text);
    var b := CodeBox(env, d, text);
    CodeBoxSpec(env, d, text);
    CodeBoxLast(env, d, text);
    PlaceLinesNoBreak(env, b, lines, CodeStyle);
  }

  /** Every page the code lines start opens with a code line at the top margin. */
  lemma CodeBlockOpenAtTop(env: Env, d: Doc, text: string)
    requires |d.pages| > 0 && text != ""
    ensures var b := CodeBox(env, d, text);
            var r := DrawCodeBlock(env, d, text);
            Extends(b.pages, r.pages) && OpenAtTop(env, b.pages, r.pages)
  {
    PlaceLinesOpenAtTop(env, CodeBox(env, d, text), CodeLines(env, text), CodeStyle);
  }

  /** The background box stays on the page where it was drawn: the code lines after it only
      append to that page or go to later pages, so a block whose lines overflow leaves its box
      behind on the earlier page. */
  lemma CodeBoxStays(env: Env, d: Doc, text: string)
    requires |d.pages| > 0 && text != ""
    ensures var b := CodeBox(env, d, text);
            var r := DrawCodeBlock(env, d, text);
            var k := |b.pages| - 1;
            && |d.pages| - 1 <= k < |r.pages|
            && Extends(b.pages, r.pages)
            && b.pages[k] <= r.pages[k]
            && b.pages[k][|b.pages[k]| - 1].Rect?
  {
    CodeBoxSpec(env, d, text);
    CodeBoxLast(env, d, text);
    PlaceLinesExtends(env, CodeBox(env, d, text), CodeLines(env, text), CodeStyle);
  }
}
