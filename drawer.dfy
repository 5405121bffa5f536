/** `TextDrawer`, the object that owns the page cursor. Its methods change the document and
    the cursor in place; each is proved to leave exactly the state that the function of the same
    name in `Layout` describes, so the properties proved there hold of the object. */
module Drawer {
  import opened Style
  import opened Seqs
  import opened Strings
  import opened Wrapper
  import opened Layout

  class TextDrawer {
    /** Page size and font metrics of the document being drawn. */
    const env: Env
    /** The pages of the document; the last one is the current page. There is no current page
        before the first `AddPage`. */
    var pages: seq<Page>
    /** The cursor: distance from the top of the current page already used. */
    var y: int

    /** The drawer's state as a value. */
    function State(): Doc
      reads this
    {
      Doc(pages, y)
    }

    constructor(env: Env)
      ensures this.env == env && pages == [] && y == 0
    {
      this.env := env;
      pages := [];
      y := 0;
    }

    /** Draw one instruction on the current page. */
    method Put(op: DrawOp)
      requires |pages| > 0
      modifies this
      ensures State() == Emit(old(State()), op)
    {
      pages := pages[..|pages| - 1] + [pages[|pages| - 1] + [op]];
    }

    method AddPage()
      modifies this
      ensures State() == Layout.AddPage(old(State()))
    {
      pages := pages + [[]];
      y := Margin;
    }

    method ResetCursor()
      modifies this
      ensures State() == Layout.ResetCursor(old(State()))
    {
      y := 0;
    }

    method CheckPageBreak(heightNeeded: int)
      requires |pages| > 0
      modifies this
      ensures State() == Layout.CheckPageBreak(env, old(State()), heightNeeded)
    {
      if (y + heightNeeded) as real > env.pageHeight - Margin as real {
        AddPage();
      }
    }

    method DrawText(text: string, x: real, top: int, font: Font, size: nat, color: Color)
      requires |pages| > 0
      modifies this
      ensures State() == Layout.DrawText(env, old(State()), text, x, top, font, size, color)
    {
      Put(Text(text, x, env.pageHeight - top as real, font, size, color));
    }

    method DrawTitle(text: string, yPos: int)
      requires |pages| > 0
      modifies this
      ensures State() == Layout.DrawTitle(env, old(State()), text, yPos)
    {
      var textWidth := env.measure(text, HelveticaBold, TitleSize);
      Put(Text(text, (env.pageWidth - textWidth) / 2.0, env.pageHeight - yPos as real, HelveticaBold, TitleSize, TitleColor));
    }

    method DrawHeading1(text: string, yPos: int)
      requires |pages| > 0
      modifies this
      ensures State() == Layout.DrawHeading1(env, old(State()), text, yPos)
    {
      var maxWidth := env.pageWidth - (Margin * 2) as real;
      var lines := WrapText(text, maxWidth, Helvetica, H1Size);
      DrawHeading1Lines(lines, yPos);
    }

    /** The loop of `drawHeading1`: each line centred, `HeadingLineHeight` below the previous. */
    method DrawHeading1Lines(lines: seq<string>, yPos: int)
      requires |pages| > 0
      modifies this
      ensures State() == Heading1Lines(env, old(State()), lines, yPos)
    {
      ghost var start := State();
      var currentY := yPos;
      for i := 0 to |lines|
        invariant currentY == yPos + HeadingLineHeight * i
        invariant State() == Heading1Lines(env, start, lines[..i], yPos)
      {
        ghost var prev := State();
        DrawHeading1Line(lines[i], currentY);
        Heading1LinesSnoc(env, start, lines, i, yPos, currentY, prev, Heading1Op(env, lines[i], currentY), State());
        currentY := currentY + HeadingLineHeight;
      }
      TakeAll(lines);
    }

    /** The body of that loop: one heading line, centred, `top` below the top of the page. */
    method DrawHeading1Line(line: string, top: int)
      requires |pages| > 0
      modifies this
      ensures State() == Emit(old(State()), Heading1Op(env, line, top))
    {
      var textWidth := env.measure(line, Helvetica, H1Size);
      Put(Text(line, (env.pageWidth - textWidth) / 2.0, env.pageHeight - top as real, Helvetica, H1Size, HeadingColor));
    }

    method DrawHeading2(text: string)
      requires |pages| > 0
      modifies this
      ensures State() == Layout.DrawHeading2(env, old(State()), text)
    {
      CheckPageBreak(HeadingLineHeight * 2);
      y := y + HeadingGap;
      Put(Text(text, Margin as real, env.pageHeight - y as real, HelveticaBold, H2Size, HeadingColor));
      y := y + BodyLineHeight;
    }

    /** One iteration of the line loops of `drawBody` and `drawCodeBlock`: make room for a line,
        draw it at the cursor and move the cursor down by the line height. */
    method PlaceLine(line: string, st: LineStyle)
      requires |pages| > 0
      modifies this
      ensures State() == Layout.PlaceLine(env, old(State()), line, st)
    {
      ghost var before := State();
      CheckPageBreak(st.lineHeight);
      ghost var checked := State();
      Put(Text(line, st.x, env.pageHeight - y as real, st.font, st.size, st.color));
      ghost var drawn := State();
      y := y + st.lineHeight;
      PlaceLineSteps(env, before, checked, drawn, State(), line, st);
    }

    /** The line loops of `drawBody` and `drawCodeBlock`. */
    method DrawLines(lines: seq<string>, st: LineStyle)
      requires |pages| > 0
      modifies this
      ensures State() == PlaceLines(env, old(State()), lines, st)
    {
      ghost var start := State();
      for i := 0 to |lines|
        invariant State() == PlaceLines(env, start, lines[..i], st)
      {
        PlaceLine(lines[i], st);
        PlaceLinesSnoc(env, start, lines, i, st);
      }
      TakeAll(lines);
    }

    method DrawBody(text: string)
      requires |pages| > 0
      modifies this
      ensures State() == Layout.DrawBody(env, old(State()), text)
    {
      ghost var before := State();
      CheckPageBreak(BodyLineHeight);
      ghost var checked := State();
      var maxWidth := env.pageWidth - (Margin * 2) as real;
      assert maxWidth == ContentWidth(env);
      var lines := WrapText(text, maxWidth, Helvetica, BodySize);
      DrawLines(lines, BodyStyle);
      BodySteps(env, before, checked, State(), text, lines);
    }

    /** The first half of `drawCodeBlock`: the page-break checks and the background box. It
        returns the wrapped lines for the second half to draw. */
    method DrawCodeBox(text: string) returns (lines: seq<string>)
      requires |pages| > 0
      modifies this
      ensures lines == CodeLines(env, text)
      ensures State() == CodeBox(env, old(State()), text)
    {
      ghost var before := State();
      CheckPageBreak(CodeLineHeight * 2);
      ghost var checked1 := State();
      var maxWidth := env.pageWidth - ((Margin + 10) * 2) as real;
      lines := WrapText(text, maxWidth, Courier, CodeSize);
      var blockHeight := |lines| * CodeLineHeight + 10;
      CheckPageBreak(blockHeight);
      ghost var checked2 := State();
      var box := Rect((Margin + 5) as real, env.pageHeight - y as real - blockHeight as real + 5.0,
                      maxWidth + 10.0, blockHeight as real, CodeBgColor);
      assert box == CodeBoxRect(env, y, |lines|);
      Put(box);
      ghost var drawn := State();
      y := y + 10;
      CodeBoxSteps(env, before, checked1, checked2, drawn, State(), text, lines);
    }

    method DrawCodeBlock(text: string)
      requires |pages| > 0
      modifies this
      ensures State() == Layout.DrawCodeBlock(env, old(State()), text)
    {
      if text == "" {
        return;
      }
      ghost var before := State();
      var lines := DrawCodeBox(text);
      DrawLines(lines, CodeStyle);
      ghost var placed := State();
      y := y + 5;
      CodeBlockSteps(env, before, placed, State(), text);
    }

    /** `_wrapText`: the loop over paragraphs, computing `Wrap`. */
    method WrapText(text: string, maxWidth: real, font: Font, size: nat) returns (lines: seq<string>)
      ensures lines == Wrap(text, maxWidth, env.measure, font, size)
    {
      if text == "" {
        return [];
      }
      lines := [];
      var paragraphs := Split(text, '\n');
      for i := 0 to |paragraphs|
        invariant lines == WrapParagraphs(paragraphs[..i], maxWidth, env.measure, font, size)
      {
        var paragraphLines := WrapWords(paragraphs[i], maxWidth, font, size);
        lines := lines + paragraphLines;
        WrapParagraphsSnoc(paragraphs, i, maxWidth, env.measure, font, size);
      }
      TakeAll(paragraphs);
    }

    /** The inner loop of `_wrapText`: greedy filling of lines with the words of one paragraph,
        computing `WrapParagraph`. */
    method WrapWords(paragraph: string, maxWidth: real, font: Font, size: nat) returns (lines: seq<string>)
      ensures lines == WrapParagraph(paragraph, maxWidth, env.measure, font, size)
    {
      lines := [];
      var currentLine := "";
      var words := Split(paragraph, ' ');
      for j := 0 to |words|
        invariant lines == FoldWords(words[..j], maxWidth, env.measure, font, size).lines
        invariant currentLine == FoldWords(words[..j], maxWidth, env.measure, font, size).current
      {
        var testLine := if |currentLine| > 0 then currentLine + " " + words[j] else words[j];
        var testWidth := env.measure(testLine, font, size);
        if testWidth <= maxWidth {
          currentLine := testLine;
        } else {
          lines := lines + [currentLine];
          currentLine := words[j];
        }
        FoldWordsSnoc(words, j, maxWidth, env.measure, font, size);
      }
      TakeAll(words);
      lines := lines + [currentLine];
    }
  }
}
