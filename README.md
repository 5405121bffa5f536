# Lab-record PDF layout, modelled in Dafny

This project models the PDF generator of the lab-record app, found in
`my-hackathon-project/server/pdfGenerator.js`. Given a lab record (student, roll number,
subject, college, aim, theory, code, output, conclusion), `createPdf` builds a document in three steps:

1. It draws a title page.
2. It draws five content sections through a `TextDrawer`. The drawer owns a page cursor `y`, measured from the
   top of the current page. It wraps text to the page width and starts a new page whenever the
   next item would cross the bottom margin.
3. It stamps a header and a "Page i of n" footer on every page except the title page.

The model keeps the drawing instructions, not the PDF bytes. A page is the sequence of
instructions drawn on it: text with position, font, size and colour, or a filled rectangle.
The page size and the font metrics are a parameter `Env`.

Files:

- `strings.dfy` (module `Strings`) covers:
  - splitting on a separator character, and joining back;
  - decimal rendering of page numbers.
- `style.dfy` (module `Style`) holds the constants (margin, font sizes, line heights), the fonts, the
  colours and the type of a text-measuring function.
- `wrap.dfy` (module `Wrapper`) holds `_wrapText` as pure functions. Its lemmas cover:
  - line counts;
  - that the words are kept in order;
  - that no line holds a newline;
  - that every line fits, except a single over-wide word.
- `layout.dfy` (module `Layout`) holds each `TextDrawer` operation as a function on a `Doc`, the pages plus the cursor. Its
  lemmas state what each operation draws, on which page and at what height, how the cursor
  moves, and when a page is added. `Extends` says that drawing only appends:
  - earlier pages stay as they are;
  - the current page only grows;
  - pages are only added.
- `drawer.dfy` (module `Drawer`) holds the class `TextDrawer`, with fields `pages` and `y` updated in place. Each
  method is proved to produce exactly the state given by its `Layout` function. The two
  loops of `_wrapText` are methods proved against `Wrap` and `WrapParagraph`.
- `assembler.dfy` (module `Assembler`) holds `createPdf`: the title page, the sections, the header/footer loop, and
  the lemmas about the finished document.

## Model

| member | source | states |
|---|---|---|
| Strings.Split | my-hackathon-project/server/pdfGenerator.js:263 | splitting gives one more part than there are separators, and no part contains the separator |
| Strings.JoinSplit | my-hackathon-project/server/pdfGenerator.js:263 | joining the parts of a split with the separator gives back the original text |
| Strings.SplitJoin | my-hackathon-project/server/pdfGenerator.js:263 | splitting a join of separator-free parts gives back those parts |
| Strings.NatToString | my-hackathon-project/server/pdfGenerator.js:98 | a page number is rendered in canonical decimal: only digits, "0" for zero, and no leading zero otherwise |
| Strings.NatToStringRoundTrip | my-hackathon-project/server/pdfGenerator.js:98 | reading the rendered digits back gives the page number |
| Wrapper.WrapParagraph | my-hackathon-project/server/pdfGenerator.js:264-281 | each paragraph yields at least one line, since the last line is always pushed |
| Wrapper.WrapParagraphs | my-hackathon-project/server/pdfGenerator.js:263-281 | the paragraphs yield at least as many lines as there are paragraphs |
| Wrapper.Wrap | my-hackathon-project/server/pdfGenerator.js:260-283 | empty text gives no lines; other text gives at least one line per newline-separated paragraph |
| Wrapper.Step | my-hackathon-project/server/pdfGenerator.js:269-278 | offering one word either keeps the finished lines or closes exactly one more; afterwards the line being filled fits, or is the offered word alone |
| Wrapper.FoldWords | my-hackathon-project/server/pdfGenerator.js:266-279 | the word loop never closes more lines than it was offered words |
| Wrapper.StepKeepsWords | my-hackathon-project/server/pdfGenerator.js:269-278 | one step of the word loop neither loses nor reorders words, whichever branch it takes |
| Wrapper.FoldKeepsWords | my-hackathon-project/server/pdfGenerator.js:266-280 | the word loop's finished lines plus its current line hold the non-empty words so far, in order |
| Wrapper.WrapParagraphKeepsWords | my-hackathon-project/server/pdfGenerator.js:264-281 | the lines of a paragraph hold exactly its non-empty space-separated words, in order |
| Wrapper.WrapParagraphsKeepWords | my-hackathon-project/server/pdfGenerator.js:263-281 | the lines of several paragraphs hold exactly their non-empty words, in order |
| Wrapper.WrapKeepsWords | my-hackathon-project/server/pdfGenerator.js:260-283 | wrapping neither loses, duplicates nor reorders a word of the text |
| Wrapper.WrapParagraphEmpty | my-hackathon-project/server/pdfGenerator.js:264-281 | an empty paragraph becomes one empty line, or two if the empty string itself is too wide |
| Wrapper.FoldLinesFit | my-hackathon-project/server/pdfGenerator.js:269-278 | a line is only ever extended while it still fits, so every line fits, is one unbroken word, or is the empty line it starts from |
| Wrapper.WrapParagraphLinesFit | my-hackathon-project/server/pdfGenerator.js:264-281 | every line of a paragraph fits the width, is one unbroken word of it, or is empty |
| Wrapper.WrapParagraphsLinesFit | my-hackathon-project/server/pdfGenerator.js:263-281 | the same for every line of several paragraphs |
| Wrapper.WrapLinesFit | my-hackathon-project/server/pdfGenerator.js:260-283 | every wrapped line fits the width, is one unbroken word of the text, or is empty |
| Wrapper.WrapAllFit | my-hackathon-project/server/pdfGenerator.js:260-283 | when every word and the empty line fit, every wrapped line fits |
| Wrapper.FoldLinesGrow | my-hackathon-project/server/pdfGenerator.js:276 | the word loop only appends finished lines and never rewrites one |
| Wrapper.WrapParagraphLeadingBlank | my-hackathon-project/server/pdfGenerator.js:266-277 | if the first word alone is too wide, the paragraph starts with an empty line |
| Wrapper.StepGreedy | my-hackathon-project/server/pdfGenerator.js:269-278 | one step of the word loop keeps the packing greedy: it closes a line only when the offered word does not fit on it |
| Wrapper.GrowGreedy | my-hackathon-project/server/pdfGenerator.js:273-274 | widening the line being filled keeps every earlier "did not fit" fact and keeps the last opening word at the head of the line |
| Wrapper.CloseGreedy | my-hackathon-project/server/pdfGenerator.js:275-277 | closing the line because the word does not fit records that word as the start of the new line |
| Wrapper.FoldGreedy | my-hackathon-project/server/pdfGenerator.js:266-279 | after the word loop, every closed line is followed by a line that starts with a word which, added to the closed line, measures wider than the width |
| Wrapper.WrapParagraphGreedy | my-hackathon-project/server/pdfGenerator.js:264-281 | lines are packed greedily: line k of a paragraph was closed only because the word that starts line k+1 did not fit on it; that word is one of the paragraph's words, and there is one such word per line break |
| Wrapper.OpenersAreWords | my-hackathon-project/server/pdfGenerator.js:267-278 | every word that opens a new line is one of the words the paragraph was split into |
| Wrapper.WrapNoLineBreaks | my-hackathon-project/server/pdfGenerator.js:263 | no wrapped line contains a newline |
| Layout.Emit | my-hackathon-project/server/pdfGenerator.js:123-129 | drawing puts exactly one instruction at the end of the current page and moves nothing else: the earlier pages and the cursor are unchanged |
| Layout.ExtendsOps | my-hackathon-project/server/pdfGenerator.js:122-135 | a document that only extends another holds all its instructions as a prefix |
| Layout.AddedTrans | my-hackathon-project/server/pdfGenerator.js:122-135 | what two successive extensions draw is what the first draws followed by what the second draws |
| Layout.ChromeFree | my-hackathon-project/server/pdfGenerator.js:122-135 | extending a document without header or footer by non-header/footer instructions keeps it without |
| Layout.AddPage | my-hackathon-project/server/pdfGenerator.js:132-135 | one empty page is appended, it becomes current, and the cursor is at the top margin |
| Layout.ResetCursor | my-hackathon-project/server/pdfGenerator.js:137-139 | the cursor returns to 0 and the pages are untouched |
| Layout.CheckPageBreak | my-hackathon-project/server/pdfGenerator.js:142-147 | nothing changes if the height fits above the bottom margin; otherwise one empty page is added with the cursor at the top margin |
| Layout.DrawText | my-hackathon-project/server/pdfGenerator.js:122-130 | one text instruction is drawn with its top-down position flipped to PDF coordinates; the cursor and page count are unchanged |
| Layout.DrawTitle | my-hackathon-project/server/pdfGenerator.js:149-162 | one title-style instruction is drawn, centred horizontally, at the fixed position; the cursor is unchanged |
| Layout.Heading1Op | my-hackathon-project/server/pdfGenerator.js:173-181 | a heading-1 line is drawn at the given depth, and its middle is the middle of the page |
| Layout.Heading1Lines | my-hackathon-project/server/pdfGenerator.js:170-183 | the heading-1 line loop never adds a page |
| Layout.DrawHeading1 | my-hackathon-project/server/pdfGenerator.js:165-184 | a level-1 heading never adds a page |
| Layout.Heading1Placement | my-hackathon-project/server/pdfGenerator.js:165-184 | line i of the wrapped heading is drawn centred, 24·i below the given position; the cursor does not move |
| Layout.DrawHeading2 | my-hackathon-project/server/pdfGenerator.js:187-198 | one bold heading is drawn 36 below the checked cursor, on the current page when two heading lines fit and otherwise alone on a new page; the cursor advances by 54, or ends 54 below the top margin of the new page |
| Layout.PlaceLine | my-hackathon-project/server/pdfGenerator.js:209-218 | one pass of the line loop never removes a page |
| Layout.PlaceLines | my-hackathon-project/server/pdfGenerator.js:208-219 | the line loop never removes a page |
| Layout.PlaceLineSpec | my-hackathon-project/server/pdfGenerator.js:208-219 | one line-loop step draws exactly that line in the given style, at the cursor left by its page-break check and above the bottom margin, and advances the cursor by one line height; when the line fits it is appended to the current page, otherwise it is the only instruction of a new page, at the top margin |
| Layout.PlaceLinesSpec | my-hackathon-project/server/pdfGenerator.js:208-219 | the line loop draws one instruction per line in order, each above the bottom margin; without a page break line i is drawn i line heights below the starting cursor and the cursor advances by n line heights; every page the loop adds opens with a line at the top margin; when the lines' total height fits below the cursor, no page is added |
| Layout.PlaceLinesNoBreak | my-hackathon-project/server/pdfGenerator.js:208-219 | lines whose total height fits below the cursor are all drawn on the current page: the loop adds no page |
| Layout.PlaceLinesOpenAtTop | my-hackathon-project/server/pdfGenerator.js:208-219 | every page the line loop adds is non-empty and opens with an instruction at the top margin |
| Layout.PlaceLinesAt | my-hackathon-project/server/pdfGenerator.js:208-219 | without a page break, line i of the loop is drawn i line heights below the cursor the loop started from |
| Layout.PlaceLinesCursor | my-hackathon-project/server/pdfGenerator.js:208-219 | when the line loop adds no page, the cursor advances by the line height once per line |
| Layout.DrawBody | my-hackathon-project/server/pdfGenerator.js:200-220 | a body text never removes pages |
| Layout.BodySpec | my-hackathon-project/server/pdfGenerator.js:200-220 | body text draws exactly its wrapped lines at the margin in body style; without a page break line i is drawn 18·i below the starting cursor and the cursor advances by 18 per line; every page the line loop adds opens with a line at the top margin; text whose lines fit below the cursor (and, for the initial check, one line fits) adds no page; empty text draws nothing, though its page-break check may still add a page |
| Layout.BodyNoBreak | my-hackathon-project/server/pdfGenerator.js:200-220 | the line loop adds no page when the lines fit below the cursor left by the initial check, and the whole call adds none when they and one line fit below the starting cursor |
| Layout.BodyAt | my-hackathon-project/server/pdfGenerator.js:200-220 | without a page break, body line i is drawn 18·i below the starting cursor and the cursor advances by 18 per line |
| Layout.BodyLinesDrawn | my-hackathon-project/server/pdfGenerator.js:200-220 | body text draws each of its wrapped lines, in order, in the body style |
| Layout.CodeBox | my-hackathon-project/server/pdfGenerator.js:224-241 | the box step never removes pages |
| Layout.CodeBoxRect | my-hackathon-project/server/pdfGenerator.js:233-239 | the background box spans the page 5 inside each margin, is 14·n+10 high, and its top edge is 5 above the given cursor |
| Layout.CodeBoxSpec | my-hackathon-project/server/pdfGenerator.js:224-241 | after the two page-break checks, exactly one background rectangle is drawn, its top edge 5 above the checked cursor and its bottom 14·n+10 lower; the cursor then moves 10 into it |
| Layout.CodeBoxLast | my-hackathon-project/server/pdfGenerator.js:224-241 | the box step adds at most two pages and its rectangle is the last instruction of the current page |
| Layout.DrawCodeBlock | my-hackathon-project/server/pdfGenerator.js:222-257 | a code block never removes pages |
| Layout.CodeBlockSpec | my-hackathon-project/server/pdfGenerator.js:222-257 | empty code changes nothing; otherwise one background box is drawn, then every code line in Courier, each above the bottom margin; without a page break the box's top edge is 5 above the starting cursor, code line i is drawn 10+14·i below it, and the cursor advances by 14·n+15; every page the code lines add opens with a code line at the top margin; a block that would fit on a fresh page keeps all its lines on the page of its box, and one that fits below the starting cursor adds no page |
| Layout.CodeBlockOnePage | my-hackathon-project/server/pdfGenerator.js:222-257 | a code block that fits below the cursor left by its two checks, in particular one that would fit on a fresh page, is not split across pages; one that fits below the starting cursor adds no page |
| Layout.CodeBlockBoxAt | my-hackathon-project/server/pdfGenerator.js:229-241 | without a page break, the box of a non-empty code block has its top edge 5 above the starting cursor and is 14·n+10 high |
| Layout.CodeBlockLinesAt | my-hackathon-project/server/pdfGenerator.js:243-255 | without a page break, code line i is drawn 10+14·i below the cursor the block started from |
| Layout.CodeBlockOpenAtTop | my-hackathon-project/server/pdfGenerator.js:243-255 | every page the code lines add opens with a code line at the top margin |
| Layout.CodeBoxStays | my-hackathon-project/server/pdfGenerator.js:233-255 | the background box stays on the page where it was drawn, even when the code lines overflow onto later pages |
| Drawer.TextDrawer.constructor | my-hackathon-project/server/pdfGenerator.js:115-120 | a new drawer has no pages and the cursor at 0 |
| Drawer.TextDrawer.Put | my-hackathon-project/server/pdfGenerator.js:123-129 | drawing on the current page is `Layout.Emit` |
| Drawer.TextDrawer.AddPage | my-hackathon-project/server/pdfGenerator.js:132-135 | the drawer's new state is `Layout.AddPage` of the old one |
| Drawer.TextDrawer.ResetCursor | my-hackathon-project/server/pdfGenerator.js:137-139 | the new state is `Layout.ResetCursor` of the old one |
| Drawer.TextDrawer.CheckPageBreak | my-hackathon-project/server/pdfGenerator.js:142-147 | the new state is `Layout.CheckPageBreak` of the old one |
| Drawer.TextDrawer.DrawText | my-hackathon-project/server/pdfGenerator.js:122-130 | the new state is `Layout.DrawText` of the old one |
| Drawer.TextDrawer.DrawTitle | my-hackathon-project/server/pdfGenerator.js:149-162 | the new state is `Layout.DrawTitle` of the old one |
| Drawer.TextDrawer.DrawHeading1 | my-hackathon-project/server/pdfGenerator.js:165-184 | wrapping the heading and drawing its lines leaves the state `Layout.DrawHeading1` describes |
| Drawer.TextDrawer.DrawHeading1Lines | my-hackathon-project/server/pdfGenerator.js:170-183 | the loop over the heading's lines, with its own `currentY`, leaves the state `Layout.Heading1Lines` describes |
| Drawer.TextDrawer.DrawHeading1Line | my-hackathon-project/server/pdfGenerator.js:173-181 | one pass of that loop draws exactly the centred heading-1 instruction for the line, and nothing else changes |
| Drawer.TextDrawer.DrawHeading2 | my-hackathon-project/server/pdfGenerator.js:187-198 | the new state is `Layout.DrawHeading2` of the old one |
| Drawer.TextDrawer.PlaceLine | my-hackathon-project/server/pdfGenerator.js:209-218 | one pass of the line loop leaves the state `Layout.PlaceLine` describes |
| Drawer.TextDrawer.DrawLines | my-hackathon-project/server/pdfGenerator.js:208-219 | the line loop leaves the state `Layout.PlaceLines` describes |
| Drawer.TextDrawer.DrawBody | my-hackathon-project/server/pdfGenerator.js:200-220 | the new state is `Layout.DrawBody` of the old one |
| Drawer.TextDrawer.DrawCodeBox | my-hackathon-project/server/pdfGenerator.js:224-241 | it returns the wrapped code lines and leaves the state `Layout.CodeBox` describes |
| Drawer.TextDrawer.DrawCodeBlock | my-hackathon-project/server/pdfGenerator.js:222-257 | the new state is `Layout.DrawCodeBlock` of the old one, including the early return on empty code |
| Drawer.TextDrawer.WrapText | my-hackathon-project/server/pdfGenerator.js:260-283 | the paragraph loop returns `Wrapper.Wrap` of the text |
| Drawer.TextDrawer.WrapWords | my-hackathon-project/server/pdfGenerator.js:264-281 | the greedy word loop returns `Wrapper.WrapParagraph` of the paragraph |
| Assembler.TitlePage | my-hackathon-project/server/pdfGenerator.js:39-59 | the title page is the document's only page |
| Assembler.TitlePageSpec | my-hackathon-project/server/pdfGenerator.js:39-59 | the title page holds, in order: the college and subject titles, the wrapped aim heading, and the three "Submitted by" lines at 680, 700 and 720, and nothing else |
| Assembler.TitlePagePlain | my-hackathon-project/server/pdfGenerator.js:39-59 | the title page draws no header or footer |
| Assembler.Sections | my-hackathon-project/server/pdfGenerator.js:64-77 | the five sections never remove pages |
| Assembler.SectionsPlain | my-hackathon-project/server/pdfGenerator.js:64-77 | the five sections only draw on from where they start and draw no header or footer |
| Assembler.SectionsSpec | my-hackathon-project/server/pdfGenerator.js:64-77 | the section headings are exactly "Aim", "Theory / Apparatus", "Code / Procedure", "Output / Observations" and "Conclusion", in that order, and the texts drawn are each heading followed by the wrapped lines of its field |
| Assembler.BodySection | my-hackathon-project/server/pdfGenerator.js:64-65 | a heading followed by body text shows the heading and then the text's wrapped lines, with one heading |
| Assembler.CodeSection | my-hackathon-project/server/pdfGenerator.js:70-71 | a heading followed by a code block shows the heading and then the code's wrapped lines, with one heading |
| Assembler.CodeBlockTexts | my-hackathon-project/server/pdfGenerator.js:222-257 | a code block shows the code's wrapped lines and no heading; its box shows no text |
| Assembler.EmptySections | my-hackathon-project/server/pdfGenerator.js:64-77 | with empty content fields and room for 288, the five sections add no page and move the cursor by 270 (five headings of 54) |
| Assembler.Assemble | my-hackathon-project/server/pdfGenerator.js:39-77 | before stamping, the document has at least two pages |
| Assembler.AssembleSpec | my-hackathon-project/server/pdfGenerator.js:39-77 | the title page comes through the content step unchanged, at least one content page follows it, and no page holds a header or footer yet |
| Assembler.Header | my-hackathon-project/server/pdfGenerator.js:89-95 | the header is a header/footer instruction at the left margin, half a margin below the top |
| Assembler.PageLabelReadsBack | my-hackathon-project/server/pdfGenerator.js:98 | split at its spaces, the footer label is "Page", the page number counted from 1, "of", and the page count, and both numbers read back to their values |
| Assembler.Footer | my-hackathon-project/server/pdfGenerator.js:98-104 | the footer is a header/footer instruction carrying the page label, 112 left of the right edge, half a margin above the bottom |
| Assembler.StampPage | my-hackathon-project/server/pdfGenerator.js:81-105 | the header/footer pass leaves the title page unchanged and appends exactly the header and then the footer to any other page |
| Assembler.Stamp | my-hackathon-project/server/pdfGenerator.js:80-105 | stamping keeps the page count and only appends to pages |
| Assembler.StampChrome | my-hackathon-project/server/pdfGenerator.js:80-105 | the title page is left as it was; every other page i gains exactly the header, then footer "Page i+1 of n"; removing those gives each page back |
| Assembler.EmptyRecordTwoPages | my-hackathon-project/server/pdfGenerator.js:22-110 | a record with all content fields empty gives two pages; the second gains the header and then the footer "Page 2 of 2" (page height at least 432) |
| Assembler.StampPages | my-hackathon-project/server/pdfGenerator.js:80-105 | the header/footer loop, which skips page 0, computes `Stamp` |
| Assembler.DrawTitlePage | my-hackathon-project/server/pdfGenerator.js:39-59 | the drawer calls on an empty drawer leave the state `TitlePage` describes |
| Assembler.DrawSections | my-hackathon-project/server/pdfGenerator.js:64-77 | the ten drawer calls leave the state `Sections` describes |
| Assembler.CreatePdf | my-hackathon-project/server/pdfGenerator.js:22-110 | the finished pages are the assembled document stamped with header and footer, so `AssembleSpec` and `StampChrome` hold of them |

## Left out

- PDF bytes are not modelled. `PDFDocument.create`, `embedFont`, `save` and pdf-lib's rendering are outside the model. The result is the list of drawing
  instructions per page.
- `async`/`await` is not modelled. The function has no concurrency of its own.
- Font metrics are a parameter. `widthOfTextAtSize` is the parameter `Env.measure` (any function from
  text, font and size to a width), so wrapping is proved for every metric.
- The page size is a parameter. pdf-lib's default page size is the parameters `Env.pageWidth` and `Env.pageHeight`.
- Colour values are not modelled. The RGB values of the colour constants are named colours.
- Positions are real numbers. Floating-point rounding is not modelled.
- The `lineHeight` option passed to `drawText` is not modelled. It only matters for text containing newlines, and
  `Wrapper.WrapNoLineBreaks` shows that no wrapped line has one. The title, the "Submitted by" fields and the
  header are drawn as given. If they contain newlines, pdf-lib would break them, and the model does not show that.
- Missing or non-string fields are not modelled. The record's fields are strings, so `undefined` values and their template
  interpolation (e.g. "Aim: undefined") are outside the model.
- The measuring and drawing calls (`widthOfTextAtSize`, `drawText`, `drawRectangle`, `addPage`) are assumed never to throw. A failing call, which aborts the whole document, is not modelled.
- The HTTP route in `my-hackathon-project/server/index.js` and the form in the client are not part of this model.
- Layout.DrawHeading1: its own `ensures` only bounds the page count; what it draws is stated by `Layout.Heading1Placement`.
- Layout.DrawBody: its own `ensures` only bounds the page count; what it draws is stated by `Layout.BodySpec`.
- Layout.CodeBox: its own `ensures` only bounds the page count; what it draws is stated by `Layout.CodeBoxSpec`.
- Layout.PlaceLinesSpec: once a page break has happened inside the loop, it gives the height of the first line on each new page (the top margin) but not of the lines after it, and it does not say which line opens each new page; `Layout.PlaceLineSpec` places those one step at a time.
- Layout.BodySpec: after a page break inside the line loop, only the first line of each new page has its height stated; `Layout.PlaceLineSpec` places the others one step at a time.
- Layout.CodeBlockSpec: after a page break inside the line loop, only the first code line of each new page has its height stated; `Layout.PlaceLineSpec` places the others one step at a time.
- Layout.DrawCodeBlock: its own `ensures` only bounds the page count; what it draws is stated by `Layout.CodeBlockSpec`.
- Assembler.Sections: its own `ensures` only bounds the page count; what it draws is stated by `Assembler.SectionsSpec` (headings and texts, in order) and `Assembler.SectionsPlain` (no header or footer).
- Assembler.Assemble: its own `ensures` only bounds the page count; the document is described by `Assembler.AssembleSpec`.
- The model follows the code in two edge cases:
  - `drawBody` with empty text still makes its page-break check, so it may add an empty page.
  - A paragraph whose first word alone is too wide begins with an empty line
    (`Wrapper.WrapParagraphLeadingBlank`). A single over-wide word therefore gives two lines, not one.
- `Drawer.TextDrawer.DrawHeading1Lines` and `Drawer.TextDrawer.DrawHeading1Line` are the loop of `drawHeading1` and its body, split out as methods.
- `Drawer.TextDrawer.DrawLines` and `Drawer.TextDrawer.PlaceLine` are methods of their own. `drawBody` and
  `drawCodeBlock` share the same line loop inline, and here that loop is one method used by both.
  `DrawCodeBox` is the first half of `drawCodeBlock`, and `WrapWords` is the inner loop of `_wrapText`.
  `StampPages` is the header/footer loop of `createPdf`.
