/** The word wrapper (`TextDrawer._wrapText`): text is cut at '\n' into paragraphs, each
    paragraph at ' ' into words, and words are packed greedily onto lines whose measured width
    stays within `maxWidth`. A word is never broken, so a word wider than `maxWidth` sits on a
    line of its own. */
module Wrapper {
  import opened Style
  import opened Seqs
  import opened Strings

  /** The wrapper's state inside one paragraph: the lines already closed and the line being filled. */
  datatype Fold = Fold(lines: seq<string>, current: string)

  /** Offer one word to the line being filled: keep it there if the widened line still fits,
      otherwise close the line and start a new one with the word. The line being filled is
      closed even when it is still empty. */
  function Step(f: Fold, word: string, maxWidth: real, measure: Measure, font: Font, size: nat): (r: Fold)
    ensures f.lines <= r.lines && |r.lines| <= |f.lines| + 1
    ensures measure(r.current, font, size) <= maxWidth || r.current == word
  {
    var test := Joined(f.current, word);
    if measure(test, font, size) <= maxWidth then Fold(f.lines, test)
    else Fold(f.lines + [f.current], word)
  }

  /** The line `line` would become with `word` added: a space between them unless the line is empty. */
  function Joined(line: string, word: string): string
  {
    if |line| > 0 then line + " " + word else word
  }

  /** The state after offering `words` in order, starting from no lines and an empty line. */
  function FoldWords(words: seq<string>, maxWidth: real, measure: Measure, font: Font, size: nat): (r: Fold)
    ensures |r.lines| <= |words|
    decreases |words|
  {
    if words == [] then Fold([], "")
    else Step(FoldWords(words[..|words| - 1], maxWidth, measure, font, size), words[|words| - 1],
              maxWidth, measure, font, size)
  }

  /** The lines of one paragraph: every closed line, then the line being filled. */
  function WrapParagraph(p: string, maxWidth: real, measure: Measure, font: Font, size: nat): (lines: seq<string>)
    ensures |lines| >= 1
  {
    var f := FoldWords(Split(p, ' '), maxWidth, measure, font, size);
    f.lines + [f.current]
  }

  /** The lines of the paragraphs `ps`, paragraph after paragraph. Each paragraph gives at least one. */
  function WrapParagraphs(ps: seq<string>, maxWidth: real, measure: Measure, font: Font, size: nat): (lines: seq<string>)
    ensures |lines| >= |ps|
    decreases |ps|
  {
    if ps == [] then []
    else WrapParagraphs(ps[..|ps| - 1], maxWidth, measure, font, size)
         + WrapParagraph(ps[|ps| - 1], maxWidth, measure, font, size)
  }

  /** `_wrapText(text, maxWidth, font, size)`: no lines for empty text, otherwise at least one
      line per paragraph. */
  function Wrap(text: string, maxWidth: real, measure: Measure, font: Font, size: nat): (lines: seq<string>)
    ensures text == "" ==> lines == []
    ensures text != "" ==> |lines| >= Count(text, '\n') + 1
  {
    if text == "" then [] else WrapParagraphs(Split(text, '\n'), maxWidth, measure, font, size)
  }

  /** One more word is one more step of the fold. */
  lemma FoldWordsSnoc(words: seq<string>, j: nat, maxWidth: real, measure: Measure, font: Font, size: nat)
    requires j < |words|
    ensures FoldWords(words[..j + 1], maxWidth, measure, font, size)
            == Step(FoldWords(words[..j], maxWidth, measure, font, size), words[j], maxWidth, measure, font, size)
  {
    assert words[..j + 1][..j] == words[..j];
  }

  /** One more paragraph appends that paragraph's lines. */
  lemma WrapParagraphsSnoc(ps: seq<string>, i: nat, maxWidth: real, measure: Measure, font: Font, size: nat)
    requires i < |ps|
    ensures WrapParagraphs(ps[..i + 1], maxWidth, measure, font, size)
            == WrapParagraphs(ps[..i], maxWidth, measure, font, size) + WrapParagraph(ps[i], maxWidth, measure, font, size)
  {
    assert ps[..i + 1][..i] == ps[..i];
  }

  // ---------------------------------------------------------------------------------------
  // Words

  /** The words a line shows: its space-separated runs, empty runs ignored. */
  function Words(line: string): seq<string>
  {
    NonEmpty(Split(line, ' '))
  }

  /** The words shown by `lines`, line after line. */
  function LineWords(lines: seq<string>): seq<string>
    decreases |lines|
  {
    if lines == [] then [] else LineWords(lines[..|lines| - 1]) + Words(lines[|lines| - 1])
  }

  /** The words of the paragraphs `ps`, paragraph after paragraph, empty words included. */
  function ParagraphWords(ps: seq<string>): seq<string>
    decreases |ps|
  {
    if ps == [] then [] else ParagraphWords(ps[..|ps| - 1]) + Split(ps[|ps| - 1], ' ')
  }

  /** Every word of `text`, as the wrapper cuts it. */
  function TextWords(text: string): seq<string>
  {
    ParagraphWords(Split(text, '\n'))
  }

  lemma {:induction false} LineWordsAppend(a: seq<string>, b: seq<string>)
    ensures LineWords(a + b) == LineWords(a) + LineWords(b)
    decreases |b|
  {
    if b == [] {
      assert a + b == a;
    } else {
      var n := |b| - 1;
      var ab := a + b;
      DropLast(a, b);
      calc {
        LineWords(ab);
        LineWords(a + b[..n]) + Words(b[n]);
        { LineWordsAppend(a, b[..n]); }
        LineWords(a) + LineWords(b[..n]) + Words(b[n]);
        LineWords(a) + LineWords(b);
      }
    }
  }

  lemma WordsOfWord(w: string)
    requires ' ' !in w
    ensures Words(w) == NonEmpty([w])
  {
    SplitNoSeparator(w, ' ');
  }

  /** Widening a line by a word adds that word to the words the line shows. */
  lemma WordsOfJoin(line: string, w: string)
    requires ' ' !in w
    ensures Words(line + " " + w) == Words(line) + NonEmpty([w])
  {
    assert line + " " + w == line + [' '] + w;
    SplitAround(line, w, ' ');
    SplitNoSeparator(w, ' ');
    NonEmptyAppend(Split(line, ' '), [w]);
  }

  /** Offering a word adds exactly that word (if non-empty) to the words shown so far. */
  lemma StepKeepsWords(f: Fold, w: string, maxWidth: real, measure: Measure, font: Font, size: nat)
    requires ' ' !in w
    ensures var g := Step(f, w, maxWidth, measure, font, size);
            LineWords(g.lines) + Words(g.current) == LineWords(f.lines) + Words(f.current) + NonEmpty([w])
  {
    var test := Joined(f.current, w);
    WordsOfWord(w);
    if measure(test, font, size) <= maxWidth {
      if |f.current| > 0 {
        WordsOfJoin(f.current, w);
      } else {
        WordsOfEmpty();
      }
    } else {
      LineWordsSnoc(f.lines, f.current);
    }
  }

  lemma WordsOfEmpty()
    ensures Words("") == []
  {
    assert Split("", ' ') == [""];
  }

  lemma LineWordsSnoc(lines: seq<string>, line: string)
    ensures LineWords(lines + [line]) == LineWords(lines) + Words(line)
  {
    DropLast(lines, [line]);
  }

  /** Folding keeps every non-empty word, in order, and adds none: the closed lines and the
      line being filled together show exactly the non-empty words offered. */
  lemma {:induction false} FoldKeepsWords(words: seq<string>, maxWidth: real, measure: Measure, font: Font, size: nat)
    requires forall i :: 0 <= i < |words| ==> ' ' !in words[i]
    ensures var f := FoldWords(words, maxWidth, measure, font, size);
            LineWords(f.lines) + Words(f.current) == NonEmpty(words)
    decreases |words|
  {
    if words == [] {
      assert Split("", ' ') == [""];
    } else {
      var n := |words| - 1;
      FoldKeepsWords(words[..n], maxWidth, measure, font, size);
      assert words == words[..n] + [words[n]];
      NonEmptyAppend(words[..n], [words[n]]);
      StepKeepsWords(FoldWords(words[..n], maxWidth, measure, font, size), words[n], maxWidth, measure, font, size);
    }
  }

  /** An empty paragraph gives one empty line, preserving blank lines of the text; two when even
      the empty string measures wider than `maxWidth`. */
  lemma WrapParagraphEmpty(maxWidth: real, measure: Measure, font: Font, size: nat)
    ensures WrapParagraph("", maxWidth, measure, font, size)
            == if measure("", font, size) <= maxWidth then [""] else ["", ""]
  {
    var words := Split("", ' ');
    assert words == [""] && words[..0] == [];
  }

  /** Within a paragraph, words are never split, dropped or reordered: the lines show exactly
      the paragraph's non-empty words. */
  lemma WrapParagraphKeepsWords(p: string, maxWidth: real, measure: Measure, font: Font, size: nat)
    ensures LineWords(WrapParagraph(p, maxWidth, measure, font, size)) == NonEmpty(Split(p, ' '))
  {
    var f := FoldWords(Split(p, ' '), maxWidth, measure, font, size);
    FoldKeepsWords(Split(p, ' '), maxWidth, measure, font, size);
    LineWordsSnoc(f.lines, f.current);
  }

  /** Every line the fold produces fits, or is one of the words unmodified, or is the empty
      line the fold starts with. */
  lemma {:induction false} FoldLinesFit(words: seq<string>, maxWidth: real, measure: Measure, font: Font, size: nat)
    ensures var f := FoldWords(words, maxWidth, measure, font, size);
            forall l :: l in f.lines + [f.current] ==>
              measure(l, font, size) <= maxWidth || l in words || l == ""
    decreases |words|
  {
    if words != [] {
      var n := |words| - 1;
      FoldLinesFit(words[..n], maxWidth, measure, font, size);
      assert words == words[..n] + [words[n]];
    }
  }

  /** Every line of a paragraph has width at most `maxWidth` or is a single word of the
      paragraph, unbroken (or the empty line). */
  lemma WrapParagraphLinesFit(p: string, maxWidth: real, measure: Measure, font: Font, size: nat)
    ensures forall l :: l in WrapParagraph(p, maxWidth, measure, font, size) ==>
              measure(l, font, size) <= maxWidth || l in Split(p, ' ') || l == ""
  {
    FoldLinesFit(Split(p, ' '), maxWidth, measure, font, size);
  }

  /** The fold only ever appends closed lines. */
  lemma {:induction false} FoldLinesGrow(words: seq<string>, k: nat, maxWidth: real, measure: Measure, font: Font, size: nat)
    requires k <= |words|
    ensures FoldWords(words[..k], maxWidth, measure, font, size).lines
            <= FoldWords(words, maxWidth, measure, font, size).lines
    decreases |words|
  {
    if k < |words| {
      var n := |words| - 1;
      FoldLinesGrow(words[..n], k, maxWidth, measure, font, size);
      assert words[..n][..k] == words[..k];
    } else {
      assert words[..k] == words;
    }
  }

  /** When the first word of a paragraph is wider than `maxWidth` on its own, the still-empty
      line is closed first: the paragraph starts with an empty line. */
  lemma WrapParagraphLeadingBlank(p: string, maxWidth: real, measure: Measure, font: Font, size: nat)
    requires measure(Split(p, ' ')[0], font, size) > maxWidth
    ensures var lines := WrapParagraph(p, maxWidth, measure, font, size);
            |lines| >= 2 && lines[0] == ""
  {
    var words := Split(p, ' ');
    FoldLinesGrow(words, 1, maxWidth, measure, font, size);
    assert words[..1][..0] == [];
    assert FoldWords(words[..1], maxWidth, measure, font, size).lines == [""];
  }

  // ---------------------------------------------------------------------------------------
  // Greedy packing

  /** The word that opened each line after the first: the word whose offer closed the line
      before it. */
  function Openers(words: seq<string>, maxWidth: real, measure: Measure, font: Font, size: nat): seq<string>
    decreases |words|
  {
    if words == [] then []
    else
      var n := |words| - 1;
      var f := FoldWords(words[..n], maxWidth, measure, font, size);
      if measure(Joined(f.current, words[n]), font, size) <= maxWidth then Openers(words[..n], maxWidth, measure, font, size)
      else Openers(words[..n], maxWidth, measure, font, size) + [words[n]]
  }

  /** Every opening word is one of the words offered. */
  lemma {:induction false} OpenersAreWords(words: seq<string>, maxWidth: real, measure: Measure, font: Font, size: nat)
    ensures var o := Openers(words, maxWidth, measure, font, size);
            |o| <= |words| && forall k :: 0 <= k < |o| ==> o[k] in words
    decreases |words|
  {
    if words != [] {
      var n := |words| - 1;
      OpenersAreWords(words[..n], maxWidth, measure, font, size);
      assert forall w :: w in words[..n] ==> w in words;
    }
  }

  /** Line `k + 1` of a fold starts with word `o[k]`, which did not fit on line `k`. */
  predicate Greedy(lines: seq<string>, o: seq<string>, maxWidth: real, measure: Measure, font: Font, size: nat)
  {
    && |o| + 1 == |lines|
    && (forall k :: 0 <= k < |o| ==> measure(Joined(lines[k], o[k]), font, size) > maxWidth)
    && (forall k :: 0 <= k < |o| ==> o[k] <= lines[k + 1])
  }

  /** Offering a word keeps the packing greedy. */
  lemma StepGreedy(f: Fold, o: seq<string>, w: string, maxWidth: real, measure: Measure, font: Font, size: nat)
    requires Greedy(f.lines + [f.current], o, maxWidth, measure, font, size)
    ensures var g := Step(f, w, maxWidth, measure, font, size);
            var o' := if measure(Joined(f.current, w), font, size) <= maxWidth then o else o + [w];
            Greedy(g.lines + [g.current], o', maxWidth, measure, font, size)
  {
    if measure(Joined(f.current, w), font, size) <= maxWidth {
      GrowGreedy(f.lines, f.current, Joined(f.current, w), o, maxWidth, measure, font, size);
    } else {
      CloseGreedy(f.lines, f.current, w, o, maxWidth, measure, font, size);
    }
  }

  /** Widening the line being filled keeps the packing greedy. */
  lemma GrowGreedy(lines: seq<string>, current: string, wider: string, o: seq<string>,
                   maxWidth: real, measure: Measure, font: Font, size: nat)
    requires Greedy(lines + [current], o, maxWidth, measure, font, size)
    requires current <= wider || current == ""
    ensures Greedy(lines + [wider], o, maxWidth, measure, font, size)
  {
    var all := lines + [current];
    var next := lines + [wider];
    forall k | 0 <= k < |o|
      ensures measure(Joined(next[k], o[k]), font, size) > maxWidth && o[k] <= next[k + 1]
    {
      assert next[k] == all[k];
      if k + 1 < |o| {
        assert next[k + 1] == all[k + 1];
      } else {
        assert o[k] <= current;
      }
    }
  }

  /** Closing the line being filled because `w` does not fit on it keeps the packing greedy. */
  lemma CloseGreedy(lines: seq<string>, current: string, w: string, o: seq<string>,
                    maxWidth: real, measure: Measure, font: Font, size: nat)
    requires Greedy(lines + [current], o, maxWidth, measure, font, size)
    requires measure(Joined(current, w), font, size) > maxWidth
    ensures Greedy(lines + [current] + [w], o + [w], maxWidth, measure, font, size)
  {
    var all := lines + [current];
    var next := all + [w];
    var o' := o + [w];
    forall k | 0 <= k < |o'|
      ensures measure(Joined(next[k], o'[k]), font, size) > maxWidth && o'[k] <= next[k + 1]
    {
      if k < |o| {
        assert next[k] == all[k] && next[k + 1] == all[k + 1] && o'[k] == o[k];
      } else {
        assert next[k] == current && next[k + 1] == w;
      }
    }
  }

  /** The fold closes a line only when the next word does not fit on it: each closed line is
      followed by a line that starts with a word which, added to it, measures wider than
      `maxWidth`. */
  lemma {:induction false} FoldGreedy(words: seq<string>, maxWidth: real, measure: Measure, font: Font, size: nat)
    ensures var f := FoldWords(words, maxWidth, measure, font, size);
            Greedy(f.lines + [f.current], Openers(words, maxWidth, measure, font, size), maxWidth, measure, font, size)
    decreases |words|
  {
    if words != [] {
      var n := |words| - 1;
      FoldGreedy(words[..n], maxWidth, measure, font, size);
      StepGreedy(FoldWords(words[..n], maxWidth, measure, font, size), Openers(words[..n], maxWidth, measure, font, size),
                 words[n], maxWidth, measure, font, size);
    }
  }

  /** Lines are packed greedily: a paragraph's line `k` was closed only because the word that
      starts line `k + 1` did not fit on it. */
  lemma WrapParagraphGreedy(p: string, maxWidth: real, measure: Measure, font: Font, size: nat)
    ensures var lines := WrapParagraph(p, maxWidth, measure, font, size);
            var o := Openers(Split(p, ' '), maxWidth, measure, font, size);
            && |o| == |lines| - 1
            && forall k :: 0 <= k < |lines| - 1 ==>
                 o[k] in Split(p, ' ') && measure(Joined(lines[k], o[k]), font, size) > maxWidth && o[k] <= lines[k + 1]
  {
    FoldGreedy(Split(p, ' '), maxWidth, measure, font, size);
    OpenersAreWords(Split(p, ' '), maxWidth, measure, font, size);
  }

  // ---------------------------------------------------------------------------------------
  // Whole texts

  /** A character other than the space that no word holds is in no line. */
  lemma {:induction false} FoldAvoids(words: seq<string>, d: char, maxWidth: real, measure: Measure, font: Font, size: nat)
    requires d != ' '
    requires forall i :: 0 <= i < |words| ==> d !in words[i]
    ensures var f := FoldWords(words, maxWidth, measure, font, size);
            forall l :: l in f.lines + [f.current] ==> d !in l
    decreases |words|
  {
    if words != [] {
      FoldAvoids(words[..|words| - 1], d, maxWidth, measure, font, size);
    }
  }

  lemma {:induction false} WrapParagraphsAvoid(ps: seq<string>, d: char, maxWidth: real, measure: Measure, font: Font, size: nat)
    requires d != ' '
    requires forall i :: 0 <= i < |ps| ==> d !in ps[i]
    ensures forall l :: l in WrapParagraphs(ps, maxWidth, measure, font, size) ==> d !in l
    decreases |ps|
  {
    if ps != [] {
      var n := |ps| - 1;
      WrapParagraphsAvoid(ps[..n], d, maxWidth, measure, font, size);
      SplitKeepsAbsent(ps[n], ' ', d);
      FoldAvoids(Split(ps[n], ' '), d, maxWidth, measure, font, size);
    }
  }

  /** No wrapped line holds a line break: every '\n' of the text ends a paragraph. */
  lemma WrapNoLineBreaks(text: string, maxWidth: real, measure: Measure, font: Font, size: nat)
    ensures forall l :: l in Wrap(text, maxWidth, measure, font, size) ==> '\n' !in l
  {
    if text != "" {
      WrapParagraphsAvoid(Split(text, '\n'), '\n', maxWidth, measure, font, size);
    }
  }

  lemma {:induction false} WrapParagraphsKeepWords(ps: seq<string>, maxWidth: real, measure: Measure, font: Font, size: nat)
    ensures LineWords(WrapParagraphs(ps, maxWidth, measure, font, size)) == NonEmpty(ParagraphWords(ps))
    decreases |ps|
  {
    if ps != [] {
      var n := |ps| - 1;
      WrapParagraphsKeepWords(ps[..n], maxWidth, measure, font, size);
      WrapParagraphKeepsWords(ps[n], maxWidth, measure, font, size);
      LineWordsAppend(WrapParagraphs(ps[..n], maxWidth, measure, font, size),
                      WrapParagraph(ps[n], maxWidth, measure, font, size));
      NonEmptyAppend(ParagraphWords(ps[..n]), Split(ps[n], ' '));
    }
  }

  /** Across the whole text, words are never split, dropped or reordered: the lines show
      exactly the text's non-empty words, in order. */
  lemma WrapKeepsWords(text: string, maxWidth: real, measure: Measure, font: Font, size: nat)
    ensures LineWords(Wrap(text, maxWidth, measure, font, size)) == NonEmpty(TextWords(text))
  {
    if text == "" {
      assert Split(text, '\n') == [""];
      assert [""][..0] == [];
      assert Split("", ' ') == [""];
    } else {
      WrapParagraphsKeepWords(Split(text, '\n'), maxWidth, measure, font, size);
    }
  }

  lemma {:induction false} WrapParagraphsLinesFit(ps: seq<string>, maxWidth: real, measure: Measure, font: Font, size: nat)
    ensures forall l :: l in WrapParagraphs(ps, maxWidth, measure, font, size) ==>
              measure(l, font, size) <= maxWidth || l in ParagraphWords(ps) || l == ""
    decreases |ps|
  {
    if ps != [] {
      var n := |ps| - 1;
      WrapParagraphsLinesFit(ps[..n], maxWidth, measure, font, size);
      WrapParagraphLinesFit(ps[n], maxWidth, measure, font, size);
    }
  }

  /** Every wrapped line fits within `maxWidth`, or is a single word of the text, unbroken,
      or is empty. */
  lemma WrapLinesFit(text: string, maxWidth: real, measure: Measure, font: Font, size: nat)
    ensures forall l :: l in Wrap(text, maxWidth, measure, font, size) ==>
              measure(l, font, size) <= maxWidth || l in TextWords(text) || l == ""
  {
    if text != "" {
      WrapParagraphsLinesFit(Split(text, '\n'), maxWidth, measure, font, size);
    }
  }

  /** When every word (and the empty string) fits on its own, every wrapped line fits. */
  lemma WrapAllFit(text: string, maxWidth: real, measure: Measure, font: Font, size: nat)
    requires measure("", font, size) <= maxWidth
    requires forall w :: w in TextWords(text) ==> measure(w, font, size) <= maxWidth
    ensures forall l :: l in Wrap(text, maxWidth, measure, font, size) ==> measure(l, font, size) <= maxWidth
  {
    WrapLinesFit(text, maxWidth, measure, font, size);
  }
}
