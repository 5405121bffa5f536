/** The fixed style table of the generator: the three embedded fonts, the colour roles,
    the point sizes, the page margin and the per-kind line heights. */
module Style {

  /** The three standard fonts the document embeds. */
  datatype Font = Helvetica | HelveticaBold | Courier

  /** Colour roles. The colour values themselves are not modelled, only which role an
      instruction is drawn in. */
  datatype Color = TitleColor | HeadingColor | BodyColor | CodeBgColor | CodeTextColor | HeaderFooterColor

  const TitleSize: nat := 24
  const H1Size: nat := 18
  const H2Size: nat := 14
  const BodySize: nat := 12
  const CodeSize: nat := 10
  const HeaderFooterSize: nat := 10

  /** One inch, in points. */
  const Margin: int := 72
  const BodyLineHeight: int := 18
  const HeadingLineHeight: int := 24
  const CodeLineHeight: int := 14
  /** The gap before a section heading, one and a half heading lines: 24 * 1.5 = 36. */
  const HeadingGap: int := HeadingLineHeight * 3 / 2

  /** The font's text measure: the width of a string set in a font at a point size. */
  type Measure = (string, Font, nat) -> real
}
