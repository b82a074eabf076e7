/**
 * The parsed font, as the measuring loop uses it. The sfnt library that
 * answers these two queries is not part of this model, so a font is just
 * the pair of partial functions.
 */
module Typeface {
  import opened Outcomes
  import opened Fixed

  /** `sfnt.GlyphIndex` is a uint16. */
  type GlyphIndex = i: int | 0 <= i < 0x1_0000

  /** `fixed.Point26_6` and `fixed.Rectangle26_6`. */
  datatype Point = Point(x: Int26_6, y: Int26_6)
  datatype Rect = Rect(min: Point, max: Point)

  /**
   * A glyph's 26.6 advance. It is never negative: a font stores advance
   * widths unsigned, and they are scaled by a positive size.
   */
  type Advance = a: Int26_6 | 0 <= a

  /** What `GlyphBounds` returns when it succeeds: the bounding box and the advance. */
  datatype GlyphMetrics = GlyphMetrics(bounds: Rect, advance: Advance)

  /**
   * `font.GlyphIndex(&b, c)` and `font.GlyphBounds(&b, idx, ppem, hinting)`
   * with hinting off; `None` is a returned error.
   */
  datatype Font = Font(
    glyphIndex: char -> Option<GlyphIndex>,
    glyphBounds: (GlyphIndex, Int26_6) -> Option<GlyphMetrics>)

  /** Why fetching and parsing the font file failed (http.Get, ReadAll, ParseReaderAt). */
  datatype FontError = FetchError | ReadError | ParseError

  /** The outcome of one fetch-read-parse of the font file. */
  type FontLoad = Result<Font, FontError>

  /** The size the glyphs are measured at: `fixed.Int26_6(1024)`, i.e. 16 pixels per em. */
  const REFERENCE_PPEM: Int26_6 := 1024
}
