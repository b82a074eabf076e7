/**
 * api/gen.go: `textLength` measures advances only, and the request handler
 * sizes a single name with `60.4724409456 * Width / tlength`, with no
 * height clamp and no guard for a zero length.
 */
module Api {
  import opened Outcomes
  import opened Ieee
  import opened Fixed
  import opened Typeface
  import opened Measure

  /** What `textLength` returns: `Failure(e)` stands for `(0, e)`. */
  function Length(load: FontLoad, text: string): Result<int, FontError>
  {
    match load
    case Failure(e) => Failure(e)
    case Success(font) => Success(Round(TotalAdvance(font, text)))
  }

  /** `textLength`: glyph bounds are looked up but discarded; only advances are summed. */
  method TextLength(load: FontLoad, text: string) returns (r: Result<int, FontError>)
    ensures r == Length(load, text)
    ensures r.Success? ==> r.value >= 0
  {
    if load.Failure? {
      return Failure(load.error);
    }
    var font := load.value;
    var totaladv: Int26_6 := 0;
    for i := 0 to |text|
      invariant totaladv == TotalAdvance(font, text[..i])
    {
      assert text[..i + 1][..i] == text[..i];
      var idx := font.glyphIndex(text[i]);
      if idx.None? {
        continue;
      }
      var glyph := font.glyphBounds(idx.value, REFERENCE_PPEM);
      if glyph.None? {
        continue;
      }
      totaladv := totaladv + glyph.value.advance;
    }
    assert text[..|text|] == text;
    RoundWhole(0);
    RoundMonotone(0, totaladv);
    return Success(Round(totaladv));
  }

  /**
   * A failed font load yields its error; otherwise the length is Round of
   * the advances of exactly the code points whose two lookups succeed.
   */
  lemma LengthIsSumOfContributing(load: FontLoad, text: string)
    ensures load.Failure? ==> Length(load, text) == Failure(load.error)
    ensures load.Success? ==> Length(load, text) == Success(Round(SumAdvances(Contributing(load.value, text))))
  {
    if load.Success? {
      TotalAdvanceIsSumOfContributing(load.value, text);
    }
  }

  /** The empty name measures 0 once the font has loaded. */
  lemma EmptyTextLengthIsZero(font: Font)
    ensures Length(Success(font), "") == Success(0)
  {
    RoundWhole(0);
  }

  /** The calibration constant of api/gen.go. */
  const FONT_SCALE: real := 60.4724409456

  /** `60.4724409456 * Width / float32(tlength)`: no clamp to the height. */
  function FontSize(width: real, tlength: int): (r: Float)
    ensures r.Num? <==> tlength != 0
    ensures r.Num? ==> r.value * tlength as real == FONT_SCALE * width
    ensures tlength == 0 && width > 0.0 ==> r == PosInf
  {
    Div(FONT_SCALE * width, tlength as real)
  }

  /** The handler's page (`width`, `height`) and its `Params`: a 2 by 4 grid cell. */
  const PAGE_WIDTH: real := 210.0
  const PAGE_HEIGHT: real := 297.0
  const NAME: string := "aa;sdfKsykaa"
  const CELL_WIDTH: real := PAGE_WIDTH / 2.0
  const CELL_HEIGHT: real := PAGE_HEIGHT / 4.0

  /** Nothing bounds the size by the cell height: a one-pixel advance gives a size above 74.25. */
  lemma NoHeightClamp()
    ensures FontSize(CELL_WIDTH, 1).Num? && FontSize(CELL_WIDTH, 1).value > CELL_HEIGHT
  {
  }

  /**
   * The font size `handle` computes as written, from what
   * `textLength(data.Name)` returned: after a failed measurement it logs and
   * writes an error response but does not return, so it goes on with the
   * `tlength == 0` that `textLength` returns alongside its error.
   */
  function HandlerFont(measured: Result<int, FontError>): (r: Float)
    ensures r.Num? <==> measured.Success? && measured.value != 0
    ensures r.Num? ==> r.value * measured.value as real == FONT_SCALE * CELL_WIDTH
    ensures measured.Failure? ==> r == PosInf
  {
    FontSize(CELL_WIDTH, match measured case Failure(_) => 0 case Success(n) => n)
  }

  /** A failed font load makes the handler size its fixed name at +Inf. */
  lemma HandlerFallsThroughToInfinity(load: FontLoad)
    requires load.Failure?
    ensures Length(load, NAME) == Failure(load.error)
    ensures HandlerFont(Length(load, NAME)) == PosInf
  {
  }

  /** The handler with the missing `return`: a failed measurement ends the request. */
  function CheckedHandlerFont(measured: Result<int, FontError>): (r: Result<Float, FontError>)
    ensures r.Failure? <==> measured.Failure?
    ensures r.Failure? ==> r.error == measured.error
    ensures r.Success? ==> r.value == HandlerFont(measured)
  {
    match measured
    case Failure(e) => Failure(e)
    case Success(n) => Success(FontSize(CELL_WIDTH, n))
  }

  /**
   * Once corrected, the handler never sizes a name from a failed
   * measurement, and a non-zero measured length gives a finite size that
   * exactly fills the cell width.
   */
  lemma CheckedHandlerFontFinite(measured: Result<int, FontError>)
    requires measured.Success? && measured.value != 0
    ensures CheckedHandlerFont(measured).Success?
    ensures CheckedHandlerFont(measured).value.Num?
    ensures CheckedHandlerFont(measured).value.value * measured.value as real == FONT_SCALE * CELL_WIDTH
  {
  }
}
