/**
 * Font-size fitting as functions/gen/gen.go and functions/gen/svg.go write
 * it inline: `math.Min(16*box.Width/float64(tsize[0]), box.Height)`.
 *
 * The advance is measured at 16 pixels per em, so 16 * Width / advance is
 * the size at which the text's advance equals the box width. There is no
 * guard for a zero advance: the float64 division then yields +Inf, NaN or
 * -Inf and `math.Min` decides what survives.
 */
module Fit {
  import opened Ieee
  import Typeface

  /** The pixels-per-em the advance was measured at: the 26.6 value 1024 is 16.0. */
  const MEASURED_PPEM: real := Typeface.REFERENCE_PPEM as real / 64.0

  /**
   * The font size of one box, given its measured (rounded) advance, which
   * `Measure.TextSize` proves is never negative.
   */
  function FontSize(boxWidth: real, boxHeight: real, advance: nat): (r: Float)
    ensures r.Num? <==> advance != 0 || boxWidth > 0.0
    ensures r.Num? ==> r.value <= boxHeight
    ensures r.Num? && r.value < boxHeight ==> r.value * advance as real == MEASURED_PPEM * boxWidth
    ensures advance > 0 ==> r.value * advance as real <= MEASURED_PPEM * boxWidth
    ensures advance == 0 && boxWidth > 0.0 ==> r == Num(boxHeight)
    ensures advance == 0 && boxWidth == 0.0 ==> r == NaN
    ensures advance == 0 && boxWidth < 0.0 ==> r == NegInf
  {
    Min(Div(MEASURED_PPEM * boxWidth, advance as real), boxHeight)
  }

  /**
   * With a positive advance the size is the largest one that keeps the text
   * within the box: no size s with s <= height and s * advance <= 16 * width
   * is larger.
   */
  lemma FontSizeIsLargestFitting(boxWidth: real, boxHeight: real, advance: int, s: real)
    requires advance > 0
    requires s <= boxHeight && s * advance as real <= MEASURED_PPEM * boxWidth
    ensures FontSize(boxWidth, boxHeight, advance).Num?
    ensures s <= FontSize(boxWidth, boxHeight, advance).value
  {
    var a := advance as real;
    var q := MEASURED_PPEM * boxWidth / a;
    assert q * a == MEASURED_PPEM * boxWidth;
    if s > q {
      assert s * a > q * a;
    }
  }

  /** With a positive advance the rendered text never overflows the box width. */
  lemma FontSizeFitsWidth(boxWidth: real, boxHeight: real, advance: int)
    requires advance > 0
    ensures FontSize(boxWidth, boxHeight, advance).Num?
    ensures FontSize(boxWidth, boxHeight, advance).value * advance as real <= MEASURED_PPEM * boxWidth
  {
    var a := advance as real;
    var q := MEASURED_PPEM * boxWidth / a;
    assert q * a == MEASURED_PPEM * boxWidth;
    var r := FontSize(boxWidth, boxHeight, advance).value;
    assert r <= q;
  }

  /** For a fixed box height and positive advance, a wider box never gets a smaller font. */
  lemma FontSizeMonotoneInWidth(w1: real, w2: real, boxHeight: real, advance: int)
    requires advance > 0 && w1 <= w2
    ensures FontSize(w1, boxHeight, advance).Num? && FontSize(w2, boxHeight, advance).Num?
    ensures FontSize(w1, boxHeight, advance).value <= FontSize(w2, boxHeight, advance).value
  {
    FontSizeFitsWidth(w1, boxHeight, advance);
    var r1 := FontSize(w1, boxHeight, advance).value;
    var a := advance as real;
    assert r1 * a <= MEASURED_PPEM * w2;
    FontSizeIsLargestFitting(w2, boxHeight, advance, r1);
  }
}
