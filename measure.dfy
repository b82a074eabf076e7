/**
 * Glyph-advance measurement: the `textSize` loop of functions/gen/gen.go
 * (copied verbatim as functions/gen/svg.go's `textSize`) over an abstract
 * font. The loop walks the code points, skips one whose glyph index or
 * glyph bounds cannot be looked up, sums the advances and keeps the largest
 * rounded glyph height.
 */
module Measure {
  import opened Outcomes
  import opened Fixed
  import opened Typeface

  /** What `textSize` returns: `[2]int{totaladv.Round(), height}`. */
  datatype Measured = Measured(width: int, height: int)

  /** The metrics of the glyph drawn for c, or None when either lookup fails. */
  function Resolve(font: Font, c: char): Option<GlyphMetrics>
  {
    match font.glyphIndex(c)
    case None => None
    case Some(idx) => font.glyphBounds(idx, REFERENCE_PPEM)
  }

  /** `(bounds.Max.Y - bounds.Min.Y).Round()`. */
  function GlyphHeight(g: GlyphMetrics): int
  {
    Round(g.bounds.max.y - g.bounds.min.y)
  }

  /** The 26.6 advance that code point c adds to the running total. */
  function AdvanceOf(font: Font, c: char): Int26_6
  {
    match Resolve(font, c)
    case None => 0
    case Some(g) => g.advance
  }

  // The loop's accumulators after a prefix of the text, defined the way the
  // loop extends them: one code point at the end at a time.

  /** `totaladv` after the loop has seen all of text. */
  function TotalAdvance(font: Font, text: string): (total: Int26_6)
    ensures total >= 0
    decreases |text|
  {
    if text == [] then 0
    else TotalAdvance(font, text[..|text| - 1]) + AdvanceOf(font, text[|text| - 1])
  }

  /** `height` after the loop has seen all of text; it starts at 0. */
  function MaxHeight(font: Font, text: string): (h: int)
    ensures h >= 0
    decreases |text|
  {
    if text == [] then 0
    else
      var h := MaxHeight(font, text[..|text| - 1]);
      match Resolve(font, text[|text| - 1])
      case None => h
      case Some(g) => Max(h, GlyphHeight(g))
  }

  /** The measurement of text in a loaded font. */
  function Measurement(font: Font, text: string): (m: Measured)
    ensures m.width >= 0 && m.height >= 0
  {
    Measured(Round(TotalAdvance(font, text)), MaxHeight(font, text))
  }

  /** What `textSize` returns, given the outcome of fetching and parsing the font. */
  function MeasureText(load: FontLoad, text: string): Result<Measured, FontError>
  {
    match load
    case Failure(e) => Failure(e)
    case Success(font) => Success(Measurement(font, text))
  }

  /** `textSize` (functions/gen/gen.go and its copy in functions/gen/svg.go). */
  method TextSize(load: FontLoad, text: string) returns (r: Result<Measured, FontError>)
    ensures load.Failure? ==> r == Failure(load.error)
    ensures load.Success? ==> r.Success? && r.value == Measurement(load.value, text)
    ensures load.Success? ==> r.value.width >= 0 && r.value.height >= 0
  {
    if load.Failure? {
      return Failure(load.error);
    }
    var font := load.value;
    var totaladv: Int26_6 := 0;
    var height := 0;
    for i := 0 to |text|
      invariant totaladv == TotalAdvance(font, text[..i])
      invariant height == MaxHeight(font, text[..i])
    {
      var c := text[i];
      assert text[..i + 1][..i] == text[..i];
      var idx := font.glyphIndex(c);
      if idx.None? {
        continue;
      }
      var glyph := font.glyphBounds(idx.value, REFERENCE_PPEM);
      if glyph.None? {
        continue;
      }
      totaladv := totaladv + glyph.value.advance;
      height := Max(height, Round(glyph.value.bounds.max.y - glyph.value.bounds.min.y));
    }
    assert text[..|text|] == text;
    RoundWhole(0);
    RoundMonotone(0, totaladv);
    return Success(Measured(Round(totaladv), height));
  }

  // An independent reading of the same measurement: first pick out the
  // glyphs that contribute, in text order, then sum and maximise over them.

  /** The metrics of the code points whose two lookups both succeed, in order. */
  function Contributing(font: Font, text: string): seq<GlyphMetrics>
  {
    if text == [] then []
    else
      (match Resolve(font, text[0]) case None => [] case Some(g) => [g])
      + Contributing(font, text[1..])
  }

  function SumAdvances(gs: seq<GlyphMetrics>): Int26_6
  {
    if gs == [] then 0 else gs[0].advance + SumAdvances(gs[1..])
  }

  /** The largest rounded height among gs, or 0: an upper bound that is attained unless 0. */
  function MaxGlyphHeight(gs: seq<GlyphMetrics>): (h: int)
    ensures h >= 0
    ensures forall k :: 0 <= k < |gs| ==> GlyphHeight(gs[k]) <= h
    ensures h == 0 || exists k :: 0 <= k < |gs| && GlyphHeight(gs[k]) == h
  {
    if gs == [] then 0
    else
      var rest := MaxGlyphHeight(gs[1..]);
      assert forall k :: 1 <= k < |gs| ==> gs[k] == gs[1..][k - 1];
      Max(GlyphHeight(gs[0]), rest)
  }

  lemma {:induction false} ContributingAppend(font: Font, s: string, t: string)
    ensures Contributing(font, s + t) == Contributing(font, s) + Contributing(font, t)
  {
    if s != [] {
      assert (s + t)[0] == s[0];
      assert (s + t)[1..] == s[1..] + t;
      ContributingAppend(font, s[1..], t);
    } else {
      assert s + t == t;
    }
  }

  lemma {:induction false} SumAdvancesAppend(a: seq<GlyphMetrics>, b: seq<GlyphMetrics>)
    ensures SumAdvances(a + b) == SumAdvances(a) + SumAdvances(b)
  {
    if a != [] {
      assert (a + b)[1..] == a[1..] + b;
      SumAdvancesAppend(a[1..], b);
    } else {
      assert a + b == b;
    }
  }

  lemma {:induction false} MaxGlyphHeightAppend(a: seq<GlyphMetrics>, b: seq<GlyphMetrics>)
    ensures MaxGlyphHeight(a + b) == Max(MaxGlyphHeight(a), MaxGlyphHeight(b))
  {
    if a != [] {
      assert (a + b)[1..] == a[1..] + b;
      MaxGlyphHeightAppend(a[1..], b);
    } else {
      assert a + b == b;
    }
  }

  /** The returned width is Round of the advances summed over exactly the contributing glyphs. */
  lemma {:induction false} TotalAdvanceIsSumOfContributing(font: Font, text: string)
    ensures TotalAdvance(font, text) == SumAdvances(Contributing(font, text))
  {
    if text != [] {
      var init, last := text[..|text| - 1], text[|text| - 1];
      assert text == init + [last];
      TotalAdvanceIsSumOfContributing(font, init);
      ContributingAppend(font, init, [last]);
      SumAdvancesAppend(Contributing(font, init), Contributing(font, [last]));
      assert [last][1..] == [];
    }
  }

  /** The returned height is the largest rounded height of a contributing glyph, or 0. */
  lemma {:induction false} MaxHeightIsMaxOfContributing(font: Font, text: string)
    ensures MaxHeight(font, text) == MaxGlyphHeight(Contributing(font, text))
  {
    if text != [] {
      var init, last := text[..|text| - 1], text[|text| - 1];
      assert text == init + [last];
      MaxHeightIsMaxOfContributing(font, init);
      ContributingAppend(font, init, [last]);
      MaxGlyphHeightAppend(Contributing(font, init), Contributing(font, [last]));
      assert [last][1..] == [];
    }
  }

  /**
   * The measured height bounds the rounded height of every glyph that
   * contributes, and is either 0 or the height of one of them.
   */
  lemma HeightBoundsEveryContributingGlyph(font: Font, text: string)
    ensures forall g :: g in Contributing(font, text) ==> GlyphHeight(g) <= MaxHeight(font, text)
    ensures MaxHeight(font, text) == 0 ||
      exists g :: g in Contributing(font, text) && GlyphHeight(g) == MaxHeight(font, text)
  {
    MaxHeightIsMaxOfContributing(font, text);
  }

  /** Advances add up across a split of the text: no kerning between neighbours. */
  lemma MeasureAppend(font: Font, s: string, t: string)
    ensures TotalAdvance(font, s + t) == TotalAdvance(font, s) + TotalAdvance(font, t)
    ensures MaxHeight(font, s + t) == Max(MaxHeight(font, s), MaxHeight(font, t))
  {
    TotalAdvanceIsSumOfContributing(font, s + t);
    TotalAdvanceIsSumOfContributing(font, s);
    TotalAdvanceIsSumOfContributing(font, t);
    MaxHeightIsMaxOfContributing(font, s + t);
    MaxHeightIsMaxOfContributing(font, s);
    MaxHeightIsMaxOfContributing(font, t);
    ContributingAppend(font, s, t);
    SumAdvancesAppend(Contributing(font, s), Contributing(font, t));
    MaxGlyphHeightAppend(Contributing(font, s), Contributing(font, t));
  }

  /** A code point whose glyph index or glyph bounds lookup fails changes neither width nor height. */
  lemma FailedLookupContributesNothing(font: Font, s: string, c: char, t: string)
    requires Resolve(font, c).None?
    ensures Measurement(font, s + [c] + t) == Measurement(font, s + t)
  {
    MeasureAppend(font, s + [c], t);
    MeasureAppend(font, s, [c]);
    MeasureAppend(font, s, t);
    assert [c][..0] == [];
  }

  /** When no code point resolves (the empty string included) the text measures [0, 0]. */
  lemma {:induction false} UnresolvableTextMeasuresZero(font: Font, text: string)
    requires forall k :: 0 <= k < |text| ==> Resolve(font, text[k]).None?
    ensures Measurement(font, text) == Measured(0, 0)
  {
    if text != [] {
      UnresolvableTextMeasuresZero(font, text[..|text| - 1]);
    }
  }
}
