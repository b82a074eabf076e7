# badgr text fitting, modelled in Dafny

badgr renders label and certificate artwork as SVG. A layout places text
boxes on a grid cell of an A4 page. Each box gets a text, and the font size
of each text is shrunk until the text fits the box. This project models the
three Go files that do the measuring, fitting and composing:

- `functions/gen/gen.go` and `functions/gen/svg.go` share the measuring loop
  `textSize`, the inline fit `min(16 * Width / advance, Height)` and the two
  `text/template` templates. `createSvg` (gen.go) looks each box's text up by
  parameter name in a map. `CreateSvg` (svg.go) takes the texts as a slice.
- `api/gen.go` has `textLength`, which sums advances only, and a handler
  that sizes one name with `60.4724409456 * Width / tlength`.

Modules:

| module | file | what it holds |
|---|---|---|
| `Outcomes` | outcomes.dfy | `Option`, `Result`, integer `Max` |
| `Fixed` | fixed.dfy | 26.6 fixed point and `Round` |
| `Ieee` | ieee.dfy | float64 results of a division (`Num`, `PosInf`, `NegInf`, `NaN`), `Div`, Go's `math.Min` |
| `Typeface` | typeface.dfy | the font as two partial lookups, font-load errors, the 16 ppem measuring size |
| `Measure` | measure.dfy | the `textSize` loop and what it computes |
| `Fit` | fit.dfy | the font-size formula of gen.go and svg.go |
| `Layout` | layout.dfy | the templates, the page size, and the composition both composers share |
| `Gen` | gen.dfy | `createSvg` with map lookup, and `GenResponse` |
| `SvgGen` | svg.dfy | `CreateSvg` with positional texts |
| `Api` | api.dfy | `textLength` and the handler's font formula |

How the environment enters the model:

- The font is a `Font`: `glyphIndex` and `glyphBounds` are partial functions
  (`None` is a returned error). Fetching the font over HTTP, reading it and
  parsing it is one input, a `FontLoad`. It is either a `Font` or a
  `FontError`.
- `textSize` fetches the font again on every call. So a composer takes
  `fetch: nat -> FontLoad`, where `fetch(i)` is the outcome of the fetch
  made for box `i`.
- The float64 formatting of `text/template` is the parameter
  `fmt: Float -> string`.

`functions/gen/svg.go:94-134` is a line-for-line copy of `textSize` in
`functions/gen/gen.go:36-76`. Both are modelled by `Measure.TextSize`. The
two templates and the page constants of svg.go (lines 16-29) are also copies
of gen.go's. Both composers are therefore proved against `Layout.Compose`.
They differ only in how they choose each box's text. Both files are
`package main` in one directory and both declare `textSize`, `TextBox`,
`TemplateConstructor` and the templates, so they are separate modules here.

Notes on what the code does:

- The advance is measured with `fixed.Int26_6(1024)`. That is 16 pixels per
  em, not 1024 units per em. This is where the constant 16 in the fit comes
  from (`Fit.MEASURED_PPEM`).
- There is no zero-advance guard. With a zero advance the division gives
  +Inf, NaN or -Inf, depending on the width's sign. `math.Min` then returns
  the box height for +Inf, NaN for NaN, and -Inf for -Inf.
- A parameter name missing from the map is not an error. Go's map index
  yields `""`, and the box is rendered with empty text.
- A glyph's advance is never negative (`Typeface.Advance`): fonts store
  advance widths unsigned, and the measuring size is positive. So a measured
  width is never negative, and the fit never sees a negative advance.
- A character the font cannot resolve is skipped only when a lookup returns
  an error. The font decides whether a missing glyph is reported as an error
  or as glyph 0. With glyph 0, its advance is counted.

## Model

| member | source | states |
|---|---|---|
| `Fixed.Round` | functions/gen/gen.go:75 | `Int26_6.Round` gives the whole unit nearest to x/64, with halves rounded up: `64r - 32 <= x < 64r + 32` |
| `Fixed.RoundMonotone` | functions/gen/gen.go:69 | rounding preserves order |
| `Fixed.RoundWhole` | functions/gen/gen.go:75 | a whole number of 64ths rounds to itself, so a zero total rounds to 0 |
| `Ieee.Div` | functions/gen/gen.go:137-138 | a float64 quotient is finite exactly when the divisor is non-zero, and then it times the divisor gives the dividend; over a zero divisor a positive dividend gives +Inf, a negative one -Inf, and 0 gives NaN |
| `Ieee.Min` | functions/gen/gen.go:137-138 | `math.Min` with a finite second argument: NaN and -Inf survive, +Inf yields the second argument, and a finite first argument yields the smaller of the two |
| `Measure.TotalAdvance` | functions/gen/gen.go:55-67 | the loop's `totaladv` after a prefix of the text; glyph advances are never negative, so neither is the total |
| `Measure.MaxHeight` | functions/gen/gen.go:56-69 | the running height starts at 0 and only grows by `max`, so it is never negative |
| `Measure.MaxGlyphHeight` | functions/gen/gen.go:68-69 | the largest rounded glyph height bounds every glyph and is either 0 or attained by one of them |
| `Measure.TextSize` | functions/gen/gen.go:36-76 | a failed font load returns its error; otherwise the result is `[Round(total advance), max height]`, with the loop's `totaladv` and `height` equal to `TotalAdvance` and `MaxHeight` of every prefix; the width and height are never negative (svg.go:94-134 is the same code) |
| `Measure.TotalAdvanceIsSumOfContributing` | functions/gen/gen.go:55-75 | the loop's total is the sum of advances over exactly the code points whose glyph index and glyph bounds both resolve, in order |
| `Measure.MaxHeightIsMaxOfContributing` | functions/gen/gen.go:56-69 | the loop's height is the largest rounded `Max.Y - Min.Y` over exactly the contributing glyphs, or 0 |
| `Measure.HeightBoundsEveryContributingGlyph` | functions/gen/gen.go:68-69 | the returned height is at least every contributing glyph's rounded height, and is 0 or one of them |
| `Measure.MeasureAppend` | functions/gen/gen.go:58-70 | advances add across any split of the text and heights combine by max, so no kerning is applied between neighbours |
| `Measure.FailedLookupContributesNothing` | functions/gen/gen.go:59-66 | a code point whose glyph index or glyph bounds lookup fails changes neither width nor height, wherever it stands |
| `Measure.UnresolvableTextMeasuresZero` | functions/gen/gen.go:55-75 | a text of which no code point resolves, the empty string included, measures `[0, 0]` |
| `Fit.FontSize` | functions/gen/gen.go:137-138 | the size is finite iff the advance is non-zero or the width positive; a finite size is at most the box height, and below the height it makes the advance at that size equal the box width; with a positive advance the text at that size is never wider than the box, so the size is min(16·Width/advance, Height); the zero-advance branch gives the height, NaN or -Inf by the width's sign |
| `Fit.FontSizeIsLargestFitting` | functions/gen/gen.go:137-138 | with a positive advance no size that fits both height and width is larger than the computed one |
| `Fit.FontSizeFitsWidth` | functions/gen/gen.go:137-138 | with a positive advance the text at the computed size is no wider than the box |
| `Fit.FontSizeMonotoneInWidth` | functions/gen/gen.go:137-138 | with a positive advance a wider box never gets a smaller font |
| `Layout.TextElement` | functions/gen/gen.go:85-88 | the `<text>` element ends with the text verbatim, with no escaping, followed by `</text>` |
| `Layout.SvgElement` | functions/gen/gen.go:79-82 | the document ends with the contents verbatim followed by `</svg>` |
| `Layout.TextElementDeterminesText` | functions/gen/gen.go:85-88 | two elements with the same position and size are equal only if their texts are equal, so the text is inserted whole |
| `Layout.ContentsUpTo` | functions/gen/gen.go:120-148 | the contents after the first n boxes are built exactly when each of the first n font fetches succeeds |
| `Layout.Compose` | functions/gen/gen.go:117-168 | the composition both loops are proved to build; a successful result opens with the page width `210/PerWidth` and height `297/PerHeight` in mm and closes with `</svg>` |
| `Layout.ContentsStep` | functions/gen/gen.go:121-147 | one loop turn appends the fitted fragment of the next box, or its measurement error ends the composition with that error |
| `Layout.FailureSticks` | functions/gen/gen.go:123-127 | once a box fails, the composition fails with that box's error |
| `Layout.ContentsAreJoinedFragments` | functions/gen/gen.go:120-148 | the contents are the fragments of the boxes concatenated in box order, starting from `""` |
| `Layout.ComposeSucceedsIff` | functions/gen/gen.go:113-169 | composition succeeds exactly when every box's font fetch succeeds |
| `Layout.ComposeFailsWithFirstError` | functions/gen/gen.go:123-127 | the first failing box decides the error, and no partial output is returned |
| `Layout.ComposeOutput` | functions/gen/gen.go:150-168 | a successful result is the page template, with width `210/PerWidth` and height `297/PerHeight` in mm and in the viewBox, around the joined fitted fragments |
| `Gen.Param` | functions/gen/gen.go:122 | Go's map index: a present key gives its text, a missing key gives `""` |
| `Gen.CreateSvg` | functions/gen/gen.go:113-169 | the loop builds exactly the composition of the boxes, each with the text its `ParamName` selects |
| `Gen.MissingParamRendersEmpty` | functions/gen/gen.go:122-138 | a `ParamName` missing from the map is rendered with empty text at the zero-advance size, not reported as an error |
| `Gen.GenResponse` | functions/gen/gen.go:178-206 | on the fixed configuration it returns the rendered SVG, or the single message "error in creating svg" |
| `Gen.ResponsePage` | functions/gen/gen.go:179-197 | the fixed configuration renders a 105 mm by 74.25 mm page whose first element shows "Ksenya" at (52.5, 29.813) in a 92 by 26.5 box |
| `SvgGen.Placements` | functions/gen/svg.go:55-70 | box `i` is paired with `data[i]`, which needs at least one text per box |
| `SvgGen.CreateSvg` | functions/gen/svg.go:45-92 | appending each fragment to `svgdata.Contents` in box order builds exactly the composition of box `i` with `data[i]` |
| `SvgGen.ExtraDataIgnored` | functions/gen/svg.go:55 | texts beyond the last box do not affect the output |
| `SvgGen.AgreesWithMapVersion` | functions/gen/svg.go:45-92 | the map composer of gen.go renders the same result as this positional one given the looked-up texts in box order |
| `Api.TextLength` | api/gen.go:34-70 | the loop, which looks up glyph bounds but discards them, returns exactly `Length`: the font load's error, or `Round` of the summed advances, which is never negative |
| `Api.LengthIsSumOfContributing` | api/gen.go:53-69 | a failed font load returns its error; otherwise the length is `Round` of the advances summed over exactly the code points whose two lookups succeed |
| `Api.EmptyTextLengthIsZero` | api/gen.go:53-69 | the empty string measures 0 |
| `Api.FontSize` | api/gen.go:116 | the size is finite iff the length is non-zero, and then size times length equals `60.4724409456 * Width`; a zero length with a positive width gives +Inf |
| `Api.NoHeightClamp` | api/gen.go:116 | nothing clamps the size: a one-pixel advance in the 105-wide cell gives a size above the 74.25 cell height |
| `Api.HandlerFont` | api/gen.go:111-116 | the size the handler computes as written is finite exactly when the measurement succeeded with a non-zero length, and it then fills the 105-wide cell; a failed measurement gives +Inf |
| `Api.HandlerFallsThroughToInfinity` | api/gen.go:111-116 | as written, a failed font load makes `textLength("aa;sdfKsykaa")` fail with `tlength == 0`, and the handler goes on to size the name at +Inf |
| `Api.CheckedHandlerFont` | api/gen.go:111-116 | with the missing `return` added, the handler fails with the measurement's error exactly when the measurement fails, and otherwise computes the same size |
| `Api.CheckedHandlerFontFinite` | api/gen.go:116 | with the `return` in place, a non-zero measured length gives a finite size that exactly fills the cell width |

## Left out

- Fetching and parsing the font (`http.Get`, `ioutil.ReadAll`, `opentype.ParseReaderAt`, `homeUrl`) is network I/O and a foreign library. It is the `FontLoad` input, one per call.
- The sfnt library's glyph lookups are not modelled. They are the two abstract functions of `Typeface.Font`, including the reuse of one `sfnt.Buffer` across them.
- Logging (zerolog setup in `init` and every `log.*` call) is not modelled, because it does not change any result.
- HTTP and Lambda glue is not modelled: `Handle`'s method dispatch, the writing of responses, the `html/template` escaping of api/gen.go, and `functions/gen/main.go`. Only the handler's font size is kept (`Api.HandlerFont`).
- Template execution errors are not modelled. The templates are fixed and write into a `bytes.Buffer`, which never fails, so the `err != nil` branches after `Execute` cannot fire.
- `Fixed.Round`: does not model int32 wrap-around of `Int26_6` (also in `x + 32`, the advance sum and `Max.Y - Min.Y`). Values are unbounded integers.
- `Fit.FontSize`: float64 values are exact reals with no rounding, and the sign of zero is not modelled.
- `Api.FontSize`: float32 values are exact reals with no rounding.
- Number formatting by `text/template` is not modelled. It is the parameter `fmt`.
- `Measure.TextSize`: the Go code takes the height maximum through `float64`. This is exact for the integers a glyph height can have, so the model uses an integer maximum.
- UTF-8 decoding of invalid bytes into U+FFFD is not modelled. A text is a sequence of Unicode scalar values (`string`).
- `BOX_TEMPLATE` and `Params` of functions/gen/gen.go are unused there, so they are not modelled. The page `height` constant of api/gen.go is used only by `Api.NoHeightClamp`.

## Findings

| source | as written | input that shows it | evidently intended | confidence | as-written member | corrected member |
|---|---|---|---|---|---|---|
| api/gen.go:111-116 | after `textLength` fails, the handler writes an error response but does not return; it computes the font from `tlength == 0` and renders `font-size:+Infpx` | `textLength` fails, for instance because the font fetch fails | return after the error, as the other error branches of `handle` do | high, not executed | `Api.HandlerFallsThroughToInfinity` | `Api.CheckedHandlerFont` |
