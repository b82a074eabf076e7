/**
 * functions/gen/gen.go: `createSvg` looks up each box's text by its
 * parameter name in a map and composes the page; `GenResponse` runs it on
 * a fixed two-box configuration.
 */
module Gen {
  import opened Outcomes
  import opened Ieee
  import opened Typeface
  import opened Measure
  import opened Fit
  import opened Layout

  datatype TextBox = TextBox(x: real, y: real, width: real, height: real, paramName: string)

  datatype TemplateConstructor = TemplateConstructor(perHeight: int, perWidth: int, textBoxes: seq<TextBox>)

  /** `data[name]`: indexing a Go map with a missing key yields "", not an error. */
  function Param(data: map<string, string>, name: string): (text: string)
    ensures name in data ==> text == data[name]
    ensures name !in data ==> text == ""
  {
    if name in data then data[name] else ""
  }

  /** Each box with the text its parameter name selects, in box order. */
  function Placements(c: TemplateConstructor, data: map<string, string>): (ps: seq<Placement>)
    ensures |ps| == |c.textBoxes|
  {
    seq(|c.textBoxes|, i requires 0 <= i < |c.textBoxes| =>
      var box := c.textBoxes[i];
      Placement(box.x, box.y, box.width, box.height, Param(data, box.paramName)))
  }

  /** What `createSvg(c, data)` returns when its i-th font fetch yields fetch(i). */
  function Render(fetch: nat -> FontLoad, fmt: Float -> string, c: TemplateConstructor, data: map<string, string>)
    : Result<string, FontError>
  {
    Compose(fetch, fmt, c.perWidth, c.perHeight, Placements(c, data))
  }

  /** `createSvg`: `Failure(e)` stands for the Go result `("", e)`. */
  method CreateSvg(fetch: nat -> FontLoad, fmt: Float -> string, c: TemplateConstructor, data: map<string, string>)
    returns (r: Result<string, FontError>)
    ensures r == Render(fetch, fmt, c, data)
  {
    var width := Div(PAGE_WIDTH, c.perWidth as real);
    var height := Div(PAGE_HEIGHT, c.perHeight as real);
    ghost var items := Placements(c, data);
    var contents := "";
    for i := 0 to |c.textBoxes|
      invariant ContentsUpTo(fetch, fmt, items, i) == Success(contents)
    {
      var box := c.textBoxes[i];
      var text := Param(data, box.paramName);
      assert items[i] == Placement(box.x, box.y, box.width, box.height, text);
      ContentsStep(fetch, fmt, items, i, contents);
      var tsize := TextSize(fetch(i), text);
      if tsize.Failure? {
        return Failure(tsize.error);
      }
      var fontSize := FontSize(box.width, box.height, tsize.value.width);
      var fragment := TextElement(fmt, box.x, box.y, fontSize, text);
      contents := contents + fragment;
    }
    return Success(SvgElement(fmt, width, height, contents));
  }

  /**
   * A parameter missing from data is not an error: when the fetches succeed
   * its box is rendered with empty text, at the size the fit gives a zero
   * advance (the box height for a positive width, NaN for a zero width).
   */
  lemma MissingParamRendersEmpty(fetch: nat -> FontLoad, fmt: Float -> string, c: TemplateConstructor,
                                 data: map<string, string>, i: nat)
    requires i < |c.textBoxes| && c.textBoxes[i].paramName !in data
    requires AllFetched(fetch, |c.textBoxes|)
    ensures Render(fetch, fmt, c, data).Success?
    ensures Fragments(fetch, fmt, Placements(c, data))[i] ==
      var box := c.textBoxes[i];
      TextElement(fmt, box.x, box.y, FontSize(box.width, box.height, 0), "")
  {
  }

  /** The data `GenResponse` renders. */
  const RESPONSE_DATA: map<string, string> := map["fname" := "Ksenya", "lname" := "Kosterova"]

  /** The layout `GenResponse` renders: a 2 by 4 grid cell with two centred boxes. */
  const RESPONSE_LAYOUT: TemplateConstructor :=
    TemplateConstructor(4, 2, [
      TextBox(PAGE_WIDTH / 4.0, 29.813, 92.0, 26.5, "fname"),
      TextBox(PAGE_WIDTH / 4.0, 60.257, 90.476, 36.364, "lname")])

  /** `GenResponse`: any error from `createSvg` becomes one fixed message. */
  method GenResponse(fetch: nat -> FontLoad, fmt: Float -> string) returns (r: Result<string, string>)
    ensures r.Failure? <==> Render(fetch, fmt, RESPONSE_LAYOUT, RESPONSE_DATA).Failure?
    ensures r.Failure? ==> r.error == "error in creating svg"
    ensures r.Success? ==> r == Success(Render(fetch, fmt, RESPONSE_LAYOUT, RESPONSE_DATA).value)
  {
    var output := CreateSvg(fetch, fmt, RESPONSE_LAYOUT, RESPONSE_DATA);
    if output.Failure? {
      return Failure("error in creating svg");
    }
    return Success(output.value);
  }

  /**
   * When both fetches succeed, `GenResponse` produces a 105 mm by 74.25 mm
   * page with the "Ksenya" element at (52.5, 29.813), its size at most 26.5.
   */
  lemma ResponsePage(fetch: nat -> FontLoad, fmt: Float -> string)
    requires fetch(0).Success? && fetch(1).Success?
    ensures Render(fetch, fmt, RESPONSE_LAYOUT, RESPONSE_DATA) ==
      Success(SvgElement(fmt, Num(105.0), Num(74.25), Join(Fragments(fetch, fmt, Placements(RESPONSE_LAYOUT, RESPONSE_DATA)))))
    ensures Fragments(fetch, fmt, Placements(RESPONSE_LAYOUT, RESPONSE_DATA))[0] ==
      FittedElement(fmt, fetch(0).value, Placement(52.5, 29.813, 92.0, 26.5, "Ksenya"))
  {
    var items := Placements(RESPONSE_LAYOUT, RESPONSE_DATA);
    assert AllFetched(fetch, |items|);
    ComposeOutput(fetch, fmt, 2, 4, items);
  }
}
