/**
 * functions/gen/svg.go: `CreateSvg` takes the box texts as a slice and
 * gives the i-th box the i-th text. Indexing past the end of the slice
 * panics in Go, so callers must supply at least one text per box.
 */
module SvgGen {
  import opened Outcomes
  import opened Ieee
  import opened Typeface
  import opened Measure
  import opened Fit
  import opened Layout
  import Gen

  datatype TextBox = TextBox(x: real, y: real, width: real, height: real)

  datatype TemplateConstructor = TemplateConstructor(perHeight: int, perWidth: int, textBoxes: seq<TextBox>)

  /** Box i with text data[i], in box order. */
  function Placements(c: TemplateConstructor, data: seq<string>): (ps: seq<Placement>)
    requires |c.textBoxes| <= |data|
    ensures |ps| == |c.textBoxes|
  {
    seq(|c.textBoxes|, i requires 0 <= i < |c.textBoxes| =>
      var box := c.textBoxes[i];
      Placement(box.x, box.y, box.width, box.height, data[i]))
  }

  /** What `CreateSvg(c, data)` returns when its i-th font fetch yields fetch(i). */
  function Render(fetch: nat -> FontLoad, fmt: Float -> string, c: TemplateConstructor, data: seq<string>)
    : Result<string, FontError>
    requires |c.textBoxes| <= |data|
  {
    Compose(fetch, fmt, c.perWidth, c.perHeight, Placements(c, data))
  }

  /** `CreateSvg`: appends each fragment to `svgdata.Contents`; `Failure(e)` stands for `("", e)`. */
  method CreateSvg(fetch: nat -> FontLoad, fmt: Float -> string, c: TemplateConstructor, data: seq<string>)
    returns (r: Result<string, FontError>)
    requires |c.textBoxes| <= |data|
    ensures r == Render(fetch, fmt, c, data)
  {
    var width := Div(PAGE_WIDTH, c.perWidth as real);
    var height := Div(PAGE_HEIGHT, c.perHeight as real);
    var contents := "";
    ghost var items := Placements(c, data);
    for i := 0 to |c.textBoxes|
      invariant ContentsUpTo(fetch, fmt, items, i) == Success(contents)
    {
      var box := c.textBoxes[i];
      assert items[i] == Placement(box.x, box.y, box.width, box.height, data[i]);
      ContentsStep(fetch, fmt, items, i, contents);
      var tsize := TextSize(fetch(i), data[i]);
      if tsize.Failure? {
        return Failure(tsize.error);
      }
      var fontSize := FontSize(box.width, box.height, tsize.value.width);
      var fragment := TextElement(fmt, box.x, box.y, fontSize, data[i]);
      contents := contents + fragment;
    }
    return Success(SvgElement(fmt, width, height, contents));
  }

  /** Texts beyond the last box are never read. */
  lemma ExtraDataIgnored(fetch: nat -> FontLoad, fmt: Float -> string, c: TemplateConstructor, data: seq<string>)
    requires |c.textBoxes| <= |data|
    ensures Render(fetch, fmt, c, data) == Render(fetch, fmt, c, data[..|c.textBoxes|])
  {
    assert Placements(c, data) == Placements(c, data[..|c.textBoxes|]);
  }

  /** The boxes of a functions/gen/gen.go layout without their parameter names. */
  function Unnamed(c: Gen.TemplateConstructor): (u: TemplateConstructor)
    ensures |u.textBoxes| == |c.textBoxes|
  {
    TemplateConstructor(c.perHeight, c.perWidth,
      seq(|c.textBoxes|, i requires 0 <= i < |c.textBoxes| =>
        var box := c.textBoxes[i];
        TextBox(box.x, box.y, box.width, box.height)))
  }

  /** The texts the map version would look up, in box order. */
  function LookedUp(c: Gen.TemplateConstructor, data: map<string, string>): (texts: seq<string>)
    ensures |texts| == |c.textBoxes|
  {
    seq(|c.textBoxes|, i requires 0 <= i < |c.textBoxes| => Gen.Param(data, c.textBoxes[i].paramName))
  }

  /**
   * The two composers agree: the map version renders exactly what the
   * positional version renders from the texts looked up in box order.
   */
  lemma AgreesWithMapVersion(fetch: nat -> FontLoad, fmt: Float -> string, c: Gen.TemplateConstructor,
                             data: map<string, string>)
    ensures Gen.Render(fetch, fmt, c, data) == Render(fetch, fmt, Unnamed(c), LookedUp(c, data))
  {
    assert Gen.Placements(c, data) == Placements(Unnamed(c), LookedUp(c, data));
  }
}
