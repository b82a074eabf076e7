/**
 * SVG composition shared by functions/gen/gen.go and functions/gen/svg.go:
 * the two `text/template` templates (identical in both files), the page
 * size, and the loop that measures each box, fits its font size and
 * appends its `<text>` fragment. `text/template` escapes nothing, so texts
 * are inserted verbatim. Numbers reach the output through `fmt`, the
 * template's float64 formatting, which is not modelled.
 */
module Layout {
  import opened Outcomes
  import opened Ieee
  import opened Typeface
  import opened Measure
  import opened Fit
  import opened Fixed

  const PAGE_WIDTH: real := 210.0
  const PAGE_HEIGHT: real := 297.0

  /** TEXTBOX_TEMPLATE: the text is the element's last child, verbatim. */
  function TextElement(fmt: Float -> string, x: real, y: real, fontSize: Float, text: string): (s: string)
    ensures |s| >= |text| + 7 && s[|s| - |text| - 7..] == text + "</text>"
  {
    "<text x=\"" + fmt(Num(x)) + "\" y=\"" + fmt(Num(y)) + "\" " +
    "text-anchor=\"middle\" style=\"font-size:" + fmt(fontSize) + "\">" +
    text + "</text>"
  }

  /** SVG_TEMPLATE: the width and height appear in millimetres and in the viewBox. */
  function SvgElement(fmt: Float -> string, width: Float, height: Float, contents: string): (s: string)
    ensures |s| >= |contents| + 6 && s[|s| - |contents| - 6..] == contents + "</svg>"
  {
    "<svg width=\"" + fmt(width) + "mm\" height=\"" + fmt(height) + "mm\" " +
    "viewBox=\"0 0 " + fmt(width) + " " + fmt(height) + "\" " +
    "xmlns=\"http://www.w3.org/2000/svg\" " +
    "style=\"font-family:Arial;\">" + contents + "</svg>"
  }

  /** Two text elements with the same position and size differ exactly when their texts do. */
  lemma TextElementDeterminesText(fmt: Float -> string, x: real, y: real, fontSize: Float, t1: string, t2: string)
    requires TextElement(fmt, x, y, fontSize, t1) == TextElement(fmt, x, y, fontSize, t2)
    ensures t1 == t2
  {
    var s := TextElement(fmt, x, y, fontSize, t1);
    var prefixLength := |s| - |t1| - 7;
    assert |TextElement(fmt, x, y, fontSize, t2)| - |t2| - 7 == prefixLength;
    assert t1 == s[prefixLength..][..|t1|];
    assert t2 == s[prefixLength..][..|t2|];
  }

  /** One box: where it is, how big it is, and the text it shows. */
  datatype Placement = Placement(x: real, y: real, width: real, height: real, text: string)

  /** Measure p's text with one font load, fit the size and fill the text template. */
  function Fragment(load: FontLoad, fmt: Float -> string, p: Placement): Result<string, FontError>
  {
    match MeasureText(load, p.text)
    case Failure(e) => Failure(e)
    case Success(size) => Success(TextElement(fmt, p.x, p.y, FontSize(p.width, p.height, size.width), p.text))
  }

  /**
   * The contents after the loop has handled the first n boxes, or the error
   * that stopped it. Box i is measured with the i-th fetch of the font.
   */
  function ContentsUpTo(fetch: nat -> FontLoad, fmt: Float -> string, items: seq<Placement>, n: nat)
    : (r: Result<string, FontError>)
    requires n <= |items|
    ensures r.Success? <==> AllFetched(fetch, n)
  {
    if n == 0 then Success("")
    else
      match ContentsUpTo(fetch, fmt, items, n - 1)
      case Failure(e) => Failure(e)
      case Success(acc) =>
        match Fragment(fetch(n - 1), fmt, items[n - 1])
        case Failure(e) => Failure(e)
        case Success(f) => Success(acc + f)
  }

  /** The whole document: the contents wrapped in the page template, or the first error. */
  function Compose(fetch: nat -> FontLoad, fmt: Float -> string, perWidth: int, perHeight: int, items: seq<Placement>)
    : (r: Result<string, FontError>)
    ensures r.Success? ==>
      var head := "<svg width=\"" + fmt(Div(PAGE_WIDTH, perWidth as real)) + "mm\" height=\"" +
                  fmt(Div(PAGE_HEIGHT, perHeight as real)) + "mm\" ";
      |head| + 6 <= |r.value| && r.value[..|head|] == head && r.value[|r.value| - 6..] == "</svg>"
  {
    match ContentsUpTo(fetch, fmt, items, |items|)
    case Failure(e) => Failure(e)
    case Success(contents) =>
      Success(SvgElement(fmt, Div(PAGE_WIDTH, perWidth as real), Div(PAGE_HEIGHT, perHeight as real), contents))
  }

  // The closed form of a successful composition.

  /** Every one of the first n font fetches succeeded. */
  predicate AllFetched(fetch: nat -> FontLoad, n: nat)
  {
    forall k: nat :: k < n ==> fetch(k).Success?
  }

  /** The fragment of p in font: positioned at (x, y), sized by the fit, text verbatim. */
  function FittedElement(fmt: Float -> string, font: Font, p: Placement): string
  {
    TextElement(fmt, p.x, p.y, FontSize(p.width, p.height, Round(TotalAdvance(font, p.text))), p.text)
  }

  function Fragments(fetch: nat -> FontLoad, fmt: Float -> string, items: seq<Placement>): (fs: seq<string>)
    requires AllFetched(fetch, |items|)
    ensures |fs| == |items|
  {
    seq(|items|, i requires 0 <= i < |items| => FittedElement(fmt, fetch(i).value, items[i]))
  }

  function Join(parts: seq<string>): string
  {
    if parts == [] then "" else parts[0] + Join(parts[1..])
  }

  lemma {:induction false} JoinAppend(parts: seq<string>, last: string)
    ensures Join(parts + [last]) == Join(parts) + last
  {
    if parts == [] {
      assert parts + [last] == [last];
      assert [last][1..] == [];
    } else {
      assert (parts + [last])[1..] == parts[1..] + [last];
      JoinAppend(parts[1..], last);
    }
  }

  /** One turn of the loop: the next box's fragment is appended, or its error ends the loop. */
  lemma ContentsStep(fetch: nat -> FontLoad, fmt: Float -> string, items: seq<Placement>, i: nat, acc: string)
    requires i < |items| && ContentsUpTo(fetch, fmt, items, i) == Success(acc)
    ensures fetch(i).Failure? ==> ContentsUpTo(fetch, fmt, items, |items|) == Failure(fetch(i).error)
    ensures fetch(i).Success? ==> ContentsUpTo(fetch, fmt, items, i + 1) == Success(acc +
      TextElement(fmt, items[i].x, items[i].y,
        FontSize(items[i].width, items[i].height, Measurement(fetch(i).value, items[i].text).width), items[i].text))
  {
    if fetch(i).Failure? {
      FailureSticks(fetch, fmt, items, i + 1, |items|);
    }
  }

  /** Once a box fails, every longer prefix fails with the same error. */
  lemma {:induction false} FailureSticks(fetch: nat -> FontLoad, fmt: Float -> string, items: seq<Placement>, i: nat, n: nat)
    requires i <= n <= |items|
    requires ContentsUpTo(fetch, fmt, items, i).Failure?
    ensures ContentsUpTo(fetch, fmt, items, n) == ContentsUpTo(fetch, fmt, items, i)
    decreases n - i
  {
    if i < n {
      FailureSticks(fetch, fmt, items, i, n - 1);
    }
  }

  /** The contents are the fragments of the boxes, concatenated in box order. */
  lemma {:induction false} ContentsAreJoinedFragments(fetch: nat -> FontLoad, fmt: Float -> string, items: seq<Placement>, n: nat)
    requires AllFetched(fetch, |items|) && n <= |items|
    ensures ContentsUpTo(fetch, fmt, items, n) == Success(Join(Fragments(fetch, fmt, items)[..n]))
  {
    if n > 0 {
      var fs := Fragments(fetch, fmt, items);
      ContentsAreJoinedFragments(fetch, fmt, items, n - 1);
      assert fs[..n] == fs[..n - 1] + [fs[n - 1]];
      JoinAppend(fs[..n - 1], fs[n - 1]);
    }
  }

  /** Composition succeeds exactly when every box's font fetch succeeds. */
  lemma ComposeSucceedsIff(fetch: nat -> FontLoad, fmt: Float -> string, perWidth: int, perHeight: int, items: seq<Placement>)
    ensures Compose(fetch, fmt, perWidth, perHeight, items).Success? <==> AllFetched(fetch, |items|)
  {
  }

  /** The first box whose fetch fails decides the error; no partial output is returned. */
  lemma ComposeFailsWithFirstError(fetch: nat -> FontLoad, fmt: Float -> string, perWidth: int, perHeight: int,
                                   items: seq<Placement>, k: nat)
    requires k < |items| && AllFetched(fetch, k) && fetch(k).Failure?
    ensures Compose(fetch, fmt, perWidth, perHeight, items) == Failure(fetch(k).error)
  {
    FailureSticks(fetch, fmt, items, k + 1, |items|);
  }

  /**
   * A successful composition is the page template around the concatenation,
   * in box order, of one fitted `<text>` element per box; the page is
   * 210 / perWidth by 297 / perHeight.
   */
  lemma ComposeOutput(fetch: nat -> FontLoad, fmt: Float -> string, perWidth: int, perHeight: int, items: seq<Placement>)
    requires AllFetched(fetch, |items|)
    ensures Compose(fetch, fmt, perWidth, perHeight, items) ==
      Success(SvgElement(fmt, Div(PAGE_WIDTH, perWidth as real), Div(PAGE_HEIGHT, perHeight as real),
                         Join(Fragments(fetch, fmt, items))))
  {
    ContentsAreJoinedFragments(fetch, fmt, items, |items|);
    assert Fragments(fetch, fmt, items)[..|items|] == Fragments(fetch, fmt, items);
  }
}
