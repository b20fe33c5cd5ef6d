/**
 * The layout arithmetic of `initResize`: one text object per code unit of the input
 * text, a uniform cell as large as the largest measured glyph, ten columns, each glyph
 * shifted to the horizontal centre of its cell, and the canvas size.
 *
 * What the renderer measures and where `Phaser.Actions.GridAlign` puts each object
 * are inputs (`sizes`, `aligned`): neither is visible to this model.
 */
module Layout {
  import opened Wrappers
  import opened JsStrings

  /** The number of columns of the sheet (`gridWidth`). */
  const GridWidth: nat := 10

  /** The form fields `initResize` reads, with `parseInt` already applied. */
  datatype Request = Request(
    fontText: JsString,
    fontFamily: JsString,
    fontSize: int,
    fontColor: JsString,
    strokeSize: int,
    strokeColor: JsString)

  /** The style object handed to `this.add.text`; absent keys are `None`. */
  datatype Style = Style(
    fontFamily: JsString,
    fontSize: JsString,
    color: JsString,
    strokeThickness: Option<int>,
    stroke: Option<JsString>)

  /** The size the renderer reports for one text object. */
  datatype Size = Size(width: real, height: real)

  datatype Point = Point(x: real, y: real)

  /** A text object: its text, style, position and measured size. */
  datatype Glyph = Glyph(text: JsString, style: Style, x: real, y: real, width: real, height: real)

  /** The result of `initResize`: the positioned glyphs, the cell and the canvas. */
  datatype Sheet = Sheet(
    glyphs: seq<Glyph>,
    maxWidth: real,
    maxHeight: real,
    gridHeight: real,
    width: real,
    height: real)

  /** The style: a stroke thickness only for a non-zero stroke size, a stroke colour only when one is given. */
  function TextStyle(req: Request): (s: Style)
    ensures s.fontFamily == req.fontFamily && s.color == req.fontColor
    ensures s.fontSize == DecimalString(req.fontSize) + Js("px")
    ensures s.strokeThickness.Some? <==> req.strokeSize != 0
    ensures s.strokeThickness.Some? ==> s.strokeThickness.value == req.strokeSize
    ensures s.stroke.Some? <==> |req.strokeColor| > 0
    ensures s.stroke.Some? ==> s.stroke.value == req.strokeColor
  {
    Style(
      req.fontFamily,
      DecimalString(req.fontSize) + Js("px"),
      req.fontColor,
      if req.strokeSize != 0 then Some(req.strokeSize) else None,
      if |req.strokeColor| > 0 then Some(req.strokeColor) else None)
  }

  /** `text.split("")`: every code unit becomes a string of its own, in order, repeats kept. */
  function Split(text: JsString): (parts: seq<JsString>)
    ensures |parts| == |text|
    ensures forall i :: 0 <= i < |text| ==> parts[i] == [text[i]]
  {
    if |text| == 0 then [] else [[text[0]]] + Split(text[1..])
  }

  function Concat(parts: seq<JsString>): JsString {
    if |parts| == 0 then [] else parts[0] + Concat(parts[1..])
  }

  /** Joining the pieces of `split("")` gives the text back: nothing is dropped or merged. */
  lemma {:induction false} SplitConcat(text: JsString)
    ensures Concat(Split(text)) == text
  {
    if |text| > 0 {
      SplitConcat(text[1..]);
      assert Split(text)[1..] == Split(text[1..]);
    }
  }

  /** A text object as `this.add.text(0, 0, char, style)` creates it, with its measured size. */
  function NewText(unit: JsString, style: Style, size: Size): Glyph {
    Glyph(unit, style, 0.0, 0.0, size.width, size.height)
  }

  function Texts(chars: seq<JsString>, style: Style, sizes: seq<Size>): (objs: seq<Glyph>)
    requires |sizes| == |chars|
    ensures |objs| == |chars|
  {
    seq(|chars|, i requires 0 <= i < |chars| => NewText(chars[i], style, sizes[i]))
  }

  function Widths(objs: seq<Glyph>): (ws: seq<real>)
    ensures |ws| == |objs|
  {
    seq(|objs|, i requires 0 <= i < |objs| => objs[i].width)
  }

  function Heights(objs: seq<Glyph>): (hs: seq<real>)
    ensures |hs| == |objs|
  {
    seq(|objs|, i requires 0 <= i < |objs| => objs[i].height)
  }

  /** The `forEach` loop that creates one text object per character and records its size. */
  method AddTexts(chars: seq<JsString>, style: Style, sizes: seq<Size>)
    returns (objArray: seq<Glyph>, widthArray: seq<real>, heightArray: seq<real>)
    requires |sizes| == |chars|
    ensures objArray == Texts(chars, style, sizes)
    ensures widthArray == Widths(objArray) && heightArray == Heights(objArray)
  {
    objArray, widthArray, heightArray := [], [], [];
    var i := 0;
    while i < |chars|
      invariant 0 <= i <= |chars|
      invariant objArray == Texts(chars, style, sizes)[..i]
      invariant widthArray == Widths(objArray) && heightArray == Heights(objArray)
    {
      var obj := NewText(chars[i], style, sizes[i]);
      widthArray := widthArray + [obj.width];
      heightArray := heightArray + [obj.height];
      objArray := objArray + [obj];
      i := i + 1;
    }
  }

  /** `Math.max(...s)` of a non-empty list: an upper bound that is attained. */
  function Max(s: seq<real>): (m: real)
    requires |s| > 0
    ensures forall i :: 0 <= i < |s| ==> s[i] <= m
    ensures exists i :: 0 <= i < |s| && s[i] == m
  {
    if |s| == 1 then s[0]
    else
      var rest := Max(s[1..]);
      if s[0] >= rest then s[0] else rest
  }

  /** `charArray.length / gridWidth + 1`, in real division. */
  function GridHeight(n: nat): (h: real)
    ensures h >= 1.0 && h * 10.0 == n as real + 10.0
  {
    n as real / GridWidth as real + 1.0
  }

  /** The rows the glyphs actually occupy, `ceil(n / 10)`. */
  function Rows(n: nat): nat {
    (n + GridWidth - 1) / GridWidth
  }

  /** The grid is always taller than the occupied rows, and by at most one row. */
  lemma GridHeightExceedsRows(n: nat)
    ensures Rows(n) as real < GridHeight(n) <= Rows(n) as real + 1.0
  {
    var q, r := n / 10, n % 10;
    assert n == 10 * q + r;
    assert n as real / 10.0 == q as real + r as real / 10.0;
    if r == 0 {
      assert Rows(n) == q;
    } else {
      assert Rows(n) == q + 1;
    }
  }

  /** `maxWidth * gridWidth` */
  function CanvasWidth(maxWidth: real): (w: real)
    ensures w / 10.0 == maxWidth
    ensures maxWidth >= 0.0 ==> maxWidth <= w
  {
    maxWidth * GridWidth as real
  }

  /** `maxHeight * gridHeight`: at least one cell high (`CellsFitCanvas` bounds every row). */
  function CanvasHeight(maxHeight: real, n: nat): (h: real)
    ensures maxHeight >= 0.0 ==> maxHeight <= h
    ensures maxHeight == 0.0 ==> h == 0.0
  {
    var h := maxHeight * GridHeight(n);
    assert maxHeight >= 0.0 ==> maxHeight <= h by {
      if maxHeight >= 0.0 {
        MulMonotone(1.0, GridHeight(n), maxHeight);
      }
    }
    h
  }

  /** The pre-shift positions `GridAlign` assigns, written into the objects. */
  function Positioned(objs: seq<Glyph>, aligned: seq<Point>): (ps: seq<Glyph>)
    requires |aligned| == |objs|
    ensures |ps| == |objs|
  {
    seq(|objs|, i requires 0 <= i < |objs| => objs[i].(x := aligned[i].x, y := aligned[i].y))
  }

  /**
   * `obj.x = obj.x + maxWidth / 2 - obj.width / 2`: the glyph's horizontal centre moves to
   * where the centre of its cell is when the cell's left edge is the old x.
   */
  function Centre(g: Glyph, maxWidth: real): (c: Glyph)
    ensures c == g.(x := c.x)
    ensures c.x + c.width / 2.0 == g.x + maxWidth / 2.0
    ensures g.width == maxWidth ==> c == g
    ensures g.width <= maxWidth ==> g.x <= c.x && c.x + c.width <= g.x + maxWidth
  {
    g.(x := g.x + maxWidth / 2.0 - g.width / 2.0)
  }

  function Centred(objs: seq<Glyph>, maxWidth: real): (cs: seq<Glyph>)
    ensures |cs| == |objs|
  {
    seq(|objs|, i requires 0 <= i < |objs| => Centre(objs[i], maxWidth))
  }

  /** Everything `initResize` computes from the form, the measured sizes and the grid positions. */
  function Resize(req: Request, sizes: seq<Size>, aligned: seq<Point>): (sheet: Sheet)
    requires |req.fontText| > 0
    requires |sizes| == |req.fontText| && |aligned| == |req.fontText|
    ensures |sheet.glyphs| == |req.fontText|
    ensures sheet.gridHeight == GridHeight(|req.fontText|)
    ensures sheet.width / 10.0 == sheet.maxWidth
    ensures sheet.maxHeight >= 0.0 ==> sheet.maxHeight <= sheet.height
  {
    var chars := Split(req.fontText);
    var objs := Texts(chars, TextStyle(req), sizes);
    var maxWidth := Max(Widths(objs));
    var maxHeight := Max(Heights(objs));
    var gridHeight := GridHeight(|chars|);
    Sheet(
      Centred(Positioned(objs, aligned), maxWidth),
      maxWidth, maxHeight, gridHeight,
      CanvasWidth(maxWidth), CanvasHeight(maxHeight, |chars|))
  }

  /**
   * One glyph per code unit of the text, in order and with repeats: glyph i holds the
   * i-th code unit, its measured size, the style, the grid y and the grid x shifted by
   * `maxWidth / 2 - width / 2`.
   */
  lemma ResizeGlyphs(req: Request, sizes: seq<Size>, aligned: seq<Point>, i: nat)
    requires |req.fontText| > 0
    requires |sizes| == |req.fontText| && |aligned| == |req.fontText|
    requires i < |req.fontText|
    ensures var sheet := Resize(req, sizes, aligned);
      && |sheet.glyphs| == |req.fontText|
      && sheet.glyphs[i].text == [req.fontText[i]]
      && sheet.glyphs[i].style == TextStyle(req)
      && sheet.glyphs[i].width == sizes[i].width
      && sheet.glyphs[i].height == sizes[i].height
      && sheet.glyphs[i].y == aligned[i].y
      && sheet.glyphs[i].x == aligned[i].x + sheet.maxWidth / 2.0 - sizes[i].width / 2.0
  {
  }

  /** The cell is the smallest box that holds every measured glyph. */
  lemma ResizeBounds(req: Request, sizes: seq<Size>, aligned: seq<Point>)
    requires |req.fontText| > 0
    requires |sizes| == |req.fontText| && |aligned| == |req.fontText|
    ensures var sheet := Resize(req, sizes, aligned);
      && (forall g :: g in sheet.glyphs ==> g.width <= sheet.maxWidth && g.height <= sheet.maxHeight)
      && (exists i :: 0 <= i < |sizes| && sizes[i].width == sheet.maxWidth)
      && (exists i :: 0 <= i < |sizes| && sizes[i].height == sheet.maxHeight)
  {
    var sheet := Resize(req, sizes, aligned);
    var objs := Texts(Split(req.fontText), TextStyle(req), sizes);
    forall g | g in sheet.glyphs
      ensures g.width <= sheet.maxWidth && g.height <= sheet.maxHeight
    {
      var i :| 0 <= i < |sheet.glyphs| && sheet.glyphs[i] == g;
      assert Widths(objs)[i] == g.width;
      assert Heights(objs)[i] == g.height;
    }
    var w :| 0 <= w < |objs| && Widths(objs)[w] == sheet.maxWidth;
    assert sizes[w].width == sheet.maxWidth;
    var h :| 0 <= h < |objs| && Heights(objs)[h] == sheet.maxHeight;
    assert sizes[h].height == sheet.maxHeight;
  }

  /** A glyph of maximal width is not moved by the centring shift. */
  lemma WidestGlyphUnmoved(req: Request, sizes: seq<Size>, aligned: seq<Point>, i: nat)
    requires |req.fontText| > 0
    requires |sizes| == |req.fontText| && |aligned| == |req.fontText|
    requires i < |req.fontText|
    requires forall k :: 0 <= k < |sizes| ==> sizes[k].width <= sizes[i].width
    ensures Resize(req, sizes, aligned).glyphs[i].x == aligned[i].x
  {
    ResizeBounds(req, sizes, aligned);
    ResizeGlyphs(req, sizes, aligned, i);
  }

  lemma MulMonotone(a: real, b: real, c: real)
    requires a <= b && c >= 0.0
    ensures a * c <= b * c
  {
    assert (b - a) * c >= 0.0;
  }

  /**
   * The cell of glyph i, at column `i % 10` and row `i / 10`, lies inside a canvas of
   * `maxWidth * 10` by `maxHeight * (n / 10 + 1)`.
   */
  lemma CellsFitCanvas(n: nat, maxWidth: real, maxHeight: real, i: nat)
    requires i < n && maxWidth >= 0.0 && maxHeight >= 0.0
    ensures ((i % GridWidth) + 1) as real * maxWidth <= CanvasWidth(maxWidth)
    ensures ((i / GridWidth) + 1) as real * maxHeight <= CanvasHeight(maxHeight, n)
  {
    MulMonotone(((i % GridWidth) + 1) as real, GridWidth as real, maxWidth);
    GridHeightExceedsRows(n);
    assert i / GridWidth < Rows(n);
    var row := ((i / GridWidth) + 1) as real;
    assert row <= Rows(n) as real;
    MulMonotone(row, GridHeight(n), maxHeight);
    assert GridHeight(n) * maxHeight == maxHeight * GridHeight(n) == CanvasHeight(maxHeight, n);
  }

  /** The canvas is ten non-negative cells wide and `n / 10 + 1` cells high. */
  lemma ResizeCanvas(req: Request, sizes: seq<Size>, aligned: seq<Point>)
    requires |req.fontText| > 0
    requires |sizes| == |req.fontText| && |aligned| == |req.fontText|
    requires forall k :: 0 <= k < |sizes| ==> sizes[k].width >= 0.0 && sizes[k].height >= 0.0
    ensures var sheet := Resize(req, sizes, aligned);
      && sheet.maxWidth >= 0.0 && sheet.maxHeight >= 0.0
      && sheet.width == CanvasWidth(sheet.maxWidth)
      && sheet.height == CanvasHeight(sheet.maxHeight, |req.fontText|)
  {
    var objs := Texts(Split(req.fontText), TextStyle(req), sizes);
    assert Widths(objs)[0] == sizes[0].width && Heights(objs)[0] == sizes[0].height;
  }

  /** `GridAlign`'s effect on the objects, taken as given: the positions it assigns. */
  method GridAlign(objArray: array<Glyph>, aligned: seq<Point>)
    requires |aligned| == objArray.Length
    modifies objArray
    ensures objArray[..] == Positioned(old(objArray[..]), aligned)
  {
    forall i | 0 <= i < objArray.Length {
      objArray[i] := objArray[i].(x := aligned[i].x, y := aligned[i].y);
    }
  }

  /** The `forEach` loop that shifts every object, in place, to the centre of its cell. */
  method CentreInCells(objArray: array<Glyph>, maxWidth: real)
    modifies objArray
    ensures objArray[..] == Centred(old(objArray[..]), maxWidth)
  {
    var i := 0;
    while i < objArray.Length
      invariant 0 <= i <= objArray.Length
      invariant forall k :: 0 <= k < i ==> objArray[k] == Centre(old(objArray[k]), maxWidth)
      invariant forall k :: i <= k < objArray.Length ==> objArray[k] == old(objArray[k])
    {
      objArray[i] := Centre(objArray[i], maxWidth);
      i := i + 1;
    }
  }
}
