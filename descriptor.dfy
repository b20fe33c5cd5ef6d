/**
 * The BMFont-style descriptor `generateFont` builds: one `char` record per positioned
 * glyph and the `info`, `common`, `pages` and `chars` blocks of a `font` document.
 * The document is the attribute tree handed to the XML serialiser, not its text.
 */
module Descriptor {
  import opened Wrappers
  import opened JsStrings
  import opened Layout

  /** An attribute value: a JavaScript number, `NaN`, or a string. */
  datatype Value = Num(n: real) | NaN | Str(s: JsString)

  /** An element: its tag, its attributes (the `"@"` object) and its child elements. */
  datatype Element = Element(tag: string, attrs: map<string, Value>, children: seq<Element>)

  /** The rectangle and text of one glyph, as a reader of the descriptor sees it. */
  datatype Box = Box(text: JsString, x: real, y: real, width: real, height: real)

  /** The value of the attribute `name` of `e`, if it has one. */
  function Attr(e: Element, name: string): Option<Value> {
    if name in e.attrs then Some(e.attrs[name]) else None
  }

  /** The children of `e` with tag `tag`, in document order. */
  function Tagged(children: seq<Element>, tag: string): (r: seq<Element>)
    ensures |r| <= |children|
  {
    if |children| == 0 then []
    else (if children[0].tag == tag then [children[0]] else []) + Tagged(children[1..], tag)
  }

  /** The first child of `e` with tag `tag`. */
  function Child(e: Element, tag: string): Option<Element> {
    var cs := Tagged(e.children, tag);
    if |cs| == 0 then None else Some(cs[0])
  }

  /** `text.charCodeAt(0)`: the first code unit, or `NaN` for the empty string. */
  function CharCode(text: JsString): Value {
    if |text| > 0 then Num(text[0] as real) else NaN
  }

  /** The record pushed into `charDataArr` for one text object. */
  function CharRecord(obj: Glyph, maxHeight: real): (r: Element)
    ensures r.tag == "char" && r.children == []
    ensures r.attrs.Keys == {"id", "char", "x", "y", "width", "height", "xoffset", "yoffset", "xadvance", "page", "chnl"}
    ensures Attr(r, "id") == Some(CharCode(obj.text))
    ensures Attr(r, "char") == Some(Str(obj.text))
    ensures Attr(r, "x") == Some(Num(obj.x)) && Attr(r, "y") == Some(Num(obj.y))
    ensures Attr(r, "width") == Some(Num(obj.width)) && Attr(r, "height") == Some(Num(obj.height))
    ensures Attr(r, "xoffset") == Some(Str(Js("0")))
    ensures Attr(r, "yoffset") == Some(Num(maxHeight - obj.height))
    ensures Attr(r, "xadvance") == Some(Num(obj.width))
    ensures Attr(r, "page") == Some(Str(Js("0"))) && Attr(r, "chnl") == Some(Str(Js("15")))
  {
    Element("char", map[
      "id" := CharCode(obj.text),
      "char" := Str(obj.text),
      "x" := Num(obj.x),
      "y" := Num(obj.y),
      "width" := Num(obj.width),
      "height" := Num(obj.height),
      "xoffset" := Str(Js("0")),
      "yoffset" := Num(maxHeight - obj.height),
      "xadvance" := Num(obj.width),
      "page" := Str(Js("0")),
      "chnl" := Str(Js("15"))
    ], [])
  }

  function CharRecords(objs: seq<Glyph>, maxHeight: real): (rs: seq<Element>)
    ensures |rs| == |objs|
  {
    seq(|objs|, i requires 0 <= i < |objs| => CharRecord(objs[i], maxHeight))
  }

  /** The `forEach` loop of `generateFont` that pushes one record per text object. */
  method CharDataArray(objArray: seq<Glyph>, maxHeight: real) returns (charDataArr: seq<Element>)
    ensures charDataArr == CharRecords(objArray, maxHeight)
  {
    charDataArr := [];
    var i := 0;
    while i < |objArray|
      invariant 0 <= i <= |objArray|
      invariant charDataArr == CharRecords(objArray[..i], maxHeight)
    {
      charDataArr := charDataArr + [CharRecord(objArray[i], maxHeight)];
      i := i + 1;
      assert objArray[..i] == objArray[..i - 1] + [objArray[i - 1]];
    }
    assert objArray[..i] == objArray;
  }

  /** The `info` block; its outline is `String(strokeSize)`. */
  function Info(face: JsString, fontSize: int, strokeSize: int): (r: Element)
    ensures r.tag == "info" && r.children == []
    ensures Attr(r, "face") == Some(Str(face)) && Attr(r, "size") == Some(Num(fontSize as real))
    ensures Attr(r, "outline") == Some(Str(DecimalString(strokeSize)))
  {
    Element("info", map[
      "face" := Str(face),
      "size" := Num(fontSize as real),
      "bold" := Str(Js("0")),
      "italic" := Str(Js("0")),
      "charset" := Str([]),
      "unicode" := Str(Js("1")),
      "stretchH" := Str(Js("100")),
      "smooth" := Str(Js("0")),
      "aa" := Str(Js("1")),
      "padding" := Str(Js("0,0,0,0")),
      "spacing" := Str(Js("0,0")),
      "outline" := Str(DecimalString(strokeSize))
    ], [])
  }

  /** The `common` block: one line is one cell high, on a single packed page. */
  function Common(maxHeight: real): (r: Element)
    ensures r.tag == "common" && r.children == []
    ensures Attr(r, "lineHeight") == Some(Num(maxHeight)) && Attr(r, "base") == Some(Num(maxHeight))
    ensures Attr(r, "pages") == Some(Str(Js("1")))
  {
    Element("common", map[
      "lineHeight" := Num(maxHeight),
      "base" := Num(maxHeight),
      "scaleW" := Str(Js("512")),
      "scaleH" := Str(Js("512")),
      "pages" := Str(Js("1")),
      "packed" := Str(Js("0")),
      "alphaChnl" := Str(Js("0")),
      "redChnl" := Str(Js("4")),
      "greenChnl" := Str(Js("4")),
      "blueChnl" := Str(Js("4"))
    ], [])
  }

  /** The page list; its one entry is tagged `pages`, as the object key is written. */
  function Pages(): (r: Element)
    ensures r.tag == "pages" && r.attrs == map[] && |r.children| == 1
    ensures r.children[0].attrs.Keys == {"id", "file"}
    ensures Attr(r.children[0], "id") == Some(Str(Js("0")))
    ensures Attr(r.children[0], "file") == Some(Str(Js("font.png")))
  {
    Element("pages", map[], [
      Element("pages", map["id" := Str(Js("0")), "file" := Str(Js("font.png"))], [])
    ])
  }

  /** The `chars` block: it counts its records and holds them, in order. */
  function Chars(records: seq<Element>): (r: Element)
    ensures r.tag == "chars" && r.children == records && r.attrs.Keys == {"count"}
    ensures Attr(r, "count") == Some(Num(|records| as real))
  {
    Element("chars", map["count" := Num(|records| as real)], records)
  }

  /** The object passed to the serialiser under the root name `font`. */
  function FontDocument(face: JsString, fontSize: int, strokeSize: int, maxHeight: real, records: seq<Element>): (doc: Element)
    ensures doc.tag == "font" && |doc.children| == 4
    ensures doc.children[0].tag == "info" && doc.children[1].tag == "common"
    ensures doc.children[2].tag == "pages" && doc.children[3].tag == "chars"
    ensures doc.children[3].children == records
  {
    Element("font", map[], [Info(face, fontSize, strokeSize), Common(maxHeight), Pages(), Chars(records)])
  }

  lemma {:induction false} TaggedAll(children: seq<Element>, tag: string)
    requires forall i :: 0 <= i < |children| ==> children[i].tag == tag
    ensures Tagged(children, tag) == children
  {
    if |children| > 0 {
      TaggedAll(children[1..], tag);
    }
  }

  lemma {:induction false} TaggedNone(children: seq<Element>, tag: string)
    requires forall i :: 0 <= i < |children| ==> children[i].tag != tag
    ensures Tagged(children, tag) == []
  {
    if |children| > 0 {
      TaggedNone(children[1..], tag);
    }
  }

  lemma {:induction false} TaggedOnce(children: seq<Element>, k: nat, tag: string)
    requires k < |children| && children[k].tag == tag
    requires forall i :: 0 <= i < |children| && i != k ==> children[i].tag != tag
    ensures Tagged(children, tag) == [children[k]]
  {
    if k == 0 {
      TaggedNone(children[1..], tag);
    } else {
      TaggedOnce(children[1..], k - 1, tag);
    }
  }

  /** Each of the four blocks occurs exactly once among the root's children. */
  lemma DocumentBlocks(face: JsString, fontSize: int, strokeSize: int, maxHeight: real, records: seq<Element>)
    ensures var doc := FontDocument(face, fontSize, strokeSize, maxHeight, records);
      && Tagged(doc.children, "info") == [Info(face, fontSize, strokeSize)]
      && Tagged(doc.children, "common") == [Common(maxHeight)]
      && Tagged(doc.children, "pages") == [Pages()]
      && Tagged(doc.children, "chars") == [Chars(records)]
  {
    var cs := FontDocument(face, fontSize, strokeSize, maxHeight, records).children;
    TaggedOnce(cs, 0, "info");
    TaggedOnce(cs, 1, "common");
    TaggedOnce(cs, 2, "pages");
    TaggedOnce(cs, 3, "chars");
  }

  /** `info` names the face and size, and its outline reads back as the stroke size. */
  lemma InfoHeader(face: JsString, fontSize: int, strokeSize: int, maxHeight: real, records: seq<Element>)
    ensures var doc := FontDocument(face, fontSize, strokeSize, maxHeight, records);
      && Child(doc, "info") == Some(Info(face, fontSize, strokeSize))
      && Attr(Info(face, fontSize, strokeSize), "face") == Some(Str(face))
      && Attr(Info(face, fontSize, strokeSize), "size") == Some(Num(fontSize as real))
      && Attr(Info(face, fontSize, strokeSize), "outline") == Some(Str(DecimalString(strokeSize)))
      && ParseDecimal(DecimalString(strokeSize)) == Some(strokeSize)
  {
    DocumentBlocks(face, fontSize, strokeSize, maxHeight, records);
    DecimalRoundTrip(strokeSize);
  }

  /** `common` has line height and base equal to the cell height. */
  lemma CommonHeader(face: JsString, fontSize: int, strokeSize: int, maxHeight: real, records: seq<Element>)
    ensures var doc := FontDocument(face, fontSize, strokeSize, maxHeight, records);
      && Child(doc, "common") == Some(Common(maxHeight))
      && Attr(Common(maxHeight), "lineHeight") == Some(Num(maxHeight))
      && Attr(Common(maxHeight), "base") == Some(Num(maxHeight))
  {
    DocumentBlocks(face, fontSize, strokeSize, maxHeight, records);
  }

  /** `pages` holds exactly one page: id 0, file `font.png`. */
  lemma PagesHeader(face: JsString, fontSize: int, strokeSize: int, maxHeight: real, records: seq<Element>)
    ensures var doc := FontDocument(face, fontSize, strokeSize, maxHeight, records);
      && Child(doc, "pages") == Some(Pages())
      && |Pages().children| == 1
      && Attr(Pages().children[0], "id") == Some(Str(Js("0")))
      && Attr(Pages().children[0], "file") == Some(Str(Js("font.png")))
  {
    DocumentBlocks(face, fontSize, strokeSize, maxHeight, records);
  }

  /** The `chars` block counts its records and holds exactly them, in order. */
  lemma DocumentChars(face: JsString, fontSize: int, strokeSize: int, maxHeight: real, objs: seq<Glyph>)
    ensures var records := CharRecords(objs, maxHeight);
      var doc := FontDocument(face, fontSize, strokeSize, maxHeight, records);
      && Child(doc, "chars") == Some(Chars(records))
      && Attr(Chars(records), "count") == Some(Num(|objs| as real))
      && Tagged(Chars(records).children, "char") == records
  {
    var records := CharRecords(objs, maxHeight);
    DocumentBlocks(face, fontSize, strokeSize, maxHeight, records);
    TaggedAll(records, "char");
  }

  /** What a reader of the descriptor takes from one `char` record. */
  function ReadBox(r: Element): Option<Box> {
    match (Attr(r, "char"), Attr(r, "x"), Attr(r, "y"), Attr(r, "width"), Attr(r, "height"))
    case (Some(Str(t)), Some(Num(x)), Some(Num(y)), Some(Num(w)), Some(Num(h))) => Some(Box(t, x, y, w, h))
    case _ => None
  }

  /** The boxes of all `char` records of a document's `chars` block. */
  function ReadBoxes(doc: Element): seq<Option<Box>> {
    match Child(doc, "chars")
    case None => []
    case Some(chars) =>
      var rs := Tagged(chars.children, "char");
      seq(|rs|, i requires 0 <= i < |rs| => ReadBox(rs[i]))
  }

  function GlyphBox(g: Glyph): Box {
    Box(g.text, g.x, g.y, g.width, g.height)
  }

  /**
   * The descriptor and the image come from one geometry: reading the document back gives,
   * record by record, the text, position and size of the glyphs it was built from.
   */
  lemma DocumentBoxes(face: JsString, fontSize: int, strokeSize: int, maxHeight: real, objs: seq<Glyph>)
    ensures var doc := FontDocument(face, fontSize, strokeSize, maxHeight, CharRecords(objs, maxHeight));
      ReadBoxes(doc) == seq(|objs|, i requires 0 <= i < |objs| => Some(GlyphBox(objs[i])))
  {
    DocumentChars(face, fontSize, strokeSize, maxHeight, objs);
  }

  /**
   * For a sheet laid out by `initResize`, record i describes the i-th code unit of the
   * text (`id` is its code, `char` the unit itself) and its `yoffset` is never negative.
   */
  lemma SheetRecords(req: Request, sizes: seq<Size>, aligned: seq<Point>, i: nat)
    requires |req.fontText| > 0
    requires |sizes| == |req.fontText| && |aligned| == |req.fontText|
    requires i < |req.fontText|
    ensures var sheet := Resize(req, sizes, aligned);
      var records := CharRecords(sheet.glyphs, sheet.maxHeight);
      && |records| == |req.fontText|
      && Attr(records[i], "id") == Some(Num(req.fontText[i] as real))
      && Attr(records[i], "char") == Some(Str([req.fontText[i]]))
      && Attr(records[i], "yoffset").value.Num?
      && Attr(records[i], "yoffset").value.n >= 0.0
  {
    var sheet := Resize(req, sizes, aligned);
    ResizeGlyphs(req, sizes, aligned, i);
    ResizeBounds(req, sizes, aligned);
    assert sheet.glyphs[i] in sheet.glyphs;
  }
}
