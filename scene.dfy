/**
 * The `Main` scene: `initResize` lays the glyphs out and resizes the game, the resize
 * callback runs `generateFont`, which builds the descriptor and hands the container to
 * `downloadCanvas`, which stores it in the texture manager under a time-stamped key.
 *
 * The form fields are a `Request`, the measured sizes and the `GridAlign` positions are
 * inputs, the clock reading is `now`, and the two download links are the `xmlMap` and
 * `fontMap` fields (what they would carry, before base64 encoding).
 */
module MainScene {
  import opened Wrappers
  import opened JsStrings
  import opened Layout
  import opened Descriptor
  import opened Textures

  class Main {
    var symbols: Container?
    var scaleWidth: real
    var scaleHeight: real
    var xmlMap: Option<Element>
    var fontMap: Option<Texture>
    const textures: TextureManager

    ghost predicate Valid()
      reads this, textures
    {
      textures.Valid()
    }

    /** A scene in a game of the configured 512 by 512 size, with no sheet yet. */
    constructor ()
      ensures Valid() && fresh(textures) && textures.draws == 0
      ensures textures.textures == map[MissingKey := Texture(MissingKey, Placeholder)]
      ensures symbols == null && xmlMap == None && fontMap == None
      ensures scaleWidth == 512.0 && scaleHeight == 512.0
    {
      symbols := null;
      scaleWidth, scaleHeight := 512.0, 512.0;
      xmlMap, fontMap := None, None;
      textures := new TextureManager();
    }

    /** `clearScene`: the previous container, if any, is destroyed. */
    method ClearScene()
      modifies symbols
      ensures symbols != null ==>
        symbols.destroyed && symbols.width == old(symbols.width) && symbols.height == old(symbols.height)
    {
      if symbols != null {
        symbols.Destroy();
      }
    }

    /**
     * `initResize`, including the resize callback it registers (the game's `resize` event
     * fires during `scale.resize`, so `generateFont` sees the same form).
     */
    method InitResize(req: Request, sizes: seq<Size>, aligned: seq<Point>, now: nat)
      requires Valid()
      requires |req.fontText| > 0
      requires |sizes| == |req.fontText| && |aligned| == |req.fontText|
      modifies this, textures
      ensures Valid()
      ensures var sheet := Resize(req, sizes, aligned);
        && symbols != null && fresh(symbols) && fresh(symbols.objects) && !symbols.destroyed
        && symbols.objects[..] == sheet.glyphs
        && symbols.width == sheet.width && symbols.height == sheet.height
        && scaleWidth == sheet.width && scaleHeight == sheet.height
        && xmlMap == Some(FontDocument(req.fontFamily, req.fontSize, req.strokeSize,
                                       sheet.maxHeight, CharRecords(sheet.glyphs, sheet.maxHeight)))
      ensures var key := TextureKey(req.fontFamily, req.fontSize, req.fontColor, now);
        && textures.draws == old(textures.draws) + (if old(textures.Has(key)) then 0 else 1)
        && textures.Has(key)
        && fontMap == Some(textures.Get(key))
        && textures.textures == Requested(old(textures.textures), key, Snapshot(symbols.width, symbols.height, symbols.objects[..]))
    {
      var objArray, maxWidth, maxHeight := PlaceGlyphs(req, sizes, aligned);
      GenerateFont(maxWidth, maxHeight, objArray, req, now);
    }

    /**
     * The part of `initResize` before the resize event: the text objects, their container,
     * the grid, the centring shift, the container's size and the scene's new size.
     */
    method PlaceGlyphs(req: Request, sizes: seq<Size>, aligned: seq<Point>)
      returns (objArray: array<Glyph>, maxWidth: real, maxHeight: real)
      requires Valid()
      requires |req.fontText| > 0
      requires |sizes| == |req.fontText| && |aligned| == |req.fontText|
      modifies this
      ensures Valid() && xmlMap == old(xmlMap) && fontMap == old(fontMap)
      ensures var sheet := Resize(req, sizes, aligned);
        && symbols != null && fresh(symbols) && fresh(objArray) && !symbols.destroyed
        && symbols.objects == objArray && objArray[..] == sheet.glyphs
        && maxWidth == sheet.maxWidth && maxHeight == sheet.maxHeight
        && symbols.width == sheet.width && symbols.height == sheet.height
        && scaleWidth == sheet.width && scaleHeight == sheet.height
    {
      ghost var sheet := Resize(req, sizes, aligned);
      var charArray := Split(req.fontText);
      var style := TextStyle(req);
      var objs, widthArray, heightArray := AddTexts(charArray, style, sizes);
      objArray := new Glyph[|objs|](i requires 0 <= i < |objs| => objs[i]);
      assert objArray[..] == objs;
      var container := new Container(objArray);
      symbols := container;

      maxWidth := Max(widthArray);
      maxHeight := Max(heightArray);
      var gridHeight := GridHeight(|charArray|);

      GridAlign(objArray, aligned);
      CentreInCells(objArray, maxWidth);
      assert objArray[..] == sheet.glyphs;

      var width := CanvasWidth(maxWidth);
      var height := CanvasHeight(maxHeight, |charArray|);
      container.width := width;
      container.height := height;

      scaleWidth, scaleHeight := width, height;
    }

    /** `generateFont`: the descriptor of the laid-out objects, then the sheet's texture. */
    method GenerateFont(maxWidth: real, maxHeight: real, objArray: array<Glyph>, form: Request, now: nat)
      requires Valid() && symbols != null
      modifies this, textures
      ensures Valid()
      ensures symbols == old(symbols) && scaleWidth == old(scaleWidth) && scaleHeight == old(scaleHeight)
      ensures xmlMap == Some(FontDocument(form.fontFamily, form.fontSize, form.strokeSize,
                                          maxHeight, CharRecords(objArray[..], maxHeight)))
      ensures var key := TextureKey(form.fontFamily, form.fontSize, form.fontColor, now);
        && textures.draws == old(textures.draws) + (if old(textures.Has(key)) then 0 else 1)
        && textures.Has(key)
        && fontMap == Some(textures.Get(key))
        && textures.textures == Requested(old(textures.textures), key, Snapshot(symbols.width, symbols.height, symbols.objects[..]))
    {
      var charDataArr := CharDataArray(objArray[..], maxHeight);
      xmlMap := Some(FontDocument(form.fontFamily, form.fontSize, form.strokeSize, maxHeight, charDataArr));
      DownloadCanvas(form.fontFamily, form.fontSize, form.fontColor, now);
    }

    /** `downloadCanvas`: the container's texture under `fontFamily_fontSize_fontColor_now`. */
    method DownloadCanvas(fontFamily: JsString, fontSize: int, fontColor: JsString, now: nat)
      requires Valid() && symbols != null
      modifies this, textures
      ensures Valid()
      ensures symbols == old(symbols) && xmlMap == old(xmlMap)
      ensures scaleWidth == old(scaleWidth) && scaleHeight == old(scaleHeight)
      ensures var key := TextureKey(fontFamily, fontSize, fontColor, now);
        && textures.draws == old(textures.draws) + (if old(textures.Has(key)) then 0 else 1)
        && textures.Has(key)
        && fontMap == Some(textures.Get(key))
        && textures.textures == Requested(old(textures.textures), key, Snapshot(symbols.width, symbols.height, symbols.objects[..]))
    {
      var key := TextureKey(fontFamily, fontSize, fontColor, now);
      KeyNotMissing(fontFamily, fontSize, fontColor, now);
      var r := textures.CreateTexture(key, symbols, symbols.width, symbols.height);
      fontMap := Some(textures.Get(key));
    }
  }
}
