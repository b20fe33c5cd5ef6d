/**
 * The texture side of the generator: the container a scene draws, the key under which
 * `downloadCanvas` stores a sheet, and the scene's texture manager with the
 * draw-once-per-key discipline of `createTexture`.
 */
module Textures {
  import opened Wrappers
  import opened JsStrings
  import opened Layout

  /** The key the texture manager answers with for a key it does not hold. */
  const MissingKey: JsString := Js("__MISSING")

  /** What a texture holds: the manager's placeholder, or a snapshot of drawn glyphs. */
  datatype Image = Placeholder | Snapshot(width: real, height: real, glyphs: seq<Glyph>)

  datatype Texture = Texture(key: JsString, image: Image)

  /** The scene's container of text objects; it shares the array the scene lays out. */
  class Container {
    const objects: array<Glyph>
    var width: real
    var height: real
    var destroyed: bool

    constructor (objects: array<Glyph>)
      ensures this.objects == objects && width == 0.0 && height == 0.0 && !destroyed
    {
      this.objects := objects;
      width, height := 0.0, 0.0;
      destroyed := false;
    }

    /** `destroy()`: the container leaves the scene; its fields keep their values. */
    method Destroy()
      modifies this
      ensures destroyed && width == old(width) && height == old(height)
    {
      destroyed := true;
    }
  }

  /** `${fontFamily}_${fontSize}_${fontColor}_${time}` */
  function TextureKey(fontFamily: JsString, fontSize: int, fontColor: JsString, time: nat): (key: JsString)
    ensures |key| > |fontFamily| && key[..|fontFamily|] == fontFamily && key[|fontFamily|] == Underscore
    ensures var t := DecimalString(time);
      |key| > |t| && key[|key| - |t|..] == t && key[|key| - |t| - 1] == Underscore
  {
    fontFamily + [Underscore] + DecimalString(fontSize) + [Underscore] + fontColor + [Underscore] + DecimalString(time)
  }

  /** The time stamp is what follows the key's last underscore, whatever the other fields hold. */
  lemma KeyTimestamp(fontFamily: JsString, fontSize: int, fontColor: JsString, time: nat)
    ensures ParseDecimal(AfterLast(TextureKey(fontFamily, fontSize, fontColor, time), Underscore)) == Some(time)
  {
    var prefix := fontFamily + [Underscore] + DecimalString(fontSize) + [Underscore] + fontColor;
    assert TextureKey(fontFamily, fontSize, fontColor, time) == prefix + [Underscore] + DecimalString(time);
    AfterLastOfSuffix(prefix, Underscore, DecimalString(time));
    DecimalRoundTrip(time);
  }

  /** A changed time stamp always gives a fresh key. */
  lemma KeysDifferByTime(
    fontFamily: JsString, fontSize: int, fontColor: JsString, time: nat,
    fontFamily': JsString, fontSize': int, fontColor': JsString, time': nat)
    requires time != time'
    ensures TextureKey(fontFamily, fontSize, fontColor, time) != TextureKey(fontFamily', fontSize', fontColor', time')
  {
    KeyTimestamp(fontFamily, fontSize, fontColor, time);
    KeyTimestamp(fontFamily', fontSize', fontColor', time');
  }

  /** A key ends in a digit, so it is never the manager's missing-texture key. */
  lemma KeyNotMissing(fontFamily: JsString, fontSize: int, fontColor: JsString, time: nat)
    ensures TextureKey(fontFamily, fontSize, fontColor, time) != MissingKey
  {
    var key := TextureKey(fontFamily, fontSize, fontColor, time);
    assert key[|key| - 1] == DecimalString(time)[|DecimalString(time)| - 1];
    assert MissingKey[|MissingKey| - 1] as int == 'G' as int;
  }

  /** The cache after one request for `key` whose drawing gives `image`: a held key keeps its entry. */
  function Requested(cache: map<JsString, Texture>, key: JsString, image: Image): map<JsString, Texture> {
    if key in cache then cache else cache[key := Texture(key, image)]
  }

  /** The scene's texture manager: the textures it holds by key, and the draws performed. */
  class TextureManager {
    var textures: map<JsString, Texture>
    var draws: nat

    ghost predicate Valid()
      reads this
    {
      && MissingKey in textures
      && textures[MissingKey].image == Placeholder
      && forall k :: k in textures ==> textures[k].key == k
    }

    constructor ()
      ensures Valid() && draws == 0
      ensures textures == map[MissingKey := Texture(MissingKey, Placeholder)]
    {
      textures := map[MissingKey := Texture(MissingKey, Placeholder)];
      draws := 0;
    }

    /** `textures.get(key)`: the texture under `key`, or the missing texture. */
    function Get(key: JsString): (t: Texture)
      reads this
      requires Valid()
      ensures key in textures ==> t == textures[key]
      ensures key !in textures ==> t.key == MissingKey && t.image == Placeholder
    {
      if key in textures then textures[key] else textures[MissingKey]
    }

    /** The test `createTexture` makes: does `key` name a texture other than the missing one? */
    predicate Has(key: JsString)
      reads this
      requires Valid()
      ensures Has(key) <==> key in textures && key != MissingKey
    {
      Get(key).key != MissingKey
    }

    /** `textures.addBase64`: the manager takes a new key and refuses one already in use. */
    method AddBase64(key: JsString, image: Image)
      requires Valid() && image != Placeholder
      modifies this
      ensures Valid() && draws == old(draws)
      ensures textures == if key in old(textures) then old(textures) else old(textures)[key := Texture(key, image)]
    {
      if key !in textures {
        textures := textures[key := Texture(key, image)];
      }
    }

    /**
     * `createTexture`: a key already held returns at once, creating no render texture and
     * drawing nothing; any other key draws the container once and registers the snapshot.
     */
    method CreateTexture(key: JsString, container: Container, width: real, height: real) returns (r: JsString)
      requires Valid()
      modifies this
      ensures Valid() && r == key
      ensures old(Has(key)) ==> textures == old(textures) && draws == old(draws)
      ensures !old(Has(key)) ==> draws == old(draws) + 1
      ensures !old(Has(key)) && key != MissingKey ==>
        textures == old(textures)[key := Texture(key, Snapshot(width, height, container.objects[..]))]
      ensures key == MissingKey ==> textures == old(textures)
      ensures key != MissingKey ==> Has(key)
    {
      if Get(key).key != MissingKey {
        return key;
      }
      var snapshot := Snapshot(width, height, container.objects[..]);
      draws := draws + 1;
      AddBase64(key, snapshot);
      r := key;
    }
  }

  /** Asking twice for one key draws at most once, and the second request changes nothing. */
  method CreateTextureTwice(manager: TextureManager, key: JsString, container: Container, width: real, height: real)
    requires manager.Valid() && key != MissingKey
    modifies manager
    ensures manager.Valid() && manager.Has(key)
    ensures manager.draws == old(manager.draws) + if old(manager.Has(key)) then 0 else 1
    ensures manager.textures == Requested(old(manager.textures), key, Snapshot(width, height, container.objects[..]))
  {
    var first := manager.CreateTexture(key, container, width, height);
    ghost var afterFirst := manager.textures;
    var second := manager.CreateTexture(key, container, width, height);
    assert manager.textures == afterFirst;
  }
}
