/** `XmlTextureAtlas`: a sprite sheet in UV units from a deserialised XML texture atlas, each
    `SubTexture` becoming one sprite filed under its name. */
module XmlTextureAtlas {
  import opened Base
  import opened SpriteSheets

  datatype SubTexture = SubTexture(name: string, x: nat, y: nat, width: nat, height: nat)

  datatype TextureAtlas = TextureAtlas(subTextures: seq<SubTexture>)

  /** The deserialiser's failure. */
  datatype XmlError = MalformedXml

  function SpriteOf(t: SubTexture): Sprite<nat>
  {
    Sprite(Pair(t.x, t.y), Pair(t.width, t.height))
  }

  function SpritesOf(ts: seq<SubTexture>): (r: seq<Sprite<nat>>)
    ensures |r| == |ts| && forall i :: 0 <= i < |ts| ==> r[i] == SpriteOf(ts[i])
  {
    seq(|ts|, i requires 0 <= i < |ts| => SpriteOf(ts[i]))
  }

  /** The name index after adding `ts` in order. */
  function NameIndexOf(ts: seq<SubTexture>): map<string, nat>
    decreases |ts|
  {
    if ts == [] then map[] else NameIndexOf(ts[..|ts| - 1])[ts[|ts| - 1].name := |ts| - 1]
  }

  /** A name is filed iff some sub-texture carries it, and then under the LAST such sub-texture:
      a repeated name shadows the earlier sprite. */
  lemma {:induction false} NameIndexOfSpec(ts: seq<SubTexture>, n: string)
    ensures n in NameIndexOf(ts) <==> exists i :: 0 <= i < |ts| && ts[i].name == n
    ensures n in NameIndexOf(ts) ==>
      var i := NameIndexOf(ts)[n];
      i < |ts| && ts[i].name == n && forall j :: i < j < |ts| ==> ts[j].name != n
    decreases |ts|
  {
    if ts != [] {
      var init := ts[..|ts| - 1];
      NameIndexOfSpec(init, n);
      if (exists i :: 0 <= i < |ts| && ts[i].name == n) && ts[|ts| - 1].name != n {
        var i :| 0 <= i < |ts| && ts[i].name == n;
        assert init[i].name == n;
      }
    }
  }

  /** `load_from_str`, given what deserialising the content yielded: a deserialisation error is
      passed on; otherwise every sub-texture is added in order and the sheet converted to UV. */
  method LoadFromStr(parsed: Result<TextureAtlas, XmlError>, width: nat, height: nat)
    returns (r: Result<SpriteSheet<real>, XmlError>)
    requires parsed.Ok? && |parsed.value.subTextures| > 0 ==> width > 0 && height > 0
    ensures r.Ok? <==> parsed.Ok?
    ensures r.Err? ==> r.error == parsed.error
    ensures r.Ok? ==> fresh(r.value) && r.value.Valid()
    ensures r.Ok? ==> r.value.size == Pair(width as real, height as real)
    ensures r.Ok? ==> r.value.sprites == UvSprites(SpritesOf(parsed.value.subTextures), r.value.size)
    ensures r.Ok? ==> r.value.nameIndex == NameIndexOf(parsed.value.subTextures)
  {
    if parsed.Err? {
      return Err(parsed.error);
    }
    var ts := parsed.value.subTextures;
    var sheet := new SpriteSheet<nat>(Pair(width, height));
    var i := 0;
    while i < |ts|
      invariant 0 <= i <= |ts|
      invariant fresh(sheet) && sheet.Valid() && sheet.size == Pair(width, height)
      invariant sheet.sprites == SpritesOf(ts[..i])
      invariant sheet.nameIndex == NameIndexOf(ts[..i])
    {
      assert ts[..i + 1][..i] == ts[..i];
      WithOneName(sheet.nameIndex, ts[i].name, i);
      sheet.Add(SpriteOf(ts[i]), [ts[i].name]);
      i := i + 1;
    }
    assert ts[..i] == ts;
    var uv := IntoUv(sheet);
    r := Ok(uv);
  }
}
