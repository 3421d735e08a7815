/** `SpriteSheet`: rectangles of a texture atlas in order of addition, each reachable by its
    position or by any of its names. Sheets in pixels (`u32`) convert to sheets in UV units. */
module SpriteSheets {
  import opened Base

  datatype Pair<T> = Pair(x: T, y: T)

  datatype Sprite<T> = Sprite(pos: Pair<T>, dim: Pair<T>)

  /** The name index after `add` filed `names` under `index`: later names win over earlier ones. */
  function WithNames(m: map<string, nat>, names: seq<string>, index: nat): map<string, nat>
    decreases |names|
  {
    if names == [] then m else WithNames(m, names[..|names| - 1], index)[names[|names| - 1] := index]
  }

  /** Every given name now points at the new index; all other names keep their sprite. */
  lemma {:induction false} WithNamesSpec(m: map<string, nat>, names: seq<string>, index: nat, k: string)
    ensures k in WithNames(m, names, index) <==> k in m || k in names
    ensures k in names ==> WithNames(m, names, index)[k] == index
    ensures k !in names && k in m ==> WithNames(m, names, index)[k] == m[k]
    decreases |names|
  {
    if names != [] {
      var init := names[..|names| - 1];
      WithNamesSpec(m, init, index, k);
      assert forall c :: c in names <==> c in init || c == names[|names| - 1];
    }
  }

  /** Filing a single name is one map update. */
  lemma WithOneName(m: map<string, nat>, name: string, index: nat)
    ensures WithNames(m, [name], index) == m[name := index]
  {
    assert [name][..0] == [];
  }

  class SpriteSheet<T> {
    var size: Pair<T>
    var sprites: seq<Sprite<T>>
    var nameIndex: map<string, nat>

    /** Every name points at a sprite that exists, so looking a name up never goes out of range. */
    ghost predicate Valid()
      reads this
    {
      forall n :: n in nameIndex ==> nameIndex[n] < |sprites|
    }

    constructor (size: Pair<T>)
      ensures Valid()
      ensures this.size == size && sprites == [] && nameIndex == map[]
    {
      this.size := size;
      sprites := [];
      nameIndex := map[];
    }

    constructor FromParts(size: Pair<T>, sprites: seq<Sprite<T>>, nameIndex: map<string, nat>)
      ensures this.size == size && this.sprites == sprites && this.nameIndex == nameIndex
    {
      this.size := size;
      this.sprites := sprites;
      this.nameIndex := nameIndex;
    }

    /** `add`: appends the sprite and files each of its names under the sprite's index. */
    method Add(sprite: Sprite<T>, names: seq<string>)
      requires Valid()
      modifies this
      ensures Valid()
      ensures size == old(size) && sprites == old(sprites) + [sprite]
      ensures nameIndex == WithNames(old(nameIndex), names, |old(sprites)|)
    {
      var index := |sprites|;
      sprites := sprites + [sprite];
      var i := 0;
      while i < |names|
        invariant 0 <= i <= |names|
        invariant size == old(size) && sprites == old(sprites) + [sprite]
        invariant nameIndex == WithNames(old(nameIndex), names[..i], index)
        invariant forall n :: n in nameIndex ==> nameIndex[n] < |sprites|
      {
        assert names[..i + 1][..i] == names[..i];
        nameIndex := nameIndex[names[i] := index];
        i := i + 1;
      }
      assert names[..i] == names;
    }

    /** `names`: the names in the index, in no particular order. */
    function Names(): (ns: set<string>)
      reads this
      ensures Valid() ==> forall n :: n in ns <==> Named(n).Returned?
    {
      nameIndex.Keys
    }

    /** `iter`: the sprites in the order they were added. */
    function Iter(): (ss: seq<Sprite<T>>)
      reads this
      ensures |ss| == |sprites| && forall i :: 0 <= i < |ss| ==> At(i) == Returned(ss[i])
    {
      sprites
    }

    /** `Index<usize>`: the sprite at that position; an index out of range panics. */
    function At(index: nat): (r: Outcome<Sprite<T>>)
      reads this
      ensures r.Panicked? <==> index >= |sprites|
      ensures r.Returned? ==> r.value == sprites[index]
    {
      if index < |sprites| then Returned(sprites[index]) else Panicked
    }

    /** `Index<&str>`: the sprite the name is filed under; an unknown name panics, and so does
        a name filed under a position past the sprites, which a `Valid` sheet never has. */
    function Named(name: string): (r: Outcome<Sprite<T>>)
      reads this
      ensures r.Panicked? <==> name !in nameIndex || nameIndex[name] >= |sprites|
      ensures Valid() ==> (r.Panicked? <==> name !in nameIndex)
      ensures r.Returned? ==> name in nameIndex && r.value == sprites[nameIndex[name]] && r.value in sprites
    {
      if name in nameIndex && nameIndex[name] < |sprites| then Returned(sprites[nameIndex[name]]) else Panicked
    }
  }

  /** A pixel sprite in UV units of a sheet of the given size. */
  function UvSprite(s: Sprite<nat>, size: Pair<real>): Sprite<real>
    requires size.x > 0.0 && size.y > 0.0
  {
    Sprite(Pair(s.pos.x as real / size.x, s.pos.y as real / size.y),
           Pair(s.dim.x as real / size.x, s.dim.y as real / size.y))
  }

  function UvSprites(ss: seq<Sprite<nat>>, size: Pair<real>): (r: seq<Sprite<real>>)
    requires |ss| > 0 ==> size.x > 0.0 && size.y > 0.0
    ensures |r| == |ss| && forall i :: 0 <= i < |ss| ==> r[i] == UvSprite(ss[i], size)
  {
    seq(|ss|, i requires 0 <= i < |ss| => UvSprite(ss[i], size))
  }

  lemma FractionBound(p: nat, d: nat, total: nat)
    requires total > 0 && p + d <= total
    ensures 0.0 <= p as real / total as real
    ensures p as real / total as real + d as real / total as real <= 1.0
  {
    assert p as real / total as real + d as real / total as real == (p + d) as real / total as real;
  }

  /** A sprite inside the sheet becomes a rectangle inside the unit square. */
  lemma UvSpriteInUnitSquare(s: Sprite<nat>, width: nat, height: nat)
    requires width > 0 && height > 0
    requires s.pos.x + s.dim.x <= width && s.pos.y + s.dim.y <= height
    ensures var u := UvSprite(s, Pair(width as real, height as real));
      0.0 <= u.pos.x && u.pos.x + u.dim.x <= 1.0 && 0.0 <= u.pos.y && u.pos.y + u.dim.y <= 1.0
  {
    FractionBound(s.pos.x, s.dim.x, width);
    FractionBound(s.pos.y, s.dim.y, height);
  }

  /** `into_uv`: the same sprites and names, with every rectangle divided by the sheet size.
      Dividing by a zero sheet size is excluded whenever there is a sprite to divide. */
  method IntoUv(sheet: SpriteSheet<nat>) returns (r: SpriteSheet<real>)
    requires |sheet.sprites| > 0 ==> sheet.size.x > 0 && sheet.size.y > 0
    ensures fresh(r)
    ensures r.size == Pair(sheet.size.x as real, sheet.size.y as real)
    ensures r.sprites == UvSprites(sheet.sprites, r.size)
    ensures r.nameIndex == sheet.nameIndex
    ensures sheet.Valid() ==> r.Valid()
  {
    var size := Pair(sheet.size.x as real, sheet.size.y as real);
    r := new SpriteSheet<real>.FromParts(size, UvSprites(sheet.sprites, size), sheet.nameIndex);
  }
}
