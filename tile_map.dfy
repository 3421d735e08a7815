/** `TileMapLoader` and `TileMap2d`: a texture view cut into a row-major grid of equally sized
    tiles, each a subview of the view carrying the texture's id for one pipeline. */
module TileMaps {
  import opened Base
  import opened Textures
  import opened TextureViews

  const DEFAULT_TILE_SIZE: (nat, nat) := (64, 64)

  datatype TileMapLoader = TileMapLoader(tileSize: (nat, nat))
  {
    /** `with_tile_size`: a loader cutting tiles of the given size. */
    function WithTileSize(width: nat, height: nat): (l: TileMapLoader)
      ensures l.tileSize == (width, height)
    {
      TileMapLoader((width, height))
    }
  }

  /** `Default`: 64 by 64 pixel tiles. */
  function DefaultLoader(): (l: TileMapLoader)
    ensures l.tileSize == (64, 64)
  {
    TileMapLoader(DEFAULT_TILE_SIZE)
  }

  datatype TileSprite = TileSprite(texture: TextureInner, view: TextureView, uv0: Vec2, uv1: Vec2)

  /** `width` and `height` are the tile counts stored as `u16`. */
  datatype TileMap2d = TileMap2d(tiles: seq<TileSprite>, width: nat, height: nat)

  /** The corners of tile (x, y) relative to the view: pixel offsets divided by the view's size. */
  function TileCorner0(w: real, h: real, tileSize: (nat, nat), x: nat, y: nat): Vec2
    requires w > 0.0 && h > 0.0
  {
    Vec2((x * tileSize.0) as real / w, (y * tileSize.1) as real / h)
  }

  function TileCorner1(w: real, h: real, tileSize: (nat, nat), x: nat, y: nat): Vec2
    requires w > 0.0 && h > 0.0
  {
    Vec2(((x + 1) * tileSize.0) as real / w, ((y + 1) * tileSize.1) as real / h)
  }

  function TileAt(id: TextureInner, view: TextureView, w: real, h: real, tileSize: (nat, nat), x: nat, y: nat): TileSprite
    requires w > 0.0 && h > 0.0
  {
    var sub := view.Subview(Some(TileCorner0(w, h, tileSize, x, y)), Some(TileCorner1(w, h, tileSize, x, y)));
    TileSprite(id, sub, sub.Uv0OrDefault(), sub.Uv1OrDefault())
  }

  /** Row `y` of tiles, left to right: `(0..cols).map(|x| ..)`. */
  function TileRow(id: TextureInner, view: TextureView, w: real, h: real, tileSize: (nat, nat), cols: nat, y: nat): (ts: seq<TileSprite>)
    requires cols > 0 ==> w > 0.0 && h > 0.0
    ensures |ts| == cols
  {
    seq(cols, x requires 0 <= x < cols => TileAt(id, view, w, h, tileSize, x, y))
  }

  /** `(0..rows).flat_map(..)`: the rows top to bottom. */
  function Tiles(id: TextureInner, view: TextureView, w: real, h: real, tileSize: (nat, nat), cols: nat, rows: nat): seq<TileSprite>
    requires rows > 0 && cols > 0 ==> w > 0.0 && h > 0.0
    decreases rows
  {
    if rows == 0 then [] else Tiles(id, view, w, h, tileSize, cols, rows - 1) + TileRow(id, view, w, h, tileSize, cols, rows - 1)
  }

  lemma {:induction false} TilesLength(id: TextureInner, view: TextureView, w: real, h: real, tileSize: (nat, nat), cols: nat, rows: nat)
    requires rows > 0 && cols > 0 ==> w > 0.0 && h > 0.0
    ensures |Tiles(id, view, w, h, tileSize, cols, rows)| == rows * cols
    decreases rows
  {
    if rows > 0 {
      TilesLength(id, view, w, h, tileSize, cols, rows - 1);
    }
  }

  lemma MulMono(a: nat, b: nat, c: nat)
    requires a <= b
    ensures a * c <= b * c
  {
  }

  /** Exactly `rows · cols` tiles, row-major: tile (x, y) is number `y · cols + x`. */
  lemma {:induction false} TilesAt(id: TextureInner, view: TextureView, w: real, h: real, tileSize: (nat, nat), cols: nat, rows: nat, x: nat, y: nat)
    requires x < cols && y < rows && w > 0.0 && h > 0.0
    ensures y * cols + x < |Tiles(id, view, w, h, tileSize, cols, rows)|
    ensures Tiles(id, view, w, h, tileSize, cols, rows)[y * cols + x] == TileAt(id, view, w, h, tileSize, x, y)
    decreases rows
  {
    TilesLength(id, view, w, h, tileSize, cols, rows - 1);
    var below := (rows - 1) * cols;
    if y < rows - 1 {
      MulMono(y + 1, rows - 1, cols);
      assert y * cols + x < below;
      TilesAt(id, view, w, h, tileSize, cols, rows - 1, x, y);
    } else {
      assert y * cols + x == below + x;
    }
  }

  lemma QuotientPositive(a: real, b: real)
    requires b > 0.0 && a / b > 0.0
    ensures a > 0.0
  {
  }

  /** How many whole tiles fit across a length: `(len / tile as f32) as u32`. */
  function TileCount(len: real, tile: nat): (n: nat)
    requires tile > 0
    ensures n > 0 ==> len > 0.0
  {
    var n := CastU32(len / tile as real);
    if n > 0 then QuotientPositive(len, tile as real); n else n
  }

  /** The map cut from a view of the given pixel size, once the texture id is known. */
  function CutTiles(id: TextureInner, view: TextureView, w: real, h: real, tileSize: (nat, nat)): (m: TileMap2d)
    requires tileSize.0 > 0 && tileSize.1 > 0
    ensures var cols, rows := TileCount(w, tileSize.0), TileCount(h, tileSize.1);
      |m.tiles| == rows * cols && m.width == TruncU16(cols) && m.height == TruncU16(rows)
  {
    var cols, rows := TileCount(w, tileSize.0), TileCount(h, tileSize.1);
    TilesLength(id, view, w, h, tileSize, cols, rows);
    TileMap2d(Tiles(id, view, w, h, tileSize, cols, rows), TruncU16(cols), TruncU16(rows))
  }

  /** `load_tiles_from_texture`: no map when the view's texture has no id for the pipeline;
      otherwise the tiles cut from the view's pixel size. A zero tile size would divide by zero
      and is excluded. */
  function LoadTilesFromTexture(loader: TileMapLoader, view: TextureView, ty: TypeTag): (r: Option<TileMap2d>)
    requires loader.tileSize.0 > 0 && loader.tileSize.1 > 0
    reads view.texture
    ensures r.None? <==> view.texture.GetTextureId(ty).None?
    ensures r.Some? ==> r.value == CutTiles(view.texture.GetTextureId(ty).value, view, view.Width(), view.Height(), loader.tileSize)
  {
    var id := view.texture.GetTextureId(ty);
    if id.None? then None else Some(CutTiles(id.value, view, view.Width(), view.Height(), loader.tileSize))
  }

  /** The row-major position of (x, y) in rows of `cols` tiles. */
  function RowMajor(cols: nat, x: nat, y: nat): nat
  {
    y * cols + x
  }

  /** Tile (x, y) carries the pipeline's id and covers the view's sub-rectangle from
      `(x·tw/W, y·th/H)` to `((x+1)·tw/W, (y+1)·th/H)`. */
  lemma CutTileAt(id: TextureInner, view: TextureView, w: real, h: real, tileSize: (nat, nat), x: nat, y: nat)
    requires tileSize.0 > 0 && tileSize.1 > 0
    requires x < TileCount(w, tileSize.0) && y < TileCount(h, tileSize.1)
    ensures w > 0.0 && h > 0.0
    ensures var m, i := CutTiles(id, view, w, h, tileSize), RowMajor(TileCount(w, tileSize.0), x, y);
      i < |m.tiles| && var t := m.tiles[i];
      && t.texture == id
      && t.uv0 == view.Absolute(TileCorner0(w, h, tileSize, x, y))
      && t.uv1 == view.Absolute(TileCorner1(w, h, tileSize, x, y))
  {
    var cols, rows := TileCount(w, tileSize.0), TileCount(h, tileSize.1);
    TilesAt(id, view, w, h, tileSize, cols, rows, x, y);
    SubviewCorners(view, TileCorner0(w, h, tileSize, x, y), TileCorner1(w, h, tileSize, x, y));
  }

  lemma ScaleBelow(a: real, q: real, t: real)
    requires t > 0.0 && a <= q
    ensures a * t <= (q * t)
  {
  }

  lemma FractionAtMostOne(a: real, len: real)
    requires len > 0.0 && a <= len
    ensures a / len <= 1.0
  {
  }

  /** `n` tiles of `tile` pixels, no more than fit across `len`, end within it. */
  lemma TilesWithinLength(n: nat, tile: nat, len: real)
    requires tile > 0 && len > 0.0 && n as real <= len / tile as real
    ensures (n * tile) as real / len <= 1.0
  {
    var t := tile as real;
    ScaleBelow(n as real, len / t, t);
    assert (len / t) * t == len;
    assert (n * tile) as real == n as real * t;
    FractionAtMostOne((n * tile) as real, len);
  }

  lemma WholeTilesFit(count: nat, len: real, tile: nat, x: nat)
    requires tile > 0 && count == CastU32(len / tile as real) && x < count
    ensures len > 0.0 && ((x + 1) * tile) as real / len <= 1.0
  {
    QuotientPositive(len, tile as real);
    assert (x + 1) as real <= len / tile as real;
    TilesWithinLength(x + 1, tile, len);
  }

  /** Only whole tiles are cut: every tile's far corner lies inside the view. */
  lemma TilesInsideView(w: real, h: real, tileSize: (nat, nat), x: nat, y: nat)
    requires tileSize.0 > 0 && tileSize.1 > 0
    requires x < TileCount(w, tileSize.0) && y < TileCount(h, tileSize.1)
    ensures w > 0.0 && h > 0.0
    ensures var c := TileCorner1(w, h, tileSize, x, y); c.x <= 1.0 && c.y <= 1.0
  {
    WholeTilesFit(TileCount(w, tileSize.0), w, tileSize.0, x);
    WholeTilesFit(TileCount(h, tileSize.1), h, tileSize.1, y);
  }

  /** Neighbouring tiles share their edge: no gap and no overlap between them. */
  lemma TilesAdjacent(w: real, h: real, tileSize: (nat, nat), x: nat, y: nat)
    requires w > 0.0 && h > 0.0
    ensures TileCorner1(w, h, tileSize, x, y).x == TileCorner0(w, h, tileSize, x + 1, y).x
    ensures TileCorner1(w, h, tileSize, x, y).y == TileCorner0(w, h, tileSize, x, y + 1).y
  {
  }

  /** `width()`, `height()`. */
  function Width(m: TileMap2d): (w: nat)
    ensures w == m.width
  {
    m.width
  }

  function Height(m: TileMap2d): (h: nat)
    ensures h == m.height
  {
    m.height
  }

  /** `get_tile`: the tile at `y * width + x` if there is one; `x` is not checked against the
      width. The `u16` arithmetic overflows and panics past 65535, so that is excluded. */
  function GetTile(m: TileMap2d, x: nat, y: nat): (r: Option<TileSprite>)
    requires y * m.width + x < U16_LIMIT
    ensures r.Some? <==> y * m.width + x < |m.tiles|
    ensures r.Some? ==> r.value == m.tiles[y * m.width + x]
  {
    if y * m.width + x < |m.tiles| then Some(m.tiles[y * m.width + x]) else None
  }

  /** `Index<(T, T)>`: `get_tile(x, y).unwrap()`, which panics where `get_tile` has no tile. */
  function Index(m: TileMap2d, x: nat, y: nat): (r: Outcome<TileSprite>)
    requires y * m.width + x < U16_LIMIT
    ensures r.Panicked? <==> y * m.width + x >= |m.tiles|
    ensures r.Returned? ==> r.value == m.tiles[y * m.width + x]
  {
    match GetTile(m, x, y)
    case None => Panicked
    case Some(t) => Returned(t)
  }

  /** An unchecked column runs over into the next row: (width + x, y) is (x, y + 1). */
  lemma GetTileOverrunsRow(m: TileMap2d, x: nat, y: nat)
    requires (y + 1) * m.width + x < U16_LIMIT
    ensures GetTile(m, m.width + x, y) == GetTile(m, x, y + 1)
  {
    assert y * m.width + (m.width + x) == (y + 1) * m.width + x;
  }

  /** On a map of fewer than 65536 columns, `get_tile` finds exactly the tile cut at (x, y). */
  lemma GetTileOfCut(id: TextureInner, view: TextureView, w: real, h: real, tileSize: (nat, nat), x: nat, y: nat)
    requires tileSize.0 > 0 && tileSize.1 > 0
    requires TileCount(w, tileSize.0) < U16_LIMIT
    requires x < TileCount(w, tileSize.0) && y < TileCount(h, tileSize.1)
    requires y * TileCount(w, tileSize.0) + x < U16_LIMIT
    ensures w > 0.0 && h > 0.0
    ensures GetTile(CutTiles(id, view, w, h, tileSize), x, y) == Some(TileAt(id, view, w, h, tileSize, x, y))
  {
    var cols, rows := TileCount(w, tileSize.0), TileCount(h, tileSize.1);
    TilesAt(id, view, w, h, tileSize, cols, rows, x, y);
  }

  /** Indexing a cut map at one of its cells returns that cell's tile and never panics. */
  lemma IndexOfCut(id: TextureInner, view: TextureView, w: real, h: real, tileSize: (nat, nat), x: nat, y: nat)
    requires tileSize.0 > 0 && tileSize.1 > 0
    requires TileCount(w, tileSize.0) < U16_LIMIT
    requires x < TileCount(w, tileSize.0) && y < TileCount(h, tileSize.1)
    requires y * TileCount(w, tileSize.0) + x < U16_LIMIT
    ensures w > 0.0 && h > 0.0
    ensures Index(CutTiles(id, view, w, h, tileSize), x, y) == Returned(TileAt(id, view, w, h, tileSize, x, y))
  {
    GetTileOfCut(id, view, w, h, tileSize, x, y);
  }
}
