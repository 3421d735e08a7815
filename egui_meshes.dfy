/** The epaint values both egui pipelines consume (clipped meshes, texture ids, texture deltas)
    and the packing step they share: every kept mesh's vertices and indices appended to one
    vertex and one index buffer, with the (vertex, index) offset at which each mesh starts. */
module EguiMeshes {
  import opened Base
  import opened Gpu
  import opened Packing
  import opened ImageUploads

  /** `Color32`: premultiplied sRGBA bytes. */
  datatype Color32 = Color32(r: Byte, g: Byte, b: Byte, a: Byte)

  /** `epaint::Vertex`. */
  datatype EpaintVertex = EpaintVertex(pos: Vec2, uv: Vec2, color: Color32)

  /** `TextureId`: ids egui allocates, and ids the user registered. */
  datatype EguiTextureId = Managed(id: nat) | User(id: nat)

  datatype Mesh = Mesh(indices: seq<nat>, vertices: seq<EpaintVertex>, textureId: EguiTextureId)

  /** `Primitive`: a mesh, or a paint callback, which neither pipeline supports. */
  datatype Primitive = MeshPrimitive(mesh: Mesh) | Callback

  datatype Rect = Rect(min: Vec2, max: Vec2)
  {
    function Width(): real { max.x - min.x }
    function Height(): real { max.y - min.y }
  }

  datatype ClippedPrimitive = ClippedPrimitive(clipRect: Rect, primitive: Primitive)

  /** A mesh that made it into the packed buffers, with the clip rectangle it is drawn under. */
  datatype ClippedMesh = ClippedMesh(clipRect: Rect, mesh: Mesh)

  /** `From<&epaint::Vertex> for AdapterVertex`: position and UV unchanged, each colour byte
      scaled to `[0, 1]`. */
  function ToAdapterVertex(v: EpaintVertex): (a: Vertex)
    ensures a.UiVertex? && a.pos == v.pos && a.uv == v.uv
    ensures a.color.r * 255.0 == v.color.r as real && a.color.g * 255.0 == v.color.g as real
    ensures a.color.b * 255.0 == v.color.b as real && a.color.a * 255.0 == v.color.a as real
    ensures forall c :: c in a.color.Components() ==> 0.0 <= c <= 1.0
  {
    UiVertex(v.pos, v.uv, Color(v.color.r as real / 255.0, v.color.g as real / 255.0,
                                v.color.b as real / 255.0, v.color.a as real / 255.0))
  }

  /** The scaled colour determines the vertex it came from. */
  lemma AdapterVertexInjective(v: EpaintVertex, w: EpaintVertex)
    requires ToAdapterVertex(v) == ToAdapterVertex(w)
    ensures v == w
  {
    var a, b := ToAdapterVertex(v), ToAdapterVertex(w);
    assert v.color.r as real == a.color.r * 255.0 == w.color.r as real;
    assert v.color.g as real == a.color.g * 255.0 == w.color.g as real;
    assert v.color.b as real == a.color.b * 255.0 == w.color.b as real;
    assert v.color.a as real == a.color.a * 255.0 == w.color.a as real;
  }

  /** The loop skips callbacks and meshes without vertices or without indices. */
  predicate Kept(p: ClippedPrimitive)
  {
    p.primitive.MeshPrimitive? && |p.primitive.mesh.vertices| > 0 && |p.primitive.mesh.indices| > 0
  }

  /** The meshes the loop keeps, in order, each with its clip rectangle. */
  function KeptMeshes(ps: seq<ClippedPrimitive>): (ms: seq<ClippedMesh>)
    ensures |ms| <= |ps|
    ensures forall k :: 0 <= k < |ms| ==> |ms[k].mesh.vertices| > 0 && |ms[k].mesh.indices| > 0
    decreases |ps|
  {
    if ps == [] then []
    else
      var last := ps[|ps| - 1];
      KeptMeshes(ps[..|ps| - 1]) + (if Kept(last) then [ClippedMesh(last.clipRect, last.primitive.mesh)] else [])
  }

  /** Keeping distributes over concatenation, and one primitive is kept exactly when it is a
      mesh with vertices and indices: together, `KeptMeshes` is the order-preserving filter. */
  lemma {:induction false} KeptMeshesAppend(a: seq<ClippedPrimitive>, b: seq<ClippedPrimitive>)
    ensures KeptMeshes(a + b) == KeptMeshes(a) + KeptMeshes(b)
    decreases |b|
  {
    if b == [] {
      assert a + b == a;
    } else {
      var b' := b[..|b| - 1];
      assert (a + b)[..|a + b| - 1] == a + b';
      KeptMeshesAppend(a, b');
    }
  }

  lemma KeptMeshesSingle(p: ClippedPrimitive)
    ensures KeptMeshes([p]) == if Kept(p) then [ClippedMesh(p.clipRect, p.primitive.mesh)] else []
  {
    assert [p][..0] == [];
  }

  /** Nothing is kept exactly when every primitive is a callback or an empty mesh. */
  lemma {:induction false} NothingKeptIff(ps: seq<ClippedPrimitive>)
    ensures KeptMeshes(ps) == [] <==> forall i :: 0 <= i < |ps| ==> !Kept(ps[i])
    decreases |ps|
  {
    if ps != [] {
      var init := ps[..|ps| - 1];
      NothingKeptIff(init);
      if forall i :: 0 <= i < |init| ==> !Kept(init[i]) {
        if !Kept(ps[|ps| - 1]) {
          forall i | 0 <= i < |ps|
            ensures !Kept(ps[i])
          {
            if i < |init| {
              assert ps[i] == init[i];
            }
          }
        }
      } else {
        var i :| 0 <= i < |init| && Kept(init[i]);
        assert ps[i] == init[i];
      }
    }
  }

  function MeshVertices(c: ClippedMesh): (vs: seq<Vertex>)
    ensures |vs| == |c.mesh.vertices|
    ensures forall i :: 0 <= i < |vs| ==> vs[i] == ToAdapterVertex(c.mesh.vertices[i])
  {
    seq(|c.mesh.vertices|, i requires 0 <= i < |c.mesh.vertices| => ToAdapterVertex(c.mesh.vertices[i]))
  }

  function MeshIndices(c: ClippedMesh): seq<nat>
  {
    c.mesh.indices
  }

  /** The packed vertex buffer. */
  function Vertices(ms: seq<ClippedMesh>): seq<Vertex>
  {
    ConcatMap(ms, MeshVertices)
  }

  /** The packed index buffer: every mesh's indices unchanged, relative to its own vertices. */
  function Indices(ms: seq<ClippedMesh>): seq<nat>
  {
    ConcatMap(ms, MeshIndices)
  }

  function ClipRects(ms: seq<ClippedMesh>): (rs: seq<Rect>)
    ensures |rs| == |ms| && forall k :: 0 <= k < |ms| ==> rs[k] == ms[k].clipRect
  {
    seq(|ms|, k requires 0 <= k < |ms| => ms[k].clipRect)
  }

  function TextureIds(ms: seq<ClippedMesh>): (ts: seq<EguiTextureId>)
    ensures |ts| == |ms| && forall k :: 0 <= k < |ms| ==> ts[k] == ms[k].mesh.textureId
  {
    seq(|ms|, k requires 0 <= k < |ms| => ms[k].mesh.textureId)
  }

  /** The scissor of a clip rectangle: its corner and size, each cast `as u32`. */
  function Scissor(rect: Rect): Cmd
  {
    SetScissor((CastU32(rect.min.x), CastU32(rect.min.y)), (CastU32(rect.Width()), CastU32(rect.Height())))
  }

  /** Where mesh `k` starts in both buffers; entry `|ms|` is the sentinel, the buffers' lengths. */
  function Offset(ms: seq<ClippedMesh>, k: nat): (nat, nat)
    requires k <= |ms|
  {
    (Start(ms, MeshVertices, k), Start(ms, MeshIndices, k))
  }

  /** The offsets with the final sentinel. */
  function Offsets(ms: seq<ClippedMesh>): (os: seq<(nat, nat)>)
    ensures |os| == |ms| + 1 && forall k :: 0 <= k <= |ms| ==> os[k] == Offset(ms, k)
  {
    seq(|ms| + 1, k requires 0 <= k <= |ms| => Offset(ms, k))
  }

  /** The packed buffers, clip rectangles, texture ids and per-mesh offsets (without the
      sentinel), as the loop leaves them. */
  datatype Packed = Packed(vertices: seq<Vertex>, indices: seq<nat>, clipRects: seq<Rect>,
                           textureIds: seq<EguiTextureId>, offsets: seq<(nat, nat)>)

  function PackedOf(ms: seq<ClippedMesh>): Packed
  {
    Packed(Vertices(ms), Indices(ms), ClipRects(ms), TextureIds(ms), Offsets(ms)[..|ms|])
  }

  /** One more kept mesh appends its vertices, indices, rectangle, id and the offset reached
      before it. */
  lemma PackedSnoc(ms: seq<ClippedMesh>, m: ClippedMesh)
    ensures var p, q := PackedOf(ms), PackedOf(ms + [m]);
      && q.vertices == p.vertices + MeshVertices(m) && q.indices == p.indices + m.mesh.indices
      && q.clipRects == p.clipRects + [m.clipRect] && q.textureIds == p.textureIds + [m.mesh.textureId]
      && q.offsets == p.offsets + [(|p.vertices|, |p.indices|)]
  {
    var ms' := ms + [m];
    assert ms'[..|ms'| - 1] == ms;
    forall k | 0 <= k <= |ms|
      ensures Offset(ms', k) == Offset(ms, k)
    {
      assert ms'[..k] == ms[..k];
    }
    assert ms[..|ms|] == ms;
    assert Offsets(ms')[..|ms'|] == Offsets(ms)[..|ms|] + [Offset(ms, |ms|)];
  }

  lemma KeptMeshesSnoc(ps: seq<ClippedPrimitive>, i: nat)
    requires i < |ps|
    ensures KeptMeshes(ps[..i + 1]) == KeptMeshes(ps[..i])
      + (if Kept(ps[i]) then [ClippedMesh(ps[i].clipRect, ps[i].primitive.mesh)] else [])
  {
    assert ps[..i + 1][..i] == ps[..i];
  }

  /** The packing loop of `draw_internal` (and of the painter's `draw`): skipped primitives leave
      everything unchanged; a kept mesh records the current buffer lengths as its offset, its
      texture id, its converted vertices, its indices and its clip rectangle. */
  method Pack(ps: seq<ClippedPrimitive>) returns (p: Packed)
    ensures p == PackedOf(KeptMeshes(ps))
  {
    var vertices: seq<Vertex>, indices: seq<nat>, clipRects: seq<Rect> := [], [], [];
    var textureIds: seq<EguiTextureId>, offsets: seq<(nat, nat)> := [], [];
    var i := 0;
    while i < |ps|
      invariant i <= |ps|
      invariant Packed(vertices, indices, clipRects, textureIds, offsets) == PackedOf(KeptMeshes(ps[..i]))
    {
      KeptMeshesSnoc(ps, i);
      ghost var ms := KeptMeshes(ps[..i]);
      var clipped := ps[i];
      if Kept(clipped) {
        var mesh := clipped.primitive.mesh;
        PackedSnoc(ms, ClippedMesh(clipped.clipRect, mesh));
        offsets := offsets + [(|vertices|, |indices|)];
        textureIds := textureIds + [mesh.textureId];
        vertices := vertices + MeshVertices(ClippedMesh(clipped.clipRect, mesh));
        indices := indices + mesh.indices;
        clipRects := clipRects + [clipped.clipRect];
      } else {
        assert KeptMeshes(ps[..i + 1]) == ms + [] == ms;
      }
      i := i + 1;
    }
    assert ps[..i] == ps;
    p := Packed(vertices, indices, clipRects, textureIds, offsets);
  }

  /** The sentinel pushed after the loop completes the offsets. */
  lemma SentinelCompletesOffsets(ms: seq<ClippedMesh>)
    ensures PackedOf(ms).offsets + [(|Vertices(ms)|, |Indices(ms)|)] == Offsets(ms)
  {
    assert ms[..|ms|] == ms;
  }

  /** Mesh `k`'s vertices and indices are exactly the slices between its offset and the next. */
  lemma MeshChunk(ms: seq<ClippedMesh>, k: nat)
    requires k < |ms|
    ensures Offset(ms, k + 1).0 == Offset(ms, k).0 + |ms[k].mesh.vertices| <= |Vertices(ms)|
    ensures Offset(ms, k + 1).1 == Offset(ms, k).1 + |ms[k].mesh.indices| <= |Indices(ms)|
    ensures Vertices(ms)[Offset(ms, k).0..Offset(ms, k + 1).0] == MeshVertices(ms[k])
    ensures Indices(ms)[Offset(ms, k).1..Offset(ms, k + 1).1] == ms[k].mesh.indices
  {
    ChunkAt(ms, MeshVertices, k);
    ChunkAt(ms, MeshIndices, k);
  }

  /** The offsets of the kept meshes start at (0, 0), end at the buffers' lengths and strictly
      increase in both components, since no kept mesh is empty. */
  lemma {:induction false} OffsetsIncrease(ps: seq<ClippedPrimitive>, j: nat, k: nat)
    requires j < k <= |KeptMeshes(ps)|
    ensures var ms := KeptMeshes(ps);
      Offset(ms, j).0 < Offset(ms, k).0 && Offset(ms, j).1 < Offset(ms, k).1
    decreases k - j
  {
    var ms := KeptMeshes(ps);
    MeshChunk(ms, j);
    if j + 1 < k {
      OffsetsIncrease(ps, j + 1, k);
    }
  }

  lemma OffsetsEnds(ms: seq<ClippedMesh>)
    ensures Offsets(ms)[0] == (0, 0)
    ensures Offsets(ms)[|ms|] == (|Vertices(ms)|, |Indices(ms)|)
  {
    assert ms[..0] == [];
    assert ms[..|ms|] == ms;
  }

  datatype TextureFilter = FilterNearest | FilterLinear

  datatype TextureWrapMode = ClampToEdge | Repeat | MirroredRepeat

  /** `TextureOptions`: how egui wants a texture sampled. */
  datatype TextureOptions = TextureOptions(magnification: TextureFilter, minification: TextureFilter, wrapMode: TextureWrapMode)

  /** `ImageData`: a colour image, or the font atlas. The font atlas carries the sRGBA pixels
      `srgba_pixels(None)` derives from its coverage values. */
  datatype ImageData =
    | ColorImage(size: (nat, nat), pixels: seq<Color32>)
    | FontImage(size: (nat, nat), srgba: seq<Color32>)
  {
    function Width(): nat { size.0 }
    function Height(): nat { size.1 }

    function Pixels(): seq<Color32>
    {
      match this
      case ColorImage(_, px) => px
      case FontImage(_, px) => px
    }
  }

  /** `ImageDelta`: a whole new image when `pos` is absent, otherwise a patch at `pos`. */
  datatype ImageDelta = ImageDelta(image: ImageData, options: TextureOptions, pos: Option<(nat, nat)>)
  {
    predicate IsWhole() { pos.None? }
  }

  /** `TexturesDelta`: `set`, the textures to create or patch, in order, and `free`, the textures to free. */
  datatype TexturesDelta = TexturesDelta(updates: seq<(EguiTextureId, ImageDelta)>, free: seq<EguiTextureId>)

  /** `Color32::to_array`. */
  function ToArray(c: Color32): seq<nat>
  {
    [c.r, c.g, c.b, c.a]
  }

  /** The staged bytes of an image: every pixel's four channels, in pixel order. */
  function PixelBytes(image: ImageData): seq<nat>
  {
    ConcatMap(image.Pixels(), ToArray)
  }

  /** Four bytes per pixel, pixel `i` at bytes `4i .. 4i + 4`. */
  lemma {:induction false} PixelBytesLayout(pixels: seq<Color32>, i: nat)
    requires i < |pixels|
    ensures |ConcatMap(pixels, ToArray)| == 4 * |pixels|
    ensures ConcatMap(pixels, ToArray)[4 * i..4 * i + 4] == ToArray(pixels[i])
  {
    BytesLength(pixels);
    BytesLength(pixels[..i]);
    ChunkAt(pixels, ToArray, i);
  }

  lemma {:induction false} BytesLength(pixels: seq<Color32>)
    ensures |ConcatMap(pixels, ToArray)| == 4 * |pixels|
    decreases |pixels|
  {
    if pixels != [] {
      BytesLength(pixels[..|pixels| - 1]);
    }
  }

  /** The region a patch is copied to: its position and the patch's size, each cast `as u32`;
      a whole image has none, so the copy covers the whole image. */
  function DeltaRegion(delta: ImageDelta): (r: Option<Region>)
    ensures r.None? <==> delta.IsWhole()
    ensures r.Some? && delta.pos.value.0 <= U32_MAX && delta.pos.value.1 <= U32_MAX
            && delta.image.Width() <= U32_MAX && delta.image.Height() <= U32_MAX
            ==> r.value == (delta.pos.value, (delta.image.Width(), delta.image.Height()))
  {
    match delta.pos
    case None => None
    case Some((x, y)) => Some(((TruncU32(x), TruncU32(y)), (TruncU32(delta.image.Width()), TruncU32(delta.image.Height()))))
  }

  /** The copy `upload_image_or_delta` records: the image's bytes, into the delta's region, or
      into the whole image for a whole delta. */
  function UploadCopy(delta: ImageDelta, image: Image): (c: Cmd)
    ensures c.CopyBufferToImage? && c.copy.image == image && c.copy.data == PixelBytes(delta.image)
    ensures delta.IsWhole() ==> c.copy.regions == [CopyRegion((0, 0), (image.width, image.height))]
    ensures !delta.IsWhole() ==> c.copy.regions == [CopyRegion(DeltaRegion(delta).value.0, DeltaRegion(delta).value.1)]
  {
    CopyBufferToImage(WithRegion(WholeImageCopy(PixelBytes(delta.image), image), DeltaRegion(delta)))
  }

  /** One successful entry as its copy shows it: the copy carries the delta's pixels into the
      image stored under the entry's key `w` once the entry is done. A patch leaves the images
      as they were, so that is the image already stored there; a whole delta stores a new image
      of its own size under `w` and leaves every other key alone. */
  ghost predicate EntryCopied<K>(imagesBefore: map<K, Image>, imagesAfter: map<K, Image>, c: Cmd, w: K, delta: ImageDelta)
  {
    && w in imagesAfter && c == UploadCopy(delta, imagesAfter[w])
    && (if delta.IsWhole()
        then imagesAfter == imagesBefore[w := imagesAfter[w]]
             && imagesAfter[w].width == TruncU32(delta.image.Width())
             && imagesAfter[w].height == TruncU32(delta.image.Height())
        else imagesAfter == imagesBefore)
  }

  /** `after` is `before` with the copy of one successful entry appended. */
  ghost predicate OneCopyAppended<K>(before: seq<Cmd>, after: seq<Cmd>, imagesBefore: map<K, Image>,
                                     imagesAfter: map<K, Image>, w: K, delta: ImageDelta)
  {
    |after| == |before| + 1 && after[..|before|] == before && EntryCopied(imagesBefore, imagesAfter, after[|before|], w, delta)
  }

  /** `log` is `base` followed by one copy per entry of `entries`, in order; `hist` holds the
      images before the first entry and after each one, and entry `j`'s copy goes where
      `EntryCopied` says between `hist[j]` and `hist[j + 1]`. */
  ghost predicate CopiesRecorded<K>(base: seq<Cmd>, log: seq<Cmd>, hist: seq<map<K, Image>>, entries: seq<(K, ImageDelta)>)
  {
    && |hist| == |entries| + 1 && |log| == |base| + |entries| && log[..|base|] == base
    && forall j :: 0 <= j < |entries| ==> EntryCopied(hist[j], hist[j + 1], log[|base| + j], entries[j].0, entries[j].1)
  }

  lemma CopiesRecordedStep<K>(base: seq<Cmd>, before: seq<Cmd>, after: seq<Cmd>, hist: seq<map<K, Image>>,
                              entries: seq<(K, ImageDelta)>, imagesAfter: map<K, Image>, w: K, delta: ImageDelta)
    requires CopiesRecorded(base, before, hist, entries)
    requires OneCopyAppended(before, after, hist[|hist| - 1], imagesAfter, w, delta)
    ensures CopiesRecorded(base, after, hist + [imagesAfter], entries + [(w, delta)])
  {
    var hist', entries' := hist + [imagesAfter], entries + [(w, delta)];
    forall j | 0 <= j < |entries'|
      ensures EntryCopied(hist'[j], hist'[j + 1], after[|base| + j], entries'[j].0, entries'[j].1)
    {
      if j < |entries| {
        assert after[..|before|][|base| + j] == after[|base| + j];
        assert hist'[j] == hist[j] && hist'[j + 1] == hist[j + 1] && entries'[j] == entries[j];
      } else {
        assert hist'[j] == hist[|hist| - 1] && hist'[j + 1] == imagesAfter;
      }
    }
    assert after[..|base|] == after[..|before|][..|base|];
  }

  /** Relative to the old maps, the keys in `keys` may have been (re)installed and no other key changed. */
  ghost predicate OnlyInstalled<K, T>(oldTextures: map<K, T>, oldImages: map<K, Image>,
                                textures: map<K, T>, images: map<K, Image>, keys: set<K>)
  {
    && textures.Keys == oldTextures.Keys + keys
    && forall w :: w in oldTextures && w !in keys ==>
         w in textures && w in images && w in oldImages && textures[w] == oldTextures[w] && images[w] == oldImages[w]
  }

  lemma OnlyInstalledStep<K, T>(oldTextures: map<K, T>, oldImages: map<K, Image>,
                                midTextures: map<K, T>, midImages: map<K, Image>,
                                textures: map<K, T>, images: map<K, Image>, keys: set<K>, more: set<K>)
    requires OnlyInstalled(oldTextures, oldImages, midTextures, midImages, keys)
    requires OnlyInstalled(midTextures, midImages, textures, images, more)
    ensures OnlyInstalled(oldTextures, oldImages, textures, images, keys + more)
  {
  }
}
