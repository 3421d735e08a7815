/** `EguiOnVulkanoPainter`: the older egui painter. It keys its descriptor sets and images by
    egui's texture id itself, samples every texture with one linear sampler, binds each drawn
    mesh's own slices of the packed buffers, and never frees a texture. */
module EguiPainter {
  import opened Base
  import opened Gpu
  import opened EguiMeshes
  import opened Packing

  /** The painter's one sampler: linear filtering and linear mipmaps. */
  const TEXTURE_SAMPLER := Sampler(Filter.Linear, Filter.Linear, MipmapLinear)

  /** `PainterCreationError`. */
  datatype CreationError = GraphicsPipelineCreationError | SamplerCreationError

  /** `UploadError` of this painter: one variant per vulkano call that can fail. */
  datatype PainterUploadError =
    | ImageError | ImageViewCreationError | DescriptorSetCreationError | BufferError | CopyError

  /** What the vulkano calls of one texture update return: the image, its view, the descriptor
      set, the staging buffer and the recorded copy. */
  datatype Allocation = Allocation(imageOk: bool, viewOk: bool, descriptorOk: bool, stagingOk: bool, copyOk: bool)

  /** The commands `draw` records for a kept mesh with a known descriptor set: its scissor, its
      own vertices and indices as the bound buffers, the descriptor set, the push constants and
      an indexed draw of all its indices from the start of the bound slices. */
  function MeshDraw(m: ClippedMesh, descriptor: DescriptorSet, width: real, height: real): (cs: seq<Cmd>)
    ensures |cs| == 6 && DrawCount(cs) == 1 && PushBeforeEachDraw(cs, width, height)
    ensures cs[0] == Scissor(m.clipRect)
    ensures cs[1] == BindVertexBuffers([MeshVertices(m)]) && cs[2] == BindIndexBuffer(m.mesh.indices)
    ensures cs[3] == BindDescriptorSet(descriptor) && cs[4] == PushConstants([width, height])
    ensures cs[5] == DrawIndexed(|m.mesh.indices|, 1, 0, 0, 0)
  {
    var cs := [Scissor(m.clipRect), BindVertexBuffers([MeshVertices(m)]), BindIndexBuffer(m.mesh.indices),
               BindDescriptorSet(descriptor), PushConstants([width, height]), DrawIndexed(|m.mesh.indices|, 1, 0, 0, 0)];
    assert cs[..5][..4][..3][..2][..1][..0] == [];
    cs
  }

  /** The commands of the per-mesh loop over the first `n` kept meshes: meshes whose texture id
      has no descriptor set record nothing. */
  function MeshesLog(textures: map<EguiTextureId, DescriptorSet>, ms: seq<ClippedMesh>, n: nat, width: real, height: real): seq<Cmd>
    requires n <= |ms|
  {
    if n == 0 then []
    else
      MeshesLog(textures, ms, n - 1, width, height)
      + (if ms[n - 1].mesh.textureId in textures then MeshDraw(ms[n - 1], textures[ms[n - 1].mesh.textureId], width, height) else [])
  }

  /** How many of the first `n` meshes have a descriptor set. */
  function KnownCount(textures: map<EguiTextureId, DescriptorSet>, ms: seq<ClippedMesh>, n: nat): (c: nat)
    requires n <= |ms|
    ensures c <= n
  {
    if n == 0 then 0 else KnownCount(textures, ms, n - 1) + (if ms[n - 1].mesh.textureId in textures then 1 else 0)
  }

  /** Six commands per mesh with a known texture. */
  lemma {:induction false} MeshesLogLength(textures: map<EguiTextureId, DescriptorSet>, ms: seq<ClippedMesh>, n: nat,
                                           width: real, height: real)
    requires n <= |ms|
    ensures |MeshesLog(textures, ms, n, width, height)| == 6 * KnownCount(textures, ms, n)
  {
    if n > 0 {
      MeshesLogLength(textures, ms, n - 1, width, height);
    }
  }

  /** Every draw in `log` directly follows the push constants `[width, height]`. */
  ghost predicate PushBeforeEachDraw(log: seq<Cmd>, width: real, height: real)
  {
    forall i :: 0 <= i < |log| && IsDraw(log[i]) ==> 0 < i && log[i - 1] == PushConstants([width, height])
  }

  lemma PushBeforeEachDrawAppend(a: seq<Cmd>, b: seq<Cmd>, width: real, height: real)
    requires PushBeforeEachDraw(a, width, height) && PushBeforeEachDraw(b, width, height)
    ensures PushBeforeEachDraw(a + b, width, height)
  {
    var log := a + b;
    forall i | 0 <= i < |log| && IsDraw(log[i])
      ensures 0 < i && log[i - 1] == PushConstants([width, height])
    {
      if i >= |a| {
        assert log[i] == b[i - |a|];
        if i > |a| {
          assert log[i - 1] == b[i - 1 - |a|];
        }
      } else {
        assert log[i] == a[i] && log[i - 1] == a[i - 1];
      }
    }
  }

  /** One draw per mesh with a known texture, and every draw directly preceded by the push
      constants `[width, height]`: they are re-sent for every drawn mesh. */
  lemma {:induction false} MeshesLogDraws(textures: map<EguiTextureId, DescriptorSet>, ms: seq<ClippedMesh>, n: nat,
                                          width: real, height: real)
    requires n <= |ms|
    ensures var log := MeshesLog(textures, ms, n, width, height);
      DrawCount(log) == KnownCount(textures, ms, n) && PushBeforeEachDraw(log, width, height)
  {
    if n > 0 {
      MeshesLogDraws(textures, ms, n - 1, width, height);
      var prefix := MeshesLog(textures, ms, n - 1, width, height);
      var m := ms[n - 1];
      var cs := if m.mesh.textureId in textures then MeshDraw(m, textures[m.mesh.textureId], width, height) else [];
      DrawCountAppend(prefix, cs);
      PushBeforeEachDrawAppend(prefix, cs, width, height);
    }
  }

  /** The commands of the first `k` meshes are a prefix of those of the first `n`. */
  lemma {:induction false} MeshesLogPrefix(textures: map<EguiTextureId, DescriptorSet>, ms: seq<ClippedMesh>, k: nat, n: nat,
                                           width: real, height: real)
    requires k <= n <= |ms|
    ensures MeshesLog(textures, ms, k, width, height) <= MeshesLog(textures, ms, n, width, height)
    decreases n
  {
    if k < n {
      MeshesLogPrefix(textures, ms, k, n - 1, width, height);
    }
  }

  /** Commands appended after `before` sit right after it in any log that extends the two. */
  lemma WindowAfterPrefix(log: seq<Cmd>, before: seq<Cmd>, cs: seq<Cmd>, at: nat)
    requires before + cs <= log && |before| == at && |cs| == 6
    ensures at + 6 <= |log| && log[at..at + 6] == cs
  {
    assert log[..at + 6] == before + cs;
  }

  /** Kept mesh `k` with a known texture is drawn by the six commands that follow those of the
      meshes before it, that is, from position `6 * KnownCount(k)` on. */
  lemma MeshDrawnAt(textures: map<EguiTextureId, DescriptorSet>, ms: seq<ClippedMesh>, k: nat, n: nat,
                    width: real, height: real)
    requires k < n <= |ms| && ms[k].mesh.textureId in textures
    ensures var log, at := MeshesLog(textures, ms, n, width, height), 6 * KnownCount(textures, ms, k);
      at + 6 <= |log| && log[at..at + 6] == MeshDraw(ms[k], textures[ms[k].mesh.textureId], width, height)
  {
    MeshesLogLength(textures, ms, k, width, height);
    MeshesLogPrefix(textures, ms, k + 1, n, width, height);
    assert MeshesLog(textures, ms, k + 1, width, height)
        == MeshesLog(textures, ms, k, width, height) + MeshDraw(ms[k], textures[ms[k].mesh.textureId], width, height);
    WindowAfterPrefix(MeshesLog(textures, ms, n, width, height), MeshesLog(textures, ms, k, width, height),
                      MeshDraw(ms[k], textures[ms[k].mesh.textureId], width, height), 6 * KnownCount(textures, ms, k));
  }

  /** The loop reads descriptor sets only for the kept meshes' ids: two texture maps agreeing on
      those ids record the same commands. */
  lemma {:induction false} MeshesLogOnlyReadsIds(t1: map<EguiTextureId, DescriptorSet>, t2: map<EguiTextureId, DescriptorSet>,
                                                 ms: seq<ClippedMesh>, n: nat, width: real, height: real)
    requires n <= |ms|
    requires forall k :: 0 <= k < n ==> (ms[k].mesh.textureId in t1 <==> ms[k].mesh.textureId in t2)
    requires forall k :: 0 <= k < n && ms[k].mesh.textureId in t1 ==> t1[ms[k].mesh.textureId] == t2[ms[k].mesh.textureId]
    ensures MeshesLog(t1, ms, n, width, height) == MeshesLog(t2, ms, n, width, height)
  {
    if n > 0 {
      MeshesLogOnlyReadsIds(t1, t2, ms, n - 1, width, height);
    }
  }

  /** `EguiOnVulkanoPainter`: the first descriptor set layout of its pipeline, its sampler, the
      descriptor set and image of every texture id, and the ids freed but never released. */
  class EguiOnVulkanoPainter {
    const layout: SetLayout
    const textureSampler: Sampler
    var textures: map<EguiTextureId, DescriptorSet>
    var texturesToFree: seq<EguiTextureId>
    var images: map<EguiTextureId, Image>

    /** The descriptor set a whole delta creates for `image`: the image and the painter's
        sampler at binding 0, and nothing else. */
    function TextureDescriptor(image: Image): DescriptorSet
    {
      DescriptorSet(layout, [ImageViewSampler(0, image, textureSampler)])
    }

    /** Every id with a descriptor set has an image (and the other way round), and its
        descriptor set samples that image. */
    ghost predicate Valid()
      reads this
    {
      && textures.Keys == images.Keys
      && forall id :: id in textures ==> textures[id] == TextureDescriptor(images[id])
    }

    constructor (layout: SetLayout)
      ensures this.layout == layout && textureSampler == TEXTURE_SAMPLER
      ensures textures == map[] && images == map[] && texturesToFree == []
      ensures Valid()
    {
      this.layout := layout;
      textureSampler := TEXTURE_SAMPLER;
      textures := map[];
      texturesToFree := [];
      images := map[];
    }

    /** `new`: the pipeline is created first, then the sampler; either failing is returned. */
    static method New(layout: SetLayout, pipelineOk: bool, samplerOk: bool) returns (r: Result<EguiOnVulkanoPainter, CreationError>)
      ensures r.Ok? <==> pipelineOk && samplerOk
      ensures !pipelineOk ==> r == Err(GraphicsPipelineCreationError)
      ensures pipelineOk && !samplerOk ==> r == Err(SamplerCreationError)
      ensures r.Ok? ==> fresh(r.value) && r.value.Valid() && r.value.layout == layout
                        && r.value.textureSampler == TEXTURE_SAMPLER
                        && r.value.textures == map[] && r.value.images == map[] && r.value.texturesToFree == []
    {
      if !pipelineOk {
        return Err(GraphicsPipelineCreationError);
      }
      if !samplerOk {
        return Err(SamplerCreationError);
      }
      var p := new EguiOnVulkanoPainter(layout);
      r := Ok(p);
    }

    /** `draw`: the pipeline is bound first, whatever follows. With nothing kept that is all;
        a failed buffer allocation returns its error; otherwise every kept mesh with a known
        texture is drawn from its own slices. Nothing of the painter changes. */
    method Draw(builder: CommandBuffer, width: real, height: real, ps: seq<ClippedPrimitive>, vertexOk: bool, indexOk: bool)
      returns (r: Result<(), DrawError>)
      modifies builder
      ensures var ms := KeptMeshes(ps);
        builder.log == old(builder.log) + [BindPipeline(EguiPainterPipeline)]
          + (if ms != [] && vertexOk && indexOk then MeshesLog(textures, ms, |ms|, width, height) else [])
      ensures r.Err? <==> KeptMeshes(ps) != [] && !(vertexOk && indexOk)
      ensures r.Err? ==> r.error == BufferAllocateError
    {
      builder.Record(BindPipeline(EguiPainterPipeline));
      ghost var ms := KeptMeshes(ps);
      var p := Pack(ps);
      if |p.clipRects| == 0 {
        return Ok(());
      }
      SentinelCompletesOffsets(ms);
      var offsets := p.offsets + [(|p.vertices|, |p.indices|)];
      if !vertexOk || !indexOk {
        return Err(BufferAllocateError);
      }
      RecordMeshes(builder, textures, ms, p.vertices, p.indices, p.clipRects, p.textureIds, offsets, width, height);
      r := Ok(());
    }

    /** `draw`'s loop over the kept meshes: mesh `k`'s vertex and index slices run from offset
        `k` to offset `k + 1`, and it is drawn when its texture id has a descriptor set. */
    static method RecordMeshes(builder: CommandBuffer, textures: map<EguiTextureId, DescriptorSet>, ghost ms: seq<ClippedMesh>,
                               vertices: seq<Vertex>, indices: seq<nat>, clipRects: seq<Rect>, textureIds: seq<EguiTextureId>,
                               offsets: seq<(nat, nat)>, width: real, height: real)
      requires vertices == Vertices(ms) && indices == Indices(ms) && clipRects == ClipRects(ms)
      requires textureIds == TextureIds(ms) && offsets == Offsets(ms)
      modifies builder
      ensures builder.log == old(builder.log) + MeshesLog(textures, ms, |ms|, width, height)
    {
      var index := 0;
      while index < |clipRects|
        invariant index <= |ms| && builder.log == old(builder.log) + MeshesLog(textures, ms, index, width, height)
      {
        var id := textureIds[index];
        ghost var cs: seq<Cmd> := [];
        if id in textures {
          RecordMesh(builder, ms, index, clipRects[index], vertices, indices, offsets[index], offsets[index + 1],
                     textures[id], width, height);
          cs := MeshDraw(ms[index], textures[id], width, height);
        }
        Associative(old(builder.log), MeshesLog(textures, ms, index, width, height), cs);
        index := index + 1;
      }
    }

    /** The body of the loop for a mesh with a known texture: the mesh's slices of both packed
        buffers are bound. */
    static method RecordMesh(builder: CommandBuffer, ghost ms: seq<ClippedMesh>, ghost index: nat, rect: Rect,
                             vertices: seq<Vertex>, indices: seq<nat>, offset: (nat, nat), offsetEnd: (nat, nat),
                             descriptor: DescriptorSet, width: real, height: real)
      requires index < |ms| && rect == ms[index].clipRect && vertices == Vertices(ms) && indices == Indices(ms)
      requires offset == Offset(ms, index) && offsetEnd == Offset(ms, index + 1)
      modifies builder
      ensures builder.log == old(builder.log) + MeshDraw(ms[index], descriptor, width, height)
    {
      MeshChunk(ms, index);
      var vertexSlice := vertices[offset.0..offsetEnd.0];
      var indexSlice := indices[offset.1..offsetEnd.1];
      var indexCount := |indexSlice|;
      builder.RecordAll([Scissor(rect), BindVertexBuffers([vertexSlice]), BindIndexBuffer(indexSlice),
                         BindDescriptorSet(descriptor), PushConstants([width, height]), DrawIndexed(indexCount, 1, 0, 0, 0)]);
    }

    /** One entry of `update_textures`' loop. A whole delta creates an image of the delta's
        size, its view and its descriptor set, and stores both under the id; a patch reuses the
        stored image and panics when there is none. The pixels are then staged and copied. A
        failing step returns its error and skips the rest. */
    method UpdateTexture(builder: CommandBuffer, id: EguiTextureId, delta: ImageDelta, alloc: Allocation)
      returns (r: Outcome<Result<(), PainterUploadError>>)
      requires Valid()
      modifies this, builder
      ensures Valid() && texturesToFree == old(texturesToFree)
      ensures r == Returned(Ok(())) ==> OnlyInstalled(old(textures), old(images), textures, images, InstalledKeys(id, delta))
      ensures r == Returned(Ok(())) ==> OneCopyAppended(old(builder.log), builder.log, old(images), images, id, delta)
      ensures r != Returned(Ok(())) ==> builder.log == old(builder.log)
      ensures r.Panicked? <==> !delta.IsWhole() && id !in old(images)
      ensures delta.IsWhole() && !(alloc.imageOk && alloc.viewOk && alloc.descriptorOk) ==>
        && r == Returned(Err(if !alloc.imageOk then ImageError
                             else if !alloc.viewOk then ImageViewCreationError
                             else DescriptorSetCreationError))
        && textures == old(textures) && images == old(images) && builder.log == old(builder.log)
      ensures delta.IsWhole() && alloc.imageOk && alloc.viewOk && alloc.descriptorOk ==>
        && id in images && fresh(images[id])
        && images[id].width == TruncU32(delta.image.Width()) && images[id].height == TruncU32(delta.image.Height())
        && images == old(images)[id := images[id]] && textures == old(textures)[id := TextureDescriptor(images[id])]
      ensures !delta.IsWhole() ==> textures == old(textures) && images == old(images)
      ensures r.Returned? && (!delta.IsWhole() || (alloc.imageOk && alloc.viewOk && alloc.descriptorOk)) ==>
        && r.value == (if !alloc.stagingOk then Err(BufferError) else if !alloc.copyOk then Err(CopyError) else Ok(()))
        && builder.log == old(builder.log) + (if r.value.Ok? then [UploadCopy(delta, images[id])] else [])
    {
      var image: Image;
      if delta.IsWhole() {
        var created := CreateTexture(id, delta, alloc);
        if created.Err? {
          return Returned(Err(created.error));
        }
        image := created.value;
      } else {
        if id !in images {
          return Panicked;
        }
        image := images[id];
      }
      if !alloc.stagingOk {
        return Returned(Err(BufferError));
      }
      if !alloc.copyOk {
        return Returned(Err(CopyError));
      }
      builder.Record(UploadCopy(delta, image));
      r := Returned(Ok(()));
    }

    /** The whole-delta half of an entry: the image, its view and its descriptor set, each
        failure returned in that order, then both stored under the id. */
    method CreateTexture(id: EguiTextureId, delta: ImageDelta, alloc: Allocation) returns (r: Result<Image, PainterUploadError>)
      requires Valid()
      modifies this
      ensures Valid() && texturesToFree == old(texturesToFree)
      ensures r.Ok? <==> alloc.imageOk && alloc.viewOk && alloc.descriptorOk
      ensures r.Err? ==> r.error == (if !alloc.imageOk then ImageError else if !alloc.viewOk then ImageViewCreationError
                                     else DescriptorSetCreationError)
      ensures r.Err? ==> textures == old(textures) && images == old(images)
      ensures r.Ok? ==>
        && fresh(r.value) && r.value.width == TruncU32(delta.image.Width()) && r.value.height == TruncU32(delta.image.Height())
        && images == old(images)[id := r.value] && textures == old(textures)[id := TextureDescriptor(r.value)]
    {
      if !alloc.imageOk {
        return Err(ImageError);
      }
      var image := new Image(TruncU32(delta.image.Width()), TruncU32(delta.image.Height()));
      if !alloc.viewOk {
        return Err(ImageViewCreationError);
      }
      if !alloc.descriptorOk {
        return Err(DescriptorSetCreationError);
      }
      textures := textures[id := TextureDescriptor(image)];
      images := images[id := image];
      r := Ok(image);
    }

    /** `update_textures`: the delta's free list is appended to the pending one (which nothing
        ever drains) first, then the entries are applied in order until one fails or panics;
        `stop` is the entry the loop ended at and `hist` the images before the first entry and
        after each successful one. The entries before `stop` all succeeded, each recording its
        copy in order; the result is `Ok` exactly when every entry succeeded, and otherwise it
        is the outcome of entry `stop`, whose failure records nothing. */
    method UpdateTextures(builder: CommandBuffer, delta: TexturesDelta, allocs: seq<Allocation>)
      returns (r: Outcome<Result<(), PainterUploadError>>, ghost stop: nat, ghost hist: seq<map<EguiTextureId, Image>>)
      requires Valid() && |allocs| == |delta.updates|
      modifies this, builder
      ensures Valid()
      ensures texturesToFree == old(texturesToFree) + delta.free
      ensures stop <= |delta.updates| && (r == Returned(Ok(())) <==> stop == |delta.updates|)
      ensures forall j :: 0 <= j < stop ==> EntryError(delta.updates[j].1, allocs[j]).None?
      ensures CopiesRecorded(old(builder.log), builder.log, hist, delta.updates[..stop]) && hist[0] == old(images)
      ensures r == Returned(Ok(())) ==>
        images == hist[stop] && OnlyInstalled(old(textures), old(images), textures, images, WholeKeys(delta.updates))
      ensures r.Panicked? ==> stop < |delta.updates|
      ensures r.Panicked? && stop < |delta.updates| ==>
        var (id, d) := delta.updates[stop];
        !d.IsWhole() && id !in hist[stop] && images == hist[stop]
      ensures r.Returned? && stop < |delta.updates| ==>
        var (id, d) := delta.updates[stop];
        && (d.IsWhole() || id in hist[stop])
        && EntryError(d, allocs[stop]).Some? && r.value == Err(EntryError(d, allocs[stop]).value)
        && (images == hist[stop] || (d.IsWhole() && id in images && images == hist[stop][id := images[id]]))
    {
      texturesToFree := texturesToFree + delta.free;
      var i := 0;
      hist := [images];
      AppliedNone(builder.log, textures, images, delta.updates, allocs);
      while i < |delta.updates|
        invariant i <= |delta.updates| && Valid()
        invariant texturesToFree == old(texturesToFree) + delta.free
        invariant AppliedUpTo(old(builder.log), old(textures), old(images), builder.log, textures, images, hist, delta.updates, allocs, i)
      {
        ghost var before, texturesBefore, imagesBefore := builder.log, textures, images;
        var step := ApplyUpdate(builder, delta.updates[i].0, delta.updates[i].1, allocs[i]);
        if step != Returned(Ok(())) {
          assert step.Returned? ==> step.value.Err?;
          return step, i, hist;
        }
        AppliedStep(old(builder.log), old(textures), old(images), before, texturesBefore, imagesBefore,
                    builder.log, textures, images, hist, delta.updates, allocs, i);
        hist := hist + [images];
        i := i + 1;
      }
      assert delta.updates[..i] == delta.updates;
      r, stop := Returned(Ok(())), i;
    }

    /** One entry of the loop, as the loop relies on it: a patch of an id with no image panics,
        and otherwise the entry returns `EntryError`'s error, if any. A success installs only the
        entry's id and appends the copy `EntryCopied` describes; a failure records nothing and
        changes no image but, for a whole delta, the one under its own id. */
    method ApplyUpdate(builder: CommandBuffer, id: EguiTextureId, delta: ImageDelta, alloc: Allocation)
      returns (r: Outcome<Result<(), PainterUploadError>>)
      requires Valid()
      modifies this, builder
      ensures Valid() && texturesToFree == old(texturesToFree)
      ensures r.Panicked? <==> !delta.IsWhole() && id !in old(images)
      ensures r.Panicked? ==> images == old(images)
      ensures r.Returned? ==> r.value == if EntryError(delta, alloc).Some? then Err(EntryError(delta, alloc).value) else Ok(())
      ensures r == Returned(Ok(())) ==> OnlyInstalled(old(textures), old(images), textures, images, InstalledKeys(id, delta))
      ensures r == Returned(Ok(())) ==> OneCopyAppended(old(builder.log), builder.log, old(images), images, id, delta)
      ensures r.Returned? && r.value.Err? ==>
        images == old(images) || (delta.IsWhole() && id in images && images == old(images)[id := images[id]])
      ensures r != Returned(Ok(())) ==> builder.log == old(builder.log)
    {
      r := UpdateTexture(builder, id, delta, alloc);
      if r.Returned? && r.value.Ok? {
        var u: () := r.value.value;
        assert u == ();
      }
    }
  }

  /** The id a whole entry (re)installs; a patch installs none. */
  function InstalledKeys(id: EguiTextureId, d: ImageDelta): (keys: set<EguiTextureId>)
    ensures keys == {} || keys == {id}
    ensures id in keys <==> d.IsWhole()
  {
    if d.IsWhole() then {id} else {}
  }

  /** The ids the whole entries among `updates` install. */
  function WholeKeys(updates: seq<(EguiTextureId, ImageDelta)>): (keys: set<EguiTextureId>)
    ensures forall id :: id in keys <==> exists j :: 0 <= j < |updates| && updates[j].0 == id && updates[j].1.IsWhole()
  {
    if updates == [] then {}
    else
      var last := updates[|updates| - 1];
      var keys := WholeKeys(updates[..|updates| - 1]) + InstalledKeys(last.0, last.1);
      assert forall j :: 0 <= j < |updates| - 1 ==> updates[..|updates| - 1][j] == updates[j];
      keys
  }

  /** The error an entry that does not panic returns, in the order the calls are made: the
      image, its view and its descriptor set (only for a whole delta), then the staging buffer
      and the copy. */
  function EntryError(delta: ImageDelta, alloc: Allocation): Option<PainterUploadError>
  {
    if delta.IsWhole() && !alloc.imageOk then Some(ImageError)
    else if delta.IsWhole() && !alloc.viewOk then Some(ImageViewCreationError)
    else if delta.IsWhole() && !alloc.descriptorOk then Some(DescriptorSetCreationError)
    else if !alloc.stagingOk then Some(BufferError)
    else if !alloc.copyOk then Some(CopyError)
    else None
  }

  /** After the first `i` entries succeeded: none met an error, one copy of each entry's pixels
      was recorded into the image its id held once it was done, in order, as the image history
      `hist` says, and only the ids of whole entries were (re)installed. */
  ghost predicate AppliedUpTo(log0: seq<Cmd>, textures0: map<EguiTextureId, DescriptorSet>, images0: map<EguiTextureId, Image>,
                              log: seq<Cmd>, textures: map<EguiTextureId, DescriptorSet>, images: map<EguiTextureId, Image>,
                              hist: seq<map<EguiTextureId, Image>>, updates: seq<(EguiTextureId, ImageDelta)>,
                              allocs: seq<Allocation>, i: nat)
    requires i <= |updates| && |allocs| == |updates|
  {
    && (forall j :: 0 <= j < i ==> EntryError(updates[j].1, allocs[j]).None?)
    && CopiesRecorded(log0, log, hist, updates[..i])
    && hist[0] == images0 && hist[i] == images
    && OnlyInstalled(textures0, images0, textures, images, WholeKeys(updates[..i]))
  }

  lemma AppliedNone(log: seq<Cmd>, textures: map<EguiTextureId, DescriptorSet>, images: map<EguiTextureId, Image>,
                    updates: seq<(EguiTextureId, ImageDelta)>, allocs: seq<Allocation>)
    requires textures.Keys <= images.Keys && |allocs| == |updates|
    ensures AppliedUpTo(log, textures, images, log, textures, images, [images], updates, allocs, 0)
  {
    assert updates[..0] == [];
    assert WholeKeys(updates[..0]) == {};
    assert log[..|log|] == log;
    assert CopiesRecorded(log, log, [images], updates[..0]);
    assert OnlyInstalled(textures, images, textures, images, {});
  }

  lemma AppliedStep(log0: seq<Cmd>, textures0: map<EguiTextureId, DescriptorSet>, images0: map<EguiTextureId, Image>,
                    log1: seq<Cmd>, textures1: map<EguiTextureId, DescriptorSet>, images1: map<EguiTextureId, Image>,
                    log2: seq<Cmd>, textures2: map<EguiTextureId, DescriptorSet>, images2: map<EguiTextureId, Image>,
                    hist: seq<map<EguiTextureId, Image>>, updates: seq<(EguiTextureId, ImageDelta)>, allocs: seq<Allocation>, i: nat)
    requires i < |updates| && |allocs| == |updates|
    requires AppliedUpTo(log0, textures0, images0, log1, textures1, images1, hist, updates, allocs, i)
    requires EntryError(updates[i].1, allocs[i]).None?
    requires OnlyInstalled(textures1, images1, textures2, images2, InstalledKeys(updates[i].0, updates[i].1))
    requires OneCopyAppended(log1, log2, images1, images2, updates[i].0, updates[i].1)
    ensures AppliedUpTo(log0, textures0, images0, log2, textures2, images2, hist + [images2], updates, allocs, i + 1)
  {
    assert updates[..i + 1][..i] == updates[..i];
    assert updates[..i + 1] == updates[..i] + [updates[i]];
    CopiesRecordedStep(log0, log1, log2, hist, updates[..i], images2, updates[i].0, updates[i].1);
    OnlyInstalledStep(textures0, images0, textures1, images1, textures2, images2, WholeKeys(updates[..i]),
                      InstalledKeys(updates[i].0, updates[i].1));
  }
}
