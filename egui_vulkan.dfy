/** `EguiPipeline`: draws egui's clipped meshes from one shared vertex and index buffer, with one
    indexed draw per mesh under its clip rectangle, and keeps the textures egui asked for in
    maps keyed by the `IdWrapper` of their egui texture id. */
module EguiVulkan {
  import opened Base
  import opened Gpu
  import opened Packing
  import opened Textures
  import opened ImageUploads
  import opened EguiMeshes

  const U64_LIMIT: nat := 0x1_0000_0000_0000_0000

  /** `1_u64.rotate_right(1)`: the top bit of a `u64`, which marks user texture ids. */
  const USER_BIT: nat := 0x8000_0000_0000_0000

  /** `IdWrapper::from`: one `u64` key space for both kinds of ids. An id whose top bit is set
      panics; a user id gets the top bit set, which (the bit being clear) adds `2^63`. */
  function IdWrapperOf(t: EguiTextureId): (r: Outcome<nat>)
    requires t.id < U64_LIMIT
    ensures r.Panicked? <==> t.id >= USER_BIT
    ensures r.Returned? ==> r.value < U64_LIMIT && r.value % USER_BIT == t.id
    ensures r.Returned? ==> (r.value >= USER_BIT <==> t.User?)
  {
    if t.id >= USER_BIT then Panicked
    else
      match t
      case Managed(id) => Returned(id)
      case User(id) => Returned(id + USER_BIT)
  }

  /** Texture ids as egui hands them out: `u64`. */
  predicate IsU64(t: EguiTextureId) { t.id < U64_LIMIT }

  /** Different ids get different keys, managed keys lie below `2^63` and user keys at or above
      it, so the two kinds never collide. */
  lemma IdWrapperInjective(a: EguiTextureId, b: EguiTextureId)
    requires IsU64(a) && IsU64(b) && IdWrapperOf(a).Returned? && IdWrapperOf(b).Returned?
    requires IdWrapperOf(a).value == IdWrapperOf(b).value
    ensures a == b
  {
    var w := IdWrapperOf(a).value;
    assert a.id == w % USER_BIT == b.id;
  }

  /** `from_egui_filter`. */
  function FromEguiFilter(f: TextureFilter): (r: Filter)
    ensures r == Filter.Linear <==> f == FilterLinear
    ensures r == Filter.Nearest <==> f == FilterNearest
  {
    match f
    case FilterNearest => Filter.Nearest
    case FilterLinear => Filter.Linear
  }

  /** The sampler `create_texture_sampler` builds for a texture's options: the two filters
      carried over, mipmaps interpolated exactly when minification is linear. */
  function OptionsSampler(o: TextureOptions): (s: Sampler)
    ensures s.mag == FromEguiFilter(o.magnification) && s.min == FromEguiFilter(o.minification)
    ensures s.mipmap == MipmapLinear <==> o.minification == FilterLinear
  {
    Sampler(FromEguiFilter(o.magnification), FromEguiFilter(o.minification),
            if FromEguiFilter(o.minification) == Filter.Linear then MipmapLinear else MipmapNearest)
  }

  /** The options `new` seeds the sampler cache with. */
  const DEFAULT_OPTIONS := TextureOptions(FilterLinear, FilterLinear, ClampToEdge)

  /** The sampler the cache is seeded with (the texture manager's, for `Linear`) is exactly the
      one `create_texture_sampler` would build for those options; the wrap mode never reaches
      a sampler. */
  lemma SeededSamplerAgrees(w: TextureWrapMode)
    ensures SamplerFor(ImageSamplerMode.Linear) == OptionsSampler(DEFAULT_OPTIONS)
    ensures OptionsSampler(DEFAULT_OPTIONS.(wrapMode := w)) == OptionsSampler(DEFAULT_OPTIONS)
  {
  }

  /** What the vulkano calls of one texture update return: the image allocation, the sampler
      creation (only reached on a cache miss), the descriptor set and the staging buffer. */
  datatype Allocation = Allocation(imageOk: bool, samplerOk: bool, descriptorOk: bool, stagingOk: bool)

  /** The keys of the ids in `ids` that do not panic. */
  function FreedKeys(ids: seq<EguiTextureId>): set<nat>
    requires forall i :: 0 <= i < |ids| ==> IsU64(ids[i])
    decreases |ids|
  {
    if ids == [] then {}
    else
      var last := ids[|ids| - 1];
      FreedKeys(ids[..|ids| - 1]) + (if last.id >= USER_BIT then {} else {IdWrapperOf(last).value})
  }

  /** Some id in `ids` has its top bit set. */
  predicate AnyReserved(ids: seq<EguiTextureId>)
  {
    exists i :: 0 <= i < |ids| && ids[i].id >= USER_BIT
  }

  /** The commands drawing kept mesh `k` with a known texture: its scissor, the texture, and
      the indexed draw of its indices from its offset in the shared buffers. */
  function MeshCmds(ms: seq<ClippedMesh>, k: nat, texture: TextureInner): (cs: seq<Cmd>)
    requires k < |ms|
    ensures |cs| == 3 && cs[0] == Scissor(ms[k].clipRect) && cs[1] == BindDescriptorSet(texture.descriptor)
    ensures cs[2] == DrawIndexed(|ms[k].mesh.indices|, 1, Offset(ms, k).1, Offset(ms, k).0, 0)
  {
    MeshChunk(ms, k);
    [Scissor(ms[k].clipRect), BindDescriptorSet(texture.descriptor),
     DrawIndexed(Offset(ms, k + 1).1 - Offset(ms, k).1, 1, Offset(ms, k).1, Offset(ms, k).0, 0)]
  }

  /** Every kept mesh's texture id is a `u64`. */
  predicate IdsAreU64(ms: seq<ClippedMesh>)
  {
    forall k :: 0 <= k < |ms| ==> IsU64(ms[k].mesh.textureId)
  }

  /** The commands of the per-mesh loop from mesh `k` on: meshes whose texture is unknown are
      skipped, and the loop stops at the first id that panics. */
  function MeshesLog(textures: map<nat, TextureInner>, ms: seq<ClippedMesh>, k: nat): seq<Cmd>
    requires k <= |ms| && IdsAreU64(ms)
    decreases |ms| - k
  {
    if k == |ms| then []
    else
      match IdWrapperOf(ms[k].mesh.textureId)
      case Panicked => []
      case Returned(w) => (if w in textures then MeshCmds(ms, k, textures[w]) else []) + MeshesLog(textures, ms, k + 1)
  }

  /** Some kept mesh from `k` on has a texture id that panics. */
  predicate MeshesPanic(ms: seq<ClippedMesh>, k: nat)
    requires k <= |ms|
  {
    exists j :: k <= j < |ms| && ms[j].mesh.textureId.id >= USER_BIT
  }

  /** The commands before the per-mesh loop. */
  function DrawHeader(ms: seq<ClippedMesh>, width: real, height: real): seq<Cmd>
  {
    [BindPipeline(PipelineKind.EguiPipeline), BindIndexBuffer(Indices(ms)), BindVertexBuffers([Vertices(ms)]),
     PushConstants([width, height])]
  }

  /** One step of the per-mesh loop: an id that panics ends the commands there; otherwise mesh
      `k`'s commands (none for an unknown texture) come first. */
  lemma MeshesLogStep(textures: map<nat, TextureInner>, ms: seq<ClippedMesh>, k: nat)
    requires IdsAreU64(ms) && k < |ms|
    ensures ms[k].mesh.textureId.id >= USER_BIT ==> MeshesLog(textures, ms, k) == [] && MeshesPanic(ms, k)
    ensures ms[k].mesh.textureId.id < USER_BIT ==>
      var w := IdWrapperOf(ms[k].mesh.textureId).value;
      && MeshesLog(textures, ms, k) == (if w in textures then MeshCmds(ms, k, textures[w]) else []) + MeshesLog(textures, ms, k + 1)
      && (MeshesPanic(ms, k) <==> MeshesPanic(ms, k + 1))
  {
    if ms[k].mesh.textureId.id < USER_BIT {
      if MeshesPanic(ms, k) {
        var j :| k <= j < |ms| && ms[j].mesh.textureId.id >= USER_BIT;
        assert j != k;
      }
    }
  }

  /** A kept mesh whose texture is known is drawn with exactly its own indices and vertices:
      the draw reads the index slice between its offset and the next one, and its vertex offset
      is where its vertices start. */
  lemma KnownMeshReadsItsSlices(textures: map<nat, TextureInner>, ms: seq<ClippedMesh>, k: nat, texture: TextureInner)
    requires k < |ms|
    ensures var d := MeshCmds(ms, k, texture)[2];
      && d.firstIndex + d.indexCount <= |Indices(ms)|
      && Indices(ms)[d.firstIndex..d.firstIndex + d.indexCount] == ms[k].mesh.indices
      && d.vertexOffset + |ms[k].mesh.vertices| <= |Vertices(ms)|
      && Vertices(ms)[d.vertexOffset..d.vertexOffset + |ms[k].mesh.vertices|] == MeshVertices(ms[k])
  {
    MeshChunk(ms, k);
  }

  /** Exactly one draw per mesh whose texture is known, up to the first panicking id. */
  lemma {:induction false} OneDrawPerKnownMesh(textures: map<nat, TextureInner>, ms: seq<ClippedMesh>, k: nat)
    requires IdsAreU64(ms) && k <= |ms|
    ensures DrawCount(MeshesLog(textures, ms, k)) == KnownCount(textures, ms, k)
    decreases |ms| - k
  {
    if k < |ms| && ms[k].mesh.textureId.id < USER_BIT {
      OneDrawPerKnownMesh(textures, ms, k + 1);
      var w := IdWrapperOf(ms[k].mesh.textureId).value;
      var cs := if w in textures then MeshCmds(ms, k, textures[w]) else [];
      DrawCountAppend(cs, MeshesLog(textures, ms, k + 1));
      if w in textures {
        MeshCmdsDrawOnce(ms, k, textures[w]);
      }
    }
  }

  /** A drawn mesh's three commands hold one draw. */
  lemma MeshCmdsDrawOnce(ms: seq<ClippedMesh>, k: nat, texture: TextureInner)
    requires k < |ms|
    ensures DrawCount(MeshCmds(ms, k, texture)) == 1
  {
    var cs := MeshCmds(ms, k, texture);
    assert cs[..2][..1] == [cs[0]] && [cs[0]][..0] == [];
    assert cs[..2] == cs[..1] + [cs[1]];
  }

  /** How many meshes from `k` on, before the first panicking id, have a known texture. */
  function KnownCount(textures: map<nat, TextureInner>, ms: seq<ClippedMesh>, k: nat): (n: nat)
    requires IdsAreU64(ms) && k <= |ms|
    ensures n <= |ms| - k
    decreases |ms| - k
  {
    if k == |ms| || ms[k].mesh.textureId.id >= USER_BIT then 0
    else (if IdWrapperOf(ms[k].mesh.textureId).value in textures then 1 else 0) + KnownCount(textures, ms, k + 1)
  }

  /** The pipeline's invariant on its maps: every stored texture has a stored image (and the
      other way round), samples that image and was prepared by the pipeline's texture manager;
      every cached sampler is the one its options ask for. */
  ghost predicate ValidState(manager: TextureManager, textures: map<nat, TextureInner>, images: map<nat, Image>,
                             samplers: map<TextureOptions, Sampler>)
  {
    && textures.Keys == images.Keys
    && (forall w :: w in textures ==> textures[w].image == images[w] && manager.IsOriginOf(textures[w]))
    && (forall o :: o in samplers ==> samplers[o] == OptionsSampler(o))
  }

  /** Removing a key from both maps keeps the invariant. */
  lemma RemoveKeepsValid(manager: TextureManager, textures: map<nat, TextureInner>, images: map<nat, Image>,
                         samplers: map<TextureOptions, Sampler>, w: nat)
    requires ValidState(manager, textures, images, samplers)
    ensures ValidState(manager, textures - {w}, images - {w}, samplers)
  {
  }

  lemma MapMinusMinus<K, V>(m: map<K, V>, a: set<K>, b: set<K>)
    ensures (m - a) - b == m - (a + b)
  {
  }

  lemma FreedKeysSnoc(ids: seq<EguiTextureId>, i: nat)
    requires i < |ids| && forall j :: 0 <= j < |ids| ==> IsU64(ids[j])
    requires ids[i].id < USER_BIT
    ensures FreedKeys(ids[..i + 1]) == FreedKeys(ids[..i]) + {IdWrapperOf(ids[i]).value}
  {
    assert ids[..i + 1][..i] == ids[..i];
  }

  /** The key an entry whose id does not panic is filed under. */
  function KeyOf(t: EguiTextureId): nat
    requires t.id < USER_BIT
  {
    IdWrapperOf(t).value
  }

  /** The entries' keys, paired with their deltas. */
  function Entries(updates: seq<(EguiTextureId, ImageDelta)>): (es: seq<(nat, ImageDelta)>)
    requires forall j :: 0 <= j < |updates| ==> updates[j].0.id < USER_BIT
    ensures |es| == |updates| && forall j :: 0 <= j < |updates| ==> es[j] == (KeyOf(updates[j].0), updates[j].1)
  {
    seq(|updates|, j requires 0 <= j < |updates| => (KeyOf(updates[j].0), updates[j].1))
  }

  lemma EntriesSnoc(updates: seq<(EguiTextureId, ImageDelta)>, i: nat)
    requires i < |updates| && forall j :: 0 <= j <= i ==> updates[j].0.id < USER_BIT
    ensures Entries(updates[..i + 1]) == Entries(updates[..i]) + [(KeyOf(updates[i].0), updates[i].1)]
  {
  }

  /** The error an entry that does not panic returns, in the order the calls are made: the
      image, then the descriptor set (both only for a whole delta), then the staging buffer. */
  function EntryError(delta: ImageDelta, alloc: Allocation): Option<UploadError>
  {
    if delta.IsWhole() && !alloc.imageOk then Some(ImageAllocationFailed)
    else if delta.IsWhole() && !alloc.descriptorOk then Some(VulkanFailed)
    else if !alloc.stagingOk then Some(BufferAllocationFailed)
    else None
  }

  /** Whether an entry panics from the given images and sampler cache: an id with its top bit
      set, a patch for a key with no image, or a missing sampler that cannot be created. */
  predicate EntryPanics(id: EguiTextureId, delta: ImageDelta, alloc: Allocation,
                        images: map<nat, Image>, samplers: map<TextureOptions, Sampler>)
    requires IsU64(id)
  {
    || id.id >= USER_BIT
    || (!delta.IsWhole() && KeyOf(id) !in images)
    || (delta.IsWhole() && alloc.imageOk && delta.options !in samplers && !alloc.samplerOk)
  }

  /** After the first `i` entries succeeded: none had its top bit set or met an error, one copy
      of each entry's pixels was recorded into the image its key held once it was done, in order,
      as the image history `hist` says, and only the keys of whole entries were (re)installed. */
  ghost predicate AppliedUpTo(log0: seq<Cmd>, textures0: map<nat, TextureInner>, images0: map<nat, Image>,
                              log: seq<Cmd>, textures: map<nat, TextureInner>, images: map<nat, Image>,
                              hist: seq<map<nat, Image>>, updates: seq<(EguiTextureId, ImageDelta)>,
                              allocs: seq<Allocation>, i: nat)
    requires i <= |updates| && |allocs| == |updates| && forall j :: 0 <= j < |updates| ==> IsU64(updates[j].0)
  {
    && (forall j :: 0 <= j < i ==> updates[j].0.id < USER_BIT && EntryError(updates[j].1, allocs[j]).None?)
    && CopiesRecorded(log0, log, hist, Entries(updates[..i]))
    && hist[0] == images0 && hist[i] == images
    && OnlyInstalled(textures0, images0, textures, images, WholeKeys(updates[..i]))
  }

  lemma AppliedNone(log: seq<Cmd>, textures: map<nat, TextureInner>, images: map<nat, Image>,
                    updates: seq<(EguiTextureId, ImageDelta)>, allocs: seq<Allocation>)
    requires textures.Keys <= images.Keys && |allocs| == |updates| && forall j :: 0 <= j < |updates| ==> IsU64(updates[j].0)
    ensures AppliedUpTo(log, textures, images, log, textures, images, [images], updates, allocs, 0)
  {
    assert updates[..0] == [];
    assert WholeKeys(updates[..0]) == {};
    assert log[..|log|] == log;
    assert CopiesRecorded(log, log, [images], Entries(updates[..0]));
    assert OnlyInstalled(textures, images, textures, images, {});
  }

  lemma AppliedStep(log0: seq<Cmd>, textures0: map<nat, TextureInner>, images0: map<nat, Image>,
                    log1: seq<Cmd>, textures1: map<nat, TextureInner>, images1: map<nat, Image>,
                    log2: seq<Cmd>, textures2: map<nat, TextureInner>, images2: map<nat, Image>,
                    hist: seq<map<nat, Image>>, updates: seq<(EguiTextureId, ImageDelta)>, allocs: seq<Allocation>, i: nat)
    requires i < |updates| && |allocs| == |updates| && forall j :: 0 <= j < |updates| ==> IsU64(updates[j].0)
    requires AppliedUpTo(log0, textures0, images0, log1, textures1, images1, hist, updates, allocs, i)
    requires updates[i].0.id < USER_BIT && EntryError(updates[i].1, allocs[i]).None?
    requires OnlyInstalled(textures1, images1, textures2, images2, InstalledKeys(updates[i].0, updates[i].1))
    requires OneCopyAppended(log1, log2, images1, images2, KeyOf(updates[i].0), updates[i].1)
    ensures AppliedUpTo(log0, textures0, images0, log2, textures2, images2, hist + [images2], updates, allocs, i + 1)
  {
    WholeKeysSnoc(updates, i);
    EntriesSnoc(updates, i);
    CopiesRecordedStep(log0, log1, log2, hist, Entries(updates[..i]), images2, KeyOf(updates[i].0), updates[i].1);
    OnlyInstalledStep(textures0, images0, textures1, images1, textures2, images2, WholeKeys(updates[..i]), InstalledKeys(updates[i].0, updates[i].1));
  }

  class EguiPipeline {
    const textureManager: TextureManager
    var textures: map<nat, TextureInner>
    var texturesToFree: seq<EguiTextureId>
    var images: map<nat, Image>
    var textureSamplers: map<TextureOptions, Sampler>

    /** Every stored texture has a stored image (and the other way round), samples that image
        and was prepared by this pipeline's texture manager; every cached sampler is the one its
        options ask for. */
    ghost predicate Valid()
      reads this
    {
      ValidState(textureManager, textures, images, textureSamplers)
    }

    constructor (textureManager: TextureManager)
      ensures this.textureManager == textureManager
      ensures textures == map[] && images == map[] && texturesToFree == []
      ensures textureSamplers == map[DEFAULT_OPTIONS := textureManager.sampler]
    {
      this.textureManager := textureManager;
      textures := map[];
      texturesToFree := [];
      images := map[];
      textureSamplers := map[DEFAULT_OPTIONS := textureManager.sampler];
    }

    /** `new`: a texture manager with a linear sampler (binding 0), no textures, and the sampler
        cache seeded with that sampler for linear, clamped options. */
    static method New(device: Device, layout: SetLayout, samplerCreated: bool) returns (r: Result<EguiPipeline, VulkanError>)
      ensures r.Ok? <==> samplerCreated
      ensures r.Ok? ==> fresh(r.value) && r.value.Valid() && r.value.textureManager.binding == 0
      ensures r.Ok? ==> r.value.textures == map[] && r.value.images == map[] && r.value.texturesToFree == []
      ensures r.Ok? ==> r.value.textureSamplers == map[DEFAULT_OPTIONS := OptionsSampler(DEFAULT_OPTIONS)]
    {
      var manager := Basic(device, layout, ImageSamplerMode.Linear, 0, samplerCreated);
      if manager.Err? {
        return Err(manager.error);
      }
      SeededSamplerAgrees(ClampToEdge);
      var p := new EguiPipeline(manager.value);
      r := Ok(p);
    }

    /** The `texture_samplers.entry(options).or_insert_with(..)` of `prepare_texture`: a cached
        sampler is reused; a miss creates the sampler, panicking when that fails, and caches it. */
    method CachedSampler(options: TextureOptions, created: bool) returns (r: Outcome<Sampler>)
      requires Valid()
      modifies this
      ensures Valid()
      ensures r.Panicked? <==> options !in old(textureSamplers) && !created
      ensures r.Returned? ==> r.value == OptionsSampler(options)
      ensures textureSamplers == if r.Panicked? || options in old(textureSamplers) then old(textureSamplers)
                                 else old(textureSamplers)[options := OptionsSampler(options)]
      ensures textures == old(textures) && images == old(images) && texturesToFree == old(texturesToFree)
    {
      if options in textureSamplers {
        return Returned(textureSamplers[options]);
      }
      if !created {
        return Panicked;
      }
      var sampler := OptionsSampler(options);
      textureSamplers := textureSamplers[options := sampler];
      r := Returned(sampler);
    }

    /** `prepare_texture`: a texture of this pipeline's manager sampling `image` with the sampler
        cached for the delta's options, and no further descriptors. */
    method PrepareTexture(delta: ImageDelta, image: Image, alloc: Allocation) returns (r: Outcome<Result<TextureInner, VulkanError>>)
      requires Valid()
      modifies this
      ensures Valid()
      ensures r.Panicked? <==> delta.options !in old(textureSamplers) && !alloc.samplerOk
      ensures r.Returned? ==> (r.value.Ok? <==> alloc.descriptorOk)
      ensures r.Returned? ==> textureSamplers == old(textureSamplers)[delta.options := OptionsSampler(delta.options)]
      ensures r.Returned? && r.value.Ok? ==>
        && fresh(r.value.value) && textureManager.IsOriginOf(r.value.value) && r.value.value.image == image
        && r.value.value.descriptor == textureManager.ImageDescriptor(image, OptionsSampler(delta.options), [])
      ensures textures == old(textures) && images == old(images) && texturesToFree == old(texturesToFree)
    {
      var sampler := CachedSampler(delta.options, alloc.samplerOk);
      if sampler.Panicked? {
        return Panicked;
      }
      var texture := textureManager.PrepareTextureWith(image, sampler.value, [], alloc.descriptorOk);
      r := Returned(texture);
    }

    /** The whole-delta half of an entry: create an image of the delta's size, prepare a texture
        sampling it, and store both under `w`. */
    method InstallImage(w: nat, delta: ImageDelta, alloc: Allocation) returns (r: Outcome<Result<Image, UploadError>>)
      requires Valid()
      modifies this
      ensures Valid() && texturesToFree == old(texturesToFree)
      ensures !alloc.imageOk ==> r == Returned(Err(ImageAllocationFailed)) && unchanged(this)
      ensures alloc.imageOk ==>
        && (r.Panicked? <==> delta.options !in old(textureSamplers) && !alloc.samplerOk)
        && (r.Returned? ==> textureSamplers == old(textureSamplers)[delta.options := OptionsSampler(delta.options)])
        && (r.Returned? ==> (r.value.Ok? <==> alloc.descriptorOk))
      ensures r.Returned? && r.value.Err? ==> textures == old(textures) && images == old(images)
      ensures r.Returned? && r.value.Err? && alloc.imageOk ==> r.value.error == VulkanFailed
      ensures r.Returned? && r.value.Ok? ==>
        && fresh(r.value.value) && w in textures && fresh(textures[w])
        && r.value.value.width == TruncU32(delta.image.Width()) && r.value.value.height == TruncU32(delta.image.Height())
        && textures == old(textures)[w := textures[w]] && images == old(images)[w := r.value.value]
        && textures[w].descriptor == textureManager.ImageDescriptor(r.value.value, OptionsSampler(delta.options), [])
    {
      if !alloc.imageOk {
        return Returned(Err(ImageAllocationFailed));
      }
      var image := new Image(TruncU32(delta.image.Width()), TruncU32(delta.image.Height()));
      var texture := PrepareTexture(delta, image, alloc);
      if texture.Panicked? {
        return Panicked;
      }
      if texture.value.Err? {
        return Returned(Err(VulkanFailed));
      }
      textures := textures[w := texture.value.value];
      images := images[w := image];
      r := Returned(Ok(image));
    }

    /** One entry of `update_textures`' loop. A whole delta creates an image of the delta's size,
        prepares a texture for it and stores both under the id's key; a patch reuses the stored
        image and panics when there is none. Either way the pixels are then copied. A failing
        step returns its error and skips the rest. */
    method UpdateTexture(builder: CommandBuffer, id: EguiTextureId, delta: ImageDelta, alloc: Allocation)
      returns (r: Outcome<Result<(), UploadError>>)
      requires Valid() && IsU64(id)
      modifies this, builder
      ensures Valid()
      ensures texturesToFree == old(texturesToFree)
      ensures r == Returned(Ok(())) ==> OnlyInstalled(old(textures), old(images), textures, images, InstalledKeys(id, delta))
      ensures r == Returned(Ok(())) && id.id < USER_BIT ==>
        OneCopyAppended(old(builder.log), builder.log, old(images), images, KeyOf(id), delta)
      ensures r != Returned(Ok(())) ==> builder.log == old(builder.log)
      ensures id.id >= USER_BIT ==> r.Panicked? && unchanged(this) && builder.log == old(builder.log)
      ensures id.id < USER_BIT && !delta.IsWhole() ==> var w := IdWrapperOf(id).value;
        && (r.Panicked? <==> w !in old(images))
        && (r.Returned? ==> (r.value.Ok? <==> alloc.stagingOk))
        && (r.Returned? && r.value.Err? ==> r.value.error == BufferAllocationFailed)
        && unchanged(this)
        && builder.log == if r == Returned(Ok(())) then old(builder.log) + [UploadCopy(delta, old(images)[w])] else old(builder.log)
      ensures id.id < USER_BIT && delta.IsWhole() && !alloc.imageOk ==>
        r == Returned(Err(ImageAllocationFailed)) && unchanged(this) && builder.log == old(builder.log)
      ensures id.id < USER_BIT && delta.IsWhole() && alloc.imageOk ==>
        && (r.Panicked? <==> delta.options !in old(textureSamplers) && !alloc.samplerOk)
        && (r.Returned? ==> textureSamplers == old(textureSamplers)[delta.options := OptionsSampler(delta.options)])
      ensures id.id < USER_BIT && delta.IsWhole() && alloc.imageOk && r.Returned? && !alloc.descriptorOk ==>
        r.value == Err(VulkanFailed) && textures == old(textures) && images == old(images) && builder.log == old(builder.log)
      ensures id.id < USER_BIT && delta.IsWhole() && alloc.imageOk && r.Returned? && alloc.descriptorOk ==>
        var w := IdWrapperOf(id).value;
        && w in images && fresh(images[w]) && fresh(textures[w])
        && images[w].width == TruncU32(delta.image.Width()) && images[w].height == TruncU32(delta.image.Height())
        && textures == old(textures)[w := textures[w]] && images == old(images)[w := images[w]]
        && textures[w].descriptor == textureManager.ImageDescriptor(images[w], OptionsSampler(delta.options), [])
        && (r.value.Ok? <==> alloc.stagingOk)
        && (r.value.Err? ==> r.value.error == BufferAllocationFailed)
        && builder.log == if alloc.stagingOk then old(builder.log) + [UploadCopy(delta, images[w])] else old(builder.log)
    {
      var key := IdWrapperOf(id);
      if key.Panicked? {
        return Panicked;
      }
      var w := key.value;
      var image: Image;
      if delta.IsWhole() {
        var installed := InstallImage(w, delta, alloc);
        if installed.Panicked? {
          return Panicked;
        }
        if installed.value.Err? {
          return Returned(Err(installed.value.error));
        }
        image := installed.value.value;
      } else {
        if w !in images {
          return Panicked;
        }
        image := images[w];
      }
      if !alloc.stagingOk {
        return Returned(Err(BufferAllocationFailed));
      }
      builder.Record(UploadCopy(delta, image));
      r := Returned(Ok(()));
    }

    /** One entry of the loop, as the loop relies on it: it panics exactly as `EntryPanics`
        says and otherwise returns `EntryError`'s error, if any. A success installs only the
        entry's key and appends the copy `EntryCopied` describes; a failure records nothing and
        changes no image but, for a whole delta, the one under its own key. */
    method ApplyUpdate(builder: CommandBuffer, id: EguiTextureId, delta: ImageDelta, alloc: Allocation)
      returns (r: Outcome<Result<(), UploadError>>)
      requires Valid() && IsU64(id)
      modifies this, builder
      ensures Valid() && texturesToFree == old(texturesToFree)
      ensures r.Panicked? <==> EntryPanics(id, delta, alloc, old(images), old(textureSamplers))
      ensures r.Returned? ==> id.id < USER_BIT
      ensures r.Returned? ==> r.value == if EntryError(delta, alloc).Some? then Err(EntryError(delta, alloc).value) else Ok(())
      ensures r == Returned(Ok(())) ==> OnlyInstalled(old(textures), old(images), textures, images, InstalledKeys(id, delta))
      ensures r == Returned(Ok(())) && id.id < USER_BIT ==>
        OneCopyAppended(old(builder.log), builder.log, old(images), images, KeyOf(id), delta)
      ensures r.Returned? && r.value.Err? && id.id < USER_BIT ==>
        && builder.log == old(builder.log)
        && (images == old(images) || (delta.IsWhole() && KeyOf(id) in images && images == old(images)[KeyOf(id) := images[KeyOf(id)]]))
      ensures r != Returned(Ok(())) ==> builder.log == old(builder.log)
    {
      r := UpdateTexture(builder, id, delta, alloc);
      if r.Returned? {
        if !delta.IsWhole() || (alloc.imageOk && alloc.descriptorOk) {
          assert r.value.Ok? <==> alloc.stagingOk;
          if alloc.stagingOk {
            var u: () := r.value.value;
            assert u == ();
            assert r.value == Ok(());
          } else {
            assert EntryError(delta, alloc) == Some(BufferAllocationFailed) && r.value == Err(BufferAllocationFailed);
          }
        } else if !alloc.imageOk {
          assert r.value == Err(ImageAllocationFailed);
        } else {
          assert r.value == Err(VulkanFailed);
        }
      }
    }

    /** `update_textures`: the delta's free list is appended to the pending one first, then the
        entries are applied in order until one fails or panics; `stop` is the entry the loop
        ended at and `hist` the images before the first entry and after each successful one.
        The entries before `stop` all succeeded, each recording its copy in order; the result
        is `Ok` exactly when every entry succeeded, and otherwise it is the outcome of entry
        `stop`, whose failure records nothing. */
    method UpdateTextures(builder: CommandBuffer, delta: TexturesDelta, allocs: seq<Allocation>)
      returns (r: Outcome<Result<(), UploadError>>, ghost stop: nat, ghost hist: seq<map<nat, Image>>)
      requires Valid() && |allocs| == |delta.updates|
      requires forall j :: 0 <= j < |delta.updates| ==> IsU64(delta.updates[j].0)
      modifies this, builder
      ensures Valid()
      ensures texturesToFree == old(texturesToFree) + delta.free
      ensures stop <= |delta.updates| && (r == Returned(Ok(())) <==> stop == |delta.updates|)
      ensures forall j :: 0 <= j < stop ==> delta.updates[j].0.id < USER_BIT && EntryError(delta.updates[j].1, allocs[j]).None?
      ensures CopiesRecorded(old(builder.log), builder.log, hist, Entries(delta.updates[..stop])) && hist[0] == old(images)
      ensures r == Returned(Ok(())) ==>
        images == hist[stop] && OnlyInstalled(old(textures), old(images), textures, images, WholeKeys(delta.updates))
      ensures r.Panicked? ==> stop < |delta.updates|
      ensures r.Panicked? && stop < |delta.updates| ==>
        var (id, d) := delta.updates[stop];
        (id.id >= USER_BIT || (!d.IsWhole() && KeyOf(id) !in hist[stop]) || (d.IsWhole() && allocs[stop].imageOk && !allocs[stop].samplerOk))
      ensures r.Returned? && stop < |delta.updates| ==>
        var (id, d) := delta.updates[stop];
        && id.id < USER_BIT && (d.IsWhole() || KeyOf(id) in hist[stop])
        && EntryError(d, allocs[stop]).Some? && r.value == Err(EntryError(d, allocs[stop]).value)
        && (images == hist[stop] || (d.IsWhole() && KeyOf(id) in images && images == hist[stop][KeyOf(id) := images[KeyOf(id)]]))
    {
      texturesToFree := texturesToFree + delta.free;
      var i := 0;
      hist := [images];
      AppliedNone(builder.log, textures, images, delta.updates, allocs);
      while i < |delta.updates|
        invariant i <= |delta.updates| && Valid()
        invariant texturesToFree == old(texturesToFree) + delta.free
        invariant AppliedUpTo(old(builder.log), old(textures), old(images), builder.log, textures, images, hist, delta.updates, allocs, i)
      {
        ghost var before, texturesBefore, imagesBefore := builder.log, textures, images;
        var step := ApplyUpdate(builder, delta.updates[i].0, delta.updates[i].1, allocs[i]);
        if step != Returned(Ok(())) {
          assert step.Returned? ==> step.value.Err?;
          return step, i, hist;
        }
        AppliedStep(old(builder.log), old(textures), old(images), before, texturesBefore, imagesBefore,
                    builder.log, textures, images, hist, delta.updates, allocs, i);
        hist := hist + [images];
        i := i + 1;
      }
      assert delta.updates[..i] == delta.updates;
      r, stop := Returned(Ok(())), i;
    }

    /** `free_textures`: the pending list is drained; each id's key is removed from both maps.
        An id with its top bit set panics. */
    method FreeTextures() returns (r: Outcome<()>)
      requires Valid() && forall i :: 0 <= i < |texturesToFree| ==> IsU64(texturesToFree[i])
      modifies this
      ensures Valid()
      ensures textureSamplers == old(textureSamplers)
      ensures r.Panicked? <==> AnyReserved(old(texturesToFree))
      ensures r.Returned? ==>
        && texturesToFree == []
        && textures == old(textures) - FreedKeys(old(texturesToFree))
        && images == old(images) - FreedKeys(old(texturesToFree))
    {
      var pending := texturesToFree;
      texturesToFree := [];
      var i := 0;
      while i < |pending|
        invariant i <= |pending| && Valid() && texturesToFree == [] && textureSamplers == old(textureSamplers)
        invariant forall j :: 0 <= j < i ==> pending[j].id < USER_BIT
        invariant textures == old(textures) - FreedKeys(pending[..i])
        invariant images == old(images) - FreedKeys(pending[..i])
      {
        assert pending[..i + 1][..i] == pending[..i];
        var key := IdWrapperOf(pending[i]);
        if key.Panicked? {
          return Panicked;
        }
        FreedKeysSnoc(pending, i);
        RemoveKeepsValid(textureManager, textures, images, textureSamplers, key.value);
        MapMinusMinus(old(textures), FreedKeys(pending[..i]), {key.value});
        MapMinusMinus(old(images), FreedKeys(pending[..i]), {key.value});
        textures := textures - {key.value};
        images := images - {key.value};
        i := i + 1;
      }
      assert pending[..i] == pending;
      r := Returned(());
    }

    /** The per-mesh loop of `draw_internal`. */
    method RecordMeshes(builder: CommandBuffer, ghost ms: seq<ClippedMesh>, clipRects: seq<Rect>,
                        textureIds: seq<EguiTextureId>, offsets: seq<(nat, nat)>) returns (r: Outcome<()>)
      requires IdsAreU64(ms) && clipRects == ClipRects(ms) && textureIds == TextureIds(ms) && offsets == Offsets(ms)
      modifies builder
      ensures r.Panicked? <==> MeshesPanic(ms, 0)
      ensures builder.log == old(builder.log) + MeshesLog(textures, ms, 0)
    {
      ghost var drawn: seq<Cmd> := [];
      var index := 0;
      while index < |clipRects|
        invariant index <= |ms|
        invariant MeshesPanic(ms, 0) == MeshesPanic(ms, index)
        invariant MeshesLog(textures, ms, 0) == drawn + MeshesLog(textures, ms, index)
        invariant builder.log == old(builder.log) + drawn
      {
        var rect := clipRects[index];
        var (offsetVertex, offsetIndex) := offsets[index];
        var (_, offsetIndexEnd) := offsets[index + 1];
        MeshesLogStep(textures, ms, index);
        var key := IdWrapperOf(textureIds[index]);
        if key.Panicked? {
          assert drawn + [] == drawn;
          return Panicked;
        }
        ghost var d: seq<Cmd> := [];
        if key.value in textures {
          var texture := textures[key.value];
          RecordMesh(builder, ms, index, rect, offsetVertex, offsetIndex, offsetIndexEnd, texture);
          d := MeshCmds(ms, index, texture);
        }
        Associative(drawn, d, MeshesLog(textures, ms, index + 1));
        Associative(old(builder.log), drawn, d);
        drawn := drawn + d;
        index := index + 1;
      }
      assert MeshesLog(textures, ms, index) == [];
      assert drawn + [] == drawn;
      r := Returned(());
    }

    /** The commands of one mesh whose texture is known: scissor, descriptor set, indexed draw. */
    method RecordMesh(builder: CommandBuffer, ghost ms: seq<ClippedMesh>, ghost index: nat, rect: Rect,
                      offsetVertex: nat, offsetIndex: nat, offsetIndexEnd: nat, texture: TextureInner)
      requires index < |ms| && rect == ms[index].clipRect
      requires (offsetVertex, offsetIndex) == Offset(ms, index) && offsetIndexEnd == Offset(ms, index + 1).1
      modifies builder
      ensures builder.log == old(builder.log) + MeshCmds(ms, index, texture)
    {
      MeshChunk(ms, index);
      builder.Record(SetScissor((CastU32(rect.min.x), CastU32(rect.min.y)), (CastU32(rect.Width()), CastU32(rect.Height()))));
      builder.Record(BindDescriptorSet(texture.descriptor));
      builder.Record(DrawIndexed(offsetIndexEnd - offsetIndex, 1, offsetIndex, offsetVertex, 0));
    }

    /** `draw_internal`. When no mesh is kept nothing is bound or drawn, and pending frees stay
        pending. Otherwise both buffers are allocated, the pipeline, buffers and push constants
        are bound, every kept mesh with a known texture is drawn, and then the pending textures
        are freed. */
    method DrawInternal(builder: CommandBuffer, width: real, height: real, ps: seq<ClippedPrimitive>,
                        vertexBufferOk: bool, indexBufferOk: bool) returns (r: Outcome<Result<(), DrawError>>)
      requires Valid() && forall i :: 0 <= i < |texturesToFree| ==> IsU64(texturesToFree[i])
      requires IdsAreU64(KeptMeshes(ps))
      modifies this, builder
      ensures Valid()
      ensures KeptMeshes(ps) == [] || !vertexBufferOk || !indexBufferOk ==> unchanged(this) && builder.log == old(builder.log)
      ensures KeptMeshes(ps) == [] ==> r == Returned(Ok(()))
      ensures KeptMeshes(ps) != [] && !(vertexBufferOk && indexBufferOk) ==> r == Returned(Err(BufferAllocateError))
      ensures KeptMeshes(ps) != [] && vertexBufferOk && indexBufferOk ==>
        && builder.log == old(builder.log) + DrawHeader(KeptMeshes(ps), width, height) + MeshesLog(old(textures), KeptMeshes(ps), 0)
        && (r.Panicked? <==> MeshesPanic(KeptMeshes(ps), 0) || AnyReserved(old(texturesToFree)))
      ensures KeptMeshes(ps) != [] && vertexBufferOk && indexBufferOk && r.Returned? ==>
        && r.value == Ok(()) && texturesToFree == []
        && textures == old(textures) - FreedKeys(old(texturesToFree))
        && images == old(images) - FreedKeys(old(texturesToFree))
    {
      var packed := Pack(ps);
      ghost var ms := KeptMeshes(ps);
      if |packed.clipRects| == 0 {
        return Returned(Ok(()));
      }
      var offsets := packed.offsets + [(|packed.vertices|, |packed.indices|)];
      SentinelCompletesOffsets(ms);
      if !vertexBufferOk || !indexBufferOk {
        return Returned(Err(BufferAllocateError));
      }
      builder.Record(BindPipeline(PipelineKind.EguiPipeline));
      builder.Record(BindIndexBuffer(packed.indices));
      builder.Record(BindVertexBuffers([packed.vertices]));
      builder.Record(PushConstants([width, height]));
      var drawn := RecordMeshes(builder, ms, packed.clipRects, packed.textureIds, offsets);
      if drawn.Panicked? {
        return Panicked;
      }
      var freed := FreeTextures();
      if freed.Panicked? {
        return Panicked;
      }
      r := Returned(Ok(()));
    }
  }

  /** The key a whole entry whose id does not panic installs. */
  function InstalledKeys(id: EguiTextureId, d: ImageDelta): set<nat>
    requires IsU64(id)
  {
    if d.IsWhole() && id.id < USER_BIT then {IdWrapperOf(id).value} else {}
  }

  /** The keys whole entries install. */
  function WholeKeys(updates: seq<(EguiTextureId, ImageDelta)>): set<nat>
    requires forall j :: 0 <= j < |updates| ==> IsU64(updates[j].0)
    decreases |updates|
  {
    if updates == [] then {}
    else
      var last := updates[|updates| - 1];
      WholeKeys(updates[..|updates| - 1]) + InstalledKeys(last.0, last.1)
  }

  lemma WholeKeysSnoc(updates: seq<(EguiTextureId, ImageDelta)>, i: nat)
    requires i < |updates| && forall j :: 0 <= j < |updates| ==> IsU64(updates[j].0)
    ensures WholeKeys(updates[..i + 1]) == WholeKeys(updates[..i]) + InstalledKeys(updates[i].0, updates[i].1)
  {
    assert updates[..i + 1][..i] == updates[..i];
  }
}
