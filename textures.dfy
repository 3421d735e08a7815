/** Texture samplers, and the `TextureManager` each textured pipeline owns: it turns an image
    into a `TextureId` and recognises the ids it created by their origin marker. */
module Textures {
  import opened Base
  import opened Gpu

  datatype ImageSamplerMode = PixelPerfect | Linear

  function IntoFilter(mode: ImageSamplerMode): Filter
  {
    match mode
    case PixelPerfect => Filter.Nearest
    case Linear => Filter.Linear
  }

  function IntoMipmapMode(mode: ImageSamplerMode): MipmapMode
  {
    match mode
    case PixelPerfect => MipmapNearest
    case Linear => MipmapLinear
  }

  /** The sampler description `create_texture_sampler` asks vulkano for. */
  function SamplerFor(mode: ImageSamplerMode): (s: Sampler)
    ensures s.mag == s.min
    ensures s.mag == Filter.Linear <==> s.mipmap == MipmapLinear
    ensures s.mag == Filter.Nearest <==> mode == PixelPerfect
  {
    Sampler(IntoFilter(mode), IntoFilter(mode), IntoMipmapMode(mode))
  }

  /** `create_texture_sampler`; `created` says whether vulkano accepted it. */
  function CreateTextureSampler(mode: ImageSamplerMode, created: bool): (r: Result<Sampler, VulkanError>)
    ensures r.Ok? <==> created
    ensures r.Ok? ==> r.value == SamplerFor(mode)
  {
    if created then Ok(SamplerFor(mode)) else Err(CreationFailed)
  }

  /** The two modes never share a sampler. */
  lemma SamplerModesDiffer(a: ImageSamplerMode, b: ImageSamplerMode)
    requires a != b
    ensures SamplerFor(a) != SamplerFor(b)
  {
  }

  /** `Arc<()>`: a marker whose only property is its identity. */
  class OriginMarker {
    constructor ()
    {
    }
  }

  /** The shared inside of a `TextureId`; ids are equal exactly when they share this object. */
  class TextureInner {
    const origin: OriginMarker
    const image: Image
    const descriptor: DescriptorSet

    constructor (origin: OriginMarker, image: Image, descriptor: DescriptorSet)
      ensures this.origin == origin && this.image == image && this.descriptor == descriptor
    {
      this.origin := origin;
      this.image := image;
      this.descriptor := descriptor;
    }

    /** `TextureId::originates_from`. */
    predicate OriginatesFrom(marker: OriginMarker)
      ensures OriginatesFrom(marker) <==> marker == origin
    {
      origin == marker
    }
  }

  class TextureManager {
    const sampler: Sampler
    const descLayout: SetLayout
    const descAllocator: Allocator
    const originMarker: OriginMarker
    /** The `BINDING` const parameter: where the image sampler goes in the descriptor set. */
    const binding: nat

    /** `new`: every manager gets a marker of its own, distinct from every other one. */
    constructor (sampler: Sampler, descLayout: SetLayout, descAllocator: Allocator, binding: nat)
      ensures this.sampler == sampler && this.descLayout == descLayout
      ensures this.descAllocator == descAllocator && this.binding == binding
      ensures fresh(originMarker)
    {
      this.sampler := sampler;
      this.descLayout := descLayout;
      this.descAllocator := descAllocator;
      this.binding := binding;
      originMarker := new OriginMarker();
    }

    /** The descriptor set `create_image_desc` builds: the image sampler at `BINDING`, then the
        extra descriptors in their order. */
    function ImageDescriptor(image: Image, sampler: Sampler, descriptors: seq<WriteDescriptor>): (d: DescriptorSet)
      ensures d.layout == descLayout && |d.writes| == 1 + |descriptors|
      ensures d.writes[0] == ImageViewSampler(binding, image, sampler) && d.writes[1..] == descriptors
    {
      DescriptorSet(descLayout, [ImageViewSampler(binding, image, sampler)] + descriptors)
    }

    /** `prepare_texture_with`: a new texture id of this manager, unless creating the image view
        or the descriptor set fails. */
    method PrepareTextureWith(image: Image, sampler: Sampler, descriptors: seq<WriteDescriptor>, created: bool)
      returns (r: Result<TextureInner, VulkanError>)
      ensures r.Ok? <==> created
      ensures r.Ok? ==> fresh(r.value) && IsOriginOf(r.value) && r.value.image == image
                        && r.value.descriptor == ImageDescriptor(image, sampler, descriptors)
    {
      if !created {
        return Err(CreationFailed);
      }
      var inner := new TextureInner(originMarker, image, ImageDescriptor(image, sampler, descriptors));
      r := Ok(inner);
    }

    /** `prepare_texture`: as `prepare_texture_with`, with the manager's own sampler. */
    method PrepareTexture(image: Image, descriptors: seq<WriteDescriptor>, created: bool)
      returns (r: Result<TextureInner, VulkanError>)
      ensures r.Ok? <==> created
      ensures r.Ok? ==> fresh(r.value) && IsOriginOf(r.value) && r.value.image == image
                        && r.value.descriptor == ImageDescriptor(image, sampler, descriptors)
    {
      r := PrepareTextureWith(image, sampler, descriptors, created);
    }

    /** Whether this manager prepared the texture: its origin is this manager's marker. */
    predicate IsOriginOf(id: TextureInner)
      ensures IsOriginOf(id) <==> id.origin == originMarker
    {
      id.OriginatesFrom(originMarker)
    }
  }

  /** `TextureManager::basic`: a manager whose sampler follows the mode, bound at `binding`
      of the pipeline's first set layout. */
  method Basic(device: Device, setLayout: SetLayout, mode: ImageSamplerMode, binding: nat, samplerCreated: bool)
    returns (r: Result<TextureManager, VulkanError>)
    ensures r.Ok? <==> samplerCreated
    ensures r.Ok? ==> fresh(r.value) && fresh(r.value.originMarker) && r.value.sampler == SamplerFor(mode)
                      && r.value.descLayout == setLayout && r.value.binding == binding
                      && r.value.descAllocator == DescriptorSetAllocator(device)
  {
    var sampler := CreateTextureSampler(mode, samplerCreated);
    if sampler.Err? {
      return Err(sampler.error);
    }
    var m := new TextureManager(sampler.value, setLayout, DescriptorSetAllocator(device), binding);
    r := Ok(m);
  }

  /** A texture id made by one manager is never taken for one of another manager. */
  lemma ForeignTextureNotRecognised(mine: TextureManager, other: TextureManager, id: TextureInner)
    requires mine.originMarker != other.originMarker && other.IsOriginOf(id)
    ensures !mine.IsOriginOf(id)
  {
  }
}
