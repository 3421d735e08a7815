/** The GPU-facing values the core hands to vulkano: samplers, images, descriptor sets, buffer
    contents, and the command buffer builder, which is modelled as an append-only log. */
module Gpu {
  import opened Base

  datatype Filter = Nearest | Linear

  datatype MipmapMode = MipmapNearest | MipmapLinear

  datatype Sampler = Sampler(mag: Filter, min: Filter, mipmap: MipmapMode)

  /** A device image; its identity is that of the `Arc<Image>`. */
  class Image {
    const width: nat
    const height: nat

    constructor (width: nat, height: nat)
      ensures this.width == width && this.height == height
    {
      this.width := width;
      this.height := height;
    }
  }

  /** A failed vulkano call (allocation, descriptor set or image creation). */
  datatype VulkanError = CreationFailed

  /** `DrawError`: the only variant a modelled draw produces is a failed buffer allocation. */
  datatype DrawError = BufferAllocateError

  datatype Device = Device(id: nat)

  /** The descriptor set and memory allocators a manager holds on to. */
  datatype Allocator = DescriptorSetAllocator(device: Device) | MemoryAllocator(device: Device)

  /** The binding numbers of a descriptor set layout, in the order the layout yields them. */
  datatype SetLayout = SetLayout(bindings: seq<nat>)

  datatype WriteDescriptor =
    | BufferWrite(binding: nat, data: seq<real>)
    | ImageViewSampler(binding: nat, image: Image, sampler: Sampler)
  {
    function Binding(): nat
    {
      match this
      case BufferWrite(b, _) => b
      case ImageViewSampler(b, _, _) => b
    }
  }

  datatype DescriptorSet = DescriptorSet(layout: SetLayout, writes: seq<WriteDescriptor>)

  /** One region of a buffer-to-image copy: the texel offset and extent in the image. */
  datatype CopyRegion = CopyRegion(offset: (nat, nat), extent: (nat, nat))

  /** `CopyBufferToImageInfo`: the staged bytes, the target image and the copied regions. */
  datatype CopyInfo = CopyInfo(data: seq<nat>, image: Image, regions: seq<CopyRegion>)

  /** `CopyBufferToImageInfo::buffer_image`: one region covering the whole image. */
  function WholeImageCopy(data: seq<nat>, image: Image): (c: CopyInfo)
    ensures c.image == image && c.data == data
    ensures c.regions == [CopyRegion((0, 0), (image.width, image.height))]
  {
    CopyInfo(data, image, [CopyRegion((0, 0), (image.width, image.height))])
  }

  /** The element types of the vertex and instance buffers the pipelines upload. */
  datatype Vertex =
    | PosVertex(pos: Vec2)
    | PosUvVertex(pos: Vec2, uv: Vec2)
    | PosColorVertex(pos: Vec2, color: Color)
    | BallInstance(pos: Vec2, color: Color, radius: real, corona: real, lateAlpha: real)
    | TerrainInstance(tilePos: Vec2, uv0: Vec2, uv1: Vec2, shading: real)
    | EntityInstance(entityPos: Vec2, uv0: Vec2, uv1: Vec2, size: real)
    | UiVertex(pos: Vec2, uv: Vec2, color: Color)

  datatype PipelineKind =
    | LinesPipeline | TrianglesPipeline | TexturedPipeline | BeautifulLinesPipeline
    | GlowingBallsPipeline | TerrainPipeline | EntitiesPipeline | EguiPipeline | EguiPainterPipeline

  /** A command recorded into a command buffer builder. */
  datatype Cmd =
    | BindPipeline(pipeline: PipelineKind)
    | BindVertexBuffers(buffers: seq<seq<Vertex>>)
    | BindIndexBuffer(indices: seq<nat>)
    | BindDescriptorSet(descriptorSet: DescriptorSet)
    | PushConstants(values: seq<real>)
    | Draw(vertexCount: nat, instanceCount: nat, firstVertex: nat, firstInstance: nat)
    | DrawIndexed(indexCount: nat, instanceCount: nat, firstIndex: nat, vertexOffset: nat, firstInstance: nat)
    | SetScissor(origin: (nat, nat), extent: (nat, nat))
    | SetLineWidth(width: real)
    | UpdateBuffer(binding: nat, data: seq<real>)
    | CopyBufferToImage(copy: CopyInfo)

  /** `AutoCommandBufferBuilder`: everything recorded so far, in order. */
  class CommandBuffer {
    var log: seq<Cmd>

    constructor ()
      ensures log == []
    {
      log := [];
    }

    method Record(c: Cmd)
      modifies this
      ensures log == old(log) + [c]
    {
      log := log + [c];
    }

    method RecordAll(cs: seq<Cmd>)
      modifies this
      ensures log == old(log) + cs
    {
      log := log + cs;
    }
  }

  function IsDraw(c: Cmd): bool { c.Draw? || c.DrawIndexed? }

  /** How many draw calls a stretch of recorded commands holds. */
  function DrawCount(cs: seq<Cmd>): (n: nat)
    ensures n <= |cs|
    ensures n == 0 <==> forall i :: 0 <= i < |cs| ==> !IsDraw(cs[i])
  {
    if cs == [] then 0
    else DrawCount(cs[..|cs| - 1]) + (if IsDraw(cs[|cs| - 1]) then 1 else 0)
  }

  lemma {:induction false} DrawCountAppend(a: seq<Cmd>, b: seq<Cmd>)
    ensures DrawCount(a + b) == DrawCount(a) + DrawCount(b)
    decreases |b|
  {
    if b == [] {
      assert a + b == a;
    } else {
      var b' := b[..|b| - 1];
      assert (a + b)[..|a + b| - 1] == a + b';
      DrawCountAppend(a, b');
    }
  }
}
