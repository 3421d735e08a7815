/** The uniform buffers the pipelines share (window size at binding 101, 2D world view at binding
    201) and how each becomes a write descriptor and is refreshed by a buffer update command. */
module Uniforms {
  import opened Base
  import opened Gpu

  const WINDOW_SIZE_BINDING: nat := 101
  const WORLD_2D_VIEW_BINDING: nat := 201

  datatype WindowSize = WindowSize(width: real, height: real)

  /** `From<&VulkanSystem>`: the swapchain's image extent, as floats. */
  function WindowSizeFromExtent(extent: (nat, nat)): (w: WindowSize)
    ensures w.width == extent.0 as real && w.height == extent.1 as real
  {
    WindowSize(extent.0 as real, extent.1 as real)
  }

  datatype World2dView = World2dView(x: real, y: real, zoom: real)

  type F32x3 = a: seq<real> | |a| == 3 witness [0.0, 0.0, 0.0]

  function World2dViewFromArray(a: F32x3): World2dView
  {
    World2dView(a[0], a[1], a[2])
  }

  /** `From<&VulkanSystem>`: the view before any camera update, at the origin with zoom 1. */
  function World2dViewFromSystem(): (v: World2dView)
    ensures v.zoom == 1.0
    ensures Origin.World2dViewOrigin(v).Data() == [0.0, 0.0, 1.0]
  {
    World2dView(0.0, 0.0, 1.0)
  }

  /** The implementors of `WriteDescriptorSetOrigin`. */
  datatype Origin = WindowSizeOrigin(size: WindowSize) | World2dViewOrigin(view: World2dView)
  {
    function Binding(): (b: nat)
      ensures WindowSizeOrigin? ==> b == WINDOW_SIZE_BINDING
      ensures World2dViewOrigin? ==> b == WORLD_2D_VIEW_BINDING
    {
      if WindowSizeOrigin? then WINDOW_SIZE_BINDING else WORLD_2D_VIEW_BINDING
    }

    /** The uniform buffer contents. */
    function Data(): (d: seq<real>)
      ensures WindowSizeOrigin? ==> |d| == 2
      ensures World2dViewOrigin? ==> |d| == 3
    {
      match this
      case WindowSizeOrigin(s) => [s.width, s.height]
      case World2dViewOrigin(v) => [v.x, v.y, v.zoom]
    }
  }

  /** Reading the view back out of its uniform data gives the array it was built from. */
  lemma ViewArrayRoundTrip(a: F32x3)
    ensures Origin.World2dViewOrigin(World2dViewFromArray(a)).Data() == a
  {
    assert [a[0], a[1], a[2]] == a;
  }

  /** Both uniforms can live side by side in one manager: their bindings differ. */
  lemma UniformBindingsDistinct(w: WindowSize, v: World2dView)
    ensures Origin.WindowSizeOrigin(w).Binding() != Origin.World2dViewOrigin(v).Binding()
  {
  }

  datatype Error =
    | FailedToAllocateWriteDescriptorBuffer(binding: nat)
    | FailedToUpdateWriteDescriptorBuffer(binding: nat)

  /** `create_descriptor_set`: a buffer write at the origin's binding holding the origin's data,
      unless allocating the uniform buffer fails. */
  function CreateDescriptorSet(origin: Origin, allocOk: bool): (r: Result<WriteDescriptor, Error>)
    ensures r.Ok? <==> allocOk
    ensures r.Ok? ==> r.value.BufferWrite? && r.value.Binding() == origin.Binding()
                      && r.value.data == origin.Data()
    ensures r.Err? ==> r.error == FailedToAllocateWriteDescriptorBuffer(origin.Binding())
  {
    if allocOk then Ok(BufferWrite(origin.Binding(), origin.Data()))
    else Err(FailedToAllocateWriteDescriptorBuffer(origin.Binding()))
  }

  /** `update`: records an update of the current descriptor's buffer with the origin's data.
      A descriptor that is not a buffer write reaches `unimplemented!()`, so it is excluded. */
  method Update(origin: Origin, cmds: CommandBuffer, current: WriteDescriptor, updated: bool)
    returns (r: Result<(), Error>)
    requires current.BufferWrite?
    modifies cmds
    ensures r.Ok? <==> updated
    ensures updated ==> cmds.log == old(cmds.log) + [UpdateBuffer(current.binding, origin.Data())]
    ensures !updated ==> r.error == FailedToUpdateWriteDescriptorBuffer(origin.Binding())
                         && cmds.log == old(cmds.log)
  {
    if updated {
      cmds.Record(UpdateBuffer(current.binding, origin.Data()));
      r := Ok(());
    } else {
      r := Err(FailedToUpdateWriteDescriptorBuffer(origin.Binding()));
    }
  }
}
