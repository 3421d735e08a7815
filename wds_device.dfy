/** The `WriteDescriptorSetManager` variant that builds its own allocators from a device and can
    be cloned; apart from that it files and hands out uniform descriptors like the other one. */
module WriteDescriptorsDevice {
  import opened Base
  import opened Gpu
  import opened Uniforms
  import WriteDescriptors

  class WriteDescriptorSetManager {
    /** `descriptor_set_allocator()` hands this out. */
    const descAllocator: Allocator
    const memoAllocator: Allocator
    var writeDescriptorSets: map<nat, WriteDescriptor>

    ghost predicate Valid()
      reads this
    {
      WriteDescriptors.WellFiled(writeDescriptorSets)
    }

    /** `new`: both allocators are created for the device; nothing is filed yet. */
    constructor (device: Device)
      ensures Valid()
      ensures descAllocator == DescriptorSetAllocator(device) && memoAllocator == MemoryAllocator(device)
      ensures writeDescriptorSets == map[]
    {
      descAllocator := DescriptorSetAllocator(device);
      memoAllocator := MemoryAllocator(device);
      writeDescriptorSets := map[];
    }

    /** `#[derive(Clone)]`: a separate manager sharing the allocators and the filed descriptors. */
    method Clone() returns (c: WriteDescriptorSetManager)
      requires Valid()
      ensures fresh(c) && c.Valid()
      ensures c.descAllocator == descAllocator && c.memoAllocator == memoAllocator
      ensures c.writeDescriptorSets == writeDescriptorSets
    {
      c := new WriteDescriptorSetManager.FromParts(descAllocator, memoAllocator, writeDescriptorSets);
    }

    constructor FromParts(descAllocator: Allocator, memoAllocator: Allocator, sets: map<nat, WriteDescriptor>)
      requires WriteDescriptors.WellFiled(sets)
      ensures Valid()
      ensures this.descAllocator == descAllocator && this.memoAllocator == memoAllocator
      ensures writeDescriptorSets == sets
    {
      this.descAllocator := descAllocator;
      this.memoAllocator := memoAllocator;
      writeDescriptorSets := sets;
    }

    /** `insert`: files a fresh uniform buffer under the origin's binding, replacing what was
        there; on an allocation failure nothing changes. */
    method Insert(origin: Origin, allocOk: bool) returns (r: Result<(), Error>)
      requires Valid()
      modifies this
      ensures Valid()
      ensures r.Ok? <==> allocOk
      ensures r.Err? ==> r.error == FailedToAllocateWriteDescriptorBuffer(origin.Binding())
      ensures writeDescriptorSets == if allocOk
        then old(writeDescriptorSets)[origin.Binding() := BufferWrite(origin.Binding(), origin.Data())]
        else old(writeDescriptorSets)
    {
      var created := CreateDescriptorSet(origin, allocOk);
      if created.Err? {
        return Err(created.error);
      }
      writeDescriptorSets := writeDescriptorSets[origin.Binding() := created.value];
      r := Ok(());
    }

    /** `update`: `Ok(None)` when nothing is filed under the origin's binding; otherwise records
        the buffer update and returns the filed descriptor, or the update's error. */
    method Update(cmds: CommandBuffer, origin: Origin, updated: bool)
      returns (r: Result<Option<WriteDescriptor>, Error>)
      requires Valid()
      modifies cmds
      ensures origin.Binding() !in writeDescriptorSets ==> r == Ok(None) && cmds.log == old(cmds.log)
      ensures origin.Binding() in writeDescriptorSets && updated ==>
        r == Ok(Some(writeDescriptorSets[origin.Binding()]))
        && cmds.log == old(cmds.log) + [UpdateBuffer(origin.Binding(), origin.Data())]
      ensures origin.Binding() in writeDescriptorSets && !updated ==>
        r == Err(FailedToUpdateWriteDescriptorBuffer(origin.Binding())) && cmds.log == old(cmds.log)
    {
      if origin.Binding() !in writeDescriptorSets {
        return Ok(None);
      }
      var desc := writeDescriptorSets[origin.Binding()];
      var u := Uniforms.Update(origin, cmds, desc, updated);
      if u.Err? {
        return Err(u.error);
      }
      r := Ok(Some(desc));
    }

    function GetRequiredDescriptors(layout: SetLayout): (ws: seq<WriteDescriptor>)
      reads this
      ensures forall b :: b in layout.bindings && b in writeDescriptorSets ==> writeDescriptorSets[b] in ws
      ensures forall w :: w in ws ==> exists b :: b in layout.bindings && b in writeDescriptorSets && writeDescriptorSets[b] == w
    {
      WriteDescriptors.RequiredDescriptors(writeDescriptorSets, layout.bindings)
    }

    /** `create_persistent_descriptor_set`: the layout with the required descriptors. */
    function CreatePersistentDescriptorSet(layout: SetLayout, created: bool): (r: Result<DescriptorSet, VulkanError>)
      reads this
      ensures r.Ok? <==> created
      ensures r.Ok? ==> r.value.layout == layout
      ensures r.Ok? ==> forall b :: b in layout.bindings && b in writeDescriptorSets ==>
                          writeDescriptorSets[b] in r.value.writes
      ensures r.Ok? ==> forall w :: w in r.value.writes ==>
                          exists b :: b in layout.bindings && b in writeDescriptorSets && writeDescriptorSets[b] == w
    {
      if created then Ok(DescriptorSet(layout, GetRequiredDescriptors(layout))) else Err(CreationFailed)
    }
  }
}
