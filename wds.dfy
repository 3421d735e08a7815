/** `WriteDescriptorSetManager` built from shared allocators: the uniform write descriptors,
    keyed by binding, from which the pipelines' persistent descriptor sets are assembled. */
module WriteDescriptors {
  import opened Base
  import opened Gpu
  import opened Uniforms

  /** Every stored descriptor is a buffer write filed under its own binding. */
  ghost predicate WellFiled(sets: map<nat, WriteDescriptor>)
  {
    forall b :: b in sets ==> sets[b].BufferWrite? && sets[b].Binding() == b
  }

  /** `get_required_descriptors`: for each binding of the layout, in the layout's order, the
      stored descriptor for it, skipping bindings nothing was inserted for. */
  function RequiredDescriptors(sets: map<nat, WriteDescriptor>, bindings: seq<nat>): (r: seq<WriteDescriptor>)
    ensures |r| <= |bindings|
    ensures forall w :: w in r ==> exists b :: b in bindings && b in sets && sets[b] == w
    ensures forall b :: b in bindings && b in sets ==> sets[b] in r
    decreases |bindings|
  {
    if bindings == [] then []
    else
      var b := bindings[|bindings| - 1];
      RequiredDescriptors(sets, bindings[..|bindings| - 1]) + (if b in sets then [sets[b]] else [])
  }

  /** With well-filed descriptors every write handed to a descriptor set is a uniform buffer
      write for one of the layout's bindings. */
  lemma RequiredDescriptorsBindings(sets: map<nat, WriteDescriptor>, bindings: seq<nat>)
    requires WellFiled(sets)
    ensures forall w :: w in RequiredDescriptors(sets, bindings) ==> w.BufferWrite? && w.Binding() in bindings
  {
  }

  class WriteDescriptorSetManager {
    /** `descriptor_set_allocator()` and `memory_allocator()` hand these out. */
    const descAllocator: Allocator
    const memoAllocator: Allocator
    var writeDescriptorSets: map<nat, WriteDescriptor>

    ghost predicate Valid()
      reads this
    {
      WellFiled(writeDescriptorSets)
    }

    constructor (descAllocator: Allocator, memoAllocator: Allocator)
      ensures Valid()
      ensures this.descAllocator == descAllocator && this.memoAllocator == memoAllocator
      ensures writeDescriptorSets == map[]
    {
      this.descAllocator := descAllocator;
      this.memoAllocator := memoAllocator;
      writeDescriptorSets := map[];
    }

    /** `insert`: files a fresh uniform buffer under the origin's binding, replacing what was
        there; on an allocation failure nothing changes. */
    method Insert(origin: Origin, allocOk: bool) returns (r: Result<(), Error>)
      requires Valid()
      modifies this
      ensures Valid()
      ensures r.Ok? <==> allocOk
      ensures r.Err? ==> r.error == FailedToAllocateWriteDescriptorBuffer(origin.Binding())
      ensures writeDescriptorSets == if allocOk
        then old(writeDescriptorSets)[origin.Binding() := BufferWrite(origin.Binding(), origin.Data())]
        else old(writeDescriptorSets)
    {
      var created := CreateDescriptorSet(origin, allocOk);
      if created.Err? {
        return Err(created.error);
      }
      writeDescriptorSets := writeDescriptorSets[origin.Binding() := created.value];
      r := Ok(());
    }

    /** `update`: `Ok(None)` when nothing is filed under the origin's binding; otherwise records
        the buffer update and returns the filed descriptor, or the update's error. */
    method Update(cmds: CommandBuffer, origin: Origin, updated: bool)
      returns (r: Result<Option<WriteDescriptor>, Error>)
      requires Valid()
      modifies cmds
      ensures origin.Binding() !in writeDescriptorSets ==> r == Ok(None) && cmds.log == old(cmds.log)
      ensures origin.Binding() in writeDescriptorSets && updated ==>
        r == Ok(Some(writeDescriptorSets[origin.Binding()]))
        && cmds.log == old(cmds.log) + [UpdateBuffer(origin.Binding(), origin.Data())]
      ensures origin.Binding() in writeDescriptorSets && !updated ==>
        r == Err(FailedToUpdateWriteDescriptorBuffer(origin.Binding())) && cmds.log == old(cmds.log)
    {
      if origin.Binding() !in writeDescriptorSets {
        return Ok(None);
      }
      var desc := writeDescriptorSets[origin.Binding()];
      var u := Uniforms.Update(origin, cmds, desc, updated);
      if u.Err? {
        return Err(u.error);
      }
      r := Ok(Some(desc));
    }

    function GetRequiredDescriptors(layout: SetLayout): (ws: seq<WriteDescriptor>)
      reads this
      ensures forall b :: b in layout.bindings && b in writeDescriptorSets ==> writeDescriptorSets[b] in ws
      ensures forall w :: w in ws ==> exists b :: b in layout.bindings && b in writeDescriptorSets && writeDescriptorSets[b] == w
    {
      RequiredDescriptors(writeDescriptorSets, layout.bindings)
    }

    /** `create_persistent_descriptor_set`: the layout with the required descriptors. */
    function CreatePersistentDescriptorSet(layout: SetLayout, created: bool): (r: Result<DescriptorSet, VulkanError>)
      reads this
      ensures r.Ok? <==> created
      ensures r.Ok? ==> r.value.layout == layout
      ensures r.Ok? ==> forall b :: b in layout.bindings && b in writeDescriptorSets ==>
                          writeDescriptorSets[b] in r.value.writes
      ensures r.Ok? ==> forall w :: w in r.value.writes ==>
                          exists b :: b in layout.bindings && b in writeDescriptorSets && writeDescriptorSets[b] == w
    {
      if created then Ok(DescriptorSet(layout, GetRequiredDescriptors(layout))) else Err(CreationFailed)
    }
  }
}
