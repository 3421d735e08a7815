/** `World2dEntitiesPipeline`: entities of a 2D world, each one instance of the unit quad with a
    position, a UV rectangle and a size. Entities are drawn in batches that share a texture,
    one instanced draw per prepared instance buffer. */
module Entities {
  import opened Base
  import opened Gpu
  import opened Packing
  import opened Quads
  import opened Textures
  import WriteDescriptors

  /** `EntityInstanceData`: one entity's instance record. */
  datatype EntityInstanceData = EntityInstanceData(entityPos: Vec2, uv0: Vec2, uv1: Vec2, size: real)

  /** The record as it sits in the instance buffer. */
  function InstanceVertex(d: EntityInstanceData): Vertex
  {
    EntityInstance(d.entityPos, d.uv0, d.uv1, d.size)
  }

  /** The instance buffer of a set of entities: one record per entity, in order. */
  function Instances(tiles: seq<EntityInstanceData>): (vs: seq<Vertex>)
    ensures |vs| == |tiles| && forall i :: 0 <= i < |tiles| ==> vs[i] == InstanceVertex(tiles[i])
  {
    seq(|tiles|, i requires 0 <= i < |tiles| => InstanceVertex(tiles[i]))
  }

  /** The entity an instance record was made from. */
  function EntityOf(v: Vertex): EntityInstanceData
    requires v.EntityInstance?
  {
    EntityInstanceData(v.entityPos, v.uv0, v.uv1, v.size)
  }

  /** The instance buffer keeps every entity unchanged: reading it back gives the entities. */
  lemma InstancesRoundTrip(tiles: seq<EntityInstanceData>)
    ensures forall i :: 0 <= i < |Instances(tiles)| ==> Instances(tiles)[i].EntityInstance?
    ensures seq(|tiles|, i requires 0 <= i < |tiles| => EntityOf(Instances(tiles)[i])) == tiles
  {
  }

  /** `EntityPreparedDraw`: an uploaded instance buffer and the texture it is drawn with. */
  datatype EntityPreparedDraw = EntityPreparedDraw(vertexBuffer: seq<Vertex>, textureId: TextureInner)

  /** The two commands that draw one instance buffer: bind it beside the quad, and draw the
      six quad indices once per record. */
  function BufferCmds(b: seq<Vertex>): seq<Cmd>
  {
    [BindVertexBuffers([QuadVertices(), b]), DrawIndexed(6, |b|, 0, 0, 0)]
  }

  /** The commands `draw_with` records for an accepted texture: the pipeline, the texture's
      descriptor set and the quad indices, then each instance buffer in order. */
  function DrawWithLog(texture: TextureInner, buffers: seq<seq<Vertex>>): seq<Cmd>
  {
    [BindPipeline(EntitiesPipeline), BindDescriptorSet(texture.descriptor), BindIndexBuffer(QUAD_INDICES)]
      + ConcatMap(buffers, BufferCmds)
  }

  lemma {:induction false} BufferCmdsLength(buffers: seq<seq<Vertex>>)
    ensures |ConcatMap(buffers, BufferCmds)| == 2 * |buffers|
    ensures DrawCount(ConcatMap(buffers, BufferCmds)) == |buffers|
    decreases |buffers|
  {
    if buffers != [] {
      var init := buffers[..|buffers| - 1];
      BufferCmdsLength(init);
      var b := buffers[|buffers| - 1];
      DrawCountAppend(ConcatMap(init, BufferCmds), BufferCmds(b));
      assert DrawCount(BufferCmds(b)) == 1 by {
        assert BufferCmds(b)[..1] == [BindVertexBuffers([QuadVertices(), b])];
        assert BufferCmds(b)[..1][..0] == [];
      }
    }
  }

  /** The header of three binds, then two commands per buffer, one of them a draw. */
  lemma DrawWithLogShape(texture: TextureInner, buffers: seq<seq<Vertex>>)
    ensures var log := DrawWithLog(texture, buffers);
      && DrawCount(log) == |buffers| && |log| == 3 + 2 * |buffers|
      && log[0] == BindPipeline(EntitiesPipeline) && log[1] == BindDescriptorSet(texture.descriptor)
      && log[2] == BindIndexBuffer(QUAD_INDICES)
  {
    var header := [BindPipeline(EntitiesPipeline), BindDescriptorSet(texture.descriptor), BindIndexBuffer(QUAD_INDICES)];
    BufferCmdsLength(buffers);
    DrawCountAppend(header, ConcatMap(buffers, BufferCmds));
  }

  /** Buffer k is bound beside the quad at command 3 + 2k and drawn at 4 + 2k, one instance
      per record. */
  lemma DrawWithLogBufferAt(texture: TextureInner, buffers: seq<seq<Vertex>>, k: nat)
    requires k < |buffers|
    ensures var log := DrawWithLog(texture, buffers);
      && 4 + 2 * k < |log|
      && log[3 + 2 * k] == BindVertexBuffers([QuadVertices(), buffers[k]])
      && log[4 + 2 * k] == DrawIndexed(6, |buffers[k]|, 0, 0, 0)
  {
    var body := ConcatMap(buffers, BufferCmds);
    BufferCmdsLength(buffers[..k]);
    ChunkAt(buffers, BufferCmds, k);
    var chunk := body[2 * k..2 * k + 2];
    assert chunk == BufferCmds(buffers[k]);
    assert body[2 * k] == chunk[0] && body[2 * k + 1] == chunk[1];
  }

  /** One draw per instance buffer, after the pipeline, the texture's descriptor set and the
      quad indices are bound; buffer k is drawn at command 4 + 2k, one instance per record. */
  lemma DrawWithLogDrawsEveryBuffer(texture: TextureInner, buffers: seq<seq<Vertex>>, k: nat)
    requires k < |buffers|
    ensures var log := DrawWithLog(texture, buffers);
      && DrawCount(log) == |buffers| && |log| == 3 + 2 * |buffers|
      && log[1] == BindDescriptorSet(texture.descriptor)
      && log[3 + 2 * k] == BindVertexBuffers([QuadVertices(), buffers[k]])
      && log[4 + 2 * k] == DrawIndexed(6, |buffers[k]|, 0, 0, 0)
  {
    DrawWithLogShape(texture, buffers);
    DrawWithLogBufferAt(texture, buffers, k);
  }

  // ----- batching the prepared draws -----

  /** Where the batch starting at draw `i` ends: at the first later draw with another
      texture, or at the end. */
  function BatchEnd(q: seq<EntityPreparedDraw>, i: nat): (j: nat)
    requires i < |q|
    ensures i < j <= |q|
    ensures forall k :: i <= k < j ==> q[k].textureId == q[i].textureId
    ensures j < |q| ==> q[j].textureId != q[i].textureId
    decreases |q| - i
  {
    if i + 1 < |q| && q[i + 1].textureId == q[i].textureId then BatchEnd(q, i + 1) else i + 1
  }

  /** Where the loop as written goes on after the batch at `i`: one draw past the batch's
      end, because `take_while` consumed the draw that ended the batch and dropped it. */
  function TakeWhileNext(q: seq<EntityPreparedDraw>, i: nat): (k: nat)
    requires i < |q|
    ensures i < k <= |q|
  {
    var j := BatchEnd(q, i);
    if j < |q| then j + 1 else j
  }

  /** The instance buffers of a batch, in order. */
  function Buffers(g: seq<EntityPreparedDraw>): (bs: seq<seq<Vertex>>)
    ensures |bs| == |g| && forall i :: 0 <= i < |g| ==> bs[i] == g[i].vertexBuffer
  {
    seq(|g|, i requires 0 <= i < |g| => g[i].vertexBuffer)
  }

  /** A batch: at least one prepared draw, all with the texture of the first. */
  predicate Uniform(g: seq<EntityPreparedDraw>)
  {
    |g| > 0 && forall i :: 0 <= i < |g| ==> g[i].textureId == g[0].textureId
  }

  /** The prepared draws of the batches, in order. */
  function Flatten(gs: seq<seq<EntityPreparedDraw>>): seq<EntityPreparedDraw>
    decreases |gs|
  {
    if gs == [] then [] else gs[0] + Flatten(gs[1..])
  }

  /** The batches the loop of `draw_prepared` as written forms from draw `i` on. */
  function TakeWhileBatches(q: seq<EntityPreparedDraw>, i: nat): (gs: seq<seq<EntityPreparedDraw>>)
    requires i <= |q|
    ensures forall k :: 0 <= k < |gs| ==> Uniform(gs[k])
    ensures i < |q| ==> |gs| > 0 && |gs[0]| > 0 && gs[0][0] == q[i]
    decreases |q| - i
  {
    if i == |q| then [] else [q[i..BatchEnd(q, i)]] + TakeWhileBatches(q, TakeWhileNext(q, i))
  }

  /** The batches the comment above the loop asks for: maximal runs of consecutive draws that
      share a texture, from draw `i` on. */
  function Runs(q: seq<EntityPreparedDraw>, i: nat): (gs: seq<seq<EntityPreparedDraw>>)
    requires i <= |q|
    ensures forall k :: 0 <= k < |gs| ==> Uniform(gs[k])
    ensures i < |q| ==> |gs| > 0 && |gs[0]| > 0 && gs[0][0] == q[i]
    decreases |q| - i
  {
    if i == |q| then [] else [q[i..BatchEnd(q, i)]] + Runs(q, BatchEnd(q, i))
  }

  /** The runs hold every prepared draw exactly once and in order, and neighbouring runs
      differ in texture, so no run could be longer. */
  lemma {:induction false} RunsPartition(q: seq<EntityPreparedDraw>, i: nat)
    requires i <= |q|
    ensures Flatten(Runs(q, i)) == q[i..]
    ensures forall k :: 0 <= k < |Runs(q, i)| - 1 ==> Runs(q, i)[k][0].textureId != Runs(q, i)[k + 1][0].textureId
    decreases |q| - i
  {
    if i < |q| {
      var j := BatchEnd(q, i);
      var rest := Runs(q, j);
      RunsPartition(q, j);
      assert Runs(q, i) == [q[i..j]] + rest;
      assert ([q[i..j]] + rest)[1..] == rest;
      assert q[i..j] + q[j..] == q[i..];
      forall k | 0 <= k < |Runs(q, i)| - 1
        ensures Runs(q, i)[k][0].textureId != Runs(q, i)[k + 1][0].textureId
      {
        if k > 0 {
          assert Runs(q, i)[k] == rest[k - 1] && Runs(q, i)[k + 1] == rest[k];
        }
      }
    }
  }

  /** As written, the batches lose at least one draw whenever two textures occur, and keep
      every draw exactly when all draws share one texture. */
  lemma {:induction false} TakeWhileDrawsAllIff(q: seq<EntityPreparedDraw>, i: nat)
    requires i <= |q|
    ensures |Flatten(TakeWhileBatches(q, i))| <= |q| - i
    ensures |Flatten(TakeWhileBatches(q, i))| == |q| - i <==> forall k :: i <= k < |q| ==> q[k].textureId == q[i].textureId
    decreases |q| - i
  {
    if i < |q| {
      var j, next := BatchEnd(q, i), TakeWhileNext(q, i);
      TakeWhileDrawsAllIff(q, next);
      var gs := TakeWhileBatches(q, i);
      assert gs == [q[i..j]] + TakeWhileBatches(q, next);
      assert ([q[i..j]] + TakeWhileBatches(q, next))[1..] == TakeWhileBatches(q, next);
      assert |Flatten(gs)| == j - i + |Flatten(TakeWhileBatches(q, next))|;
    }
  }

  /** A concrete instance: two draws with different textures. The loop as written draws only
      the first; the runs hold both. */
  lemma TakeWhileSkipsSecondTexture(a: EntityPreparedDraw, b: EntityPreparedDraw)
    requires a.textureId != b.textureId
    ensures TakeWhileBatches([a, b], 0) == [[a]]
    ensures Runs([a, b], 0) == [[a], [b]]
  {
    var q := [a, b];
    assert BatchEnd(q, 0) == 1 && TakeWhileNext(q, 0) == 2 && BatchEnd(q, 1) == 2;
    assert q[0..1] == [a] && q[1..2] == [b];
    assert TakeWhileBatches(q, 0) == [[a]] + TakeWhileBatches(q, 2);
    assert Runs(q, 1) == [[b]] + Runs(q, 2);
  }

  /** A batch whose texture the pipeline's manager did not create: drawing it panics. */
  predicate Foreign(m: TextureManager, g: seq<EntityPreparedDraw>)
  {
    |g| > 0 && !m.IsOriginOf(g[0].textureId)
  }

  /** The position of the first foreign batch, or the number of batches if there is none. */
  function FirstForeign(m: TextureManager, gs: seq<seq<EntityPreparedDraw>>): (k: nat)
    ensures k <= |gs|
    ensures forall i :: 0 <= i < k ==> !Foreign(m, gs[i])
    ensures k < |gs| ==> Foreign(m, gs[k])
    decreases |gs|
  {
    if gs == [] || Foreign(m, gs[0]) then 0 else 1 + FirstForeign(m, gs[1..])
  }

  /** What drawing a batch records. */
  function BatchLog(g: seq<EntityPreparedDraw>): seq<Cmd>
  {
    if g == [] then [] else DrawWithLog(g[0].textureId, Buffers(g))
  }

  /** What `draw_prepared` as written records from draw `i` on: each batch in turn through
      `draw_with`, stopping at the first texture of another pipeline. */
  function TakeWhileLog(m: TextureManager, q: seq<EntityPreparedDraw>, i: nat): seq<Cmd>
    requires i <= |q|
    decreases |q| - i
  {
    if i == |q| || !m.IsOriginOf(q[i].textureId) then []
    else BatchLog(q[i..BatchEnd(q, i)]) + TakeWhileLog(m, q, TakeWhileNext(q, i))
  }

  /** Whether `draw_prepared` as written reaches `todo!()` from draw `i` on. */
  predicate TakeWhilePanics(m: TextureManager, q: seq<EntityPreparedDraw>, i: nat)
    requires i <= |q|
    decreases |q| - i
  {
    i < |q| && (!m.IsOriginOf(q[i].textureId) || TakeWhilePanics(m, q, TakeWhileNext(q, i)))
  }

  /** What the corrected loop records from draw `i` on: each maximal run in turn, stopping at
      the first texture of another pipeline. */
  function RunsLog(m: TextureManager, q: seq<EntityPreparedDraw>, i: nat): seq<Cmd>
    requires i <= |q|
    decreases |q| - i
  {
    if i == |q| || !m.IsOriginOf(q[i].textureId) then []
    else BatchLog(q[i..BatchEnd(q, i)]) + RunsLog(m, q, BatchEnd(q, i))
  }

  /** Whether the corrected loop reaches `todo!()` from draw `i` on. */
  predicate RunsPanics(m: TextureManager, q: seq<EntityPreparedDraw>, i: nat)
    requires i <= |q|
    decreases |q| - i
  {
    i < |q| && (!m.IsOriginOf(q[i].textureId) || RunsPanics(m, q, BatchEnd(q, i)))
  }

  class World2dEntitiesPipeline {
    const writeDescriptors: WriteDescriptors.WriteDescriptorSetManager
    const textureManager: TextureManager
    /** The pipeline's first descriptor set layout. */
    const layout: SetLayout
    const quadIndexBuffer: seq<nat>
    const quadVertexBuffer: seq<Vertex>

    constructor (writeDescriptors: WriteDescriptors.WriteDescriptorSetManager, textureManager: TextureManager, layout: SetLayout)
      ensures this.writeDescriptors == writeDescriptors && this.textureManager == textureManager && this.layout == layout
      ensures quadIndexBuffer == QUAD_INDICES && quadVertexBuffer == QuadVertices()
    {
      this.writeDescriptors := writeDescriptors;
      this.textureManager := textureManager;
      this.layout := layout;
      quadIndexBuffer := QUAD_INDICES;
      quadVertexBuffer := QuadVertices();
    }

    /** `new`: the quad buffers, and a pixel-perfect texture manager of its own that puts the
        image sampler at binding 0 of the first set layout; `samplerCreated` says whether
        vulkano built the sampler. */
    static method New(writeDescriptors: WriteDescriptors.WriteDescriptorSetManager, device: Device, layout: SetLayout,
                      samplerCreated: bool)
      returns (r: Result<World2dEntitiesPipeline, VulkanError>)
      ensures r.Ok? <==> samplerCreated
      ensures r.Ok? ==> fresh(r.value) && fresh(r.value.textureManager) && fresh(r.value.textureManager.originMarker)
                        && r.value.textureManager.sampler == SamplerFor(PixelPerfect)
                        && r.value.textureManager.binding == 0 && r.value.textureManager.descLayout == layout
                        && r.value.quadIndexBuffer == QUAD_INDICES && r.value.quadVertexBuffer == QuadVertices()
    {
      var manager := Basic(device, layout, PixelPerfect, 0, samplerCreated);
      if manager.Err? {
        return Err(manager.error);
      }
      var p := new World2dEntitiesPipeline(writeDescriptors, manager.value, layout);
      r := Ok(p);
    }

    /** `prepare_draw`: a texture of another pipeline reaches `todo!()`; otherwise the entities
        are uploaded into an instance buffer of their own, unless the allocation fails. */
    function PrepareDraw(texture: TextureInner, tiles: seq<EntityInstanceData>, bufferOk: bool)
      : (r: Outcome<Result<EntityPreparedDraw, DrawError>>)
      ensures r.Panicked? <==> !textureManager.IsOriginOf(texture)
      ensures r.Returned? ==> (r.value.Ok? <==> bufferOk)
      ensures r.Returned? && r.value.Err? ==> r.value.error == BufferAllocateError
      ensures r.Returned? && r.value.Ok? ==>
        r.value.value.textureId == texture && |r.value.value.vertexBuffer| == |tiles|
        && forall i :: 0 <= i < |tiles| ==> r.value.value.vertexBuffer[i] == InstanceVertex(tiles[i])
    {
      if !textureManager.IsOriginOf(texture) then Panicked
      else if !bufferOk then Returned(Err(BufferAllocateError))
      else Returned(Ok(EntityPreparedDraw(Instances(tiles), texture)))
    }

    /** `draw_with`: a texture of another pipeline reaches `todo!()` before anything is
        recorded; otherwise one instanced draw per instance buffer. */
    method DrawWith(builder: CommandBuffer, texture: TextureInner, buffers: seq<seq<Vertex>>)
      returns (r: Outcome<Result<(), DrawError>>)
      modifies builder
      ensures r.Panicked? <==> !textureManager.IsOriginOf(texture)
      ensures r.Returned? ==> r.value == Ok(()) && builder.log == old(builder.log) + DrawWithLog(texture, buffers)
      ensures r.Panicked? ==> builder.log == old(builder.log)
    {
      if !textureManager.IsOriginOf(texture) {
        return Panicked;
      }
      builder.Record(BindPipeline(EntitiesPipeline));
      builder.Record(BindDescriptorSet(texture.descriptor));
      builder.Record(BindIndexBuffer(QUAD_INDICES));
      RecordBuffers(builder, buffers);
      r := Returned(Ok(()));
    }

    /** The loop of `draw_with`. */
    method RecordBuffers(builder: CommandBuffer, buffers: seq<seq<Vertex>>)
      modifies builder
      ensures builder.log == old(builder.log) + ConcatMap(buffers, BufferCmds)
    {
      var i := 0;
      while i < |buffers|
        invariant 0 <= i <= |buffers|
        invariant builder.log == old(builder.log) + ConcatMap(buffers[..i], BufferCmds)
      {
        ConcatMapSnoc(buffers, BufferCmds, i);
        var b := buffers[i];
        builder.Record(BindVertexBuffers([QuadVertices(), b]));
        builder.Record(DrawIndexed(6, |b|, 0, 0, 0));
        i := i + 1;
      }
      assert buffers[..i] == buffers;
    }

    /** `draw`: the instance buffer is allocated before the texture is looked at, so a failed
        allocation is an error even for a foreign texture; then as `draw_with` with that one
        buffer. */
    method Draw(builder: CommandBuffer, texture: TextureInner, tiles: seq<EntityInstanceData>, bufferOk: bool)
      returns (r: Outcome<Result<(), DrawError>>)
      modifies builder
      ensures !bufferOk ==> r == Returned(Err(BufferAllocateError)) && builder.log == old(builder.log)
      ensures bufferOk ==> (r.Panicked? <==> !textureManager.IsOriginOf(texture))
      ensures bufferOk && r.Returned? ==> r.value == Ok(()) && builder.log == old(builder.log) + DrawWithLog(texture, [Instances(tiles)])
      ensures r.Panicked? ==> builder.log == old(builder.log)
    {
      if !bufferOk {
        return Returned(Err(BufferAllocateError));
      }
      r := DrawWith(builder, texture, [Instances(tiles)]);
    }

    /** The inner scan of `draw_prepared`: the batch of draws from `i` on that share draw
        `i`'s texture, and their instance buffers. */
    method ScanBatch(prepared: seq<EntityPreparedDraw>, i: nat) returns (j: nat, buffers: seq<seq<Vertex>>)
      requires i < |prepared|
      ensures j == BatchEnd(prepared, i)
      ensures buffers == Buffers(prepared[i..j])
    {
      var texture := prepared[i].textureId;
      j := i;
      buffers := [];
      while j < |prepared| && prepared[j].textureId == texture
        invariant i <= j <= |prepared|
        invariant forall k :: i <= k < j ==> prepared[k].textureId == texture
        invariant buffers == Buffers(prepared[i..j])
      {
        buffers := buffers + [prepared[j].vertexBuffer];
        j := j + 1;
      }
      BatchEndIs(prepared, i, j);
    }

    /** One turn of the loop of `draw_prepared`: draw the batch at `i` with `draw_with`. */
    method DrawBatchAt(builder: CommandBuffer, prepared: seq<EntityPreparedDraw>, i: nat)
      returns (r: Outcome<Result<(), DrawError>>)
      requires i < |prepared|
      modifies builder
      ensures r.Panicked? <==> !textureManager.IsOriginOf(prepared[i].textureId)
      ensures r.Panicked? ==> builder.log == old(builder.log)
      ensures r.Returned? ==> r.value == Ok(())
      ensures r.Returned? ==> builder.log == old(builder.log) + BatchLog(prepared[i..BatchEnd(prepared, i)])
    {
      var j, buffers := ScanBatch(prepared, i);
      r := DrawWith(builder, prepared[i].textureId, buffers);
    }

    /** `draw_prepared` as written: batch after batch, each drawn with `draw_with`, up to the
        first batch with a texture of another pipeline, where `todo!()` is reached. */
    method DrawPrepared(builder: CommandBuffer, prepared: seq<EntityPreparedDraw>)
      returns (r: Outcome<Result<(), DrawError>>)
      modifies builder
      ensures r.Panicked? <==> TakeWhilePanics(textureManager, prepared, 0)
      ensures r.Returned? ==> r.value == Ok(())
      ensures builder.log == old(builder.log) + TakeWhileLog(textureManager, prepared, 0)
    {
      var i := 0;
      ghost var drawn: seq<Cmd> := [];
      while i < |prepared|
        invariant 0 <= i <= |prepared|
        invariant TakeWhilePanics(textureManager, prepared, 0) == TakeWhilePanics(textureManager, prepared, i)
        invariant TakeWhileLog(textureManager, prepared, 0) == drawn + TakeWhileLog(textureManager, prepared, i)
        invariant builder.log == old(builder.log) + drawn
        decreases |prepared| - i
      {
        r := DrawBatchAt(builder, prepared, i);
        if r.Panicked? {
          assert drawn + [] == drawn;
          return;
        }
        ghost var d := BatchLog(prepared[i..BatchEnd(prepared, i)]);
        var next := TakeWhileNext(prepared, i);
        Associative(drawn, d, TakeWhileLog(textureManager, prepared, next));
        Associative(old(builder.log), drawn, d);
        drawn := drawn + d;
        i := next;
      }
      r := Returned(Ok(()));
    }

    /** `draw_prepared` as its comment intends: one `draw_with` per maximal run of one texture,
        up to the first run with a texture of another pipeline. */
    method DrawPreparedRuns(builder: CommandBuffer, prepared: seq<EntityPreparedDraw>)
      returns (r: Outcome<Result<(), DrawError>>)
      modifies builder
      ensures r.Panicked? <==> RunsPanics(textureManager, prepared, 0)
      ensures r.Returned? ==> r.value == Ok(())
      ensures builder.log == old(builder.log) + RunsLog(textureManager, prepared, 0)
    {
      var i := 0;
      ghost var drawn: seq<Cmd> := [];
      while i < |prepared|
        invariant 0 <= i <= |prepared|
        invariant RunsPanics(textureManager, prepared, 0) == RunsPanics(textureManager, prepared, i)
        invariant RunsLog(textureManager, prepared, 0) == drawn + RunsLog(textureManager, prepared, i)
        invariant builder.log == old(builder.log) + drawn
        decreases |prepared| - i
      {
        r := DrawBatchAt(builder, prepared, i);
        if r.Panicked? {
          assert drawn + [] == drawn;
          return;
        }
        ghost var d := BatchLog(prepared[i..BatchEnd(prepared, i)]);
        var next := BatchEnd(prepared, i);
        Associative(drawn, d, RunsLog(textureManager, prepared, next));
        Associative(old(builder.log), drawn, d);
        drawn := drawn + d;
        i := next;
      }
      r := Returned(Ok(()));
    }

    /** `prepare_texture`: a texture id of this pipeline's manager whose descriptor set holds
        the image and sampler, then the shared descriptors the layout requires. */
    method PrepareTexture(image: Image, created: bool) returns (r: Result<TextureInner, VulkanError>)
      ensures r.Ok? <==> created
      ensures r.Ok? ==> fresh(r.value) && textureManager.IsOriginOf(r.value) && r.value.image == image
      ensures r.Ok? ==> r.value.descriptor == textureManager.ImageDescriptor(image, textureManager.sampler,
                                                 writeDescriptors.GetRequiredDescriptors(layout))
    {
      r := textureManager.PrepareTexture(image, writeDescriptors.GetRequiredDescriptors(layout), created);
    }
  }

  /** An end that meets the three conditions of `BatchEnd` is the batch's end. */
  lemma {:induction false} BatchEndIs(q: seq<EntityPreparedDraw>, i: nat, j: nat)
    requires i < j <= |q|
    requires forall k :: i <= k < j ==> q[k].textureId == q[i].textureId
    requires j < |q| ==> q[j].textureId != q[i].textureId
    ensures BatchEnd(q, i) == j
    decreases j - i
  {
    if i + 1 < j {
      BatchEndIs(q, i + 1, j);
    }
  }

  /** The first foreign batch of `[g] + rest`, and what the batches before it record. */
  lemma FirstForeignCons(m: TextureManager, gs: seq<seq<EntityPreparedDraw>>, g: seq<EntityPreparedDraw>,
                         rest: seq<seq<EntityPreparedDraw>>)
    requires gs == [g] + rest && |g| > 0
    ensures Foreign(m, g) ==> FirstForeign(m, gs) == 0
    ensures !Foreign(m, g) ==> FirstForeign(m, gs) == 1 + FirstForeign(m, rest)
    ensures !Foreign(m, g) ==>
      ConcatMap(gs[..FirstForeign(m, gs)], BatchLog) == BatchLog(g) + ConcatMap(rest[..FirstForeign(m, rest)], BatchLog)
  {
    assert gs[0] == g && gs[1..] == rest;
    if !Foreign(m, g) {
      var k := FirstForeign(m, rest);
      assert FirstForeign(m, gs) == k + 1;
      assert gs[..k + 1] == [g] + rest[..k];
      ConcatMapAppend([g], rest[..k], BatchLog);
      assert [g][..0] == [];
      assert ConcatMap([g], BatchLog) == [] + BatchLog(g);
      assert [] + BatchLog(g) == BatchLog(g);
    }
  }

  /** The loop as written draws the batches of `TakeWhileBatches` in order, and panics exactly
      when one of them has a foreign texture, after drawing the ones before it. */
  lemma {:induction false} TakeWhileLogIsBatches(m: TextureManager, q: seq<EntityPreparedDraw>, i: nat)
    requires i <= |q|
    ensures var gs := TakeWhileBatches(q, i); var k := FirstForeign(m, gs);
      && (TakeWhilePanics(m, q, i) <==> k < |gs|)
      && TakeWhileLog(m, q, i) == ConcatMap(gs[..k], BatchLog)
    decreases |q| - i
  {
    if i < |q| {
      var next := TakeWhileNext(q, i);
      var g := q[i..BatchEnd(q, i)];
      assert TakeWhileBatches(q, i) == [g] + TakeWhileBatches(q, next);
      FirstForeignCons(m, TakeWhileBatches(q, i), g, TakeWhileBatches(q, next));
      TakeWhileLogIsBatches(m, q, next);
    }
  }

  /** The corrected loop draws the runs in order, and panics exactly when one of them has a
      foreign texture, after drawing the ones before it. */
  lemma {:induction false} RunsLogIsRuns(m: TextureManager, q: seq<EntityPreparedDraw>, i: nat)
    requires i <= |q|
    ensures var gs := Runs(q, i); var k := FirstForeign(m, gs);
      && (RunsPanics(m, q, i) <==> k < |gs|)
      && RunsLog(m, q, i) == ConcatMap(gs[..k], BatchLog)
    decreases |q| - i
  {
    if i < |q| {
      var next := BatchEnd(q, i);
      var g := q[i..next];
      assert Runs(q, i) == [g] + Runs(q, next);
      FirstForeignCons(m, Runs(q, i), g, Runs(q, next));
      RunsLogIsRuns(m, q, next);
    }
  }

  /** Drawing entities directly records the same commands as preparing them and drawing the
      single prepared draw, in either version of the loop. */
  lemma DrawMatchesPrepared(m: TextureManager, texture: TextureInner, tiles: seq<EntityInstanceData>)
    requires m.IsOriginOf(texture)
    ensures var q := [EntityPreparedDraw(Instances(tiles), texture)];
      && TakeWhileLog(m, q, 0) == DrawWithLog(texture, [Instances(tiles)])
      && RunsLog(m, q, 0) == DrawWithLog(texture, [Instances(tiles)])
      && !TakeWhilePanics(m, q, 0) && !RunsPanics(m, q, 0)
  {
    var q := [EntityPreparedDraw(Instances(tiles), texture)];
    assert BatchEnd(q, 0) == 1 && TakeWhileNext(q, 0) == 1;
    assert q[0..1] == q;
    assert Buffers(q) == [Instances(tiles)];
  }
}
