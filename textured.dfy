/** `TexturedPipeline`: textured triangle lists from one shared vertex (and index) buffer, each
    item bound to its texture's descriptor set, and items whose texture another pipeline made
    skipped without disturbing the offsets of the items after them. */
module Textured {
  import opened Base
  import opened Gpu
  import opened Packing
  import opened Textures
  import WriteDescriptors

  /** `Vertex2dUv`s and the texture they sample. */
  datatype Textured = Textured(vertices: seq<(Vec2, Vec2)>, texture: TextureInner)

  datatype TexturedIndexed = TexturedIndexed(vertices: seq<(Vec2, Vec2)>, indices: seq<(nat, nat, nat)>, texture: TextureInner)

  function UvVertices(ps: seq<(Vec2, Vec2)>): (vs: seq<Vertex>)
    ensures |vs| == |ps| && forall i :: 0 <= i < |ps| ==> vs[i] == PosUvVertex(ps[i].0, ps[i].1)
  {
    seq(|ps|, i requires 0 <= i < |ps| => PosUvVertex(ps[i].0, ps[i].1))
  }

  function ItemVertices(t: Textured): seq<Vertex> { UvVertices(t.vertices) }

  function IndexedVertices(t: TexturedIndexed): seq<Vertex> { UvVertices(t.vertices) }

  function IndexedIndices(t: TexturedIndexed): seq<nat> { FlattenTriples(t.indices) }

  function VertexBuffer(items: seq<Textured>): seq<Vertex> { ConcatMap(items, ItemVertices) }

  function IndexedVertexBuffer(items: seq<TexturedIndexed>): seq<Vertex> { ConcatMap(items, IndexedVertices) }

  function IndexBuffer(items: seq<TexturedIndexed>): seq<nat> { ConcatMap(items, IndexedIndices) }

  /** What one item of `draw` records, given where its vertices start: its descriptor bind and
      draw when the manager made its texture, nothing otherwise. */
  function ItemCommands(manager: TextureManager, t: Textured, offset: nat): seq<Cmd>
  {
    if manager.IsOriginOf(t.texture) then [BindDescriptorSet(t.texture.descriptor), Draw(|t.vertices|, 1, offset, 0)]
    else []
  }

  function IndexedItemCommands(manager: TextureManager, t: TexturedIndexed, firstIndex: nat, vertexOffset: nat): seq<Cmd>
  {
    if manager.IsOriginOf(t.texture) then
      [BindDescriptorSet(t.texture.descriptor), DrawIndexed(3 * |t.indices|, 1, firstIndex, vertexOffset, 0)]
    else []
  }

  /** The commands of `draw`'s loop: each item's commands at the offset reached after ALL the
      items before it, drawn or not. */
  function ItemDraws(manager: TextureManager, items: seq<Textured>): seq<Cmd>
    decreases |items|
  {
    if items == [] then []
    else
      var init := items[..|items| - 1];
      ItemDraws(manager, init) + ItemCommands(manager, items[|items| - 1], |VertexBuffer(init)|)
  }

  function IndexedDraws(manager: TextureManager, items: seq<TexturedIndexed>): seq<Cmd>
    decreases |items|
  {
    if items == [] then []
    else
      var init := items[..|items| - 1];
      IndexedDraws(manager, init)
        + IndexedItemCommands(manager, items[|items| - 1], |IndexBuffer(init)|, |IndexedVertexBuffer(init)|)
  }

  function DrawLog(manager: TextureManager, items: seq<Textured>): seq<Cmd>
  {
    [BindPipeline(TexturedPipeline), BindVertexBuffers([VertexBuffer(items)])] + ItemDraws(manager, items)
  }

  function IndexedDrawLog(manager: TextureManager, items: seq<TexturedIndexed>): seq<Cmd>
  {
    [BindPipeline(TexturedPipeline), BindIndexBuffer(IndexBuffer(items)), BindVertexBuffers([IndexedVertexBuffer(items)])]
      + IndexedDraws(manager, items)
  }

  /** Item k's commands follow those of the items before it, and a drawn item k draws exactly its
      own slice of the shared vertex buffer. */
  lemma ItemDrawsStep(manager: TextureManager, items: seq<Textured>, k: nat)
    requires k < |items|
    ensures ItemDraws(manager, items[..k + 1]) == ItemDraws(manager, items[..k]) + ItemCommands(manager, items[k], Start(items, ItemVertices, k))
    ensures Start(items, ItemVertices, k) + |items[k].vertices| <= |VertexBuffer(items)|
    ensures VertexBuffer(items)[Start(items, ItemVertices, k)..Start(items, ItemVertices, k) + |items[k].vertices|] == ItemVertices(items[k])
  {
    assert items[..k + 1][..k] == items[..k];
    ChunkAt(items, ItemVertices, k);
  }

  /** Recorded commands only grow along the items. */
  lemma {:induction false} ItemDrawsPrefix(manager: TextureManager, items: seq<Textured>, k: nat)
    requires k <= |items|
    ensures ItemDraws(manager, items[..k]) <= ItemDraws(manager, items)
    decreases |items| - k
  {
    if k < |items| {
      assert items[..k + 1][..k] == items[..k];
      assert ItemDraws(manager, items[..k]) <= ItemDraws(manager, items[..k + 1]);
      ItemDrawsPrefix(manager, items, k + 1);
    } else {
      assert items[..k] == items;
    }
  }

  /** How many items have a texture of this manager. */
  function OwnCount(manager: TextureManager, items: seq<Textured>): (n: nat)
    ensures n <= |items|
    decreases |items|
  {
    if items == [] then 0
    else OwnCount(manager, items[..|items| - 1]) + (if manager.IsOriginOf(items[|items| - 1].texture) then 1 else 0)
  }

  /** One draw per item of this pipeline's textures and none for the others. */
  lemma {:induction false} DrawsOwnItems(manager: TextureManager, items: seq<Textured>)
    ensures DrawCount(ItemDraws(manager, items)) == OwnCount(manager, items)
    decreases |items|
  {
    if items != [] {
      var init, last := items[..|items| - 1], items[|items| - 1];
      DrawsOwnItems(manager, init);
      var cs := ItemCommands(manager, last, |VertexBuffer(init)|);
      DrawCountAppend(ItemDraws(manager, init), cs);
      if cs != [] {
        assert cs[..1] == [cs[0]] && [cs[0]][..0] == [];
      }
    }
  }

  lemma IndexedDrawsSnoc(manager: TextureManager, items: seq<TexturedIndexed>, k: nat)
    requires k < |items|
    ensures IndexedDraws(manager, items[..k + 1]) == IndexedDraws(manager, items[..k])
      + IndexedItemCommands(manager, items[k], |IndexBuffer(items[..k])|, |IndexedVertexBuffer(items[..k])|)
    ensures |IndexBuffer(items[..k + 1])| == |IndexBuffer(items[..k])| + 3 * |items[k].indices|
    ensures |IndexedVertexBuffer(items[..k + 1])| == |IndexedVertexBuffer(items[..k])| + |items[k].vertices|
  {
    assert items[..k + 1][..k] == items[..k];
  }

  lemma IndexedDrawsStep(manager: TextureManager, items: seq<TexturedIndexed>, k: nat)
    requires k < |items|
    ensures IndexedDraws(manager, items[..k + 1]) == IndexedDraws(manager, items[..k])
      + IndexedItemCommands(manager, items[k], Start(items, IndexedIndices, k), Start(items, IndexedVertices, k))
    ensures Start(items, IndexedIndices, k) + 3 * |items[k].indices| <= |IndexBuffer(items)|
    ensures IndexBuffer(items)[Start(items, IndexedIndices, k)..Start(items, IndexedIndices, k) + 3 * |items[k].indices|]
      == IndexedIndices(items[k])
    ensures Start(items, IndexedVertices, k) + |items[k].vertices| <= |IndexedVertexBuffer(items)|
    ensures IndexedVertexBuffer(items)[Start(items, IndexedVertices, k)..Start(items, IndexedVertices, k) + |items[k].vertices|]
      == IndexedVertices(items[k])
  {
    assert items[..k + 1][..k] == items[..k];
    ChunkAt(items, IndexedIndices, k);
    ChunkAt(items, IndexedVertices, k);
  }

  class TexturedPipeline {
    const writeDescriptors: WriteDescriptors.WriteDescriptorSetManager
    const textureManager: TextureManager
    /** The pipeline's first descriptor set layout. */
    const layout: SetLayout

    constructor (writeDescriptors: WriteDescriptors.WriteDescriptorSetManager, textureManager: TextureManager, layout: SetLayout)
      ensures this.writeDescriptors == writeDescriptors && this.textureManager == textureManager && this.layout == layout
    {
      this.writeDescriptors := writeDescriptors;
      this.textureManager := textureManager;
      this.layout := layout;
    }

    /** `draw`: a failed vertex buffer allocation returns before anything is recorded. */
    method Draw(builder: CommandBuffer, items: seq<Textured>, bufferOk: bool) returns (r: Result<(), DrawError>)
      modifies builder
      ensures r.Ok? <==> bufferOk
      ensures r.Ok? ==> builder.log == old(builder.log) + DrawLog(textureManager, items)
      ensures r.Err? ==> r.error == BufferAllocateError && builder.log == old(builder.log)
    {
      if !bufferOk {
        return Err(BufferAllocateError);
      }
      builder.Record(BindPipeline(TexturedPipeline));
      builder.Record(BindVertexBuffers([VertexBuffer(items)]));
      RecordItems(builder, items);
      r := Ok(());
    }

    /** The loop of `draw`: the offset advances past every item, drawn or skipped. */
    method RecordItems(builder: CommandBuffer, items: seq<Textured>)
      modifies builder
      ensures builder.log == old(builder.log) + ItemDraws(textureManager, items)
    {
      var offset := 0;
      var i := 0;
      while i < |items|
        invariant 0 <= i <= |items|
        invariant offset == |VertexBuffer(items[..i])|
        invariant builder.log == old(builder.log) + ItemDraws(textureManager, items[..i])
      {
        var t := items[i];
        assert items[..i + 1][..i] == items[..i];
        RecordItem(builder, t, offset);
        offset := offset + |t.vertices|;
        i := i + 1;
      }
      assert items[..i] == items;
    }

    /** `draw_indexed`: the vertex buffer is allocated before the index buffer; either failing
        returns before anything is recorded. */
    method DrawIndexed(builder: CommandBuffer, items: seq<TexturedIndexed>, vertexBufferOk: bool, indexBufferOk: bool)
      returns (r: Result<(), DrawError>)
      modifies builder
      ensures r.Ok? <==> vertexBufferOk && indexBufferOk
      ensures r.Ok? ==> builder.log == old(builder.log) + IndexedDrawLog(textureManager, items)
      ensures r.Err? ==> r.error == BufferAllocateError && builder.log == old(builder.log)
    {
      if !vertexBufferOk || !indexBufferOk {
        return Err(BufferAllocateError);
      }
      builder.Record(BindPipeline(TexturedPipeline));
      builder.Record(BindIndexBuffer(IndexBuffer(items)));
      builder.Record(BindVertexBuffers([IndexedVertexBuffer(items)]));
      RecordIndexedItems(builder, items);
      r := Ok(());
    }

    /** The loop of `draw_indexed`: both offsets advance past every item, drawn or skipped. */
    method RecordIndexedItems(builder: CommandBuffer, items: seq<TexturedIndexed>)
      modifies builder
      ensures builder.log == old(builder.log) + IndexedDraws(textureManager, items)
    {
      var offsetVertices, offsetIndices := 0, 0;
      var i := 0;
      while i < |items|
        invariant 0 <= i <= |items|
        invariant offsetVertices == |IndexedVertexBuffer(items[..i])|
        invariant offsetIndices == |IndexBuffer(items[..i])|
        invariant builder.log == old(builder.log) + IndexedDraws(textureManager, items[..i])
      {
        var t := items[i];
        var indexCount := 3 * |t.indices|;
        IndexedDrawsSnoc(textureManager, items, i);
        RecordIndexedItem(builder, t, offsetIndices, offsetVertices);
        offsetVertices := offsetVertices + |t.vertices|;
        offsetIndices := offsetIndices + indexCount;
        i := i + 1;
      }
      assert items[..i] == items;
    }

    /** One item of `draw`: bound and drawn only when its texture is of this manager. */
    method RecordItem(builder: CommandBuffer, t: Textured, offset: nat)
      modifies builder
      ensures builder.log == old(builder.log) + ItemCommands(textureManager, t, offset)
    {
      if textureManager.IsOriginOf(t.texture) {
        builder.Record(BindDescriptorSet(t.texture.descriptor));
        builder.Record(Cmd.Draw(|t.vertices|, 1, offset, 0));
      }
    }

    /** One item of `draw_indexed`: bound and drawn only when its texture is of this manager. */
    method RecordIndexedItem(builder: CommandBuffer, t: TexturedIndexed, firstIndex: nat, vertexOffset: nat)
      modifies builder
      ensures builder.log == old(builder.log) + IndexedItemCommands(textureManager, t, firstIndex, vertexOffset)
    {
      if textureManager.IsOriginOf(t.texture) {
        builder.Record(BindDescriptorSet(t.texture.descriptor));
        builder.Record(Cmd.DrawIndexed(3 * |t.indices|, 1, firstIndex, vertexOffset, 0));
      }
    }

    /** `prepare_texture`: a texture id of this pipeline's manager, whose descriptor set holds
        the image and sampler followed by the shared descriptors the layout requires. Items
        using it are therefore never skipped. */
    method PrepareTexture(image: Image, created: bool) returns (r: Result<TextureInner, VulkanError>)
      ensures r.Ok? <==> created
      ensures r.Ok? ==> fresh(r.value) && textureManager.IsOriginOf(r.value) && r.value.image == image
      ensures r.Ok? ==> r.value.descriptor == textureManager.ImageDescriptor(image, textureManager.sampler,
                                                 writeDescriptors.GetRequiredDescriptors(layout))
    {
      r := textureManager.PrepareTexture(image, writeDescriptors.GetRequiredDescriptors(layout), created);
    }
  }

  /** An item whose texture this pipeline prepared is drawn, at its own offset. */
  lemma PreparedItemDrawn(manager: TextureManager, items: seq<Textured>, k: nat)
    requires k < |items| && manager.IsOriginOf(items[k].texture)
    ensures ItemDraws(manager, items[..k]) + [BindDescriptorSet(items[k].texture.descriptor),
              Draw(|items[k].vertices|, 1, Start(items, ItemVertices, k), 0)] <= ItemDraws(manager, items)
  {
    ItemDrawsStep(manager, items, k);
    ItemDrawsPrefix(manager, items, k + 1);
  }
}
