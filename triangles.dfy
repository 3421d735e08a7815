/** `TrianglesPipeline`: coloured triangle lists drawn from one shared vertex buffer, either
    directly or through one shared index buffer whose indices stay local to their item. */
module Triangles {
  import opened Base
  import opened Gpu
  import opened Packing
  import opened ColorDraws

  datatype Triangles = Triangles(vertices: seq<Vec2>, color: Color)

  datatype TrianglesIndexed = TrianglesIndexed(vertices: seq<Vec2>, indices: seq<(nat, nat, nat)>, color: Color)

  function PosVertices(ps: seq<Vec2>): (vs: seq<Vertex>)
    ensures |vs| == |ps| && forall i :: 0 <= i < |ps| ==> vs[i] == PosVertex(ps[i])
  {
    seq(|ps|, i requires 0 <= i < |ps| => PosVertex(ps[i]))
  }

  function ItemVertices(t: Triangles): seq<Vertex> { PosVertices(t.vertices) }

  function IndexedVertices(t: TrianglesIndexed): seq<Vertex> { PosVertices(t.vertices) }

  function IndexedIndices(t: TrianglesIndexed): seq<nat> { FlattenTriples(t.indices) }

  /** The shared buffers. */
  function VertexBuffer(items: seq<Triangles>): seq<Vertex> { ConcatMap(items, ItemVertices) }

  function IndexedVertexBuffer(items: seq<TrianglesIndexed>): seq<Vertex> { ConcatMap(items, IndexedVertices) }

  function IndexBuffer(items: seq<TrianglesIndexed>): seq<nat> { ConcatMap(items, IndexedIndices) }

  function ItemColor(t: Triangles): Color { t.color }

  function DrawLog(descriptorSet: DescriptorSet, items: seq<Triangles>): seq<Cmd>
  {
    [BindPipeline(TrianglesPipeline), BindVertexBuffers([VertexBuffer(items)]),
     BindDescriptorSet(descriptorSet)] + PushDraws(items, ItemColor, ItemVertices)
  }

  /** The per-item commands of `draw_indexed`: colour push, then an indexed draw of three indices
      per triangle, from the running index offset, with the running vertex offset as base. */
  function IndexedDraws(items: seq<TrianglesIndexed>): (ds: seq<Cmd>)
    ensures |ds| == 2 * |items|
    decreases |items|
  {
    if items == [] then []
    else
      var init, last := items[..|items| - 1], items[|items| - 1];
      IndexedDraws(init) + [PushConstants(last.color.Components()),
                            DrawIndexed(3 * |last.indices|, 1, |IndexBuffer(init)|,
                                        |IndexedVertexBuffer(init)|, 0)]
  }

  function IndexedDrawLog(descriptorSet: DescriptorSet, items: seq<TrianglesIndexed>): seq<Cmd>
  {
    [BindPipeline(TrianglesPipeline), BindIndexBuffer(IndexBuffer(items)),
     BindVertexBuffers([IndexedVertexBuffer(items)]), BindDescriptorSet(descriptorSet)]
      + IndexedDraws(items)
  }

  /** Indexed item k: colour push, then `3·|indices|` indices from where its indices start in the
      index buffer, based at where its vertices start in the vertex buffer. */
  lemma {:induction false} IndexedDrawsAt(items: seq<TrianglesIndexed>, k: nat)
    requires k < |items|
    ensures IndexedDraws(items)[2 * k] == PushConstants(items[k].color.Components())
    ensures IndexedDraws(items)[2 * k + 1] ==
      DrawIndexed(3 * |items[k].indices|, 1, Start(items, IndexedIndices, k), Start(items, IndexedVertices, k), 0)
    decreases |items|
  {
    var init := items[..|items| - 1];
    if k < |items| - 1 {
      IndexedDrawsAt(init, k);
      StartOfPrefix(items, IndexedIndices, |items| - 1, k);
      StartOfPrefix(items, IndexedVertices, |items| - 1, k);
    } else {
      assert items[..k] == init;
    }
  }

  /** Indexed draw k reads exactly item k's indices, based at exactly item k's vertices. */
  lemma IndexedDrawCovers(items: seq<TrianglesIndexed>, k: nat)
    requires k < |items|
    ensures var d := IndexedDraws(items)[2 * k + 1];
      && d.DrawIndexed? && d.instanceCount == 1
      && d.firstIndex + d.indexCount <= |IndexBuffer(items)|
      && IndexBuffer(items)[d.firstIndex..d.firstIndex + d.indexCount] == IndexedIndices(items[k])
      && d.vertexOffset + |items[k].vertices| <= |IndexedVertexBuffer(items)|
      && IndexedVertexBuffer(items)[d.vertexOffset..d.vertexOffset + |items[k].vertices|] == IndexedVertices(items[k])
  {
    IndexedDrawsAt(items, k);
    var d := IndexedDraws(items)[2 * k + 1];
    assert d == DrawIndexed(|IndexedIndices(items[k])|, 1, Start(items, IndexedIndices, k), Start(items, IndexedVertices, k), 0);
    ChunkAt(items, IndexedIndices, k);
    ChunkAt(items, IndexedVertices, k);
  }

  /** The vertex an indexed draw reads for its j-th index: the index buffer's entry at the
      draw's first index plus j, offset by the draw's vertex offset; nothing when j is past the
      draw's index count or either read falls outside its buffer. */
  function DrawnVertex<V>(ib: seq<nat>, vb: seq<V>, d: Cmd, j: nat): Option<V>
  {
    if d.DrawIndexed? && j < d.indexCount && d.firstIndex + j < |ib| && d.vertexOffset + ib[d.firstIndex + j] < |vb|
    then Some(vb[d.vertexOffset + ib[d.firstIndex + j]])
    else None
  }

  /** A draw reads `local` from the index buffer and finds the vertices made from `ps` at its
      vertex offset of the vertex buffer. */
  ghost predicate DrawsWindows(ib: seq<nat>, vb: seq<Vertex>, d: Cmd, local: seq<nat>, ps: seq<Vec2>)
  {
    && d.DrawIndexed? && d.firstIndex + d.indexCount <= |ib| && ib[d.firstIndex..d.firstIndex + d.indexCount] == local
    && d.vertexOffset + |ps| <= |vb| && vb[d.vertexOffset..d.vertexOffset + |ps|] == PosVertices(ps)
  }

  /** Such a draw reads, for index j, the vertex made from the position the window's own index
      j names. */
  lemma ResolveThrough(ib: seq<nat>, vb: seq<Vertex>, d: Cmd, local: seq<nat>, ps: seq<Vec2>, j: nat)
    requires DrawsWindows(ib, vb, d, local, ps)
    requires j < |local| && local[j] < |ps|
    ensures DrawnVertex(ib, vb, d, j) == Some(PosVertex(ps[local[j]]))
  {
    assert ib[d.firstIndex..d.firstIndex + d.indexCount][j] == ib[d.firstIndex + j];
    assert vb[d.vertexOffset..d.vertexOffset + |ps|][local[j]] == vb[d.vertexOffset + local[j]];
    assert PosVertices(ps)[local[j]] == PosVertex(ps[local[j]]);
  }

  /** Item indices stay local: index j of indexed draw k, read from the shared index buffer and
      offset by the draw's vertex offset, is the vertex of item k that the index names within
      the item. */
  lemma IndexedDrawResolves(items: seq<TrianglesIndexed>, k: nat, j: nat)
    requires k < |items| && j < 3 * |items[k].indices|
    requires IndexedIndices(items[k])[j] < |items[k].vertices|
    ensures DrawnVertex(IndexBuffer(items), IndexedVertexBuffer(items), IndexedDraws(items)[2 * k + 1], j)
         == Some(PosVertex(items[k].vertices[IndexedIndices(items[k])[j]]))
  {
    IndexedDrawCovers(items, k);
    assert DrawsWindows(IndexBuffer(items), IndexedVertexBuffer(items), IndexedDraws(items)[2 * k + 1],
                        IndexedIndices(items[k]), items[k].vertices);
    ResolveThrough(IndexBuffer(items), IndexedVertexBuffer(items), IndexedDraws(items)[2 * k + 1],
                   IndexedIndices(items[k]), items[k].vertices, j);
  }

  /** One more item appends its colour push and draw, and its indices and vertices. */
  lemma IndexedDrawsSnoc(items: seq<TrianglesIndexed>, i: nat)
    requires i < |items|
    ensures IndexedDraws(items[..i + 1]) == IndexedDraws(items[..i])
      + [PushConstants(items[i].color.Components()),
         DrawIndexed(3 * |items[i].indices|, 1, |IndexBuffer(items[..i])|, |IndexedVertexBuffer(items[..i])|, 0)]
    ensures |IndexBuffer(items[..i + 1])| == |IndexBuffer(items[..i])| + 3 * |items[i].indices|
    ensures |IndexedVertexBuffer(items[..i + 1])| == |IndexedVertexBuffer(items[..i])| + |items[i].vertices|
  {
    assert items[..i + 1][..i] == items[..i];
    ConcatMapSnoc(items, IndexedIndices, i);
    ConcatMapSnoc(items, IndexedVertices, i);
  }

  class TrianglesPipeline {
    const descriptorSet: DescriptorSet

    constructor (descriptorSet: DescriptorSet)
      ensures this.descriptorSet == descriptorSet
    {
      this.descriptorSet := descriptorSet;
    }

    /** `draw`: a failed vertex buffer allocation returns before anything is recorded. */
    method Draw(builder: CommandBuffer, items: seq<Triangles>, bufferOk: bool) returns (r: Result<(), DrawError>)
      modifies builder
      ensures r.Ok? <==> bufferOk
      ensures r.Ok? ==> builder.log == old(builder.log) + DrawLog(descriptorSet, items)
      ensures r.Err? ==> r.error == BufferAllocateError && builder.log == old(builder.log)
    {
      if !bufferOk {
        return Err(BufferAllocateError);
      }
      builder.Record(BindPipeline(TrianglesPipeline));
      builder.Record(BindVertexBuffers([VertexBuffer(items)]));
      builder.Record(BindDescriptorSet(descriptorSet));
      RecordItems(builder, items);
      r := Ok(());
    }

    /** The loop of `draw`: one colour push and one draw per item, at its offset. */
    method RecordItems(builder: CommandBuffer, items: seq<Triangles>)
      modifies builder
      ensures builder.log == old(builder.log) + PushDraws(items, ItemColor, ItemVertices)
    {
      var offset := 0;
      var i := 0;
      while i < |items|
        invariant 0 <= i <= |items|
        invariant offset == |VertexBuffer(items[..i])|
        invariant builder.log == old(builder.log) + PushDraws(items[..i], ItemColor, ItemVertices)
      {
        var t := items[i];
        assert items[..i + 1][..i] == items[..i];
        builder.Record(PushConstants(t.color.Components()));
        builder.Record(Cmd.Draw(|t.vertices|, 1, offset, 0));
        offset := offset + |t.vertices|;
        i := i + 1;
      }
      assert items[..i] == items;
    }

    /** `draw_indexed`: the vertex buffer is allocated before the index buffer; either failing
        returns before anything is recorded. */
    method DrawIndexed(builder: CommandBuffer, items: seq<TrianglesIndexed>, vertexBufferOk: bool, indexBufferOk: bool)
      returns (r: Result<(), DrawError>)
      modifies builder
      ensures r.Ok? <==> vertexBufferOk && indexBufferOk
      ensures r.Ok? ==> builder.log == old(builder.log) + IndexedDrawLog(descriptorSet, items)
      ensures r.Err? ==> r.error == BufferAllocateError && builder.log == old(builder.log)
    {
      if !vertexBufferOk || !indexBufferOk {
        return Err(BufferAllocateError);
      }
      builder.Record(BindPipeline(TrianglesPipeline));
      builder.Record(BindIndexBuffer(IndexBuffer(items)));
      builder.Record(BindVertexBuffers([IndexedVertexBuffer(items)]));
      builder.Record(BindDescriptorSet(descriptorSet));
      RecordIndexedItems(builder, items);
      r := Ok(());
    }

    /** The loop of `draw_indexed`: one colour push and one indexed draw per item, at its offsets. */
    method RecordIndexedItems(builder: CommandBuffer, items: seq<TrianglesIndexed>)
      modifies builder
      ensures builder.log == old(builder.log) + IndexedDraws(items)
    {
      var offsetVertices, offsetIndices := 0, 0;
      var i := 0;
      while i < |items|
        invariant 0 <= i <= |items|
        invariant offsetVertices == |IndexedVertexBuffer(items[..i])|
        invariant offsetIndices == |IndexBuffer(items[..i])|
        invariant builder.log == old(builder.log) + IndexedDraws(items[..i])
      {
        var t := items[i];
        IndexedDrawsSnoc(items, i);
        var indexCount := 3 * |t.indices|;
        builder.Record(PushConstants(t.color.Components()));
        builder.Record(Cmd.DrawIndexed(indexCount, 1, offsetIndices, offsetVertices, 0));
        offsetVertices := offsetVertices + |t.vertices|;
        offsetIndices := offsetIndices + indexCount;
        i := i + 1;
      }
      assert items[..i] == items;
    }
  }

  /** Exactly one draw per item, in both modes. */
  lemma {:induction false} OneDrawPerItem(items: seq<Triangles>, indexed: seq<TrianglesIndexed>)
    ensures DrawCount(PushDraws(items, ItemColor, ItemVertices)) == |items|
    ensures DrawCount(IndexedDraws(indexed)) == |indexed|
    decreases |indexed|
  {
    ColorDraws.OneDrawPerItem(items, ItemColor, ItemVertices);
    if indexed != [] {
      var init, last := indexed[..|indexed| - 1], indexed[|indexed| - 1];
      OneDrawPerItem(items, init);
      var pair := [PushConstants(last.color.Components()),
                   DrawIndexed(3 * |last.indices|, 1, |IndexBuffer(init)|, |IndexedVertexBuffer(init)|, 0)];
      DrawCountAppend(IndexedDraws(init), pair);
      assert pair[..1] == [pair[0]] && [pair[0]][..0] == [];
    }
  }
}
