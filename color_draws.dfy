/** The per-item loop shared by `LinePipeline::draw` and `TrianglesPipeline::draw`: every item's
    vertices sit in one vertex buffer, and each item pushes its colour and then draws its own
    vertices from where they start in that buffer. */
module ColorDraws {
  import opened Base
  import opened Gpu
  import opened Packing

  /** The commands of the loop: per item, its colour as push constants, then a draw of its
      vertex count from the running offset. */
  function PushDraws<A>(items: seq<A>, color: A -> Color, vertices: A -> seq<Vertex>): (ds: seq<Cmd>)
    ensures |ds| == 2 * |items|
    decreases |items|
  {
    if items == [] then []
    else
      var init, last := items[..|items| - 1], items[|items| - 1];
      PushDraws(init, color, vertices)
        + [PushConstants(color(last).Components()), Draw(|vertices(last)|, 1, |ConcatMap(init, vertices)|, 0)]
  }

  /** Command pair k pushes item k's colour and draws item k's vertex count, starting where
      item k's vertices start in the buffer. */
  lemma {:induction false} PushDrawsAt<A>(items: seq<A>, color: A -> Color, vertices: A -> seq<Vertex>, k: nat)
    requires k < |items|
    ensures PushDraws(items, color, vertices)[2 * k] == PushConstants(color(items[k]).Components())
    ensures PushDraws(items, color, vertices)[2 * k + 1] == Draw(|vertices(items[k])|, 1, Start(items, vertices, k), 0)
    decreases |items|
  {
    var init := items[..|items| - 1];
    if k < |items| - 1 {
      PushDrawsAt(init, color, vertices, k);
      StartOfPrefix(items, vertices, |items| - 1, k);
      assert init[k] == items[k];
    } else {
      assert items[..k] == init;
    }
  }

  /** The draw of item k is one instance of exactly item k's vertices in the shared buffer. */
  lemma PushDrawCovers<A>(items: seq<A>, color: A -> Color, vertices: A -> seq<Vertex>, k: nat)
    requires k < |items|
    ensures var d := PushDraws(items, color, vertices)[2 * k + 1];
      && d.Draw? && d.instanceCount == 1
      && d.firstVertex + d.vertexCount <= |ConcatMap(items, vertices)|
      && ConcatMap(items, vertices)[d.firstVertex..d.firstVertex + d.vertexCount] == vertices(items[k])
  {
    PushDrawsAt(items, color, vertices, k);
    ChunkAt(items, vertices, k);
  }

  /** One draw per item, and nothing but the pushes and draws. */
  lemma {:induction false} OneDrawPerItem<A>(items: seq<A>, color: A -> Color, vertices: A -> seq<Vertex>)
    ensures DrawCount(PushDraws(items, color, vertices)) == |items|
    decreases |items|
  {
    if items != [] {
      var init, last := items[..|items| - 1], items[|items| - 1];
      OneDrawPerItem(init, color, vertices);
      var pair := [PushConstants(color(last).Components()), Draw(|vertices(last)|, 1, |ConcatMap(init, vertices)|, 0)];
      DrawCountAppend(PushDraws(init, color, vertices), pair);
      assert pair[..1] == [pair[0]] && [pair[0]][..0] == [];
    }
  }
}
