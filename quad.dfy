/** The unit quad the instanced pipelines (glowing balls, terrain, entities) draw once per
    instance, and the command sequence of one instanced quad draw. */
module Quads {
  import opened Base
  import opened Gpu

  /** The corners (±0.5, ±0.5), counter-clockwise from the lower left. */
  function QuadCorners(): (cs: seq<Vec2>)
    ensures |cs| == 4
    ensures forall i :: 0 <= i < 4 ==> (cs[i].x == 0.5 || cs[i].x == -0.5) && (cs[i].y == 0.5 || cs[i].y == -0.5)
    ensures forall i, j :: 0 <= i < j < 4 ==> cs[i] != cs[j]
  {
    [Vec2(-0.5, -0.5), Vec2(0.5, -0.5), Vec2(0.5, 0.5), Vec2(-0.5, 0.5)]
  }

  /** The quad vertex buffer. */
  function QuadVertices(): (vs: seq<Vertex>)
    ensures |vs| == 4 && forall i :: 0 <= i < 4 ==> vs[i] == PosVertex(QuadCorners()[i])
  {
    var cs := QuadCorners();
    [PosVertex(cs[0]), PosVertex(cs[1]), PosVertex(cs[2]), PosVertex(cs[3])]
  }

  /** The quad index buffer: triangles (0, 1, 2) and (2, 3, 0). */
  const QUAD_INDICES: seq<nat> := [0, 1, 2, 2, 3, 0]

  /** Twice the signed area of triangle (a, b, c); positive when counter-clockwise. */
  function Cross(a: Vec2, b: Vec2, c: Vec2): real
  {
    (b.x - a.x) * (c.y - a.y) - (c.x - a.x) * (b.y - a.y)
  }

  /** Every index names a quad corner and every corner is used; both triangles wind the same
      way and each covers half of the unit square, so together they cover all of it; they
      share the diagonal from corner 0 to corner 2. */
  lemma QuadCoversUnitSquare()
    ensures |QUAD_INDICES| == 6
    ensures forall j :: 0 <= j < 6 ==> QUAD_INDICES[j] < |QuadCorners()|
    ensures forall c :: 0 <= c < 4 ==> c in QUAD_INDICES
    ensures var cs, ix := QuadCorners(), QUAD_INDICES;
      && Cross(cs[ix[0]], cs[ix[1]], cs[ix[2]]) == 1.0
      && Cross(cs[ix[3]], cs[ix[4]], cs[ix[5]]) == 1.0
    ensures {QUAD_INDICES[0], QUAD_INDICES[2]} == {QUAD_INDICES[3], QUAD_INDICES[5]}
  {
    var ix := QUAD_INDICES;
    assert ix[0] == 0 && ix[1] == 1 && ix[2] == 2 && ix[4] == 3;
  }

  /** Bind the pipeline, the descriptor set, the quad's index buffer and the quad and instance
      vertex buffers, then draw the six quad indices once per instance. */
  function InstancedQuadLog(pipeline: PipelineKind, descriptor: DescriptorSet, instances: seq<Vertex>): (log: seq<Cmd>)
    ensures |log| == 5
  {
    [BindPipeline(pipeline), BindDescriptorSet(descriptor), BindIndexBuffer(QUAD_INDICES),
     BindVertexBuffers([QuadVertices(), instances]),
     DrawIndexed(|QUAD_INDICES|, |instances|, 0, 0, 0)]
  }

  /** One draw, last, after everything it reads is bound: it reads the whole index buffer,
      every index names a vertex of the bound quad, and it draws exactly one instance per
      element of the bound instance buffer. */
  lemma InstancedQuadLogDraws(pipeline: PipelineKind, descriptor: DescriptorSet, instances: seq<Vertex>)
    ensures var log := InstancedQuadLog(pipeline, descriptor, instances);
      && DrawCount(log) == 1 && IsDraw(log[4])
      && log[0] == BindPipeline(pipeline) && log[1] == BindDescriptorSet(descriptor)
      && log[2].BindIndexBuffer? && log[3].BindVertexBuffers? && |log[3].buffers| == 2
      && log[4].DrawIndexed? && log[4].firstIndex == 0 && log[4].indexCount == |log[2].indices|
      && (forall j :: 0 <= j < |log[2].indices| ==> log[2].indices[j] < |log[3].buffers[0]|)
      && log[3].buffers[0] == QuadVertices()
      && log[4].firstInstance == 0 && log[4].instanceCount == |log[3].buffers[1]|
      && log[3].buffers[1] == instances
  {
    var log := InstancedQuadLog(pipeline, descriptor, instances);
    QuadCoversUnitSquare();
    assert log == log[..4] + [log[4]];
    DrawCountAppend(log[..4], [log[4]]);
    assert DrawCount([log[4]]) == 1 by {
      assert [log[4]][..0] == [];
    }
  }
}
