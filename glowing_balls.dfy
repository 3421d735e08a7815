/** `GlowingBallsPipeline`: every ball is one instance of the unit quad, and one instanced draw
    paints them all. */
module GlowingBalls {
  import opened Base
  import opened Gpu
  import opened Quads
  import WriteDescriptors

  datatype GlowingBall = GlowingBall(pos: Vec2, color: Color, radius: real, corona: real, lateAlpha: real)

  /** The instance record of a ball. */
  function Instance(b: GlowingBall): Vertex
  {
    BallInstance(b.pos, b.color, b.radius, b.corona, b.lateAlpha)
  }

  /** The instance buffer: one record per ball, in order. */
  function Instances(balls: seq<GlowingBall>): (vs: seq<Vertex>)
    ensures |vs| == |balls| && forall i :: 0 <= i < |balls| ==> vs[i] == Instance(balls[i])
  {
    seq(|balls|, i requires 0 <= i < |balls| => Instance(balls[i]))
  }

  /** The ball an instance record was made from. */
  function BallOf(v: Vertex): GlowingBall
    requires v.BallInstance?
  {
    GlowingBall(v.pos, v.color, v.radius, v.corona, v.lateAlpha)
  }

  /** The instance buffer keeps every attribute of every ball: reading the balls back from it
      gives exactly the balls drawn. */
  lemma InstancesRoundTrip(balls: seq<GlowingBall>)
    ensures forall i :: 0 <= i < |Instances(balls)| ==> Instances(balls)[i].BallInstance?
    ensures seq(|balls|, i requires 0 <= i < |balls| => BallOf(Instances(balls)[i])) == balls
  {
  }

  /** The commands `draw` records. */
  function DrawLog(descriptorSet: DescriptorSet, balls: seq<GlowingBall>): seq<Cmd>
  {
    InstancedQuadLog(GlowingBallsPipeline, descriptorSet, Instances(balls))
  }

  /** One draw call for all balls: six quad indices, one instance per ball, ball i's record
      being instance i. */
  lemma DrawLogDrawsEveryBall(descriptorSet: DescriptorSet, balls: seq<GlowingBall>)
    ensures var log := DrawLog(descriptorSet, balls);
      && DrawCount(log) == 1 && log[4] == DrawIndexed(6, |balls|, 0, 0, 0)
      && log[3].buffers[0] == QuadVertices()
      && forall i :: 0 <= i < |balls| ==> log[3].buffers[1][i] == Instance(balls[i])
  {
    InstancedQuadLogDraws(GlowingBallsPipeline, descriptorSet, Instances(balls));
  }

  class GlowingBallsPipeline {
    const quadIndexBuffer: seq<nat>
    const quadVertexBuffer: seq<Vertex>
    const descriptorSet: DescriptorSet

    constructor (descriptorSet: DescriptorSet)
      ensures quadIndexBuffer == QUAD_INDICES && quadVertexBuffer == QuadVertices()
      ensures this.descriptorSet == descriptorSet
    {
      quadIndexBuffer := QUAD_INDICES;
      quadVertexBuffer := QuadVertices();
      this.descriptorSet := descriptorSet;
    }

    /** `new`: the quad buffers, and the persistent descriptor set assembled from the write
        descriptors for the pipeline's first layout; `created` says whether vulkano built it. */
    static method New(writeDescriptors: WriteDescriptors.WriteDescriptorSetManager, layout: SetLayout, created: bool)
      returns (r: Result<GlowingBallsPipeline, VulkanError>)
      ensures r.Ok? <==> created
      ensures r.Ok? ==> fresh(r.value) && r.value.quadIndexBuffer == QUAD_INDICES
                        && r.value.quadVertexBuffer == QuadVertices()
                        && r.value.descriptorSet == writeDescriptors.CreatePersistentDescriptorSet(layout, true).value
    {
      var d := writeDescriptors.CreatePersistentDescriptorSet(layout, created);
      if d.Err? {
        return Err(d.error);
      }
      var p := new GlowingBallsPipeline(d.value);
      r := Ok(p);
    }

    /** `draw`: the instance buffer is allocated first, and a failed allocation returns before
        anything is recorded. */
    method Draw(builder: CommandBuffer, balls: seq<GlowingBall>, bufferOk: bool) returns (r: Result<(), DrawError>)
      modifies builder
      ensures r.Ok? <==> bufferOk
      ensures r.Ok? ==> builder.log == old(builder.log) + DrawLog(descriptorSet, balls)
      ensures r.Err? ==> r.error == BufferAllocateError && builder.log == old(builder.log)
    {
      if !bufferOk {
        return Err(BufferAllocateError);
      }
      var instances := Instances(balls);
      builder.Record(BindPipeline(PipelineKind.GlowingBallsPipeline));
      builder.Record(BindDescriptorSet(descriptorSet));
      builder.Record(BindIndexBuffer(QUAD_INDICES));
      builder.Record(BindVertexBuffers([QuadVertices(), instances]));
      builder.Record(DrawIndexed(6, |instances|, 0, 0, 0));
      r := Ok(());
    }
  }
}
