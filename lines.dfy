/** `LinePipeline::draw`: every line's vertices in one vertex buffer, the pipeline state bound
    once, then per line its colour as push constants and a line-strip draw of its own slice. */
module Lines {
  import opened Base
  import opened Gpu
  import opened Packing
  import opened ColorDraws

  datatype Line = Line(vertices: seq<Vec2>, color: Color)

  /** The `Vertex2d`s of one line. */
  function LineVertices(l: Line): (vs: seq<Vertex>)
    ensures |vs| == |l.vertices|
    ensures forall i :: 0 <= i < |vs| ==> vs[i] == PosVertex(l.vertices[i])
  {
    seq(|l.vertices|, i requires 0 <= i < |l.vertices| => PosVertex(l.vertices[i]))
  }

  /** The shared vertex buffer. */
  function VertexBuffer(lines: seq<Line>): seq<Vertex>
  {
    ConcatMap(lines, LineVertices)
  }

  function LineColor(l: Line): Color { l.color }

  /** Everything `draw` records: the three binds, then each line's push and draw. */
  function DrawLog(descriptorSet: DescriptorSet, lines: seq<Line>): seq<Cmd>
  {
    [BindPipeline(LinesPipeline), BindVertexBuffers([VertexBuffer(lines)]), BindDescriptorSet(descriptorSet)]
      + PushDraws(lines, LineColor, LineVertices)
  }

  class LinePipeline {
    /** The persistent descriptor set holding the shared uniforms. */
    const descriptorSet: DescriptorSet

    constructor (descriptorSet: DescriptorSet)
      ensures this.descriptorSet == descriptorSet
    {
      this.descriptorSet := descriptorSet;
    }

    /** `draw`: a failed vertex buffer allocation returns before anything is recorded. */
    method Draw(builder: CommandBuffer, lines: seq<Line>, bufferOk: bool) returns (r: Result<(), DrawError>)
      modifies builder
      ensures r.Ok? <==> bufferOk
      ensures r.Ok? ==> builder.log == old(builder.log) + DrawLog(descriptorSet, lines)
      ensures r.Err? ==> r.error == BufferAllocateError && builder.log == old(builder.log)
    {
      if !bufferOk {
        return Err(BufferAllocateError);
      }
      var vertexBuffer := VertexBuffer(lines);
      builder.Record(BindPipeline(LinesPipeline));
      builder.Record(BindVertexBuffers([vertexBuffer]));
      builder.Record(BindDescriptorSet(descriptorSet));
      RecordLines(builder, lines);
      r := Ok(());
    }

    /** The loop of `draw`: one colour push and one draw per line, at its offset. */
    method RecordLines(builder: CommandBuffer, lines: seq<Line>)
      modifies builder
      ensures builder.log == old(builder.log) + PushDraws(lines, LineColor, LineVertices)
    {
      var offset := 0;
      var i := 0;
      while i < |lines|
        invariant 0 <= i <= |lines|
        invariant offset == |VertexBuffer(lines[..i])|
        invariant builder.log == old(builder.log) + PushDraws(lines[..i], LineColor, LineVertices)
      {
        var line := lines[i];
        assert lines[..i + 1][..i] == lines[..i];
        builder.Record(PushConstants(line.color.Components()));
        builder.Record(Cmd.Draw(|line.vertices|, 1, offset, 0));
        offset := offset + |line.vertices|;
        i := i + 1;
      }
      assert lines[..i] == lines;
    }
  }
}
