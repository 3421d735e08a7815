/** `VulkanBeautifulLineSystem::draw`: wide line strips from one shared vertex buffer, each with
    its own line width, its own scissor bounding its vertices, and its own slice of the buffer. */
module BeautifulLines {
  import opened Base
  import opened Gpu
  import opened Packing

  datatype Vertex2d = Vertex2d(pos: Vec2, color: Color)

  datatype BeautifulLine = BeautifulLine(vertices: seq<Vertex2d>, width: real)

  /** A scissor rectangle in framebuffer pixels (u32 components). */
  datatype Scissor = Scissor(origin: (nat, nat), dimensions: (nat, nat))

  /** vulkano's `Scissor::irrelevant()`: the whole framebuffer whatever its size. */
  const IRRELEVANT_SCISSOR: Scissor := Scissor((0, 0), (0x7FFF_FFFF, 0x7FFF_FFFF))

  /** The neutral start for a min/max bounding box over u32 coordinates. */
  const EMPTY_SCISSOR: Scissor := Scissor((U32_MAX, U32_MAX), (0, 0))

  /** `v.pos[0] as u32` and `v.pos[1] as u32`. */
  function PixelX(v: Vertex2d): nat { CastU32(v.pos.x) }
  function PixelY(v: Vertex2d): nat { CastU32(v.pos.y) }

  /** The scissor fields after the inner loop: origin lowered to, and dimensions raised to,
      every vertex's pixel coordinates, before the subtraction. */
  function Bounds(initial: Scissor, vs: seq<Vertex2d>): (b: Scissor)
    ensures b.origin.0 <= initial.origin.0 && b.origin.1 <= initial.origin.1
    ensures b.dimensions.0 >= initial.dimensions.0 && b.dimensions.1 >= initial.dimensions.1
    decreases |vs|
  {
    if vs == [] then initial
    else
      var b := Bounds(initial, vs[..|vs| - 1]);
      var v := vs[|vs| - 1];
      Scissor((Min(b.origin.0, PixelX(v)), Min(b.origin.1, PixelY(v))),
              (Max(b.dimensions.0, PixelX(v)), Max(b.dimensions.1, PixelY(v))))
  }

  predicate ScissorInRange(s: Scissor)
  {
    s.origin.0 <= U32_MAX && s.origin.1 <= U32_MAX && s.dimensions.0 <= U32_MAX && s.dimensions.1 <= U32_MAX
  }

  /** The bounds stay u32 values. */
  lemma {:induction false} BoundsInRange(initial: Scissor, vs: seq<Vertex2d>)
    requires ScissorInRange(initial)
    ensures ScissorInRange(Bounds(initial, vs))
    decreases |vs|
  {
    if vs != [] {
      BoundsInRange(initial, vs[..|vs| - 1]);
    }
  }

  /** Every vertex's pixel lies between the bounds. */
  lemma {:induction false} BoundsContain(initial: Scissor, vs: seq<Vertex2d>, i: nat)
    requires i < |vs|
    ensures Bounds(initial, vs).origin.0 <= PixelX(vs[i]) <= Bounds(initial, vs).dimensions.0
    ensures Bounds(initial, vs).origin.1 <= PixelY(vs[i]) <= Bounds(initial, vs).dimensions.1
    decreases |vs|
  {
    if i < |vs| - 1 {
      BoundsContain(initial, vs[..|vs| - 1], i);
    }
  }

  /** Each bound is the starting value or some vertex's pixel. */
  lemma {:induction false} BoundsAttained(initial: Scissor, vs: seq<Vertex2d>)
    ensures var b := Bounds(initial, vs);
            (b.origin.0 == initial.origin.0 || exists i :: 0 <= i < |vs| && b.origin.0 == PixelX(vs[i]))
            && (b.origin.1 == initial.origin.1 || exists i :: 0 <= i < |vs| && b.origin.1 == PixelY(vs[i]))
            && (b.dimensions.0 == initial.dimensions.0 || exists i :: 0 <= i < |vs| && b.dimensions.0 == PixelX(vs[i]))
            && (b.dimensions.1 == initial.dimensions.1 || exists i :: 0 <= i < |vs| && b.dimensions.1 == PixelY(vs[i]))
    decreases |vs|
  {
    if vs != [] {
      var init := vs[..|vs| - 1];
      BoundsAttained(initial, init);
      assert forall i :: 0 <= i < |init| ==> init[i] == vs[i];
    }
  }

  /** When the u32 subtraction `dimensions -= origin` cannot overflow: the line has a vertex, or
      the starting scissor is itself ordered. */
  predicate ScissorOk(initial: Scissor, vs: seq<Vertex2d>)
  {
    |vs| > 0 || (initial.origin.0 <= initial.dimensions.0 && initial.origin.1 <= initial.dimensions.1)
  }

  /** That is exactly when the bounds are ordered: with at least one vertex, whatever the
      start, the origin is at most that vertex and the dimensions at least it. */
  lemma ScissorOkIffOrdered(initial: Scissor, vs: seq<Vertex2d>)
    ensures ScissorOk(initial, vs) <==>
            Bounds(initial, vs).origin.0 <= Bounds(initial, vs).dimensions.0 && Bounds(initial, vs).origin.1 <= Bounds(initial, vs).dimensions.1
  {
    if |vs| > 0 {
      BoundsContain(initial, vs, 0);
    }
  }

  /** `a - b` on u32 in a release build: wraps around below zero, to `(a - b) mod 2^32`. */
  function SubU32(a: nat, b: nat): (r: nat)
    requires a <= U32_MAX && b <= U32_MAX
    ensures b <= a ==> r == a - b
    ensures a < b ==> r == U32_MAX + 1 - (b - a)
  {
    if b <= a then a - b else a - b + U32_MAX + 1
  }

  /** The scissor a line is drawn with: the bounds, with the dimensions made relative to the
      origin, exactly so when the subtraction does not wrap. */
  function LineScissor(initial: Scissor, vs: seq<Vertex2d>): (s: Scissor)
    requires ScissorInRange(initial)
    ensures s.origin == Bounds(initial, vs).origin
    ensures ScissorOk(initial, vs) ==> s.origin.0 + s.dimensions.0 == Bounds(initial, vs).dimensions.0
    ensures ScissorOk(initial, vs) ==> s.origin.1 + s.dimensions.1 == Bounds(initial, vs).dimensions.1
  {
    ScissorOkIffOrdered(initial, vs);
    BoundsInRange(initial, vs);
    var b := Bounds(initial, vs);
    Scissor(b.origin, (SubU32(b.dimensions.0, b.origin.0), SubU32(b.dimensions.1, b.origin.1)))
  }

  /** Every vertex of the line lies inside its scissor. */
  lemma VerticesInsideScissor(initial: Scissor, vs: seq<Vertex2d>, i: nat)
    requires ScissorInRange(initial) && i < |vs|
    ensures LineScissor(initial, vs).origin.0 <= PixelX(vs[i]) <= LineScissor(initial, vs).origin.0 + LineScissor(initial, vs).dimensions.0
    ensures LineScissor(initial, vs).origin.1 <= PixelY(vs[i]) <= LineScissor(initial, vs).origin.1 + LineScissor(initial, vs).dimensions.1
  {
    BoundsContain(initial, vs, i);
  }

  /** Starting from `Scissor::irrelevant()`, as `draw` does, a line whose pixels lie within the
      first 2^31 of each axis gets the irrelevant scissor back: the bounding box never shrinks. */
  lemma IrrelevantScissorIgnoresLine(vs: seq<Vertex2d>)
    requires forall i :: 0 <= i < |vs| ==> PixelX(vs[i]) <= 0x7FFF_FFFF && PixelY(vs[i]) <= 0x7FFF_FFFF
    ensures LineScissor(IRRELEVANT_SCISSOR, vs) == IRRELEVANT_SCISSOR
  {
    BoundsAttained(IRRELEVANT_SCISSOR, vs);
  }

  /** The line from (10, 10) to (20, 20) is given the whole framebuffer, not the square from
      (10, 10) of side 10. */
  lemma IrrelevantScissorExample()
    ensures var vs := [Vertex2d(Vec2(10.0, 10.0), Color(1.0, 1.0, 1.0, 1.0)), Vertex2d(Vec2(20.0, 20.0), Color(1.0, 1.0, 1.0, 1.0))];
            LineScissor(IRRELEVANT_SCISSOR, vs) == IRRELEVANT_SCISSOR && LineScissor(EMPTY_SCISSOR, vs) == Scissor((10, 10), (10, 10))
  {
    var vs := [Vertex2d(Vec2(10.0, 10.0), Color(1.0, 1.0, 1.0, 1.0)), Vertex2d(Vec2(20.0, 20.0), Color(1.0, 1.0, 1.0, 1.0))];
    assert vs[..1] == [vs[0]] && vs[..1][..0] == [];
    assert PixelX(vs[0]) == 10 && PixelX(vs[1]) == 20;
    assert Bounds(EMPTY_SCISSOR, vs[..1]) == Scissor((10, 10), (10, 10));
    assert Bounds(EMPTY_SCISSOR, vs) == Scissor((10, 10), (20, 20));
    IrrelevantScissorIgnoresLine(vs);
  }

  /** Starting from the empty box instead, a line with a vertex gets exactly the bounding box of
      its pixels: the origin is the smallest pixel coordinate and origin + dimensions the
      largest, each reached by some vertex. */
  lemma EmptyScissorBoundsLine(vs: seq<Vertex2d>)
    requires |vs| > 0
    ensures var s := LineScissor(EMPTY_SCISSOR, vs);
            (forall i :: 0 <= i < |vs| ==> s.origin.0 <= PixelX(vs[i]) <= s.origin.0 + s.dimensions.0)
            && (forall i :: 0 <= i < |vs| ==> s.origin.1 <= PixelY(vs[i]) <= s.origin.1 + s.dimensions.1)
            && (exists i :: 0 <= i < |vs| && s.origin.0 == PixelX(vs[i]))
            && (exists i :: 0 <= i < |vs| && s.origin.1 == PixelY(vs[i]))
            && (exists i :: 0 <= i < |vs| && s.origin.0 + s.dimensions.0 == PixelX(vs[i]))
            && (exists i :: 0 <= i < |vs| && s.origin.1 + s.dimensions.1 == PixelY(vs[i]))
  {
    BoundsAttained(EMPTY_SCISSOR, vs);
    forall i | 0 <= i < |vs|
      ensures LineScissor(EMPTY_SCISSOR, vs).origin.0 <= PixelX(vs[i]) <= LineScissor(EMPTY_SCISSOR, vs).origin.0 + LineScissor(EMPTY_SCISSOR, vs).dimensions.0
      ensures LineScissor(EMPTY_SCISSOR, vs).origin.1 <= PixelY(vs[i]) <= LineScissor(EMPTY_SCISSOR, vs).origin.1 + LineScissor(EMPTY_SCISSOR, vs).dimensions.1
    {
      VerticesInsideScissor(EMPTY_SCISSOR, vs, i);
    }
    var b := Bounds(EMPTY_SCISSOR, vs);
    assert PixelX(vs[0]) <= U32_MAX && PixelY(vs[0]) <= U32_MAX;
    BoundsContain(EMPTY_SCISSOR, vs, 0);
    if b.origin.0 == U32_MAX {
      assert b.origin.0 == PixelX(vs[0]);
    }
    if b.origin.1 == U32_MAX {
      assert b.origin.1 == PixelY(vs[0]);
    }
    if b.dimensions.0 == 0 {
      assert b.dimensions.0 == PixelX(vs[0]);
    }
    if b.dimensions.1 == 0 {
      assert b.dimensions.1 == PixelY(vs[0]);
    }
  }

  /** The buffer elements of one line. */
  function LineVertices(l: BeautifulLine): (vs: seq<Vertex>)
    ensures |vs| == |l.vertices|
    ensures forall i :: 0 <= i < |vs| ==> vs[i] == PosColorVertex(l.vertices[i].pos, l.vertices[i].color)
  {
    seq(|l.vertices|, i requires 0 <= i < |l.vertices| => PosColorVertex(l.vertices[i].pos, l.vertices[i].color))
  }

  function VertexBuffer(lines: seq<BeautifulLine>): seq<Vertex>
  {
    ConcatMap(lines, LineVertices)
  }

  /** What one line records, given its scissor: its width, the scissor, its own vertices, the
      push constants [width, height, line width] and a draw of all of its vertices. */
  function LineCommands(width: real, height: real, scissor: Scissor, l: BeautifulLine): seq<Cmd>
  {
    [SetLineWidth(l.width), SetScissor(scissor.origin, scissor.dimensions), BindVertexBuffers([LineVertices(l)]),
     PushConstants([width, height, l.width]), Draw(|l.vertices|, 1, 0, 0)]
  }

  function LineDraws(width: real, height: real, initial: Scissor, lines: seq<BeautifulLine>): (ds: seq<Cmd>)
    requires ScissorInRange(initial)
    ensures |ds| == 5 * |lines|
    decreases |lines|
  {
    if lines == [] then []
    else LineDraws(width, height, initial, lines[..|lines| - 1]) + LineCommands(width, height, LineScissor(initial, lines[|lines| - 1].vertices), lines[|lines| - 1])
  }

  /** Everything `draw` records once the vertex buffer exists. */
  function DrawLog(width: real, height: real, initial: Scissor, lines: seq<BeautifulLine>): seq<Cmd>
    requires ScissorInRange(initial)
  {
    [BindPipeline(BeautifulLinesPipeline)] + LineDraws(width, height, initial, lines)
  }

  lemma LineDrawsSnoc(width: real, height: real, initial: Scissor, lines: seq<BeautifulLine>, k: nat)
    requires ScissorInRange(initial) && k < |lines|
    ensures LineDraws(width, height, initial, lines[..k + 1])
            == LineDraws(width, height, initial, lines[..k]) + LineCommands(width, height, LineScissor(initial, lines[k].vertices), lines[k])
  {
    assert lines[..k + 1][..k] == lines[..k];
  }

  /** Line k's five commands sit at 5k, in input order. */
  lemma {:induction false} LineDrawsAt(width: real, height: real, initial: Scissor, lines: seq<BeautifulLine>, k: nat)
    requires ScissorInRange(initial) && k < |lines|
    ensures LineDraws(width, height, initial, lines)[5 * k..5 * k + 5] == LineCommands(width, height, LineScissor(initial, lines[k].vertices), lines[k])
    decreases |lines|
  {
    var init := lines[..|lines| - 1];
    var all, before := LineDraws(width, height, initial, lines), LineDraws(width, height, initial, init);
    var last := LineCommands(width, height, LineScissor(initial, lines[|lines| - 1].vertices), lines[|lines| - 1]);
    assert all == before + last;
    if k < |lines| - 1 {
      LineDrawsAt(width, height, initial, init, k);
      assert 5 * k + 5 <= |before|;
      assert all[5 * k..5 * k + 5] == before[5 * k..5 * k + 5];
    } else {
      assert all[5 * k..5 * k + 5] == all[|before|..];
    }
  }

  /** A line's commands hold one draw, the last one. */
  lemma LineCommandsOneDraw(width: real, height: real, scissor: Scissor, l: BeautifulLine)
    ensures DrawCount(LineCommands(width, height, scissor, l)) == 1
  {
    var cs := LineCommands(width, height, scissor, l);
    assert cs == cs[..4] + [cs[4]];
    DrawCountAppend(cs[..4], [cs[4]]);
    assert [cs[4]][..0] == [];
  }

  /** Exactly one draw per line. */
  lemma {:induction false} OneDrawPerLine(width: real, height: real, initial: Scissor, lines: seq<BeautifulLine>)
    requires ScissorInRange(initial)
    ensures DrawCount(LineDraws(width, height, initial, lines)) == |lines|
    decreases |lines|
  {
    if lines != [] {
      var init, last := lines[..|lines| - 1], lines[|lines| - 1];
      OneDrawPerLine(width, height, initial, init);
      DrawCountAppend(LineDraws(width, height, initial, init), LineCommands(width, height, LineScissor(initial, last.vertices), last));
      LineCommandsOneDraw(width, height, LineScissor(initial, last.vertices), last);
    }
  }

  /** Line k's slice of the shared buffer, from the sum of the earlier lines' lengths, holds
      exactly its own vertices. */
  lemma SliceIsLine(lines: seq<BeautifulLine>, k: nat)
    requires k < |lines|
    ensures Start(lines, LineVertices, k) + |lines[k].vertices| <= |VertexBuffer(lines)|
    ensures VertexBuffer(lines)[Start(lines, LineVertices, k)..Start(lines, LineVertices, k) + |lines[k].vertices|] == LineVertices(lines[k])
  {
    ChunkAt(lines, LineVertices, k);
  }

  class BeautifulLineSystem {
    constructor ()
    {
    }

    /** The inner loop over a line's vertices. */
    method ComputeScissor(initial: Scissor, vs: seq<Vertex2d>) returns (s: Scissor)
      requires ScissorInRange(initial)
      ensures s == LineScissor(initial, vs)
    {
      var ox: nat, oy: nat, dx: nat, dy: nat := initial.origin.0, initial.origin.1, initial.dimensions.0, initial.dimensions.1;
      var i := 0;
      while i < |vs|
        invariant 0 <= i <= |vs|
        invariant Bounds(initial, vs[..i]) == Scissor((ox, oy), (dx, dy))
      {
        assert vs[..i + 1][..i] == vs[..i];
        var v := vs[i];
        ox := Min(ox, PixelX(v));
        oy := Min(oy, PixelY(v));
        dx := Max(dx, PixelX(v));
        dy := Max(dy, PixelY(v));
        i := i + 1;
      }
      assert vs[..i] == vs;
      BoundsInRange(initial, vs);
      s := Scissor((ox, oy), (SubU32(dx, ox), SubU32(dy, oy)));
    }

    /** `draw`: the pipeline is bound before the vertex buffer is created, so a failed
        allocation leaves that bind recorded. `initial` is the scissor each line's bounding box
        starts from (`Scissor::irrelevant()` in the source). */
    method Draw(builder: CommandBuffer, width: real, height: real, lines: seq<BeautifulLine>, initial: Scissor, bufferOk: bool)
      returns (r: Result<(), DrawError>)
      requires ScissorInRange(initial)
      modifies builder
      ensures r.Ok? <==> bufferOk
      ensures r.Ok? ==> builder.log == old(builder.log) + DrawLog(width, height, initial, lines)
      ensures r.Err? ==> r.error == BufferAllocateError && builder.log == old(builder.log) + [BindPipeline(BeautifulLinesPipeline)]
    {
      builder.Record(BindPipeline(BeautifulLinesPipeline));
      if !bufferOk {
        return Err(BufferAllocateError);
      }
      RecordLines(builder, width, height, lines, initial);
      r := Ok(());
    }

    /** Line k's commands, binding its slice of the shared vertex buffer. */
    method RecordLine(builder: CommandBuffer, width: real, height: real, initial: Scissor, lines: seq<BeautifulLine>, k: nat,
                      vertexBuffer: seq<Vertex>, offset: nat)
      requires ScissorInRange(initial) && k < |lines|
      requires vertexBuffer == VertexBuffer(lines) && offset == Start(lines, LineVertices, k)
      modifies builder
      ensures builder.log == old(builder.log) + LineCommands(width, height, LineScissor(initial, lines[k].vertices), lines[k])
    {
      var line := lines[k];
      ChunkAt(lines, LineVertices, k);
      var vertices := vertexBuffer[offset..offset + |line.vertices|];
      var scissor := ComputeScissor(initial, line.vertices);
      builder.Record(SetLineWidth(line.width));
      builder.Record(SetScissor(scissor.origin, scissor.dimensions));
      builder.Record(BindVertexBuffers([vertices]));
      builder.Record(PushConstants([width, height, line.width]));
      builder.Record(Cmd.Draw(|line.vertices|, 1, 0, 0));
    }

    /** The loop over the lines: the offset advances by each line's length. */
    method RecordLines(builder: CommandBuffer, width: real, height: real, lines: seq<BeautifulLine>, initial: Scissor)
      requires ScissorInRange(initial)
      modifies builder
      ensures builder.log == old(builder.log) + LineDraws(width, height, initial, lines)
    {
      var vertexBuffer := VertexBuffer(lines);
      var offset := 0;
      var i := 0;
      while i < |lines|
        invariant 0 <= i <= |lines|
        invariant offset == Start(lines, LineVertices, i)
        invariant builder.log == old(builder.log) + LineDraws(width, height, initial, lines[..i])
      {
        LineDrawsSnoc(width, height, initial, lines, i);
        RecordLine(builder, width, height, initial, lines, i, vertexBuffer, offset);
        ConcatMapSnoc(lines, LineVertices, i);
        offset := offset + |lines[i].vertices|;
        i := i + 1;
      }
      assert lines[..i] == lines;
    }
  }
}
