/** `BufferedCanvasLayer`: a canvas that buffers its draw calls as a list of actions, merging
    consecutive calls of the same kind into one action, and replays the actions in order when
    it is submitted to a render pass. */
module BufferedLayers {
  import opened Base
  import opened Packing
  import Lines
  import Textured
  import Textures

  /** A batch of lines or of textured triangles, to be drawn with one pipeline call. */
  datatype Action = Lines(lines: seq<Lines.Line>) | TexturedTriangle(textured: seq<Textured.Textured>)

  /** One draw call on the layer, in the order the calls were made. */
  datatype Drawn = PathDrawn(line: Lines.Line) | TexturedDrawn(triangles: Textured.Textured)

  function ActionItems(a: Action): (ds: seq<Drawn>)
    ensures a.Lines? ==> |ds| == |a.lines| && forall i :: 0 <= i < |ds| ==> ds[i] == PathDrawn(a.lines[i])
    ensures a.TexturedTriangle? ==> |ds| == |a.textured| && forall i :: 0 <= i < |ds| ==> ds[i] == TexturedDrawn(a.textured[i])
  {
    match a
    case Lines(ls) => seq(|ls|, i requires 0 <= i < |ls| => PathDrawn(ls[i]))
    case TexturedTriangle(ts) => seq(|ts|, i requires 0 <= i < |ts| => TexturedDrawn(ts[i]))
  }

  /** The draw calls an action list holds, batch after batch. */
  function Flatten(actions: seq<Action>): seq<Drawn>
  {
    ConcatMap(actions, ActionItems)
  }

  function IsEmpty(a: Action): bool
  {
    match a
    case Lines(ls) => ls == []
    case TexturedTriangle(ts) => ts == []
  }

  /** No action is empty and no two neighbours are of the same kind. */
  predicate Coalesced(actions: seq<Action>)
  {
    (forall i :: 0 <= i < |actions| ==> !IsEmpty(actions[i]))
    && (forall i :: 0 <= i < |actions| - 1 ==> actions[i].Lines? != actions[i + 1].Lines?)
  }

  /** How many lines the actions hold. */
  function LineCount(actions: seq<Action>): (n: nat)
    decreases |actions|
  {
    if actions == [] then 0
    else
      var last := actions[|actions| - 1];
      LineCount(actions[..|actions| - 1]) + (if last.Lines? then |last.lines| else 0)
  }

  /** The `last_mut()` merge of `draw_path`: into a trailing `Lines` action, else a new one. */
  function AppendLine(actions: seq<Action>, line: Lines.Line): seq<Action>
  {
    if |actions| > 0 && actions[|actions| - 1].Lines? then
      actions[..|actions| - 1] + [Lines(actions[|actions| - 1].lines + [line])]
    else actions + [Lines([line])]
  }

  /** The same merge for `draw_textured_triangles`. */
  function AppendTextured(actions: seq<Action>, t: Textured.Textured): seq<Action>
  {
    if |actions| > 0 && actions[|actions| - 1].TexturedTriangle? then
      actions[..|actions| - 1] + [TexturedTriangle(actions[|actions| - 1].textured + [t])]
    else actions + [TexturedTriangle([t])]
  }

  lemma FlattenSnoc(init: seq<Action>, a: Action)
    ensures Flatten(init + [a]) == Flatten(init) + ActionItems(a)
  {
    assert (init + [a])[..|init|] == init;
  }

  lemma LineCountSnoc(init: seq<Action>, a: Action)
    ensures LineCount(init + [a]) == LineCount(init) + (if a.Lines? then |a.lines| else 0)
  {
    assert (init + [a])[..|init|] == init;
  }

  lemma CoalescedSnoc(init: seq<Action>, a: Action)
    requires Coalesced(init) && !IsEmpty(a)
    requires |init| > 0 ==> init[|init| - 1].Lines? != a.Lines?
    ensures Coalesced(init + [a])
  {
  }

  /** Replacing the last action by a non-empty one of the same kind keeps the list coalesced. */
  lemma CoalescedReplaceLast(actions: seq<Action>, a: Action)
    requires Coalesced(actions) && |actions| > 0 && !IsEmpty(a)
    requires a.Lines? == actions[|actions| - 1].Lines?
    ensures Coalesced(actions[..|actions| - 1] + [a])
  {
    var init := actions[..|actions| - 1];
    assert |init| > 0 ==> init[|init| - 1] == actions[|actions| - 2];
    CoalescedSnoc(init, a);
  }

  /** A merged line lands after every earlier draw call, nothing else changes, the list stays
      coalesced, and the line count goes up by exactly one. */
  lemma AppendLineSpec(actions: seq<Action>, line: Lines.Line)
    requires Coalesced(actions)
    ensures Coalesced(AppendLine(actions, line))
    ensures Flatten(AppendLine(actions, line)) == Flatten(actions) + [PathDrawn(line)]
    ensures LineCount(AppendLine(actions, line)) == LineCount(actions) + 1
    ensures |AppendLine(actions, line)| == |actions| + (if |actions| > 0 && actions[|actions| - 1].Lines? then 0 else 1)
  {
    if |actions| > 0 && actions[|actions| - 1].Lines? {
      var init, last := actions[..|actions| - 1], actions[|actions| - 1];
      assert actions == init + [last];
      FlattenSnoc(init, last);
      FlattenSnoc(init, Lines(last.lines + [line]));
      assert ActionItems(Lines(last.lines + [line])) == ActionItems(last) + [PathDrawn(line)];
      CoalescedReplaceLast(actions, Lines(last.lines + [line]));
      LineCountSnoc(init, last);
      LineCountSnoc(init, Lines(last.lines + [line]));
    } else {
      FlattenSnoc(actions, Lines([line]));
      LineCountSnoc(actions, Lines([line]));
      CoalescedSnoc(actions, Lines([line]));
    }
  }

  /** The textured counterpart; the line count is untouched. */
  lemma AppendTexturedSpec(actions: seq<Action>, t: Textured.Textured)
    requires Coalesced(actions)
    ensures Coalesced(AppendTextured(actions, t))
    ensures Flatten(AppendTextured(actions, t)) == Flatten(actions) + [TexturedDrawn(t)]
    ensures LineCount(AppendTextured(actions, t)) == LineCount(actions)
    ensures |AppendTextured(actions, t)| == |actions| + (if |actions| > 0 && actions[|actions| - 1].TexturedTriangle? then 0 else 1)
  {
    if |actions| > 0 && actions[|actions| - 1].TexturedTriangle? {
      var init, last := actions[..|actions| - 1], actions[|actions| - 1];
      assert actions == init + [last];
      FlattenSnoc(init, last);
      FlattenSnoc(init, TexturedTriangle(last.textured + [t]));
      assert ActionItems(TexturedTriangle(last.textured + [t])) == ActionItems(last) + [TexturedDrawn(t)];
      CoalescedReplaceLast(actions, TexturedTriangle(last.textured + [t]));
      LineCountSnoc(init, last);
      LineCountSnoc(init, TexturedTriangle(last.textured + [t]));
    } else {
      FlattenSnoc(actions, TexturedTriangle([t]));
      LineCountSnoc(actions, TexturedTriangle([t]));
      CoalescedSnoc(actions, TexturedTriangle([t]));
    }
  }

  /** The closed outline `draw_rect` draws: from `pos` along x, to the far corner, back along x
      and up to `pos` again, with every edge parallel to an axis. */
  function RectPath(pos: Vec2, dim: Vec2): (p: seq<Vec2>)
    ensures |p| == 5 && p[0] == pos && p[4] == pos && p[2] == pos.Plus(dim)
    ensures forall i :: 0 <= i < 4 ==> p[i].x == p[i + 1].x || p[i].y == p[i + 1].y
    ensures p[1].Minus(p[0]) == Vec2(dim.x, 0.0) && p[3].Minus(p[0]) == Vec2(0.0, dim.y)
  {
    [pos, pos.Plus(Vec2(dim.x, 0.0)), pos.Plus(dim), pos.Plus(Vec2(0.0, dim.y)), pos]
  }

  /** The two triangles `draw_textured_rect` draws: the whole texture stretched over the
      rectangle, so that each vertex sits at `pos + uv * dim` with uv a corner of the unit square,
      and the triangles share the diagonal from `pos` to `pos + dim`. */
  function TexturedRectVertices(pos: Vec2, dim: Vec2): (v: seq<(Vec2, Vec2)>)
    ensures |v| == 6
    ensures forall i :: 0 <= i < 6 ==> v[i].0 == Vec2(pos.x + v[i].1.x * dim.x, pos.y + v[i].1.y * dim.y)
    ensures forall i :: 0 <= i < 6 ==> (v[i].1.x == 0.0 || v[i].1.x == 1.0) && (v[i].1.y == 0.0 || v[i].1.y == 1.0)
    ensures v[0] == v[5] && v[2] == v[3] && v[0].1 == Vec2(0.0, 0.0) && v[2].1 == Vec2(1.0, 1.0)
    ensures v[1].1 == Vec2(1.0, 0.0) && v[4].1 == Vec2(0.0, 1.0)
  {
    [ (pos, Vec2(0.0, 0.0)),
      (pos.Plus(Vec2(dim.x, 0.0)), Vec2(1.0, 0.0)),
      (pos.Plus(dim), Vec2(1.0, 1.0)),
      (pos.Plus(dim), Vec2(1.0, 1.0)),
      (pos.Plus(Vec2(0.0, dim.y)), Vec2(0.0, 1.0)),
      (pos, Vec2(0.0, 0.0)) ]
  }

  const WHITE: Color := Color(1.0, 1.0, 1.0, 1.0)

  class BufferedCanvasLayer {
    var size: (nat, nat)
    var actions: seq<Action>
    var color: Color
    /** How many paths were drawn (including lines and rectangles). */
    ghost var pathCalls: nat

    ghost predicate Valid()
      reads this
    {
      Coalesced(actions) && LineCount(actions) == pathCalls
    }

    /** `From<[u32; 2]>`: nothing buffered, drawing in white. */
    constructor From(size: (nat, nat))
      ensures Valid()
      ensures this.size == size && actions == [] && color == WHITE && pathCalls == 0
    {
      this.size := size;
      actions := [];
      color := WHITE;
      pathCalls := 0;
    }

    /** Affects only lines drawn after it. */
    method SetDrawColor(color: Color)
      modifies this
      ensures this.color == color
      ensures size == old(size) && actions == old(actions) && pathCalls == old(pathCalls)
    {
      this.color := color;
    }

    /** `draw_path`: a line through the positions in the current colour, merged into a trailing
        batch of lines. */
    method DrawPath(positions: seq<Vec2>)
      requires Valid()
      modifies this
      ensures Valid()
      ensures actions == AppendLine(old(actions), Lines.Line(positions, old(color)))
      ensures Flatten(actions) == Flatten(old(actions)) + [PathDrawn(Lines.Line(positions, old(color)))]
      ensures pathCalls == old(pathCalls) + 1
      ensures size == old(size) && color == old(color)
    {
      var line := Lines.Line(positions, color);
      AppendLineSpec(actions, line);
      if |actions| > 0 && actions[|actions| - 1].Lines? {
        var last := actions[|actions| - 1];
        actions := actions[..|actions| - 1] + [Lines(last.lines + [line])];
      } else {
        actions := actions + [Lines([line])];
      }
      pathCalls := pathCalls + 1;
    }

    method DrawLine(from: Vec2, to: Vec2)
      requires Valid()
      modifies this
      ensures Valid()
      ensures actions == AppendLine(old(actions), Lines.Line([from, to], old(color)))
      ensures Flatten(actions) == Flatten(old(actions)) + [PathDrawn(Lines.Line([from, to], old(color)))]
      ensures pathCalls == old(pathCalls) + 1
      ensures size == old(size) && color == old(color)
    {
      DrawPath([from, to]);
    }

    method DrawRect(pos: Vec2, dim: Vec2)
      requires Valid()
      modifies this
      ensures Valid()
      ensures actions == AppendLine(old(actions), Lines.Line(RectPath(pos, dim), old(color)))
      ensures Flatten(actions) == Flatten(old(actions)) + [PathDrawn(Lines.Line(RectPath(pos, dim), old(color)))]
      ensures pathCalls == old(pathCalls) + 1
      ensures size == old(size) && color == old(color)
    {
      DrawPath(RectPath(pos, dim));
    }

    /** `draw_textured_triangles`: the vertices with their uvs, merged into a trailing batch of
        textured triangles. The draw colour is not used. */
    method DrawTexturedTriangles(posUv: seq<(Vec2, Vec2)>, texture: Textures.TextureInner)
      requires Valid()
      modifies this
      ensures Valid()
      ensures actions == AppendTextured(old(actions), Textured.Textured(posUv, texture))
      ensures Flatten(actions) == Flatten(old(actions)) + [TexturedDrawn(Textured.Textured(posUv, texture))]
      ensures pathCalls == old(pathCalls) && size == old(size) && color == old(color)
    {
      var t := Textured.Textured(posUv, texture);
      AppendTexturedSpec(actions, t);
      if |actions| > 0 && actions[|actions| - 1].TexturedTriangle? {
        var last := actions[|actions| - 1];
        actions := actions[..|actions| - 1] + [TexturedTriangle(last.textured + [t])];
      } else {
        actions := actions + [TexturedTriangle([t])];
      }
    }

    method DrawTexturedRect(pos: Vec2, dim: Vec2, texture: Textures.TextureInner)
      requires Valid()
      modifies this
      ensures Valid()
      ensures actions == AppendTextured(old(actions), Textured.Textured(TexturedRectVertices(pos, dim), texture))
      ensures Flatten(actions) == Flatten(old(actions)) + [TexturedDrawn(Textured.Textured(TexturedRectVertices(pos, dim), texture))]
      ensures pathCalls == old(pathCalls) && size == old(size) && color == old(color)
    {
      DrawTexturedTriangles(TexturedRectVertices(pos, dim), texture);
    }

    /** `submit_to_render_pass`: one pipeline call per action, in order, with the layer's size
        as floats. A failed call is only reported, and the remaining actions are still submitted. */
    method SubmitToRenderPass() returns (calls: seq<Submission>)
      ensures calls == Submissions(size, actions)
    {
      calls := [];
      var i := 0;
      while i < |actions|
        invariant 0 <= i <= |actions|
        invariant calls == Submissions(size, actions[..i])
      {
        assert actions[..i + 1][..i] == actions[..i];
        calls := calls + [Submit(size, actions[i])];
        i := i + 1;
      }
      assert actions[..i] == actions;
    }
  }

  /** A call into the line or texture system. */
  datatype Submission =
    | DrawLines(width: real, height: real, lines: seq<Lines.Line>)
    | DrawTextured(width: real, height: real, textured: seq<Textured.Textured>)

  function Submit(size: (nat, nat), a: Action): Submission
  {
    match a
    case Lines(ls) => DrawLines(size.0 as real, size.1 as real, ls)
    case TexturedTriangle(ts) => DrawTextured(size.0 as real, size.1 as real, ts)
  }

  function Submissions(size: (nat, nat), actions: seq<Action>): (r: seq<Submission>)
    ensures |r| == |actions|
    decreases |actions|
  {
    if actions == [] then [] else Submissions(size, actions[..|actions| - 1]) + [Submit(size, actions[|actions| - 1])]
  }

  function SubmittedItems(s: Submission): (ds: seq<Drawn>)
  {
    match s
    case DrawLines(_, _, ls) => ActionItems(Lines(ls))
    case DrawTextured(_, _, ts) => ActionItems(TexturedTriangle(ts))
  }

  /** Submission i is the submission of action i. */
  lemma {:induction false} SubmissionAt(size: (nat, nat), actions: seq<Action>, i: nat)
    requires i < |actions|
    ensures Submissions(size, actions)[i] == Submit(size, actions[i])
    decreases |actions|
  {
    if i < |actions| - 1 {
      var init := actions[..|actions| - 1];
      SubmissionAt(size, init, i);
    }
  }

  lemma {:induction false} SubmissionsFlatten(size: (nat, nat), actions: seq<Action>)
    ensures ConcatMap(Submissions(size, actions), SubmittedItems) == Flatten(actions)
    decreases |actions|
  {
    if actions != [] {
      var init, last := actions[..|actions| - 1], actions[|actions| - 1];
      assert actions == init + [last];
      SubmissionsFlatten(size, init);
      FlattenSnoc(init, last);
      var subs := Submissions(size, actions);
      assert subs[..|subs| - 1] == Submissions(size, init);
    }
  }

  lemma SubmissionsAtSize(size: (nat, nat), actions: seq<Action>)
    ensures forall i :: 0 <= i < |actions| ==>
              Submissions(size, actions)[i].width == size.0 as real && Submissions(size, actions)[i].height == size.1 as real
  {
    forall i | 0 <= i < |actions|
      ensures Submissions(size, actions)[i] == Submit(size, actions[i])
    {
      SubmissionAt(size, actions, i);
    }
  }

  lemma SubmissionsAlternate(size: (nat, nat), actions: seq<Action>)
    requires Coalesced(actions)
    ensures forall i :: 0 <= i < |actions| - 1 ==> Submissions(size, actions)[i].DrawLines? != Submissions(size, actions)[i + 1].DrawLines?
  {
    forall i | 0 <= i < |actions| - 1
      ensures Submissions(size, actions)[i].DrawLines? != Submissions(size, actions)[i + 1].DrawLines?
    {
      SubmissionAt(size, actions, i);
      SubmissionAt(size, actions, i + 1);
    }
  }

  /** Submitting replays every buffered draw call exactly once, in the order the calls were
      made, each batch at the layer's size, and switches pipeline on every call. */
  lemma SubmissionsReplayDraws(size: (nat, nat), actions: seq<Action>)
    requires Coalesced(actions)
    ensures ConcatMap(Submissions(size, actions), SubmittedItems) == Flatten(actions)
    ensures forall i :: 0 <= i < |actions| ==>
              Submissions(size, actions)[i].width == size.0 as real && Submissions(size, actions)[i].height == size.1 as real
    ensures forall i :: 0 <= i < |actions| - 1 ==> Submissions(size, actions)[i].DrawLines? != Submissions(size, actions)[i + 1].DrawLines?
  {
    SubmissionsFlatten(size, actions);
    SubmissionsAtSize(size, actions);
    SubmissionsAlternate(size, actions);
  }
}
