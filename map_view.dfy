/** `Map2dView`: the camera over a 2D world. A view position (the world point shown at the
    screen's centre) and a zoom factor map world positions to screen positions and back. */
module MapView {
  import opened Base
  import Uniforms

  /** The camera's state: screen size in pixels, view position and zoom. */
  datatype Camera = Camera(screenWidth: nat, screenHeight: nat, viewX: real, viewY: real, zoom: real)
  {
    function HalfScreen(): Vec2 { Vec2(screenWidth as real / 2.0, screenHeight as real / 2.0) }
    function ViewPos(): Vec2 { Vec2(viewX, viewY) }
  }

  function WorldToScreen(c: Camera, p: Vec2): Vec2
  {
    Vec2(c.HalfScreen().x + (p.x - c.viewX) * c.zoom, c.HalfScreen().y + (p.y - c.viewY) * c.zoom)
  }

  function ScreenToWorld(c: Camera, p: Vec2): Vec2
    requires c.zoom != 0.0
  {
    Vec2((p.x - c.HalfScreen().x) / c.zoom + c.viewX, (p.y - c.HalfScreen().y) / c.zoom + c.viewY)
  }

  function DistanceWorldToScreen(c: Camera, d: Vec2): Vec2
  {
    Vec2(d.x * c.zoom, d.y * c.zoom)
  }

  /** The state after `move_by_screen_delta`. */
  function MovedBy(c: Camera, dx: real, dy: real): Camera
    requires c.zoom != 0.0
  {
    c.(viewX := c.viewX - dx / c.zoom, viewY := c.viewY - dy / c.zoom)
  }

  /** The state after `update_zoom_at_screen_position`: the world point under `pos` is
      measured before and after the zoom changes, and the view shifts back by the difference. */
  function ZoomedAt(c: Camera, newZoom: real, pos: Vec2): Camera
    requires c.zoom != 0.0 && newZoom != 0.0
  {
    var before := ScreenToWorld(c, pos);
    var after := ScreenToWorld(c.(zoom := newZoom), pos);
    var diff := after.Minus(before);
    c.(zoom := newZoom, viewX := c.viewX - diff.x, viewY := c.viewY - diff.y)
  }

  lemma ScaleCancels(a: real, z: real)
    requires z != 0.0
    ensures (a * z) / z == a && (a / z) * z == a
  {
  }

  /** Screen-to-world undoes world-to-screen. */
  lemma WorldScreenRoundTrip(c: Camera, p: Vec2)
    requires c.zoom != 0.0
    ensures ScreenToWorld(c, WorldToScreen(c, p)) == p
  {
    ScaleCancels(p.x - c.viewX, c.zoom);
    ScaleCancels(p.y - c.viewY, c.zoom);
  }

  /** World-to-screen undoes screen-to-world. */
  lemma ScreenWorldRoundTrip(c: Camera, s: Vec2)
    requires c.zoom != 0.0
    ensures WorldToScreen(c, ScreenToWorld(c, s)) == s
  {
    ScaleCancels(s.x - c.HalfScreen().x, c.zoom);
    ScaleCancels(s.y - c.HalfScreen().y, c.zoom);
  }

  /** The view position is what the screen's centre shows. */
  lemma ViewPositionAtScreenCentre(c: Camera)
    ensures WorldToScreen(c, c.ViewPos()) == c.HalfScreen()
  {
  }

  /** A world-space offset appears on screen scaled by the zoom, wherever it starts. */
  lemma DistanceIsPositionDifference(c: Camera, p: Vec2, d: Vec2)
    ensures WorldToScreen(c, p.Plus(d)).Minus(WorldToScreen(c, p)) == DistanceWorldToScreen(c, d)
  {
    assert (p.x + d.x - c.viewX) * c.zoom - (p.x - c.viewX) * c.zoom == d.x * c.zoom;
    assert (p.y + d.y - c.viewY) * c.zoom - (p.y - c.viewY) * c.zoom == d.y * c.zoom;
  }

  /** Dragging by a screen delta moves every world point's screen image by exactly that delta. */
  lemma MoveShiftsScreenImage(c: Camera, dx: real, dy: real, p: Vec2)
    requires c.zoom != 0.0
    ensures MovedBy(c, dx, dy).zoom == c.zoom
    ensures WorldToScreen(MovedBy(c, dx, dy), p) == WorldToScreen(c, p).Plus(Vec2(dx, dy))
  {
    var m := MovedBy(c, dx, dy);
    assert (p.x - m.viewX) * c.zoom == (p.x - c.viewX) * c.zoom + (dx / c.zoom) * c.zoom;
    assert (p.y - m.viewY) * c.zoom == (p.y - c.viewY) * c.zoom + (dy / c.zoom) * c.zoom;
    ScaleCancels(dx, c.zoom);
    ScaleCancels(dy, c.zoom);
  }

  /** Zooming at a screen position takes the new zoom and keeps the world point under that
      position where it was. */
  lemma ZoomKeepsPointUnderCursor(c: Camera, newZoom: real, pos: Vec2)
    requires c.zoom != 0.0 && newZoom != 0.0
    ensures ZoomedAt(c, newZoom, pos).zoom == newZoom
    ensures ZoomedAt(c, newZoom, pos).screenWidth == c.screenWidth
    ensures ZoomedAt(c, newZoom, pos).screenHeight == c.screenHeight
    ensures ScreenToWorld(ZoomedAt(c, newZoom, pos), pos) == ScreenToWorld(c, pos)
  {
  }

  /** Zooming at the screen's centre leaves the view position alone. */
  lemma ZoomAtCentreKeepsView(c: Camera, newZoom: real)
    requires c.zoom != 0.0 && newZoom != 0.0
    ensures ZoomedAt(c, newZoom, c.HalfScreen()).ViewPos() == c.ViewPos()
  {
  }

  /** Zooming back to the old zoom at the same screen position undoes a zoom: the world point
      under that position and the zoom together fix the view position. */
  lemma ZoomBackRestores(c: Camera, newZoom: real, pos: Vec2)
    requires c.zoom != 0.0 && newZoom != 0.0
    ensures ZoomedAt(ZoomedAt(c, newZoom, pos), c.zoom, pos) == c
  {
    var h := c.HalfScreen();
    var z := ZoomedAt(c, newZoom, pos);
    assert z.HalfScreen() == h;
    assert z.viewX == c.viewX - (pos.x - h.x) / newZoom + (pos.x - h.x) / c.zoom;
    assert z.viewY == c.viewY - (pos.y - h.y) / newZoom + (pos.y - h.y) / c.zoom;
  }

  class Map2dView {
    var screenWidth: nat
    var screenHeight: nat
    var viewX: real
    var viewY: real
    var zoom: real

    function State(): Camera
      reads this
    {
      Camera(screenWidth, screenHeight, viewX, viewY, zoom)
    }

    /** `new`: looking at the world origin with zoom 1. */
    constructor (screenWidth: nat, screenHeight: nat)
      ensures State() == Camera(screenWidth, screenHeight, 0.0, 0.0, 1.0)
    {
      this.screenWidth := screenWidth;
      this.screenHeight := screenHeight;
      viewX := 0.0;
      viewY := 0.0;
      zoom := 1.0;
    }

    method UpdateScreenSize(width: nat, height: nat)
      modifies this
      ensures State() == old(State()).(screenWidth := width, screenHeight := height)
    {
      screenWidth := width;
      screenHeight := height;
    }

    method MoveByScreenDelta(dx: real, dy: real)
      requires zoom != 0.0
      modifies this
      ensures State() == MovedBy(old(State()), dx, dy)
    {
      viewX := viewX - dx / zoom;
      viewY := viewY - dy / zoom;
    }

    /** `zoom`: the camera's zoom factor. */
    function Zoom(): (z: real)
      reads this
      ensures z == State().zoom
    {
      zoom
    }

    /** `position_world_to_screen`: the view position lands on the screen's centre, and with a
        non-zero zoom the world position is recovered from the result. */
    function PositionWorldToScreen(pos: Vec2): (s: Vec2)
      reads this
      ensures pos == State().ViewPos() ==> s == State().HalfScreen()
      ensures zoom != 0.0 ==> ScreenToWorld(State(), s) == pos
    {
      var s := WorldToScreen(State(), pos);
      assert zoom != 0.0 ==> ScreenToWorld(State(), s) == pos by {
        if zoom != 0.0 {
          WorldScreenRoundTrip(State(), pos);
        }
      }
      s
    }

    /** `position_screen_to_world`: the world position shown at the screen position, so the
        screen's centre shows the view position. */
    function PositionScreenToWorld(pos: Vec2): (w: Vec2)
      reads this
      requires zoom != 0.0
      ensures WorldToScreen(State(), w) == pos
      ensures pos == State().HalfScreen() ==> w == State().ViewPos()
    {
      var w := ScreenToWorld(State(), pos);
      ScreenWorldRoundTrip(State(), pos);
      ViewPositionAtScreenCentre(State());
      WorldScreenRoundTrip(State(), State().ViewPos());
      w
    }

    /** `distance_world_to_screen`: how far apart on screen two world positions `dim` apart
        are, wherever they lie. */
    function DistanceWorldToScreenOf(dim: Vec2): (d: Vec2)
      reads this
      ensures d == WorldToScreen(State(), dim).Minus(WorldToScreen(State(), Vec2(0.0, 0.0)))
    {
      DistanceIsPositionDifference(State(), Vec2(0.0, 0.0), dim);
      assert Vec2(0.0, 0.0).Plus(dim) == dim;
      DistanceWorldToScreen(State(), dim)
    }

    method UpdateZoomAtScreenPosition(newZoom: real, pos: Vec2)
      requires zoom != 0.0 && newZoom != 0.0
      modifies this
      ensures State() == ZoomedAt(old(State()), newZoom, pos)
      ensures PositionScreenToWorld(pos) == old(PositionScreenToWorld(pos))
    {
      var before := PositionScreenToWorld(pos);
      zoom := newZoom;
      var after := PositionScreenToWorld(pos);
      var diff := after.Minus(before);
      viewX := viewX - diff.x;
      viewY := viewY - diff.y;
    }

    /** `to_world_2d_view`: the uniform the shaders read, `[view_x, view_y, zoom]`. */
    function ToWorld2dView(): (v: Uniforms.World2dView)
      reads this
      ensures Uniforms.Origin.World2dViewOrigin(v).Data() == [viewX, viewY, zoom]
    {
      var a: seq<real> := [viewX, viewY, zoom];
      assert |a| == 3;
      Uniforms.World2dViewFromArray(a)
    }
  }
}
