/** How egui's pointer input drives a `Map2dView`: the scroll wheel zooms by a factor of 1.2 at
    the mouse position, and a decided drag moves the view by the mouse's movement. */
module EguiExtensions {
  import opened Base
  import opened MapView

  /** The parts of egui's `InputState` the camera reads. */
  datatype InputState = InputState(
    interactPos: Option<Vec2>,
    rawScrollDelta: Vec2,
    decidedlyDragging: bool,
    pointerDelta: Vec2)

  const ZOOM_STEP: real := 1.2

  /** The zoom change one frame of input asks for: scrolling up multiplies the zoom by 1.2,
      scrolling down divides it, and nothing happens without a scroll or a mouse position. */
  function ZoomRequest(input: InputState, zoom: real): (r: Option<(real, Vec2)>)
    ensures r.Some? <==> input.interactPos.Some? && input.rawScrollDelta.y != 0.0
    ensures r.Some? ==> r.value.1 == input.interactPos.value
    ensures r.Some? && input.rawScrollDelta.y > 0.0 ==> r.value.0 == zoom * ZOOM_STEP
    ensures r.Some? && input.rawScrollDelta.y < 0.0 ==> r.value.0 * ZOOM_STEP == zoom
    ensures r.Some? && zoom > 0.0 ==> r.value.0 > 0.0
  {
    match input.interactPos
    case None => None
    case Some(pos) =>
      if input.rawScrollDelta.y > 0.0 then Some((zoom * ZOOM_STEP, pos))
      else if input.rawScrollDelta.y < 0.0 then Some((zoom / ZOOM_STEP, pos))
      else None
  }

  /** The camera after one frame of `update_zoom_at_screen_position`. */
  function AfterZoomInput(input: InputState, c: Camera): (r: Camera)
    requires c.zoom > 0.0
    ensures r.zoom > 0.0
    ensures ZoomRequest(input, c.zoom).None? ==> r == c
    ensures ZoomRequest(input, c.zoom).Some? ==>
      ScreenToWorld(r, input.interactPos.value) == ScreenToWorld(c, input.interactPos.value)
  {
    match ZoomRequest(input, c.zoom)
    case None => c
    case Some((z, pos)) => ZoomKeepsPointUnderCursor(c, z, pos); ZoomedAt(c, z, pos)
  }

  /** A frame scrolling up and then a frame scrolling down at the same mouse position give the
      view back: the same zoom and the same view position. */
  lemma ScrollUpThenDownRestoresView(c: Camera, up: InputState, down: InputState)
    requires c.zoom > 0.0
    requires up.interactPos.Some? && up.rawScrollDelta.y > 0.0
    requires down.interactPos == up.interactPos && down.rawScrollDelta.y < 0.0
    ensures AfterZoomInput(down, AfterZoomInput(up, c)) == c
  {
    var pos := up.interactPos.value;
    var zoomed := ZoomedAt(c, c.zoom * ZOOM_STEP, pos);
    assert AfterZoomInput(up, c) == zoomed;
    assert (c.zoom * ZOOM_STEP) / ZOOM_STEP == c.zoom;
    assert AfterZoomInput(down, zoomed) == ZoomedAt(zoomed, c.zoom, pos);
    ZoomBackRestores(c, c.zoom * ZOOM_STEP, pos);
  }

  /** `ZoomChangeSource::update_zoom_at_screen_position`. */
  method UpdateZoomAtScreenPosition(input: InputState, view: Map2dView)
    requires view.zoom > 0.0
    modifies view
    ensures view.zoom > 0.0
    ensures view.State() == AfterZoomInput(input, old(view.State()))
    ensures ZoomRequest(input, old(view.zoom)).None? ==> view.State() == old(view.State())
    ensures ZoomRequest(input, old(view.zoom)).Some? ==>
      var (z, pos) := ZoomRequest(input, old(view.zoom)).value;
      view.State() == ZoomedAt(old(view.State()), z, pos)
  {
    var request := ZoomRequest(input, view.Zoom());
    if request.Some? {
      var (z, pos) := request.value;
      view.UpdateZoomAtScreenPosition(z, pos);
    }
  }

  /** `DragSource::update_view_position_by_drag_delta`. */
  method UpdateViewPositionByDragDelta(input: InputState, view: Map2dView)
    requires view.zoom != 0.0
    modifies view
    ensures input.decidedlyDragging ==>
      view.State() == MovedBy(old(view.State()), input.pointerDelta.x, input.pointerDelta.y)
    ensures !input.decidedlyDragging ==> view.State() == old(view.State())
  {
    if input.decidedlyDragging {
      view.MoveByScreenDelta(input.pointerDelta.x, input.pointerDelta.y);
    }
  }
}
