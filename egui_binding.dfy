/** `Sdl2EguiMapping`: translates SDL events into egui's `RawInput`, which it accumulates until
    the next frame takes it. */
module EguiBinding {
  import opened Base
  import opened EguiMeshes

  /** The SDL keycodes the mapping distinguishes; every other keycode is `OtherKeycode`. */
  datatype Keycode =
    | Down | Left | Right | Up
    | Escape | Tab | Backspace | Return | Space
    | Insert | Delete | Home | End | PageUp | PageDown
    | Num(digit: Digit)
    | Letter(letter: Uppercase)
    | F(number: FNumber)
    | LAlt | RAlt | LCtrl | RCtrl | LShift | RShift
    | OtherKeycode(code: nat)

  type Digit = d: nat | d < 10

  type Uppercase = c: char | 'A' <= c <= 'Z' witness 'A'

  /** SDL's function keys F1 to F24. */
  type FNumber = n: nat | 1 <= n <= 24 witness 1

  /** The egui keys the mapping produces. */
  datatype Key =
    | ArrowDown | ArrowLeft | ArrowRight | ArrowUp
    | KeyEscape | KeyTab | KeyBackspace | KeyEnter | KeySpace
    | KeyInsert | KeyDelete | KeyHome | KeyEnd | KeyPageUp | KeyPageDown
    | KeyNum(digit: Digit)
    | KeyLetter(letter: Uppercase)
    | KeyF(number: FNumber)

  datatype Modifiers = Modifiers(alt: bool, ctrl: bool, shift: bool, macCmd: bool, command: bool)

  const NO_MODIFIERS := Modifiers(false, false, false, false, false)

  datatype PointerButton = Primary | Secondary | Middle

  /** The egui input events the mapping and the shortcut injection push. */
  datatype Event =
    | KeyEvent(key: Key, pressed: bool, modifiers: Modifiers, repeat: bool)
    | TextEvent(text: string)
    | PointerMoved(pos: Vec2)
    | PointerButtonEvent(pos: Vec2, button: PointerButton, pressed: bool, modifiers: Modifiers)
    | ScrollEvent(delta: Vec2)
    | CopyEvent
    | CutEvent
    | PasteEvent(text: string)

  datatype ViewportEvent = Close

  /** The parts of egui's `ViewportInfo` the mapping writes. */
  datatype ViewportInfo = ViewportInfo(minimized: Option<bool>, maximized: Option<bool>, focused: Option<bool>,
                                       fullscreen: Option<bool>, events: seq<ViewportEvent>)

  const DEFAULT_VIEWPORT := ViewportInfo(None, None, None, None, [])

  type ViewportId = nat

  /** `ViewportId::ROOT`. */
  const ROOT: ViewportId := 0

  datatype HoveredFile = HoveredFile(path: Option<string>, mime: string)

  datatype DroppedFile = DroppedFile(path: Option<string>, name: string, mime: string,
                                     lastModified: Option<real>, bytes: Option<seq<nat>>)

  /** egui's `RawInput`. */
  datatype RawInput = RawInput(
    viewportId: ViewportId,
    viewports: map<ViewportId, ViewportInfo>,
    screenRect: Option<Rect>,
    maxTextureSide: Option<nat>,
    time: Option<real>,
    predictedDt: real,
    modifiers: Modifiers,
    events: seq<Event>,
    hoveredFiles: seq<HoveredFile>,
    droppedFiles: seq<DroppedFile>,
    focused: bool)

  datatype MouseButton = LeftButton | MiddleButton | RightButton | X1 | X2 | UnknownButton

  datatype WindowEvent = Minimized | Maximized | FocusGained | FocusLost | WindowClose | OtherWindowEvent

  /** The SDL events the mapping reads; every other event is `OtherEvent`. */
  datatype SdlEvent =
    | KeyDown(keycode: Option<Keycode>)
    | KeyUp(keycode: Option<Keycode>)
    | TextInput(text: string)
    | MouseMotion(x: int, y: int)
    | MouseButtonDown(x: int, y: int, mouseButton: MouseButton)
    | MouseButtonUp(x: int, y: int, mouseButton: MouseButton)
    | MouseWheel(x: int, y: int)
    | DropFile(filename: string)
    | DropComplete
    | Quit
    | Window(windowEvent: WindowEvent)
    | OtherEvent

  /** An SDL rectangle: its corner and size. */
  datatype SdlRect = SdlRect(x: int, y: int, width: nat, height: nat)

  /** The input the mapping starts from: the root viewport, with default information, is the
      only viewport and the current one. */
  function DefaultInput(): (r: RawInput)
    ensures r.viewportId == ROOT && r.viewports == map[ROOT := DEFAULT_VIEWPORT]
    ensures r.events == [] && r.hoveredFiles == [] && r.droppedFiles == [] && r.modifiers == NO_MODIFIERS
  {
    RawInput(ROOT, map[ROOT := DEFAULT_VIEWPORT], None, None, None, 1.0 / 60.0, NO_MODIFIERS, [], [], [], false)
  }

  /** The key a keycode is mapped to: the arrows, the editing keys, the digits, the letters and
      F1 to F20 have one; F21 to F24, the modifier keys and every other keycode have none. */
  function KeyFor(k: Keycode): (r: Option<Key>)
    ensures r.None? <==> k.OtherKeycode? || (k.F? && k.number > 20) || IsModifierKey(k)
  {
    match k
    case Down => Some(ArrowDown)
    case Left => Some(ArrowLeft)
    case Right => Some(ArrowRight)
    case Up => Some(ArrowUp)
    case Escape => Some(KeyEscape)
    case Tab => Some(KeyTab)
    case Backspace => Some(KeyBackspace)
    case Return => Some(KeyEnter)
    case Space => Some(KeySpace)
    case Insert => Some(KeyInsert)
    case Delete => Some(KeyDelete)
    case Home => Some(KeyHome)
    case End => Some(KeyEnd)
    case PageUp => Some(KeyPageUp)
    case PageDown => Some(KeyPageDown)
    case Num(d) => Some(KeyNum(d))
    case Letter(c) => Some(KeyLetter(c))
    case F(n) => if n <= 20 then Some(KeyF(n)) else None
    case _ => None
  }

  predicate IsModifierKey(k: Keycode)
  {
    k.LAlt? || k.RAlt? || k.LCtrl? || k.RCtrl? || k.LShift? || k.RShift?
  }

  /** Distinct keycodes never produce the same key. */
  lemma KeyForInjective(a: Keycode, b: Keycode)
    requires KeyFor(a).Some? && KeyFor(a) == KeyFor(b)
    ensures a == b
  {
  }

  /** Every key the mapping can produce comes from a keycode. */
  lemma KeyForOnto(key: Key)
    requires !key.KeyF? || key.number <= 20
    ensures exists k :: KeyFor(k) == Some(key)
  {
    match key
    case ArrowDown => assert KeyFor(Down) == Some(key);
    case ArrowLeft => assert KeyFor(Left) == Some(key);
    case ArrowRight => assert KeyFor(Right) == Some(key);
    case ArrowUp => assert KeyFor(Up) == Some(key);
    case KeyEscape => assert KeyFor(Escape) == Some(key);
    case KeyTab => assert KeyFor(Tab) == Some(key);
    case KeyBackspace => assert KeyFor(Backspace) == Some(key);
    case KeyEnter => assert KeyFor(Return) == Some(key);
    case KeySpace => assert KeyFor(Space) == Some(key);
    case KeyInsert => assert KeyFor(Insert) == Some(key);
    case KeyDelete => assert KeyFor(Delete) == Some(key);
    case KeyHome => assert KeyFor(Home) == Some(key);
    case KeyEnd => assert KeyFor(End) == Some(key);
    case KeyPageUp => assert KeyFor(PageUp) == Some(key);
    case KeyPageDown => assert KeyFor(PageDown) == Some(key);
    case KeyNum(d) => assert KeyFor(Num(d)) == Some(key);
    case KeyLetter(c) => assert KeyFor(Letter(c)) == Some(key);
    case KeyF(n) => assert KeyFor(F(n)) == Some(key);
  }

  /** The closures `on_sdl2_event` and `set_fullscreen` hand to `on_current_viewport_mut`. */
  datatype ViewportChange = MinimizeChange | MaximizeChange | FocusChange(focused: bool) | FullscreenChange(fullscreen: bool) | CloseChange

  function ChangeViewport(v: ViewportInfo, c: ViewportChange): ViewportInfo
  {
    match c
    case MinimizeChange => v.(minimized := Some(true), maximized := Some(false))
    case MaximizeChange => v.(minimized := Some(false), maximized := Some(true))
    case FocusChange(f) => v.(focused := Some(f))
    case FullscreenChange(f) => v.(fullscreen := Some(f))
    case CloseChange => v.(events := v.events + [Close])
  }

  /** `on_current_viewport_mut`: the current viewport, when the map holds it, is changed; no
      other viewport and no other field is. */
  function OnCurrentViewport(input: RawInput, c: ViewportChange): (r: RawInput)
    ensures r.viewports.Keys == input.viewports.Keys
    ensures input.viewportId in input.viewports ==>
      r == input.(viewports := input.viewports[input.viewportId := ChangeViewport(input.viewports[input.viewportId], c)])
    ensures input.viewportId !in input.viewports ==> r == input
    ensures forall id :: id in input.viewports && id != input.viewportId ==> r.viewports[id] == input.viewports[id]
  {
    var id := input.viewportId;
    if id in input.viewports then input.(viewports := input.viewports[id := ChangeViewport(input.viewports[id], c)])
    else input
  }

  /** What no SDL event changes: the current viewport and the set of viewports, the screen
      rectangle, the texture side, the time, the frame time and the focus; and events are only
      ever appended, at most one per SDL event. */
  predicate Follows(input: RawInput, r: RawInput)
  {
    && r.viewportId == input.viewportId && r.screenRect == input.screenRect
    && r.maxTextureSide == input.maxTextureSide && r.time == input.time
    && r.predictedDt == input.predictedDt && r.focused == input.focused
    && r.viewports.Keys == input.viewports.Keys
    && (r.events == input.events || (|r.events| == |input.events| + 1 && r.events[..|input.events|] == input.events))
  }

  /** The input after one SDL event, as `on_sdl2_event` leaves it. */
  function Applied(input: RawInput, e: SdlEvent): (r: RawInput)
    ensures Follows(input, r)
  {
    match e
    case KeyDown(keycode) => KeyApplied(input, keycode, true)
    case KeyUp(keycode) => KeyApplied(input, keycode, false)
    case TextInput(text) => input.(events := input.events + [TextEvent(text)])
    case MouseMotion(x, y) => input.(events := input.events + [PointerMoved(Vec2(x as real, y as real))])
    case MouseButtonDown(x, y, b) => ButtonApplied(input, x, y, b, true)
    case MouseButtonUp(x, y, b) => ButtonApplied(input, x, y, b, false)
    case MouseWheel(x, y) => input.(events := input.events + [ScrollEvent(Vec2(x as real, y as real))])
    case DropFile(filename) => input.(hoveredFiles := input.hoveredFiles + [HoveredFile(Some(filename), "")])
    case DropComplete => input.(hoveredFiles := [], droppedFiles := Dropped(input.hoveredFiles))
    case Quit => OnCurrentViewport(input, CloseChange)
    case Window(w) => WindowApplied(input, w)
    case OtherEvent => input
  }

  /** A window event: it changes the current viewport, if any, or nothing. */
  function WindowApplied(input: RawInput, w: WindowEvent): (r: RawInput)
    ensures Follows(input, r) && r.events == input.events
  {
    match w
    case Minimized => OnCurrentViewport(input, MinimizeChange)
    case Maximized => OnCurrentViewport(input, MaximizeChange)
    case FocusGained => OnCurrentViewport(input, FocusChange(true))
    case FocusLost => OnCurrentViewport(input, FocusChange(false))
    case WindowClose => OnCurrentViewport(input, CloseChange)
    case OtherWindowEvent => input
  }

  /** A key going down (`pressed`) or up: the modifier keys only set their flags, a mapped key
      pushes its event with the current modifiers, any other key changes nothing. */
  function KeyApplied(input: RawInput, keycode: Option<Keycode>, pressed: bool): (r: RawInput)
    ensures Follows(input, r)
  {
    match keycode
    case None => input
    case Some(k) =>
      if k.LAlt? || k.RAlt? then input.(modifiers := input.modifiers.(alt := pressed))
      else if k.LCtrl? || k.RCtrl? then input.(modifiers := input.modifiers.(ctrl := pressed, command := pressed))
      else if k.LShift? || k.RShift? then input.(modifiers := input.modifiers.(shift := pressed))
      else match KeyFor(k)
        case None => input
        case Some(key) => input.(events := input.events + [KeyEvent(key, pressed, input.modifiers, false)])
  }

  /** The egui button of an SDL mouse button: left, middle and right only. */
  function ButtonFor(b: MouseButton): (r: Option<PointerButton>)
    ensures r.None? <==> !(b.LeftButton? || b.MiddleButton? || b.RightButton?)
  {
    match b
    case LeftButton => Some(Primary)
    case MiddleButton => Some(Middle)
    case RightButton => Some(Secondary)
    case _ => None
  }

  function ButtonApplied(input: RawInput, x: int, y: int, b: MouseButton, pressed: bool): (r: RawInput)
    ensures Follows(input, r)
  {
    match ButtonFor(b)
    case None => input
    case Some(button) =>
      input.(events := input.events + [PointerButtonEvent(Vec2(x as real, y as real), button, pressed, input.modifiers)])
  }

  /** The dropped files of a completed drop: one per hovered file, with its path and nothing else. */
  function Dropped(hovered: seq<HoveredFile>): (ds: seq<DroppedFile>)
    ensures |ds| == |hovered|
    ensures forall i :: 0 <= i < |ds| ==> ds[i] == DroppedFile(hovered[i].path, "", "", None, None)
  {
    seq(|hovered|, i requires 0 <= i < |hovered| => DroppedFile(hovered[i].path, "", "", None, None))
  }

  /** Alt, Ctrl and Shift (either side) set only their flags and push no event; Ctrl sets both
      `ctrl` and `command`. */
  lemma ModifierKeysOnlySetFlags(input: RawInput, k: Keycode, pressed: bool)
    requires IsModifierKey(k)
    ensures var r := KeyApplied(input, Some(k), pressed);
      && r.events == input.events
      && r == input.(modifiers := r.modifiers)
      && ((k.LAlt? || k.RAlt?) ==> r.modifiers == input.modifiers.(alt := pressed))
      && ((k.LCtrl? || k.RCtrl?) ==> r.modifiers == input.modifiers.(ctrl := pressed, command := pressed))
      && ((k.LShift? || k.RShift?) ==> r.modifiers == input.modifiers.(shift := pressed))
  {
  }

  /** A mapped key pushes one event: the key, whether it went down, the current modifiers and
      no repeat; nothing else changes. Keys without a mapping change nothing at all. */
  lemma KeyEventsOfMappedKeys(input: RawInput, keycode: Option<Keycode>, down: bool)
    ensures var e := if down then KeyDown(keycode) else KeyUp(keycode);
      && (keycode.Some? && KeyFor(keycode.value).Some? ==>
            Applied(input, e) == input.(events := input.events + [KeyEvent(KeyFor(keycode.value).value, down, input.modifiers, false)]))
      && ((keycode.None? || (KeyFor(keycode.value).None? && !IsModifierKey(keycode.value))) ==> Applied(input, e) == input)
  {
  }

  /** Left, middle and right buttons push a pointer button event at the mouse position with
      the current modifiers, pressed on a button down; other buttons change nothing. */
  lemma ButtonEvents(input: RawInput, x: int, y: int, b: MouseButton, down: bool)
    ensures var e := if down then MouseButtonDown(x, y, b) else MouseButtonUp(x, y, b);
      && (ButtonFor(b).Some? ==>
            Applied(input, e) == input.(events := input.events
                                                  + [PointerButtonEvent(Vec2(x as real, y as real), ButtonFor(b).value, down, input.modifiers)]))
      && (ButtonFor(b).None? ==> Applied(input, e) == input)
  {
  }

  /** A dropped file is appended to the hovered ones; a completed drop turns every hovered file,
      in order, into a dropped one and clears the hovered files. */
  lemma DropEvents(input: RawInput, filename: string)
    ensures Applied(input, DropFile(filename)).hoveredFiles == input.hoveredFiles + [HoveredFile(Some(filename), "")]
    ensures Applied(input, DropFile(filename)).events == input.events
    ensures var r := Applied(input, DropComplete);
      r.hoveredFiles == [] && |r.droppedFiles| == |input.hoveredFiles| && r.events == input.events
      && forall i :: 0 <= i < |input.hoveredFiles| ==> r.droppedFiles[i].path == input.hoveredFiles[i].path
  {
  }

  /** Minimizing and maximizing set opposite flags on the current viewport; without a current
      viewport in the map the window events change nothing. */
  lemma WindowEvents(input: RawInput, w: WindowEvent)
    ensures var r, id := Applied(input, Window(w)), input.viewportId;
      && (id in input.viewports && w.Minimized? ==>
            r.viewports[id] == input.viewports[id].(minimized := Some(true), maximized := Some(false)))
      && (id in input.viewports && w.Maximized? ==>
            r.viewports[id] == input.viewports[id].(minimized := Some(false), maximized := Some(true)))
      && (id !in input.viewports ==> r == input)
  {
  }

  /** `Sdl2EguiMapping`: the `RawInput` gathered since the last `take_input`. */
  class Sdl2EguiMapping {
    var input: RawInput

    /** `default`. */
    constructor ()
      ensures input == DefaultInput()
    {
      input := DefaultInput();
    }

    /** `take_input`: hands out the gathered input stamped with the current time (`now`, read
        from the clock) and starts afresh: modifiers, events, hovered and dropped files are
        reset, the viewports, screen rectangle, texture side, frame time and focus are kept. */
    method TakeInput(now: real) returns (r: RawInput)
      modifies this
      ensures r == old(input).(time := Some(now))
      ensures input == Drained(old(input))
    {
      r := input.(time := Some(now));
      input := input.(modifiers := NO_MODIFIERS, events := [], hoveredFiles := [], droppedFiles := []);
    }

    /** `set_sdl2_view_area`. */
    method SetSdl2ViewArea(area: SdlRect)
      modifies this
      ensures input == old(input).(screenRect := Some(ViewArea(area)))
    {
      var x, y, w, h := area.x as real, area.y as real, area.width as real, area.height as real;
      input := input.(screenRect := Some(Rect(Vec2(x, y), Vec2(x + w, y + h))));
    }

    /** `set_target_frame_rate`: egui's predicted frame time becomes one frame at `fps`. For a
        zero rate the quotient is infinite in `f32`. */
    method SetTargetFrameRate(fps: nat)
      requires fps > 0
      modifies this
      ensures input == old(input).(predictedDt := input.predictedDt)
      ensures input.predictedDt > 0.0 && input.predictedDt * fps as real == 1.0
    {
      input := input.(predictedDt := 1.0 / fps as real);
    }

    /** `set_fullscreen`. */
    method SetFullscreen(fullscreen: bool)
      modifies this
      ensures input == OnCurrentViewport(old(input), FullscreenChange(fullscreen))
    {
      OnCurrentViewportMut(FullscreenChange(fullscreen));
    }

    /** `on_current_viewport_mut`. */
    method OnCurrentViewportMut(c: ViewportChange)
      modifies this
      ensures input == OnCurrentViewport(old(input), c)
    {
      var id := input.viewportId;
      if id in input.viewports {
        var v := ChangeViewport(input.viewports[id], c);
        input := input.(viewports := input.viewports[id := v]);
      }
    }

    /** `on_sdl2_event`. */
    method OnSdl2Event(e: SdlEvent)
      modifies this
      ensures input == Applied(old(input), e)
    {
      match e {
        case KeyDown(keycode) => OnKey(keycode, true);
        case KeyUp(keycode) => OnKey(keycode, false);
        case TextInput(text) => input := input.(events := input.events + [TextEvent(text)]);
        case MouseMotion(x, y) => input := input.(events := input.events + [PointerMoved(Vec2(x as real, y as real))]);
        case MouseButtonDown(x, y, b) => OnButton(x, y, b, true);
        case MouseButtonUp(x, y, b) => OnButton(x, y, b, false);
        case MouseWheel(x, y) => input := input.(events := input.events + [ScrollEvent(Vec2(x as real, y as real))]);
        case DropFile(filename) => input := input.(hoveredFiles := input.hoveredFiles + [HoveredFile(Some(filename), "")]);
        case DropComplete =>
          var files := input.hoveredFiles;
          input := input.(hoveredFiles := []);
          input := input.(droppedFiles := Dropped(files));
        case Quit => OnCurrentViewportMut(CloseChange);
        case Window(w) => OnWindowEvent(w);
        case OtherEvent =>
      }
    }

    method OnWindowEvent(w: WindowEvent)
      modifies this
      ensures input == WindowApplied(old(input), w)
    {
      match w {
        case Minimized => OnCurrentViewportMut(MinimizeChange);
        case Maximized => OnCurrentViewportMut(MaximizeChange);
        case FocusGained => OnCurrentViewportMut(FocusChange(true));
        case FocusLost => OnCurrentViewportMut(FocusChange(false));
        case WindowClose => OnCurrentViewportMut(CloseChange);
        case OtherWindowEvent =>
      }
    }

    method OnKey(keycode: Option<Keycode>, pressed: bool)
      modifies this
      ensures input == KeyApplied(old(input), keycode, pressed)
    {
      if keycode.None? {
        return;
      }
      var k := keycode.value;
      if k.LAlt? || k.RAlt? {
        input := input.(modifiers := input.modifiers.(alt := pressed));
        return;
      }
      if k.LCtrl? || k.RCtrl? {
        input := input.(modifiers := input.modifiers.(ctrl := pressed));
        input := input.(modifiers := input.modifiers.(command := pressed));
        return;
      }
      if k.LShift? || k.RShift? {
        input := input.(modifiers := input.modifiers.(shift := pressed));
        return;
      }
      var key := KeyFor(k);
      if key.None? {
        return;
      }
      input := input.(events := input.events + [KeyEvent(key.value, pressed, input.modifiers, false)]);
    }

    method OnButton(x: int, y: int, b: MouseButton, pressed: bool)
      modifies this
      ensures input == ButtonApplied(old(input), x, y, b, pressed)
    {
      var button := ButtonFor(b);
      if button.None? {
        return;
      }
      input := input.(events := input.events + [PointerButtonEvent(Vec2(x as real, y as real), button.value, pressed, input.modifiers)]);
    }
  }

  /** The input `take_input` leaves behind. */
  function Drained(input: RawInput): (r: RawInput)
    ensures r.events == [] && r.hoveredFiles == [] && r.droppedFiles == [] && r.modifiers == NO_MODIFIERS
    ensures r.viewportId == input.viewportId && r.viewports == input.viewports && r.screenRect == input.screenRect
    ensures r.maxTextureSide == input.maxTextureSide && r.time == input.time
    ensures r.predictedDt == input.predictedDt && r.focused == input.focused
  {
    input.(modifiers := NO_MODIFIERS, events := [], hoveredFiles := [], droppedFiles := [])
  }

  /** The screen rectangle of a view area: its corner, and a size equal to the area's. */
  function ViewArea(area: SdlRect): (r: Rect)
    ensures r.min == Vec2(area.x as real, area.y as real)
    ensures r.Width() == area.width as real && r.Height() == area.height as real
  {
    Rect(Vec2(area.x as real, area.y as real), Vec2(area.x as real + area.width as real, area.y as real + area.height as real))
  }

  /** `cursor_icon_to_system_cursor`. */
  datatype CursorIcon =
    | Default | NoIcon | ContextMenu | Help | PointingHand | Progress | Wait | Cell | Crosshair | Text | VerticalText
    | Alias | Copy | Move | NoDrop | NotAllowed | Grab | Grabbing | AllScroll
    | ResizeHorizontal | ResizeNeSw | ResizeNwSe | ResizeVertical | ZoomIn | ZoomOut
    | ResizeEast | ResizeSouthEast | ResizeSouth | ResizeSouthWest | ResizeWest | ResizeNorthWest | ResizeNorth
    | ResizeNorthEast | ResizeColumn | ResizeRow

  datatype SystemCursor = Arrow | IBeam | WaitCursor | CrosshairCursor | WaitArrow | SizeNWSE | SizeNESW | SizeWE | SizeNS | SizeAll | No | Hand

  function SystemCursorFor(icon: CursorIcon): (c: SystemCursor)
    ensures c.Arrow? <==> icon in {Default, NoIcon, ContextMenu, Help, Cell, Alias}
    ensures c.Hand? <==> icon in {PointingHand, Copy, Move, Grab, Grabbing}
    ensures c.No? <==> icon.NoDrop? || icon.NotAllowed?
    ensures !c.WaitCursor?
  {
    match icon
    case Default => Arrow
    case NoIcon => Arrow
    case ContextMenu => Arrow
    case Help => Arrow
    case PointingHand => Hand
    case Progress => WaitArrow
    case Wait => WaitArrow
    case Cell => Arrow
    case Crosshair => CrosshairCursor
    case Text => IBeam
    case VerticalText => IBeam
    case Alias => Arrow
    case Copy => Hand
    case Move => Hand
    case NoDrop => No
    case NotAllowed => No
    case Grab => Hand
    case Grabbing => Hand
    case AllScroll => SizeAll
    case ResizeHorizontal => SizeWE
    case ResizeNeSw => SizeNESW
    case ResizeNwSe => SizeNWSE
    case ResizeVertical => SizeNS
    case ZoomIn => SizeNS
    case ZoomOut => SizeNS
    case ResizeEast => SizeWE
    case ResizeSouthEast => SizeAll
    case ResizeSouth => SizeNS
    case ResizeSouthWest => SizeAll
    case ResizeWest => SizeWE
    case ResizeNorthWest => SizeAll
    case ResizeNorth => SizeNS
    case ResizeNorthEast => SizeAll
    case ResizeColumn => SizeWE
    case ResizeRow => SizeNS
  }
}
