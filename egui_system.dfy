/** `EguiSystem`: the egui context's frame driver. It feeds the mapping's gathered input, with
    clipboard shortcuts injected, to egui, follows egui's cursor, and keeps egui's texture delta
    and tessellated primitives for the painters. */
module EguiIntegration {
  import opened Base
  import opened EguiMeshes
  import opened EguiBinding

  /** `is_key_pressed`: some event is that key going down. */
  function IsKeyPressed(events: seq<Event>, key: Key): (r: bool)
    ensures r <==> exists i :: 0 <= i < |events| && events[i].KeyEvent? && events[i].pressed && events[i].key == key
  {
    if events == [] then false
    else
      var rest := IsKeyPressed(events[1..], key);
      assert forall i :: 1 <= i < |events| ==> events[i] == events[1..][i - 1];
      (events[0].KeyEvent? && events[0].pressed && events[0].key == key) || rest
  }

  /** Appending an event keeps every pressed key pressed. */
  lemma {:induction false} KeyPressedAfterAppend(events: seq<Event>, more: seq<Event>, key: Key)
    requires IsKeyPressed(events, key)
    ensures IsKeyPressed(events + more, key)
  {
    var i :| 0 <= i < |events| && events[i].KeyEvent? && events[i].pressed && events[i].key == key;
    assert (events + more)[i] == events[i];
  }

  datatype ClipboardError = ClipboardError

  const C := KeyLetter('C')
  const X := KeyLetter('X')
  const V := KeyLetter('V')

  /** `inject_shortcuts`, with the clipboard's answer as `clipboard`: the input, and whether the
      clipboard was read. With the command modifier held, a pressed C adds a copy, else a pressed
      X a cut, else a pressed V a paste of the clipboard's text, when it can be read. */
  function InjectShortcuts(input: RawInput, clipboard: Result<string, ClipboardError>): (r: (RawInput, bool))
    ensures r.0 == input.(events := r.0.events)
    ensures r.0.events == input.events || (|r.0.events| == |input.events| + 1 && r.0.events[..|input.events|] == input.events)
    ensures !input.modifiers.command ==> r.0 == input
    ensures r.1 <==> (input.modifiers.command && !IsKeyPressed(input.events, C) && !IsKeyPressed(input.events, X)
                      && IsKeyPressed(input.events, V))
    ensures input.modifiers.command && IsKeyPressed(input.events, C) ==> r.0.events == input.events + [CopyEvent]
    ensures input.modifiers.command && !IsKeyPressed(input.events, C) && IsKeyPressed(input.events, X) ==>
      r.0.events == input.events + [CutEvent]
    ensures r.1 ==> r.0.events == input.events + (if clipboard.Ok? then [PasteEvent(clipboard.value)] else [])
    ensures (input.modifiers.command && !IsKeyPressed(input.events, C) && !IsKeyPressed(input.events, X)
             && !IsKeyPressed(input.events, V)) ==> r.0 == input
  {
    if !input.modifiers.command then (input, false)
    else if IsKeyPressed(input.events, C) then (input.(events := input.events + [CopyEvent]), false)
    else if IsKeyPressed(input.events, X) then (input.(events := input.events + [CutEvent]), false)
    else if IsKeyPressed(input.events, V) then
      match clipboard
      case Ok(text) => (input.(events := input.events + [PasteEvent(text)]), true)
      case Err(_) => (input, true)
    else (input, false)
  }

  /** An appended event that is no key event leaves the pressed keys as they were. */
  lemma PressedKeysAfterNonKey(events: seq<Event>, e: Event, key: Key)
    requires !e.KeyEvent?
    ensures IsKeyPressed(events + [e], key) <==> IsKeyPressed(events, key)
  {
    var more := events + [e];
    if IsKeyPressed(more, key) {
      var i :| 0 <= i < |more| && more[i].KeyEvent? && more[i].pressed && more[i].key == key;
      assert i < |events| && more[i] == events[i];
    }
    if IsKeyPressed(events, key) {
      KeyPressedAfterAppend(events, [e], key);
    }
  }

  /** An injected event never changes which keys are pressed, so injecting again adds the same
      kind of event once more: the injection only reads the key events already there. */
  lemma InjectionKeepsPressedKeys(input: RawInput, clipboard: Result<string, ClipboardError>, key: Key)
    ensures IsKeyPressed(InjectShortcuts(input, clipboard).0.events, key) <==> IsKeyPressed(input.events, key)
  {
    var events := input.events;
    if input.modifiers.command {
      if IsKeyPressed(events, C) {
        PressedKeysAfterNonKey(events, CopyEvent, key);
      } else if IsKeyPressed(events, X) {
        PressedKeysAfterNonKey(events, CutEvent, key);
      } else if IsKeyPressed(events, V) && clipboard.Ok? {
        PressedKeysAfterNonKey(events, PasteEvent(clipboard.value), key);
      }
    }
  }

  /** The cursor check of `update`: egui's icon is remembered, and it is applied only when it
      differs from the remembered one. */
  function CursorUpdate(current: Option<CursorIcon>, icon: CursorIcon): (r: (Option<CursorIcon>, bool))
    ensures r.0 == Some(icon)
    ensures r.1 <==> current != Some(icon)
  {
    var same := current.Some? && current.value == icon;
    (Some(icon), !same)
  }

  /** The same icon twice in a row is applied at most once. */
  lemma CursorAppliedOnce(current: Option<CursorIcon>, icon: CursorIcon)
    ensures !CursorUpdate(CursorUpdate(current, icon).0, icon).1
  {
  }

  class EguiSystem {
    const binding: Sdl2EguiMapping
    var currentCursor: Option<CursorIcon>
    var width: real
    var height: real
    /** The texture delta to upload next. */
    var textureDelta: TexturesDelta
    /** The primitives to render next. */
    var clippedPrimitives: seq<ClippedPrimitive>

    /** `default`. */
    constructor ()
      ensures fresh(binding) && binding.input == DefaultInput()
      ensures currentCursor == None && width == 0.0 && height == 0.0
      ensures textureDelta == TexturesDelta([], []) && clippedPrimitives == []
    {
      binding := new Sdl2EguiMapping();
      currentCursor := None;
      width := 0.0;
      height := 0.0;
      textureDelta := TexturesDelta([], []);
      clippedPrimitives := [];
    }

    /** `on_sdl2_event`: forwarded to the mapping. */
    method OnSdl2Event(e: SdlEvent)
      modifies binding
      ensures binding.input == Applied(old(binding.input), e)
    {
      binding.OnSdl2Event(e);
    }

    /** `set_target_frame_rate`: forwarded to the mapping. */
    method SetTargetFrameRate(fps: U16)
      requires fps > 0
      modifies binding
      ensures binding.input == old(binding.input).(predictedDt := 1.0 / fps as real)
    {
      binding.SetTargetFrameRate(fps);
    }

    /** `set_fullscreen`: forwarded to the mapping. */
    method SetFullscreen(fullscreen: bool)
      modifies binding
      ensures binding.input == OnCurrentViewport(old(binding.input), FullscreenChange(fullscreen))
    {
      binding.SetFullscreen(fullscreen);
    }

    /** `set_sdl2_view_area`: the area's size becomes the system's, and the area the mapping's
        screen rectangle. */
    method SetSdl2ViewArea(area: SdlRect)
      modifies this, binding
      ensures width == area.width as real && height == area.height as real
      ensures binding.input == old(binding.input).(screenRect := Some(ViewArea(area)))
      ensures currentCursor == old(currentCursor) && textureDelta == old(textureDelta)
      ensures clippedPrimitives == old(clippedPrimitives)
    {
      width := area.width as real;
      height := area.height as real;
      binding.SetSdl2ViewArea(area);
    }

    /** `update`. `area` is the SDL rectangle at (0, 0) of the frame's size, `now` the clock,
        `clipboard` what reading the clipboard yields; egui's run is given by its output: the
        cursor icon, the texture delta and the tessellated primitives, and `cursorCreated` says
        whether SDL could create the system cursor. Returns the input egui was run on, whether
        the clipboard was read, and the cursor that was set, if any. */
    method Update(area: SdlRect, now: real, clipboard: Result<string, ClipboardError>, icon: CursorIcon, cursorCreated: bool,
                  delta: TexturesDelta, primitives: seq<ClippedPrimitive>)
      returns (fed: RawInput, clipboardRead: bool, cursorSet: Option<SystemCursor>)
      modifies this, binding
      ensures width == area.width as real && height == area.height as real
      ensures var gathered := old(binding.input).(screenRect := Some(ViewArea(area)));
        && (fed, clipboardRead) == InjectShortcuts(gathered.(time := Some(now)), clipboard)
        && binding.input == Drained(gathered)
      ensures currentCursor == Some(icon)
      ensures cursorSet == if old(currentCursor) != Some(icon) && cursorCreated then Some(SystemCursorFor(icon)) else None
      ensures textureDelta == delta && clippedPrimitives == primitives
    {
      SetSdl2ViewArea(area);
      var taken := binding.TakeInput(now);
      var injected := InjectShortcuts(taken, clipboard);
      fed, clipboardRead := injected.0, injected.1;
      var cursor := CursorUpdate(currentCursor, icon);
      cursorSet := None;
      if cursor.1 {
        currentCursor := cursor.0;
        if cursorCreated {
          cursorSet := Some(SystemCursorFor(icon));
        }
      }
      textureDelta := delta;
      clippedPrimitives := primitives;
    }
  }
}
