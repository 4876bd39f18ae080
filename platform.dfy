/** The `Platform` adapter itself: its fields, updated in place as SDL events
    arrive, and the egui input batch it hands over when a frame begins. Every
    event handler is proved to follow `Translate.Step`; what each kind of event
    does is stated and proved there. */
module PlatformAdapter {
  import opened Types
  import opened KeyModifiers
  import opened Translate
  import opened PlatformOutput

  class Platform {
    // The native cursor: the kind its handle was built from (`None` when no
    // handle could be acquired), and the kind last requested.
    var cursor: Option<SystemCursor>
    var systemCursor: SystemCursor
    // The last pointer position and the current modifiers.
    var pointerPos: Pos
    var modifiers: Modifiers
    // IME: a composition is in progress; an enabled notice is outstanding.
    var compositing: bool
    var hasSentImeEnabled: bool
    // The fields of egui's `RawInput` the adapter fills in.
    var screenRect: Option<Rect>
    var inputModifiers: Modifiers
    var time: Option<real>
    var events: seq<GuiEvent>
    // Every event ever queued, across frames; `events` is its tail.
    ghost var sent: seq<GuiEvent>

    /** The queue is what was sent since the last frame began, both modifier
        fields agree, no two IME-enabled notices were ever sent without a
        disabled notice between them, and `hasSentImeEnabled` says whether one
        is outstanding. */
    ghost predicate Valid()
      reads this`inputModifiers, this`modifiers, this`events, this`sent, this`hasSentImeEnabled
    {
      inputModifiers == modifiers &&
      |events| <= |sent| && events == sent[|sent| - |events|..] &&
      ImeAlternates(sent, false) && ImeOutstanding(sent, false) == hasSentImeEnabled
    }

    /** The fields event handling touches, as a value. */
    function State(): PlatformState
      reads this
    {
      PlatformState(pointerPos, modifiers, compositing, hasSentImeEnabled,
                    RawInput(screenRect, inputModifiers, time, events))
    }

    /** The cursor fields, as a value. */
    function Cursor(): CursorState
      reads this
    {
      CursorState(cursor, systemCursor)
    }

    /** A new adapter targeting `rect`; `cursorCreated` says whether the
        arrow cursor could be acquired. */
    constructor Init(rect: Rect, cursorCreated: bool)
      ensures Valid()
      ensures State() == Initial(rect) && sent == []
      ensures Cursor() == CursorState(if cursorCreated then Some(Arrow) else None, Arrow)
    {
      cursor := if cursorCreated then Some(Arrow) else None;
      systemCursor := Arrow;
      pointerPos := Origin;
      screenRect := Some(rect);
      inputModifiers := NoModifiers;
      time := None;
      events := [];
      compositing := false;
      hasSentImeEnabled := false;
      modifiers := NoModifiers;
      sent := [];
    }

    /** `Platform::targeting`: fails when the clipboard cannot be opened
        (`clipboardReady` is false); a missing cursor is not an error. */
    static method Targeting(rect: Rect, cursorCreated: bool, clipboardReady: bool) returns (p: Platform?)
      ensures p == null <==> !clipboardReady
      ensures p != null ==> fresh(p) && p.Valid() && p.State() == Initial(rect) && p.sent == [] &&
                            p.Cursor() == CursorState(if cursorCreated then Some(Arrow) else None, Arrow)
    {
      if !clipboardReady {
        return null;
      }
      p := new Platform.Init(rect, cursorCreated);
    }

    /** `Platform::new`: targets the rectangle at the origin of the screen's
        size. */
    static method New(width: nat, height: nat, cursorCreated: bool, clipboardReady: bool) returns (p: Platform?)
      ensures p == null <==> !clipboardReady
      ensures p != null ==> fresh(p) && p.Valid() && p.sent == [] &&
                            p.State() == Initial(Rect(Origin, Pos(width, height))) &&
                            p.Cursor() == CursorState(if cursorCreated then Some(Arrow) else None, Arrow)
    {
      p := Targeting(RectFromMinSize(Origin, Vec2(width, height)), cursorCreated, clipboardReady);
    }

    /** Replaces the screen rectangle; nothing is queued. */
    method ChangeTarget(rect: Rect)
      modifies this`screenRect
      ensures State() == old(State()).(input := old(State()).input.(screenRect := Some(rect)))
    {
      screenRect := Some(rect);
    }

    method PushEvent(e: GuiEvent)
      modifies this`events
      ensures events == old(events) + [e]
    {
      events := events + [e];
    }

    /** `ime_event_enable`. */
    method ImeEventEnable()
      modifies this`events, this`hasSentImeEnabled
      ensures State() == ImeEnable(old(State()))
    {
      if !hasSentImeEnabled {
        PushEvent(Ime(Enabled));
        hasSentImeEnabled := true;
      }
    }

    /** `ime_event_disable`. */
    method ImeEventDisable()
      modifies this`events, this`hasSentImeEnabled
      ensures State() == ImeDisable(old(State()))
    {
      PushEvent(Ime(Disabled));
      hasSentImeEnabled := false;
    }

    /** `handle_event`: `keymap` is SDL's keycode-to-egui-key conversion and
        `clipboard` what the clipboard answers if asked for text. */
    method HandleEvent(e: SdlEvent, keymap: Keycode -> Option<Key>, clipboard: Option<string>)
      requires Valid()
      modifies this`pointerPos, this`modifiers, this`compositing, this`hasSentImeEnabled,
               this`screenRect, this`inputModifiers, this`events, this`sent
      ensures Valid()
      ensures State() == Step(old(State()), e, keymap, clipboard)
      ensures events == old(events) + Emitted(old(State()), e, keymap, clipboard)
      ensures sent == old(sent) + Emitted(old(State()), e, keymap, clipboard)
    {
      ghost var s0 := State();
      Dispatch(e, keymap, clipboard);
      ghost var out := Emitted(s0, e, keymap, clipboard);
      sent := sent + out;
      StepKeepsImeDiscipline(s0, e, keymap, clipboard);
      ImeAppend(old(sent), out, false);
      assert events == sent[|sent| - |events|..];
    }

    /** The body of `handle_event`: one branch per kind of SDL event. */
    method Dispatch(e: SdlEvent, keymap: Keycode -> Option<Key>, clipboard: Option<string>)
      modifies this`pointerPos, this`modifiers, this`compositing, this`hasSentImeEnabled,
               this`screenRect, this`inputModifiers, this`events
      ensures State() == Step(old(State()), e, keymap, clipboard)
    {
      match e {
        case Window(we) =>
          match we {
            case Resized(w, h) => ChangeTarget(RectFromMinSize(Origin, Vec2(w, h)));
            case SizeChanged(w, h) => ChangeTarget(RectFromMinSize(Origin, Vec2(w, h)));
            case OtherWindowEvent =>
          }
        case MouseButtonDown(b, _, _) =>
          var btn := ButtonOf(b);
          if btn.Some? {
            PushEvent(PointerButtonEvent(pointerPos, btn.value, true, modifiers));
          }
        case MouseButtonUp(b, _, _) =>
          var btn := ButtonOf(b);
          if btn.Some? {
            PushEvent(PointerButtonEvent(pointerPos, btn.value, false, modifiers));
          }
        case MouseMotion(x, y) =>
          pointerPos := Pos(x, y);
          PushEvent(PointerMoved(pointerPos));
        case MouseWheelEvent(x, y) =>
          var delta := Vec2(x * 8, y * 8);
          PushEvent(MouseWheel(delta, Point, modifiers));
        case KeyDown(keycode, keymod) =>
          if keycode.Some? {
            var key := keymap(keycode.value);
            if key.Some? {
              var m := ModifiersOf(keymod);
              if m.ctrl {
                match key.value {
                  case C => PushEvent(GuiEvent.Copy);
                  case X => PushEvent(Cut);
                  case V =>
                    if clipboard.Some? {
                      PushEvent(Paste(clipboard.value));
                    }
                  case OtherKey(_) =>
                }
              }
              modifiers := m;
              inputModifiers := modifiers;
              PushEvent(KeyEvent(key.value, Some(key.value), true, false, modifiers));
            }
          }
        case KeyUp(keycode, keymod) =>
          if keycode.Some? {
            var key := keymap(keycode.value);
            if key.Some? {
              modifiers := ModifiersOf(keymod);
              inputModifiers := modifiers;
              PushEvent(KeyEvent(key.value, Some(key.value), false, false, modifiers));
            }
          }
        case TextInput(text) =>
          var wasCompositing := compositing;
          compositing := false;
          if wasCompositing {
            PushEvent(Ime(Commit(text)));
            ImeEventDisable();
          } else {
            PushEvent(GuiEvent.Text(text));
          }
        case TextEditing(text, start, length) =>
          if (start == 0 && length == 0) || |text| == 0 {
            ImeEventDisable();
          } else {
            ImeEventEnable();
            compositing := true;
            PushEvent(Ime(Preedit(text)));
          }
        case OtherEvent =>
      }
    }

    /** `update_time`: the time handed to egui with the next frame. */
    method UpdateTime(duration: real)
      requires Valid()
      modifies this`time
      ensures Valid()
      ensures State() == old(State()).(input := old(State()).input.(time := Some(duration)))
    {
      time := Some(duration);
    }

    /** `context`: begins an egui frame with the input gathered so far, which
        `RawInput::take` moves out of the adapter, leaving the queue empty. */
    method Context() returns (batch: RawInput)
      requires Valid()
      modifies this`events
      ensures Valid()
      ensures batch == old(State()).input
      ensures State() == old(State()).(input := batch.(events := []))
    {
      batch := RawInput(screenRect, inputModifiers, time, events);
      events := [];
    }

    /** `set_pixels_per_point` goes through `context`, so it too begins a
        frame and empties the queue; the scale itself is egui's. */
    method SetPixelsPerPoint(pixelsPerPoint: real) returns (batch: RawInput)
      requires Valid()
      modifies this`events
      ensures Valid()
      ensures batch == old(State()).input
      ensures State() == old(State()).(input := batch.(events := []))
    {
      batch := Context();
    }

    /** `autoupdate_platform`: runs the commands (`accepted[i]`: whether the
        platform carried out command `i`) and, when all succeeded, updates the
        cursor (`created`: whether a native cursor of the new kind could be
        built). `issued` is how many commands reached the platform. */
    method AutoupdatePlatform(commands: seq<OutputCommand>, accepted: seq<bool>, icon: CursorIcon, created: bool)
      returns (issued: nat, r: Outcome)
      requires |accepted| == |commands|
      modifies this`cursor, this`systemCursor
      ensures var k := FirstRejected(accepted);
              if k < |commands| then
                issued == k + 1 && r == Fail(CommandFailed(commands[k])) && Cursor() == old(Cursor())
              else
                issued == |commands| && (Cursor(), r) == UpdateCursor(old(Cursor()), icon, created)
    {
      issued, r := RunCommands(commands, accepted);
      if r.Fail? {
        return;
      }
      if cursor.Some? {
        var newCursor := SystemCursorOf(icon);
        if systemCursor != newCursor {
          systemCursor := newCursor;
          if !created {
            r := Fail(CursorFailed(newCursor));
            return;
          }
          cursor := Some(newCursor);
        }
      }
    }
  }

  /** Beginning two frames in a row hands the queued events to the first and
      none to the second. */
  method BeginTwoFrames(p: Platform) returns (first: RawInput, second: RawInput)
    requires p.Valid()
    modifies p`events
    ensures first.events == old(p.events)
    ensures second.events == []
  {
    first := p.Context();
    second := p.Context();
  }
}
