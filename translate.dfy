/** The event-translation state machine of `Platform::handle_event` as a pure
    function: from the adapter's state and one SDL event to the next state,
    whose queue is the old queue with the translated egui events appended.
    The class in `PlatformAdapter` is proved to follow it step by step; the
    lemmas here state what each kind of event does. */
module Translate {
  import opened Types
  import opened KeyModifiers

  /** The adapter's fields that event handling touches, with egui's
      `RawInput` as `input`. */
  datatype PlatformState = PlatformState(
    pointerPos: Pos,
    modifiers: Modifiers,
    compositing: bool,
    hasSentImeEnabled: bool,
    input: RawInput)

  /** One SDL event together with what the clipboard would answer if asked
      for text while it is handled (`None`: no text, an error, or no
      clipboard support built in). */
  datatype Delivery = Delivery(event: SdlEvent, clipboard: Option<string>)

  /** The state of a new adapter targeting `rect`: pointer at the origin, no
      modifiers, no composition, nothing queued and no time set. */
  function Initial(rect: Rect): PlatformState {
    PlatformState(Origin, NoModifiers, false, false, RawInput(Some(rect), NoModifiers, None, []))
  }

  function Push(s: PlatformState, e: GuiEvent): PlatformState {
    s.(input := s.input.(events := s.input.events + [e]))
  }

  /** `t` differs from `s` at most in its event queue. */
  predicate OnlyQueueChanged(s: PlatformState, t: PlatformState) {
    t == s.(input := s.input.(events := t.input.events))
  }

  /** SDL's left, middle and right buttons are egui's primary, middle and
      secondary buttons; the others have no egui counterpart. */
  function ButtonOf(b: MouseButton): Option<PointerButton> {
    match b
    case Left => Some(Primary)
    case Middle => Some(PointerButton.Middle)
    case Right => Some(Secondary)
    case _ => None
  }

  /** `ime_event_enable`: announce the IME once. */
  function ImeEnable(s: PlatformState): PlatformState {
    if !s.hasSentImeEnabled then Push(s, Ime(Enabled)).(hasSentImeEnabled := true) else s
  }

  /** `ime_event_disable`: always announce, and allow the next enable. */
  function ImeDisable(s: PlatformState): PlatformState {
    Push(s, Ime(Disabled)).(hasSentImeEnabled := false)
  }

  /** With ctrl held, key C queues Copy, X queues Cut and V queues Paste of
      the clipboard's text when it has some. */
  function Intercept(s: PlatformState, key: Key, clipboard: Option<string>): PlatformState {
    match key
    case C => Push(s, Copy)
    case X => Push(s, Cut)
    case V => if clipboard.Some? then Push(s, Paste(clipboard.value)) else s
    case _ => s
  }

  /** A key press (`pressed`) or release: only a keycode that maps to an egui
      key has any effect; then the modifiers are recomputed from the mask, the
      clipboard shortcuts are intercepted on a press, and the key is queued. */
  function KeyChange(s: PlatformState, keycode: Option<Keycode>, keymod: Keymod, pressed: bool,
                     keymap: Keycode -> Option<Key>, clipboard: Option<string>): PlatformState
  {
    if keycode.None? || keymap(keycode.value).None? then s
    else
      var key := keymap(keycode.value).value;
      var m := ModifiersOf(keymod);
      var s1 := if pressed && m.ctrl then Intercept(s, key, clipboard) else s;
      Push(s1.(modifiers := m, input := s1.input.(modifiers := m)), KeyEvent(key, Some(key), pressed, false, m))
  }

  /** `handle_event` on one SDL event. */
  function Step(s: PlatformState, e: SdlEvent, keymap: Keycode -> Option<Key>, clipboard: Option<string>): PlatformState {
    match e
    case Window(Resized(w, h)) => s.(input := s.input.(screenRect := Some(RectFromMinSize(Origin, Vec2(w, h)))))
    case Window(SizeChanged(w, h)) => s.(input := s.input.(screenRect := Some(RectFromMinSize(Origin, Vec2(w, h)))))
    case Window(OtherWindowEvent) => s
    case MouseButtonDown(b, _, _) =>
      if ButtonOf(b).Some? then Push(s, PointerButtonEvent(s.pointerPos, ButtonOf(b).value, true, s.modifiers)) else s
    case MouseButtonUp(b, _, _) =>
      if ButtonOf(b).Some? then Push(s, PointerButtonEvent(s.pointerPos, ButtonOf(b).value, false, s.modifiers)) else s
    case MouseMotion(x, y) => Push(s.(pointerPos := Pos(x, y)), PointerMoved(Pos(x, y)))
    case MouseWheelEvent(x, y) => Push(s, MouseWheel(Vec2(x * 8, y * 8), Point, s.modifiers))
    case KeyDown(keycode, keymod) => KeyChange(s, keycode, keymod, true, keymap, clipboard)
    case KeyUp(keycode, keymod) => KeyChange(s, keycode, keymod, false, keymap, clipboard)
    case TextInput(text) =>
      if s.compositing then ImeDisable(Push(s.(compositing := false), Ime(Commit(text))))
      else Push(s, Text(text))
    case TextEditing(text, start, length) =>
      if (start == 0 && length == 0) || |text| == 0 then ImeDisable(s)
      else Push(ImeEnable(s).(compositing := true), Ime(Preedit(text)))
    case OtherEvent => s
  }

  /** The egui events one SDL event queues: the queue only ever grows at its
      end, so what was queued before stays as it was. */
  function Emitted(s: PlatformState, e: SdlEvent, keymap: Keycode -> Option<Key>, clipboard: Option<string>): (out: seq<GuiEvent>)
    ensures Step(s, e, keymap, clipboard).input.events == s.input.events + out
    ensures |out| <= 3
  {
    var t := Step(s, e, keymap, clipboard);
    assert s.input.events <= t.input.events;
    t.input.events[|s.input.events|..]
  }

  /** Handling a sequence of SDL events one after the other. */
  function Run(s: PlatformState, ds: seq<Delivery>, keymap: Keycode -> Option<Key>): PlatformState
    decreases |ds|
  {
    if ds == [] then s else Run(Step(s, ds[0].event, keymap, ds[0].clipboard), ds[1..], keymap)
  }

  // ------------------------------------------------------------ window events

  /** A resize or size change replaces the screen rectangle with the one at
      the origin of the new size and queues nothing. */
  lemma ResizeSetsScreenRect(s: PlatformState, w: int, h: int, keymap: Keycode -> Option<Key>, clipboard: Option<string>)
    ensures Step(s, Window(Resized(w, h)), keymap, clipboard) == s.(input := s.input.(screenRect := Some(Rect(Pos(0, 0), Pos(w, h)))))
    ensures Step(s, Window(SizeChanged(w, h)), keymap, clipboard) == s.(input := s.input.(screenRect := Some(Rect(Pos(0, 0), Pos(w, h)))))
  {
  }

  /** Any other window event, and any event kind the adapter does not list,
      changes nothing. */
  lemma IgnoredEventsChangeNothing(s: PlatformState, keymap: Keycode -> Option<Key>, clipboard: Option<string>)
    ensures Step(s, Window(OtherWindowEvent), keymap, clipboard) == s
    ensures Step(s, OtherEvent, keymap, clipboard) == s
  {
  }

  // ------------------------------------------------------------- mouse events

  /** The button table is one-to-one and covers exactly left, middle and right. */
  lemma ButtonOfOneToOne(a: MouseButton, b: MouseButton)
    ensures ButtonOf(a).Some? <==> a == Left || a == MouseButton.Middle || a == Right
    ensures ButtonOf(a).Some? && ButtonOf(a) == ButtonOf(b) ==> a == b
    ensures ButtonOf(a).Some? ==> ButtonOf(a).value != Extra1 && ButtonOf(a).value != Extra2
  {
  }

  /** A mapped button press or release queues one pointer-button event at the
      stored pointer position (not the event's own coordinates) with the
      current modifiers; an unmapped button queues nothing. Nothing but the
      queue changes. */
  lemma MouseButtonQueuesStoredPosition(s: PlatformState, b: MouseButton, x: int, y: int, pressed: bool,
                                        keymap: Keycode -> Option<Key>, clipboard: Option<string>)
    ensures var e := if pressed then MouseButtonDown(b, x, y) else MouseButtonUp(b, x, y);
            OnlyQueueChanged(s, Step(s, e, keymap, clipboard)) &&
            Emitted(s, e, keymap, clipboard) ==
              if ButtonOf(b).Some? then [PointerButtonEvent(s.pointerPos, ButtonOf(b).value, pressed, s.modifiers)] else []
  {
  }

  /** Motion records the new pointer position and queues one pointer-moved
      event carrying it. */
  lemma MotionMovesPointer(s: PlatformState, x: int, y: int, keymap: Keycode -> Option<Key>, clipboard: Option<string>)
    ensures Step(s, MouseMotion(x, y), keymap, clipboard).pointerPos == Pos(x, y)
    ensures Emitted(s, MouseMotion(x, y), keymap, clipboard) == [PointerMoved(Pos(x, y))]
    ensures OnlyQueueChanged(s.(pointerPos := Pos(x, y)), Step(s, MouseMotion(x, y), keymap, clipboard))
  {
  }

  /** The wheel queues one scroll of eight points per tick on each axis, with
      the current modifiers, and leaves the pointer where it was. */
  lemma WheelScalesByEight(s: PlatformState, x: int, y: int, keymap: Keycode -> Option<Key>, clipboard: Option<string>)
    ensures Emitted(s, MouseWheelEvent(x, y), keymap, clipboard) == [MouseWheel(Vec2(8 * x, 8 * y), Point, s.modifiers)]
    ensures OnlyQueueChanged(s, Step(s, MouseWheelEvent(x, y), keymap, clipboard))
  {
  }

  // ---------------------------------------------------------------- keyboard

  /** A key event without a keycode, or whose keycode maps to no egui key,
      changes nothing: neither the queue nor the modifiers. */
  lemma UnmappedKeyChangesNothing(s: PlatformState, keycode: Option<Keycode>, keymod: Keymod,
                                  keymap: Keycode -> Option<Key>, clipboard: Option<string>)
    requires keycode.None? || keymap(keycode.value).None?
    ensures Step(s, KeyDown(keycode, keymod), keymap, clipboard) == s
    ensures Step(s, KeyUp(keycode, keymod), keymap, clipboard) == s
  {
  }

  /** After a mapped key event both modifier fields equal the flags read from
      that event's mask: two states, whatever they held, end with the same
      modifiers. */
  lemma KeyModifiersRecomputed(s1: PlatformState, s2: PlatformState, kc: Keycode, keymod: Keymod, pressed: bool,
                               keymap: Keycode -> Option<Key>, clipboard: Option<string>)
    requires keymap(kc).Some?
    ensures var e := if pressed then KeyDown(Some(kc), keymod) else KeyUp(Some(kc), keymod);
            var t1, t2 := Step(s1, e, keymap, clipboard), Step(s2, e, keymap, clipboard);
            t1.modifiers == t2.modifiers == t1.input.modifiers == ModifiersOf(keymod)
  {
  }

  /** A mapped key press queues, when ctrl is held, Copy for C, Cut for X or
      Paste for V when the clipboard has text, and then in every case the key
      itself as pressed and not repeated. Only the modifiers and the queue
      change. */
  lemma KeyDownQueues(s: PlatformState, kc: Keycode, keymod: Keymod, keymap: Keycode -> Option<Key>, clipboard: Option<string>)
    requires keymap(kc).Some?
    ensures var key, m := keymap(kc).value, ModifiersOf(keymod);
            var shortcut :=
              if m.ctrl && key == C then [Copy]
              else if m.ctrl && key == X then [Cut]
              else if m.ctrl && key == V && clipboard.Some? then [Paste(clipboard.value)]
              else [];
            Emitted(s, KeyDown(Some(kc), keymod), keymap, clipboard) == shortcut + [KeyEvent(key, Some(key), true, false, m)] &&
            OnlyQueueChanged(s.(modifiers := m, input := s.input.(modifiers := m)), Step(s, KeyDown(Some(kc), keymod), keymap, clipboard))
  {
  }

  /** A mapped key release is never intercepted: it queues the key alone, as
      released. */
  lemma KeyUpQueuesRelease(s: PlatformState, kc: Keycode, keymod: Keymod, keymap: Keycode -> Option<Key>, clipboard: Option<string>)
    requires keymap(kc).Some?
    ensures var key, m := keymap(kc).value, ModifiersOf(keymod);
            Emitted(s, KeyUp(Some(kc), keymod), keymap, clipboard) == [KeyEvent(key, Some(key), false, false, m)] &&
            OnlyQueueChanged(s.(modifiers := m, input := s.input.(modifiers := m)), Step(s, KeyUp(Some(kc), keymod), keymap, clipboard))
  {
  }

  // --------------------------------------------------------------------- IME

  /** Committed text ends a composition: while composing it queues the commit
      and then the IME-disabled notice and allows the next enable; otherwise
      plain text only. Either way no composition is in progress afterwards. */
  lemma TextInputCommits(s: PlatformState, text: string, keymap: Keycode -> Option<Key>, clipboard: Option<string>)
    ensures var t := Step(s, TextInput(text), keymap, clipboard);
            !t.compositing && t.pointerPos == s.pointerPos && t.modifiers == s.modifiers &&
            t.input.(events := s.input.events) == s.input &&
            if s.compositing then
              Emitted(s, TextInput(text), keymap, clipboard) == [Ime(Commit(text)), Ime(Disabled)] && !t.hasSentImeEnabled
            else
              Emitted(s, TextInput(text), keymap, clipboard) == [Text(text)] && t.hasSentImeEnabled == s.hasSentImeEnabled
  {
  }

  /** A composition update with an empty range at zero, or with no text,
      queues the IME-disabled notice and allows the next enable, but leaves
      the composing flag as it was. Any other update queues the enabled notice
      unless one is outstanding, then the preedit text, and marks both flags. */
  lemma TextEditingUpdates(s: PlatformState, text: string, start: int, length: int,
                           keymap: Keycode -> Option<Key>, clipboard: Option<string>)
    ensures var e := TextEditing(text, start, length);
            var t := Step(s, e, keymap, clipboard);
            t.pointerPos == s.pointerPos && t.modifiers == s.modifiers &&
            t.input.(events := s.input.events) == s.input &&
            if (start == 0 && length == 0) || text == [] then
              Emitted(s, e, keymap, clipboard) == [Ime(Disabled)] && !t.hasSentImeEnabled && t.compositing == s.compositing
            else
              Emitted(s, e, keymap, clipboard) == (if s.hasSentImeEnabled then [] else [Ime(Enabled)]) + [Ime(Preedit(text))] &&
              t.hasSentImeEnabled && t.compositing
  {
  }

  /** `evs` never announces the IME as enabled while an earlier enabled notice
      is still outstanding (`enabled`); a disabled notice ends it. */
  predicate ImeAlternates(evs: seq<GuiEvent>, enabled: bool)
    decreases |evs|
  {
    evs == [] ||
    match evs[0]
    case Ime(Enabled) => !enabled && ImeAlternates(evs[1..], true)
    case Ime(Disabled) => ImeAlternates(evs[1..], false)
    case _ => ImeAlternates(evs[1..], enabled)
  }

  /** An IME enabled or disabled notice (preedit and commit are not). */
  predicate IsImeNotice(e: GuiEvent) {
    e == Ime(Enabled) || e == Ime(Disabled)
  }

  /** Whether an enabled notice is outstanding after `evs`. */
  function ImeOutstanding(evs: seq<GuiEvent>, enabled: bool): bool
    decreases |evs|
  {
    if evs == [] then enabled
    else match evs[0]
      case Ime(Enabled) => ImeOutstanding(evs[1..], true)
      case Ime(Disabled) => ImeOutstanding(evs[1..], false)
      case _ => ImeOutstanding(evs[1..], enabled)
  }

  /** Both notions split over a concatenation. */
  lemma {:induction false} ImeAppend(a: seq<GuiEvent>, b: seq<GuiEvent>, enabled: bool)
    ensures ImeAlternates(a + b, enabled) <==> ImeAlternates(a, enabled) && ImeAlternates(b, ImeOutstanding(a, enabled))
    ensures ImeOutstanding(a + b, enabled) == ImeOutstanding(b, ImeOutstanding(a, enabled))
    decreases |a|
  {
    if a != [] {
      assert (a + b)[0] == a[0] && (a + b)[1..] == a[1..] + b;
      match a[0]
      case Ime(Enabled) => ImeAppend(a[1..], b, true);
      case Ime(Disabled) => ImeAppend(a[1..], b, false);
      case _ => ImeAppend(a[1..], b, enabled);
    } else {
      assert a + b == b;
    }
  }

  /** What one event queues keeps the IME discipline, and `hasSentImeEnabled`
      afterwards is exactly whether an enabled notice is outstanding. */
  lemma {:induction false} StepKeepsImeDiscipline(s: PlatformState, e: SdlEvent, keymap: Keycode -> Option<Key>, clipboard: Option<string>)
    ensures var out := Emitted(s, e, keymap, clipboard);
            ImeAlternates(out, s.hasSentImeEnabled) &&
            ImeOutstanding(out, s.hasSentImeEnabled) == Step(s, e, keymap, clipboard).hasSentImeEnabled
  {
    var out := Emitted(s, e, keymap, clipboard);
    match e
    case TextInput(text) =>
      TextInputCommits(s, text, keymap, clipboard);
      if s.compositing {
        assert out[1..] == [Ime(Disabled)];
        NoImeKeepsDiscipline(out[1..][1..], false);
      } else {
        NoImeKeepsDiscipline(out, s.hasSentImeEnabled);
      }
    case TextEditing(text, start, length) =>
      TextEditingUpdates(s, text, start, length, keymap, clipboard);
      if (start == 0 && length == 0) || text == [] {
        NoImeKeepsDiscipline(out[1..], false);
      } else if s.hasSentImeEnabled {
        NoImeKeepsDiscipline(out, true);
      } else {
        assert out[1..] == [Ime(Preedit(text))];
        NoImeKeepsDiscipline(out[1..], true);
      }
    case _ =>
      NoNoticeOutsideIme(s, e, keymap, clipboard);
      NoImeKeepsDiscipline(out, s.hasSentImeEnabled);
  }

  /** Only text input and composition updates queue IME notices. */
  lemma NoNoticeOutsideIme(s: PlatformState, e: SdlEvent, keymap: Keycode -> Option<Key>, clipboard: Option<string>)
    requires !e.TextInput? && !e.TextEditing?
    ensures var out := Emitted(s, e, keymap, clipboard);
            Step(s, e, keymap, clipboard).hasSentImeEnabled == s.hasSentImeEnabled &&
            forall i :: 0 <= i < |out| ==> !IsImeNotice(out[i])
  {
    match e
    case KeyDown(keycode, keymod) =>
      if keycode.Some? && keymap(keycode.value).Some? {
        KeyDownQueues(s, keycode.value, keymod, keymap, clipboard);
      }
    case KeyUp(keycode, keymod) =>
      if keycode.Some? && keymap(keycode.value).Some? {
        KeyUpQueuesRelease(s, keycode.value, keymod, keymap, clipboard);
      }
    case _ =>
  }

  /** Events that are not IME notices neither break the discipline nor change
      what is outstanding. */
  lemma {:induction false} NoImeKeepsDiscipline(evs: seq<GuiEvent>, enabled: bool)
    requires forall i :: 0 <= i < |evs| ==> !IsImeNotice(evs[i])
    ensures ImeAlternates(evs, enabled) && ImeOutstanding(evs, enabled) == enabled
    decreases |evs|
  {
    if evs != [] {
      NoImeKeepsDiscipline(evs[1..], enabled);
    }
  }

  /** Handling a sequence of events only appends to the queue. */
  lemma {:induction false} RunExtendsQueue(s: PlatformState, ds: seq<Delivery>, keymap: Keycode -> Option<Key>)
    ensures s.input.events <= Run(s, ds, keymap).input.events
    decreases |ds|
  {
    if ds != [] {
      var t := Step(s, ds[0].event, keymap, ds[0].clipboard);
      assert t.input.events == s.input.events + Emitted(s, ds[0].event, keymap, ds[0].clipboard);
      RunExtendsQueue(t, ds[1..], keymap);
    }
  }

  /** Over any sequence of events, no two IME-enabled notices are queued
      without a disabled notice between them, and the adapter's flag tracks
      whether one is outstanding. */
  lemma {:induction false} RunKeepsImeDiscipline(s: PlatformState, ds: seq<Delivery>, keymap: Keycode -> Option<Key>)
    ensures s.input.events <= Run(s, ds, keymap).input.events
    ensures var out := Run(s, ds, keymap).input.events[|s.input.events|..];
            ImeAlternates(out, s.hasSentImeEnabled) &&
            ImeOutstanding(out, s.hasSentImeEnabled) == Run(s, ds, keymap).hasSentImeEnabled
    decreases |ds|
  {
    RunExtendsQueue(s, ds, keymap);
    if ds == [] {
      assert Run(s, ds, keymap).input.events[|s.input.events|..] == [];
    } else {
      var t := Step(s, ds[0].event, keymap, ds[0].clipboard);
      var first := Emitted(s, ds[0].event, keymap, ds[0].clipboard);
      StepKeepsImeDiscipline(s, ds[0].event, keymap, ds[0].clipboard);
      RunKeepsImeDiscipline(t, ds[1..], keymap);
      var u := Run(t, ds[1..], keymap);
      var rest := u.input.events[|t.input.events|..];
      assert u.input.events[|s.input.events|..] == first + rest;
      ImeAppend(first, rest, s.hasSentImeEnabled);
    }
  }

  /** A new adapter (nothing queued, nothing announced) that handles any
      sequence of events queues an IME-disciplined sequence. */
  lemma FreshRunKeepsImeDiscipline(s: PlatformState, ds: seq<Delivery>, keymap: Keycode -> Option<Key>)
    requires s.input.events == [] && !s.hasSentImeEnabled
    ensures ImeAlternates(Run(s, ds, keymap).input.events, false)
  {
    RunKeepsImeDiscipline(s, ds, keymap);
    assert Run(s, ds, keymap).input.events[0..] == Run(s, ds, keymap).input.events;
  }

  // --------------------------------------------------------------- scenarios

  /** Moving to (100, 200) and pressing the left button queues the move and
      then a primary press at (100, 200), whatever the press event's own
      coordinates. */
  lemma ScenarioMoveThenPress(keymap: Keycode -> Option<Key>, x: int, y: int)
    ensures Run(Initial(Rect(Origin, Pos(800, 600))),
                [Delivery(MouseMotion(100, 200), None), Delivery(MouseButtonDown(Left, x, y), None)], keymap).input.events
            == [PointerMoved(Pos(100, 200)), PointerButtonEvent(Pos(100, 200), Primary, true, NoModifiers)]
  {
    var ds := [Delivery(MouseMotion(100, 200), None), Delivery(MouseButtonDown(Left, x, y), None)];
    var s0 := Initial(Rect(Origin, Pos(800, 600)));
    var s1 := Step(s0, MouseMotion(100, 200), keymap, None);
    var s2 := Step(s1, MouseButtonDown(Left, x, y), keymap, None);
    assert s1.input.events == [PointerMoved(Pos(100, 200))];
    assert ds[1..][1..] == [];
    assert Run(s0, ds, keymap) == Run(s1, ds[1..], keymap) == Run(s2, [], keymap);
  }

  /** Ctrl+C queues Copy and then the C key press with ctrl (and command)
      set. */
  lemma ScenarioCtrlC(s: PlatformState, kc: Keycode, keymap: Keycode -> Option<Key>, clipboard: Option<string>)
    requires keymap(kc) == Some(C)
    ensures Emitted(s, KeyDown(Some(kc), LCTRLMOD), keymap, clipboard)
            == [Copy, KeyEvent(C, Some(C), true, false, Modifiers(false, true, false, false, true))]
  {
    KeyDownQueues(s, kc, LCTRLMOD, keymap, clipboard);
  }

  /** A composition of "ni" that is then cancelled queues the enabled notice,
      the preedit and the disabled notice; the composing flag is left set, so
      the next committed text is reported as an IME commit. */
  lemma ScenarioCancelledComposition(keymap: Keycode -> Option<Key>)
    ensures var ds := [Delivery(TextEditing("ni", 0, 2), None), Delivery(TextEditing("", 0, 0), None)];
            var t := Run(Initial(Rect(Origin, Pos(800, 600))), ds, keymap);
            t.input.events == [Ime(Enabled), Ime(Preedit("ni")), Ime(Disabled)] &&
            t.compositing && !t.hasSentImeEnabled &&
            Emitted(t, TextInput("a"), keymap, None) == [Ime(Commit("a")), Ime(Disabled)]
  {
    var ds := [Delivery(TextEditing("ni", 0, 2), None), Delivery(TextEditing("", 0, 0), None)];
    assert ds[1..][1..] == [];
    var t := Run(Initial(Rect(Origin, Pos(800, 600))), ds, keymap);
    TextInputCommits(t, "a", keymap, None);
  }
}
