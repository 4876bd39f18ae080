/** The values the platform adapter reads and writes: SDL2 input events on one
    side, egui events and input batches on the other. Coordinates and sizes are
    integers: the adapter only converts SDL's `i32` values to `f32`. */
module Types {

  datatype Option<+T> = None | Some(value: T)

  // ---------------------------------------------------------------- geometry

  datatype Pos = Pos(x: int, y: int)
  datatype Vec2 = Vec2(x: int, y: int)

  /** An axis-aligned rectangle given by its two corners, as egui stores it. */
  datatype Rect = Rect(min: Pos, max: Pos)

  const Origin := Pos(0, 0)

  /** egui's `Rect::from_min_size`. */
  function RectFromMinSize(min: Pos, size: Vec2): (r: Rect)
    ensures r.min == min
    ensures r.max.x - r.min.x == size.x && r.max.y - r.min.y == size.y
  {
    Rect(min, Pos(min.x + size.x, min.y + size.y))
  }

  // ---------------------------------------------------------------- egui side

  /** egui's `Modifiers`: `command` is the cross-platform "ctrl or cmd" flag. */
  datatype Modifiers = Modifiers(alt: bool, ctrl: bool, shift: bool, macCmd: bool, command: bool)

  /** `Modifiers::default()`: nothing held. */
  const NoModifiers := Modifiers(false, false, false, false, false)

  /** The egui keys the adapter treats specially; every other key of egui's
      `Key` enumeration is `OtherKey`, told apart by an identifier. */
  datatype Key = C | V | X | OtherKey(id: nat)

  datatype PointerButton = Primary | Secondary | Middle | Extra1 | Extra2

  datatype MouseWheelUnit = Point | Line | Page

  datatype ImeEvent = Enabled | Preedit(preedit: string) | Commit(committed: string) | Disabled

  /** The egui events the adapter queues. */
  datatype GuiEvent =
    | Copy
    | Cut
    | Paste(pasted: string)
    | Text(text: string)
    | KeyEvent(key: Key, physicalKey: Option<Key>, pressed: bool, repeat: bool, modifiers: Modifiers)
    | PointerMoved(pos: Pos)
    | PointerButtonEvent(pos: Pos, button: PointerButton, pressed: bool, modifiers: Modifiers)
    | MouseWheel(delta: Vec2, unit: MouseWheelUnit, modifiers: Modifiers)
    | Ime(ime: ImeEvent)

  /** The part of egui's `RawInput` the adapter fills in: the batch handed to
      egui when a frame begins. `time` is the frame time in seconds. */
  datatype RawInput = RawInput(screenRect: Option<Rect>, modifiers: Modifiers, time: Option<real>, events: seq<GuiEvent>)

  // ---------------------------------------------------------------- SDL side

  /** SDL keycodes are 32-bit integers. */
  type Keycode = int

  /** SDL's key-modifier state, a 16-bit mask. */
  type Keymod = bv16

  datatype MouseButton = Unknown | Left | Middle | Right | X1 | X2

  datatype WindowEvent = Resized(w: int, h: int) | SizeChanged(w: int, h: int) | OtherWindowEvent

  /** The SDL events the adapter distinguishes; every other kind is `OtherEvent`.
      The button events carry SDL's own pointer coordinates, which the adapter
      does not use. */
  datatype SdlEvent =
    | Window(winEvent: WindowEvent)
    | MouseButtonDown(downButton: MouseButton, downX: int, downY: int)
    | MouseButtonUp(upButton: MouseButton, upX: int, upY: int)
    | MouseMotion(x: int, y: int)
    | MouseWheelEvent(wheelX: int, wheelY: int)
    | KeyDown(downKeycode: Option<Keycode>, downKeymod: Keymod)
    | KeyUp(upKeycode: Option<Keycode>, upKeymod: Keymod)
    | TextInput(input: string)
    | TextEditing(editing: string, start: int, length: int)
    | OtherEvent
}
