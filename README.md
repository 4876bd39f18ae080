# egui_sdl2_platform: the `Platform` event adapter in Dafny

This project models `Platform`, the adapter that feeds SDL2 window, mouse,
keyboard and text events to egui. Each SDL event is translated into egui
events. These are appended to the `raw_input.events` queue, which egui takes
over when a frame begins. While it translates, the adapter keeps a little
state:

- the last pointer position;
- the modifier flags, recomputed from SDL's 16-bit modifier mask;
- two IME flags, `compositing` and `has_sent_ime_enabled`;
- the screen rectangle.

Optionally, `autoupdate_platform` runs egui's output commands and keeps the
native cursor in line with the requested icon.

The files:

- `types.dfy` (module `Types`): the values on both sides. SDL events, egui
  events, modifiers, rectangles and the `RawInput` batch.
- `keymod.dfy` (module `KeyModifiers`): the pure function from SDL's modifier
  mask to egui's `Modifiers`, with a reference view of the mask as eight held
  keys.
- `translate.dfy` (module `Translate`): `handle_event` as a pure step function
  `Step` from (state, event) to the next state. `Emitted` gives the events one
  step queues. The lemmas state what each kind of event does and that the IME
  notices alternate over any run of events.
- `output.dfy` (module `PlatformOutput`): the cursor-icon table, the cursor
  update and the fail-fast command loop of `autoupdate_platform`.
- `platform.dfy` (module `PlatformAdapter`): the class `Platform`. Its fields
  are updated in place, one method per operation of the source. Every event
  handler is proved to follow `Translate.Step`. The object invariant `Valid`
  says three things:
  - the two modifier fields agree;
  - the queue is the tail of everything ever sent;
  - no two IME-enabled notices were ever sent without a disabled notice
    between them, and `hasSentImeEnabled` says whether one is outstanding.

Collaborators the adapter calls but does not define are parameters:

- SDL's keycode-to-egui-key conversion (`to_egui_key`) is
  `keymap: Keycode -> Option<Key>`.
- The clipboard's `get_text` answer is `clipboard: Option<string>`. `None`
  means no text, an error, or a build without clipboard support.
- Whether each output command was carried out is `accepted: seq<bool>`.
- Whether a native cursor could be built is `cursorCreated` / `created`.
- Whether the clipboard could be opened at construction is `clipboardReady`.

The model follows the code where prose descriptions of the adapter say
otherwise:

- A composition update counts as an end when `(start == 0 && length == 0) ||
  text.is_empty()`. That branch queues `Ime(Disabled)` but does not clear
  `compositing`. So after a cancelled composition, the next committed text
  is still reported as an IME commit (`Translate.ScenarioCancelledComposition`).
- `command` is left ctrl or left GUI. Right ctrl alone sets `ctrl` but not
  `command`.
- On commit, `Ime(Commit)` is queued before `Ime(Disabled)`.
- A failure to build the native cursor when the icon changes is returned as an
  error, not ignored. The requested kind is recorded before the build, so a
  failed build is not retried (`PlatformOutput.FailedCursorIsNotRetried`).

## Model

| member | source | states |
|---|---|---|
| `KeyModifiers.ModifiersOfHeldKeys` | src/platform.rs:154-162 | With a given set of physical modifier keys held, and any lock bits, the flags are: alt = either alt, ctrl = either ctrl, shift = either shift, mac_cmd = left GUI, command = left ctrl or left GUI |
| `KeyModifiers.ModifiersIgnoreOtherBits` | src/platform.rs:154-162 | Two masks that agree on the seven bits the adapter reads give the same modifiers; right GUI and the lock bits never matter |
| `KeyModifiers.CommandIsLeftCtrlOrGui` | src/platform.rs:161-162 | `command` holds exactly when `mac_cmd` or left ctrl does, and implies ctrl or mac_cmd; right ctrl alone gives ctrl without command; right GUI alone gives no modifier |
| `Translate.Emitted` | src/platform.rs:73-272 | Every kind of event only appends to the end of the queue, at most three events; what was queued before is unchanged |
| `Translate.ResizeSetsScreenRect` | src/platform.rs:76-85 | Resized(w, h) and SizeChanged(w, h) set the screen rectangle to (0,0)-(w,h) and change nothing else, queueing nothing |
| `Translate.IgnoredEventsChangeNothing` | src/platform.rs:86-87 | Any other window event, and any unlisted event kind, leaves the whole state unchanged |
| `Translate.ButtonOfOneToOne` | src/platform.rs:90-95 | The button table maps exactly left, middle and right, one-to-one, and never to an extra button |
| `Translate.MouseButtonQueuesStoredPosition` | src/platform.rs:89-123 | A mapped button press or release queues one pointer-button event. It carries the stored pointer position (not the event's coordinates), the pressed flag and the current modifiers. An unmapped button queues nothing. Nothing but the queue changes |
| `Translate.MotionMovesPointer` | src/platform.rs:125-132 | Motion sets the pointer position to (x, y) and queues one PointerMoved at it; nothing else changes |
| `Translate.WheelScalesByEight` | src/platform.rs:134-143 | The wheel queues one MouseWheel with delta exactly (8x, 8y), unit Point and the current modifiers. The pointer position and everything else stay as they were |
| `Translate.UnmappedKeyChangesNothing` | src/platform.rs:145-151 | A key down or up with no keycode, or with a keycode that maps to no egui key, changes neither the queue nor the modifiers |
| `Translate.KeyModifiersRecomputed` | src/platform.rs:181-188 | After a mapped key event, both the adapter's and the raw input's modifiers equal the flags read from that event's mask, independent of the prior state |
| `Translate.KeyDownQueues` | src/platform.rs:145-200 | With ctrl held, a mapped key press first queues Copy for C, Cut for X, or Paste(text) for V when the clipboard yields text. It then always queues the key as pressed, not repeated, with physical key set. Only the modifiers and the queue change |
| `Translate.KeyUpQueuesRelease` | src/platform.rs:202-241 | A mapped key release is never intercepted and queues only the key as released; only the modifiers and the queue change |
| `Translate.TextInputCommits` | src/platform.rs:243-253 | While composing, text queues Commit(text) then Disabled and clears the enabled flag. Otherwise it queues Text(text) alone and keeps the flag. Composing is false afterwards either way |
| `Translate.TextEditingUpdates` | src/platform.rs:254-270 | An update with an empty range at zero, or with empty text, queues Disabled and clears the enabled flag, leaving composing as it was. Any other update queues Enabled unless one was already sent, then Preedit(text), and sets both flags |
| `Translate.StepKeepsImeDiscipline` | src/platform.rs:275-289 | The events one step queues never announce Enabled while one is outstanding. `has_sent_ime_enabled` afterwards is exactly whether one is outstanding |
| `Translate.RunExtendsQueue` | src/platform.rs:73-272 | Handling any sequence of events only extends the queue; the earlier contents are a prefix of the later ones |
| `Translate.RunKeepsImeDiscipline` | src/platform.rs:254-289 | Over any sequence of events, no two Enabled notices are queued without a Disabled between them, and the flag tracks the outstanding notice |
| `Translate.FreshRunKeepsImeDiscipline` | src/platform.rs:57-58 | From a new adapter, the whole queue after any sequence of events keeps the IME discipline |
| `Translate.ScenarioMoveThenPress` | src/platform.rs:89-132 | Motion to (100, 200) then a left press queues PointerMoved(100, 200) then a primary press at (100, 200), whatever the press event's coordinates |
| `Translate.ScenarioCtrlC` | src/platform.rs:164-196 | Left ctrl + C queues Copy and then the C key press with ctrl and command set |
| `Translate.ScenarioCancelledComposition` | src/platform.rs:254-289 | Composing "ni" then cancelling queues Enabled, Preedit("ni"), Disabled and leaves composing set. The next text is then reported as Commit followed by Disabled |
| `PlatformOutput.FallbackIsArrow` | src/platform.rs:322-337 | Every icon outside the table is shown as the arrow |
| `PlatformOutput.TableReachesAllButWaitArrow` | src/platform.rs:322-337 | Every SDL system cursor except WaitArrow is the image of some icon, and WaitArrow of none |
| `PlatformOutput.UpdateCursorShowsRequest` | src/platform.rs:320-346 | Without a native cursor the request is ignored. With one, the requested kind is recorded, and a successful update from a consistent state shows it. The update fails only when a different kind was requested and could not be built |
| `PlatformOutput.FailedCursorIsNotRetried` | src/platform.rs:339-345 | A failed build reports an error and keeps the old native cursor. Asking again for the same icon then reports success without building it |
| `PlatformOutput.FirstRejected` | src/platform.rs:316-318 | The index returned is the first rejected command: all before it were accepted, and it was rejected (or is the count when none was) |
| `PlatformOutput.RunCommands` | src/platform.rs:316-318 | Commands run in order and stop at the first failure, which is reported. Exactly the commands up to and including it reach the platform |
| `PlatformAdapter.Platform.Init` | src/platform.rs:45-66 | A new adapter: pointer at the origin, no modifiers, no composition, empty queue, the given rectangle. It has the arrow cursor when one could be acquired and none otherwise |
| `PlatformAdapter.Platform.Targeting` | src/platform.rs:45-66 | Construction fails exactly when the clipboard cannot be opened; a missing cursor is not an error |
| `PlatformAdapter.Platform.New` | src/platform.rs:35-43 | The new adapter targets the rectangle at the origin of the screen's size |
| `PlatformAdapter.Platform.ChangeTarget` | src/platform.rs:68-70 | Replaces the screen rectangle and changes nothing else |
| `PlatformAdapter.Platform.ImeEventEnable` | src/platform.rs:275-282 | Queues Enabled and sets the flag only when none was already sent |
| `PlatformAdapter.Platform.ImeEventDisable` | src/platform.rs:284-289 | Always queues Disabled and clears the flag |
| `PlatformAdapter.Platform.Dispatch` | src/platform.rs:74-272 | The in-place body of `handle_event` leaves the fields exactly as `Translate.Step` says |
| `PlatformAdapter.Platform.HandleEvent` | src/platform.rs:73-273 | Follows `Translate.Step`, appends exactly `Translate.Emitted` to the queue and keeps the object invariant, including the IME discipline across frames |
| `PlatformAdapter.Platform.UpdateTime` | src/platform.rs:297-299 | Stores the time for the next frame and changes nothing else |
| `PlatformAdapter.Platform.Context` | src/platform.rs:302-307 | Hands the gathered input (rectangle, modifiers, time, queue) to egui and leaves the queue empty |
| `PlatformAdapter.Platform.SetPixelsPerPoint` | src/platform.rs:292-294 | Goes through `context`, so it too hands over the queue and empties it |
| `PlatformAdapter.Platform.AutoupdatePlatform` | src/platform.rs:315-349 | A failing command aborts with its error and leaves the cursor alone. Otherwise the cursor is updated as `PlatformOutput.UpdateCursor` says |
| `PlatformAdapter.BeginTwoFrames` | src/platform.rs:302-307 | Beginning two frames in a row: the first gets the queued events, the second none |

## Left out

- egui's own behaviour is not part of this model: `begin_pass`, `end_pass`
  (`end_frame`), `tessellate`, `wants_pointer_input`, `wants_keyboard_input`
  and the pixels-per-point value itself. The adapter only forwards to them.
- `Platform.Context`: egui's `RawInput::take` belongs to egui. The model
  drains the event queue only and leaves the rectangle, modifiers and time in
  place.
- The body of `to_egui_key` is not part of this model; it is the `keymap`
  parameter. egui's `Key` enumeration is reduced to C, V, X and `OtherKey`.
- The native clipboard, URL opener and cursor handles are OS resources. Their
  answers are parameters. `cursor.set()` and the warning logged when the
  initial cursor cannot be acquired are not modelled.
- `CopyImage` is reduced to its size; flattening its pixels into bytes is not
  modelled.
- Floating point: positions, deltas and sizes are integers. The rounding of
  the `i32`-to-`f32` cast for magnitudes above 2^24 is not modelled. The `f64`
  time is a `real`.
- The `arboard` and `platform_ext` build features are not separate models. A
  build without the clipboard behaves as a clipboard that never has text.
- SDL event fields the adapter ignores are left out: timestamps, window ids,
  scancodes, the key-repeat flag and the mouse state.
- `PlatformOutput.RunCommands` requires one answer in `accepted` per command;
  the source asks the platform once per command it reaches.
