/** What `Platform::autoupdate_platform` does with egui's per-frame platform
    output: run the requested commands in order, stopping at the first that
    fails, then bring the native cursor in line with the requested icon. */
module PlatformOutput {
  import Types

  /** egui's `CursorIcon`; `NoCursor` is egui's `CursorIcon::None`. */
  datatype CursorIcon =
    | Default | NoCursor | ContextMenu | Help | PointingHand | Progress | Wait | Cell | Crosshair
    | Text | VerticalText | Alias | Copy | Move | NoDrop | NotAllowed | Grab | Grabbing | AllScroll
    | ResizeHorizontal | ResizeNeSw | ResizeNwSe | ResizeVertical
    | ResizeEast | ResizeSouthEast | ResizeSouth | ResizeSouthWest | ResizeWest | ResizeNorthWest
    | ResizeNorth | ResizeNorthEast | ResizeColumn | ResizeRow | ZoomIn | ZoomOut

  /** SDL's `SystemCursor`. */
  datatype SystemCursor = Arrow | IBeam | Wait | Crosshair | WaitArrow | SizeNWSE | SizeNESW | SizeWE | SizeNS | SizeAll | No | Hand

  /** The icons the adapter's table names explicitly. */
  predicate InTable(icon: CursorIcon) {
    icon in {CursorIcon.Crosshair, Default, Grab, Grabbing, Move, PointingHand, ResizeHorizontal,
             ResizeNeSw, ResizeNwSe, ResizeVertical, Text, NotAllowed, NoDrop, CursorIcon.Wait}
  }

  /** The native cursor shown for an egui icon; icons outside the table get
      the arrow. */
  function SystemCursorOf(icon: CursorIcon): SystemCursor {
    match icon
    case Crosshair => SystemCursor.Crosshair
    case Default => Arrow
    case Grab => Hand
    case Grabbing => SizeAll
    case Move => SizeAll
    case PointingHand => Hand
    case ResizeHorizontal => SizeWE
    case ResizeNeSw => SizeNESW
    case ResizeNwSe => SizeNWSE
    case ResizeVertical => SizeNS
    case Text => IBeam
    case NotAllowed => No
    case NoDrop => No
    case Wait => SystemCursor.Wait
    case _ => Arrow
  }

  /** Every icon outside the table falls back to the arrow. */
  lemma FallbackIsArrow(icon: CursorIcon)
    ensures !InTable(icon) ==> SystemCursorOf(icon) == Arrow
  {
  }

  /** The table reaches every SDL cursor except `WaitArrow`. */
  lemma {:induction false} TableReachesAllButWaitArrow(c: SystemCursor)
    ensures c != WaitArrow <==> exists icon :: SystemCursorOf(icon) == c
  {
    match c
    case Arrow => assert SystemCursorOf(Default) == c;
    case IBeam => assert SystemCursorOf(Text) == c;
    case Wait => assert SystemCursorOf(CursorIcon.Wait) == c;
    case Crosshair => assert SystemCursorOf(CursorIcon.Crosshair) == c;
    case WaitArrow =>
    case SizeNWSE => assert SystemCursorOf(ResizeNwSe) == c;
    case SizeNESW => assert SystemCursorOf(ResizeNeSw) == c;
    case SizeWE => assert SystemCursorOf(ResizeHorizontal) == c;
    case SizeNS => assert SystemCursorOf(ResizeVertical) == c;
    case SizeAll => assert SystemCursorOf(Move) == c;
    case No => assert SystemCursorOf(NotAllowed) == c;
    case Hand => assert SystemCursorOf(Grab) == c;
  }

  /** The native cursor state: the cursor kind the native handle was built
      from (`None` when none could be acquired) and the kind last requested. */
  datatype CursorState = CursorState(cursor: Types.Option<SystemCursor>, systemCursor: SystemCursor)

  /** egui's `OutputCommand`. An image is its size; its pixels are not
      modelled. */
  datatype OutputCommand = CopyText(text: string) | CopyImage(width: nat, height: nat) | OpenUrl(url: string)

  datatype PlatformError = CommandFailed(command: OutputCommand) | CursorFailed(requested: SystemCursor)

  datatype Outcome = Pass | Fail(error: PlatformError)

  /** The cursor step of `autoupdate_platform`: with a native cursor present
      and a different kind requested, the requested kind is recorded first and
      then the native cursor is built from it (`created`: whether that
      succeeded); a failure is reported and leaves the old native cursor. */
  function UpdateCursor(cs: CursorState, icon: CursorIcon, created: bool): (CursorState, Outcome) {
    var wanted := SystemCursorOf(icon);
    if cs.cursor.None? || cs.systemCursor == wanted then (cs, Pass)
    else if created then (CursorState(Types.Some(wanted), wanted), Pass)
    else (cs.(systemCursor := wanted), Fail(CursorFailed(wanted)))
  }

  /** With a native cursor, a successful update shows the requested icon's
      cursor; without one the request is ignored. An update fails only when
      a different kind was requested and could not be built. */
  lemma UpdateCursorShowsRequest(cs: CursorState, icon: CursorIcon, created: bool)
    ensures var (next, r) := UpdateCursor(cs, icon, created);
            next.systemCursor == (if cs.cursor.Some? then SystemCursorOf(icon) else cs.systemCursor) &&
            (cs.cursor.None? ==> next == cs && r == Pass) &&
            (r.Fail? <==> cs.cursor.Some? && cs.systemCursor != SystemCursorOf(icon) && !created) &&
            (cs.cursor.Some? && cs.cursor == Types.Some(cs.systemCursor) && r == Pass ==> next.cursor == Types.Some(SystemCursorOf(icon)))
  {
  }

  /** Because the requested kind is recorded before the native cursor is
      built, a failed build is never retried: asking again for the same icon
      reports success while the old native cursor stays. */
  lemma FailedCursorIsNotRetried(cs: CursorState, icon: CursorIcon, created: bool)
    requires cs.cursor.Some? && cs.systemCursor != SystemCursorOf(icon)
    ensures var (next, r) := UpdateCursor(cs, icon, false);
            r.Fail? && next.cursor == cs.cursor &&
            UpdateCursor(next, icon, created) == (next, Pass)
  {
  }

  /** The index of the first command the platform rejected, or the number of
      commands when it accepted all of them. */
  function FirstRejected(accepted: seq<bool>): (k: nat)
    ensures k <= |accepted|
    ensures forall i :: 0 <= i < k ==> accepted[i]
    ensures k < |accepted| ==> !accepted[k]
  {
    if accepted == [] then 0
    else if !accepted[0] then 0
    else 1 + FirstRejected(accepted[1..])
  }

  /** Runs the commands in order (`accepted[i]`: whether the platform carried
      out command `i`) and stops at the first failure, which it reports.
      `issued` is how many commands reached the platform. */
  method RunCommands(commands: seq<OutputCommand>, accepted: seq<bool>) returns (issued: nat, r: Outcome)
    requires |accepted| == |commands|
    ensures var k := FirstRejected(accepted);
            issued == (if k < |commands| then k + 1 else |commands|) &&
            r == (if k < |commands| then Fail(CommandFailed(commands[k])) else Pass)
  {
    issued := 0;
    while issued < |commands|
      invariant issued <= |commands|
      invariant forall i :: 0 <= i < issued ==> accepted[i]
    {
      if !accepted[issued] {
        issued := issued + 1;
        return issued, Fail(CommandFailed(commands[issued - 1]));
      }
      issued := issued + 1;
    }
    r := Pass;
  }
}
