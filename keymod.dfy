/** How the adapter turns SDL's 16-bit key-modifier mask into egui's
    `Modifiers`. The flags are recomputed from the mask on every mapped key
    event, so they are a pure function of the mask. */
module KeyModifiers {
  import opened Types

  // SDL's `KMOD_*` bits, as the sdl2 crate's `Mod` flags name them.
  const LSHIFTMOD: Keymod := 0x0001
  const RSHIFTMOD: Keymod := 0x0002
  const LCTRLMOD: Keymod := 0x0040
  const RCTRLMOD: Keymod := 0x0080
  const LALTMOD: Keymod := 0x0100
  const RALTMOD: Keymod := 0x0200
  const LGUIMOD: Keymod := 0x0400
  const RGUIMOD: Keymod := 0x0800
  const NUMMOD: Keymod := 0x1000
  const CAPSMOD: Keymod := 0x2000
  const MODEMOD: Keymod := 0x4000
  const RESERVEDMOD: Keymod := 0x8000

  /** The seven bits the adapter looks at (right GUI is not one of them). */
  const UsedBits: Keymod := LSHIFTMOD | RSHIFTMOD | LCTRLMOD | RCTRLMOD | LALTMOD | RALTMOD | LGUIMOD

  /** The source's test `keymod & flag == flag`. */
  predicate Has(keymod: Keymod, flag: Keymod) {
    keymod & flag == flag
  }

  /** The egui modifiers for an SDL modifier mask: alt, ctrl and shift are
      held when either side's key is; `macCmd` is the left GUI key only;
      `command` is left ctrl or left GUI (right ctrl does not count). */
  function ModifiersOf(keymod: Keymod): Modifiers {
    Modifiers(
      alt := Has(keymod, LALTMOD) || Has(keymod, RALTMOD),
      ctrl := Has(keymod, LCTRLMOD) || Has(keymod, RCTRLMOD),
      shift := Has(keymod, LSHIFTMOD) || Has(keymod, RSHIFTMOD),
      macCmd := Has(keymod, LGUIMOD),
      command := Has(keymod, LCTRLMOD) || Has(keymod, LGUIMOD))
  }

  /** The eight physical modifier keys, one flag each: the reference view of
      what a mask says. */
  datatype HeldKeys = HeldKeys(lshift: bool, rshift: bool, lctrl: bool, rctrl: bool,
                               lalt: bool, ralt: bool, lgui: bool, rgui: bool)

  function Bit(held: bool, flag: Keymod): Keymod {
    if held then flag else 0
  }

  /** The mask SDL reports when exactly the keys in `held` are down. */
  function Encode(held: HeldKeys): Keymod {
    Bit(held.lshift, LSHIFTMOD) | Bit(held.rshift, RSHIFTMOD) | Bit(held.lctrl, LCTRLMOD) | Bit(held.rctrl, RCTRLMOD) |
    Bit(held.lalt, LALTMOD) | Bit(held.ralt, RALTMOD) | Bit(held.lgui, LGUIMOD) | Bit(held.rgui, RGUIMOD)
  }

  /** Reading the eight key bits back out of a mask. */
  function Decode(keymod: Keymod): (held: HeldKeys)
    ensures Encode(held) == keymod & (UsedBits | RGUIMOD)
  {
    HeldKeys(Has(keymod, LSHIFTMOD), Has(keymod, RSHIFTMOD), Has(keymod, LCTRLMOD), Has(keymod, RCTRLMOD),
             Has(keymod, LALTMOD), Has(keymod, RALTMOD), Has(keymod, LGUIMOD), Has(keymod, RGUIMOD))
  }

  /** Decoding an encoded set of held keys gives it back. */
  lemma DecodeEncode(held: HeldKeys)
    ensures Decode(Encode(held)) == held
  {
  }

  /** Stated over held keys rather than bits, the modifiers are: either alt,
      either ctrl, either shift, left GUI, and left ctrl or left GUI, whatever
      lock keys (num, caps, mode) are also on. */
  lemma ModifiersOfHeldKeys(held: HeldKeys, locks: Keymod)
    requires locks & (UsedBits | RGUIMOD) == 0
    ensures ModifiersOf(Encode(held) | locks) ==
            Modifiers(held.lalt || held.ralt, held.lctrl || held.rctrl, held.lshift || held.rshift,
                      held.lgui, held.lctrl || held.lgui)
  {
  }

  /** Only the seven used bits matter: two masks that agree on them give the
      same modifiers, whatever the earlier state was. */
  lemma ModifiersIgnoreOtherBits(k1: Keymod, k2: Keymod)
    requires k1 & UsedBits == k2 & UsedBits
    ensures ModifiersOf(k1) == ModifiersOf(k2)
  {
  }

  /** `command` is exactly `macCmd` or left ctrl: right ctrl alone sets
      `ctrl` but not `command`, and right GUI alone sets nothing. */
  lemma CommandIsLeftCtrlOrGui(keymod: Keymod)
    ensures ModifiersOf(keymod).command <==> ModifiersOf(keymod).macCmd || Has(keymod, LCTRLMOD)
    ensures ModifiersOf(keymod).command ==> ModifiersOf(keymod).ctrl || ModifiersOf(keymod).macCmd
    ensures ModifiersOf(RCTRLMOD).ctrl && !ModifiersOf(RCTRLMOD).command
    ensures ModifiersOf(RGUIMOD) == NoModifiers
  {
  }
}
