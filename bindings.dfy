/** The daemon's fixed key table: three keycodes and three modifier bits. */
module Bindings {
  import opened Xcb

  const KeycodeMute: Keycode := 121
  const KeycodeVolDown: Keycode := 122
  const KeycodeVolUp: Keycode := 123

  /** `keys[]`: the keycodes grabbed, in grab order. */
  const Keys: seq<Keycode> := [KeycodeMute, KeycodeVolDown, KeycodeVolUp]

  /** `mods[]`: the modifier bits whose every combination is grabbed. */
  const Mods: seq<ModMask> := [ModMaskShift, ModMaskLock, ModMask2]
}
