/** The slice of the X protocol (through XCB) that the daemon reads. */
module Xcb {

  type Keycode = bv8

  /** Modifier state / grab mask bits (xcb_mod_mask_t). */
  type ModMask = bv16

  const ModMaskShift: ModMask := 1
  const ModMaskLock: ModMask := 2
  const ModMask2: ModMask := 16

  /** XCB_KEY_PRESS. */
  const KeyPress: bv8 := 2

  /** The top bit of response_type marks an event sent by another client. */
  const ResponseTypeMask: bv8 := 0x7F

  /**
   * A queued event. `detail` and `state` are the key-press fields (the
   * pressed keycode and the modifier state); other events do not use them.
   */
  datatype Event = Event(responseType: bv8, detail: Keycode, state: ModMask)

  /** XCB_EVENT_RESPONSE_TYPE: the response type with the sent-event bit cleared. */
  function ResponseType(e: Event): bv8 {
    e.responseType & ResponseTypeMask
  }

  predicate IsKeyPress(e: Event) {
    ResponseType(e) == KeyPress
  }
}
