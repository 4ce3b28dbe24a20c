/**
 * The slice of the X11 core protocol, ICCCM and XCB that the window manager
 * touches: fixed-width integer types, window and atom identifiers, the
 * protocol constants the core names, and the requests it sends. Every XCB
 * call of the manager becomes one `Request` value appended to a
 * connection's outgoing queue.
 */
module XProto {

  type u8 = x: int | 0 <= x < 0x100
  type u16 = x: int | 0 <= x < 0x1_0000
  type u32 = x: int | 0 <= x < 0x1_0000_0000
  type i16 = x: int | -0x8000 <= x < 0x8000

  /** xcb_atom_t */
  type Atom = u32
  /** xcb_keycode_t */
  type Keycode = u8
  /** xcb_keysym_t */
  type Keysym = u32

  /** A server-assigned window identifier (`Window(pub xcb::Window)`). */
  datatype Window = Window(id: u32) {
    /** `Window::get`: the wrapped identifier, unchanged. */
    function Get(): (r: u32)
      ensures Window(r) == this
    {
      id
    }
  }

  // Value-mask bits of a ConfigureWindow request (X11 core protocol).
  const CONFIG_WINDOW_X: bv16 := 0x01
  const CONFIG_WINDOW_Y: bv16 := 0x02
  const CONFIG_WINDOW_WIDTH: bv16 := 0x04
  const CONFIG_WINDOW_HEIGHT: bv16 := 0x08
  const CONFIG_WINDOW_BORDER_WIDTH: bv16 := 0x10
  const CONFIG_WINDOW_SIBLING: bv16 := 0x20
  const CONFIG_WINDOW_STACK_MODE: bv16 := 0x40

  // Key-and-button-mask bits of the eight core modifiers.
  const MOD_MASK_SHIFT: bv32 := 0x01
  const MOD_MASK_LOCK: bv32 := 0x02
  const MOD_MASK_CONTROL: bv32 := 0x04
  const MOD_MASK_1: bv32 := 0x08
  const MOD_MASK_2: bv32 := 0x10
  const MOD_MASK_3: bv32 := 0x20
  const MOD_MASK_4: bv32 := 0x40
  const MOD_MASK_5: bv32 := 0x80

  // Response types of the events the manager dispatches on.
  const KEY_PRESS: u8 := 2
  const ENTER_NOTIFY: u8 := 7
  const DESTROY_NOTIFY: u8 := 17
  const UNMAP_NOTIFY: u8 := 18
  const MAP_REQUEST: u8 := 20
  const CONFIGURE_REQUEST: u8 := 23

  const CURRENT_TIME: u32 := 0
  const EVENT_MASK_NO_EVENT: u32 := 0
  const GRAB_MODE_ASYNC: u8 := 1

  /** One (value-mask bit, value) entry of a ConfigureWindow value list. */
  type ConfigValue = (bv16, u32)

  /** `m` has exactly one bit set. */
  predicate SingleBit(m: bv16)
  {
    m != 0 && m & (m - 1) == 0
  }

  /**
   * A ConfigureWindow value list is well formed when every entry carries a
   * single mask bit and the bits strictly increase, which is the order the
   * protocol transmits the values in and rules out a bit given twice.
   */
  predicate WellOrdered(values: seq<ConfigValue>)
  {
    && (forall i :: 0 <= i < |values| ==> SingleBit(values[i].0))
    && (forall i, j :: 0 <= i < j < |values| ==> values[i].0 < values[j].0)
  }

  /** A ClientMessage event with 32-bit data, as `ClientMessageEvent::new(32, ...)` builds it. */
  datatype ClientMessage = ClientMessage(format: u8, window: Window, messageType: Atom, data32: seq<u32>)

  /** The requests the core sends; round-trip replies are inputs of the operations. */
  datatype Request =
    | ConfigureWindow(window: Window, values: seq<ConfigValue>)
    | GetWmProtocols(window: Window, property: Atom)
    | SendEvent(propagate: bool, destination: Window, eventMask: u32, message: ClientMessage)
    | DestroyWindow(window: Window)
    | GrabKey(ownerEvents: bool, grabWindow: Window, modifiers: bv16, key: Keycode,
              pointerMode: u8, keyboardMode: u8)
}
