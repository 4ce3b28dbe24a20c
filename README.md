# void — a Dafny model of the window manager's decision logic

This project models the decision logic of `void`, a tiling window manager for
X11 written in Rust. It does not model the X server. Every request the window
manager would send over XCB is appended to an `outbox` queue of `Request`
values on the connection object. The answers the code would get from the
server come in from outside:

- the `WM_PROTOCOLS` reply is a parameter of `WindowClose`;
- the stream of raw events is the event loop's `pending` sequence;
- the keyboard mapping (the keysym of a keycode, and the keycode of a
  keysym) is a pair of functions fixed when the connection is built. The
  source instead builds a fresh `KeySymbols` on every call
  (src/core/x.rs:229, src/core/event.rs:83), so the model assumes the
  mapping does not change while the manager runs.

The modules follow the source files:

| module | source |
|---|---|
| `XProto` (`xproto.dfy`) | the slice of the X core protocol the code uses: window ids, `ConfigureWindow` value masks, modifier masks, event codes and the requests themselves |
| `Keys` (`keys.dfy`) | `void/src/x/keys.rs`: `ModKey::mask`, `ModKey::mask_all`, the OR-fold of `KeyCombo::new` |
| `Gateway` (`gateway.dfy`) | `src/core/x.rs` and its identical copy in `void/src/core/x.rs`: `Window::get`, `window_root`, `window_close` (delete-or-destroy, section 4.2.8.1 of the ICCCM), `window_configure`, `window_enable_keyevents` |
| `LegacyGateway` (`legacy_gateway.dfy`) | the older `void/src/x/xcb.rs` copy of the same connection, whose `window_enable_keyevents` is empty |
| `Events` (`events.dfy`) | `src/core/event.rs` and its copy in `void/src/core/x.rs`: the `on_*` handlers, the configure-request filter, and the `next` loop |
| `Command` (`command.dfy`) | `src/core/command.rs`: the key-binding table (`add`, `lookup`) and the argv split of `exec` |
| `Workspaces` (`workspace.dfy`) | `src/core/workspace.rs`: the master and slave window lists |

The shape of the model follows the shape of the code:

- **Pure code becomes functions.** This covers the handlers, the close decision, the value lists and the key masks. Each function has a named result and contracts, and lemmas relate the functions to each other.
- **Code that changes state becomes classes with methods.**
  - `Gateway.Connection` and `LegacyGateway.Connection` append to their `outbox`.
  - `Events.EventLoop` consumes its `pending` stream.
  - `Command.Commands` updates its `keybinds` map.
  - `Workspaces.Workspace` appends to `master` and `slave`.
- **Loops in the source stay loops.** These are the `for` loop of `window_enable_keyevents`, the `loop` of `next`, and the argument loop of `exec`. Each method is proved against a pure specification function:
  - `GrabRequests` and `Unresolved` specify `window_enable_keyevents`;
  - `Pump` and `IssuedAll` specify `next`;
  - `Argv` specifies `exec`.

Some source files do not compile as written. In each case the model follows the evident intent:

- `Workspace` has no `master`/`slave` fields. The model gives it `master: seq<Window>` and `slave: seq<Window>`.
- `Commands::add` and `lookup` take `self` by value. They are modelled as a mutating method and a read-only function.
- `lookup` discards the map entry it reads. The model returns it.

## Model

| member | source | states |
|---|---|---|
| XProto.Window.Get | src/core/x.rs:110-112 | the wrapped id comes back unchanged: re-wrapping it gives the same window |
| Keys.Mask | void/src/x/keys.rs:55-66 | every modifier maps to a non-zero mask inside the eight core modifier bits |
| Keys.MaskIsMapIndexBit | void/src/x/keys.rs:55-66 | Shift, Lock, Control, Mod1..Mod5 map to bits 0..7 in that order, one bit each |
| Keys.MaskDisjoint | void/src/x/keys.rs:55-66 | two modifiers' masks share a bit if and only if they are the same modifier |
| Keys.MaskAll | void/src/x/keys.rs:44-53 | `mask_all` contains the mask of every modifier and nothing above the eight modifier bits |
| Keys.FoldMask | void/src/x/keys.rs:76 | the fold holds modifier k exactly when the accumulator held it or k is in the list |
| Keys.FoldMaskWithinAll | void/src/x/keys.rs:76 | folding modifier masks into a mask within `mask_all` stays within `mask_all` |
| Keys.NewKeyCombo | void/src/x/keys.rs:75-78 | `KeyCombo::new` keeps the keysym, its mask holds exactly the listed modifiers (none for an empty list), and the mask is within `mask_all` |
| Keys.MasksEqualByModifiers | void/src/x/keys.rs:44-66 | two masks within `mask_all` that hold the same modifiers are equal |
| Keys.NewKeyComboIgnoresOrder | void/src/x/keys.rs:76 | two modifier lists with the same members, in any order and with any repetition, give the same combination |
| Keys.NewKeyComboSeparatesModifierSets | void/src/x/keys.rs:75-78 | a modifier in one list and not in the other makes the two combinations differ |
| Gateway.CloseRequest | src/core/x.rs:174-200 | the delete message is sent if and only if the protocols reply lists `WM_DELETE_WINDOW`; a failed query destroys; the message is format 32, on `win`, of type `WM_PROTOCOLS`, with data `[WM_DELETE_WINDOW, CURRENT_TIME, 0, 0, 0]`, unpropagated with an empty event mask; otherwise `win` is destroyed |
| Gateway.ConfigureValues | src/core/x.rs:202-210 | exactly four pairs X, Y, WIDTH, HEIGHT, in that order, carrying the given values |
| Gateway.GrabRequests | src/core/x.rs:228-246 | at most one grab per combination, each an asynchronous, non-owner-events grab on `win` |
| Gateway.GrabRequestsExact | src/core/x.rs:228-242 | every resolvable combination is grabbed with its own modifier mask and first keycode, and every grab comes from such a combination |
| Gateway.Unresolved | src/core/x.rs:243 | only keysyms that do not resolve are reported |
| Gateway.UnresolvedExact | src/core/x.rs:243 | a keysym is reported if and only if some combination carries it and it does not resolve |
| Gateway.GrabRequestsSplit | src/core/x.rs:230-245 | an unresolvable combination never stops the loop: the grabs for a list are the grabs for its parts, in order |
| Gateway.UnresolvedSplit | src/core/x.rs:230-245 | the reports for a list are the reports for its parts, in order |
| Gateway.GrabCount | src/core/x.rs:230-245 | each combination is either grabbed or reported, exactly once |
| Gateway.Connection.constructor | src/core/x.rs:134-141 | the model's constructor takes the root, atoms and keyboard mapping as given, with an empty outbox (the requests `open` itself sends are left out) |
| Gateway.Connection.WindowRoot | src/core/x.rs:170-172 | always the root fixed at `open` |
| Gateway.Connection.WindowClose | src/core/x.rs:174-200 | appends the `WM_PROTOCOLS` query and then exactly one of the delete message or the destroy request; the copy at void/src/core/x.rs:214-240 is the same |
| Gateway.Connection.WindowConfigure | src/core/x.rs:202-210 | appends one configure request for `win` carrying the four-pair list; the copy at void/src/core/x.rs:242-250 is the same |
| Gateway.Connection.WindowEnableKeyEvents | src/core/x.rs:228-246 | the loop appends exactly the grabs of the resolvable combinations, in order, and reports exactly the keysyms that do not resolve, in order; it never fails; the copy at void/src/core/x.rs:268-286 is the same |
| LegacyGateway.Connection.constructor | void/src/x/xcb.rs:109-119 | the model's constructor takes the root and atoms as given, with an empty outbox (the requests `open` itself sends are left out) |
| LegacyGateway.Connection.WindowRoot | void/src/x/xcb.rs:130-132 | always the root fixed at `open` |
| LegacyGateway.Connection.WindowClose | void/src/x/xcb.rs:134-150 | appends the protocols query, then the delete message if and only if the reply lists `WM_DELETE_WINDOW`, else the destroy request |
| LegacyGateway.Connection.WindowConfigure | void/src/x/xcb.rs:152-160 | appends one configure request with the four pairs X, Y, WIDTH, HEIGHT |
| LegacyGateway.Connection.WindowEnableKeyEvents | void/src/x/xcb.rs:176-178 | sends no request at all |
| Events.AsU32 | src/core/event.rs:55-56 | `i16 as u32` sign-extends: it keeps the low 16 bits and non-negative values, and turns negative values into values at or above 0xFFFF_8000 |
| Events.CandidatesWellOrdered | src/core/event.rs:53-67 | the seven candidate pairs carry one distinct mask bit each, in increasing order |
| Events.KeepSelected | src/core/event.rs:68-71 | a pair is kept if and only if it was a candidate whose mask meets the value mask |
| Events.KeepSelectedWellOrdered | src/core/event.rs:68-71 | the filter keeps the candidates' order |
| Events.KeepSelectedNone | src/core/event.rs:68-71 | a filter that selects none of the pairs keeps nothing |
| Events.KeepSelectedHeadThenNone | src/core/event.rs:68-71 | a filter that selects all of a prefix and none of the rest keeps exactly that prefix |
| Events.ConfigureRequestValues | src/core/event.rs:52-76 | the forwarded list holds exactly those of the seven pairs X, Y, WIDTH, HEIGHT, BORDER_WIDTH, SIBLING, STACK_MODE whose bit is set in `value_mask`, in that order, and nothing else; the copy at void/src/core/x.rs:342-366 is the same |
| Events.ConfigureAgreesWithFilter | src/core/event.rs:53-71 | a request that sets exactly X, Y, WIDTH and HEIGHT to non-negative values is forwarded as the same list `window_configure` builds |
| Events.OnDestroyNotify | src/core/event.rs:78-80 | a destroy notification always propagates, carrying the destroyed window |
| Events.OnKeyPress | src/core/event.rs:82-88 | a key press always propagates, carrying the keycode's keysym and the 16-bit state zero-extended to 32 bits |
| Events.OnMapRequest | src/core/event.rs:90-92 | a map request always propagates, carrying the window to be mapped |
| Events.OnUnmapNotify | src/core/event.rs:94-100 | an unmap is suppressed if and only if it is reported on the root window; otherwise it carries the unmapped window |
| Events.OnEnterNotify | src/core/event.rs:102-104 | an enter notification always propagates, carrying the `event` window rather than the child |
| Events.Translate | src/core/event.rs:78-104 | configure requests, unhandled kinds and unmaps reported on the root yield nothing; map, destroy and other unmaps carry `window()`; enter carries `event()`; a key press carries the keycode's keysym and the 16-bit state widened to 32 bits; every event keeps its kind; the copy at void/src/core/x.rs:368-395 is the same |
| Events.Issued | src/core/event.rs:73-75 | only a configure request makes the translator itself send a request, and then exactly one |
| Events.IssuedAll | src/core/event.rs:110-136 | at most one request per handled event |
| Events.Pump | src/core/event.rs:110-136 | `next` returns the translation of the first raw event that yields an event, after consuming that event and every event before it, all of which yield nothing; it returns nothing only after consuming a stream in which no event yields anything |
| Events.PumpUnique | src/core/event.rs:110-136 | the first-propagating-event property determines what `next` returns and how far it reads |
| Events.EventLoop.constructor | src/core/event.rs:48-50 | the loop over the given connection cannot fail to start |
| Events.EventLoop.OnConfigureRequest | src/core/event.rs:52-76 | sends one configure request with the filtered list for the requesting window, and yields nothing |
| Events.EventLoop.Dispatch | src/core/event.rs:121-129 | the response-type dispatch returns the translation of the event and sends exactly that event's own requests |
| Events.EventLoop.Next | src/core/event.rs:110-136 | the loop returns what `Pump` specifies, leaves the unread rest of the stream pending, and sends the requests of every consumed event, in order; the copy at void/src/core/x.rs:400-426 is the same |
| Command.AddedKey | src/core/command.rs:45-48 | the key `add` stores under keeps the keysym, and its mask holds the first listed modifier and no other, and nothing outside `mask_all` |
| Command.AddedKeyDropsLaterModifiers | src/core/command.rs:43-51 | a later modifier that differs from the first is lost: the stored key is not the listed combination |
| Command.AddIgnoresShiftInConfig | src/config.rs:52-56 | the configuration's `[modkey, Shift] + d` lands on the same key as `[modkey] + d` when modkey is Mod4 |
| Command.Commands.constructor | src/core/command.rs:37-41 | a new table holds no bindings |
| Command.Commands.Lookup | src/core/command.rs:53-56 | an exact-match read: a binding is found if and only if the combination is a key of the table, and it is the stored one |
| Command.Commands.Add | src/core/command.rs:43-51 | the binding is stored under the first modifier's key, replacing any earlier one (the last write wins), and every other key keeps its binding |
| Command.Commands.AddCombo | src/core/command.rs:43-51 | the corrected `add`: the same, keyed by the combination of all listed modifiers |
| Command.Exec | src/core/command.rs:58-63 | an empty vector is an error; otherwise the program is the first element and the arguments are the rest, in order |
| Workspaces.Workspace.PushMaster | src/core/workspace.rs:34-36 | appends `win` to master and leaves slave alone; on an empty master, `pop_master` then returns `win`, else its result is unchanged |
| Workspaces.Workspace.PopMaster | src/core/workspace.rs:38-43 | the first master window when there is one, else the error "[!] No Windows on master"; it reads and changes nothing |
| Workspaces.Workspace.PushSlave | src/core/workspace.rs:45-47 | appends `win` to slave and leaves master alone; on an empty slave, `pop_slave` then returns `win`, else its result is unchanged |
| Workspaces.Workspace.PopSlave | src/core/workspace.rs:49-54 | the first slave window when there is one, else the error "[!] No Windows on slave"; it reads and changes nothing |

## Left out

- `Connection::open`, atom interning, `check_wm`, `top_level_windows`, `window_geometry`, `get_screen_width`, `window_map`/`window_unmap`, focus and tracking. These are thin XCB/EWMH wrappers with no decision the modelled operations depend on. `open` connects, can fail in two ways, and interns atoms by round trip; none of that is modelled. The constructors take the root window and the atoms as given.
- Keysym and keycode resolution (`KeySymbols::press_lookup_keysym`, `get_keycode`) is a foreign library call. It is modelled as a fixed function on the connection: keycode to keysym, and keysym to an optional first keycode.
- `wait_for_event`, `flush` and the I/O-error panic of `next` are blocking I/O.
  - The raw event stream is a finite sequence.
  - Events.EventLoop.Next: the source never returns `None`, because it blocks until an event propagates. On a finite stream with no propagating event, the model returns `None` after consuming everything.
- Sent events, whose response type has the 0x80 bit set, fall under the unhandled kinds, as they do in the source's `match`.
- Command.Exec: `Command::spawn` (process I/O) and its `expect` panic are left out. The method returns the program and arguments that would be spawned, and an empty vector is an error result instead of an index panic.
- Command.Commands.Add: an empty modifier slice panics in the source when `add` indexes `modkey[0]` (src/core/command.rs:46). The method requires a non-empty slice, and every call in src/config.rs:50-56 passes one.
- Workspaces.Workspace.PopMaster and PopSlave: the source unwraps the "no windows" error, which panics. The model returns it as a `Failure`.
- Gateway.Connection.WindowEnableKeyEvents: the `println!` of an unresolvable keysym is modelled as the `reported` sequence. The combinations come in as a sequence, because `key_combos` walks a `HashMap` in an unspecified order.
- `src/core/keys.rs` is not part of this model. `Command` uses the `KeyCombo` of `void/src/x/keys.rs`, so a binding's keysym is the numeric keysym, not the `&str` name of `src/core/command.rs`.
- Callbacks (`fn()`) are opaque; a `Callback` is known only by an identifier.
- Sandboxing, startup and dispatch wiring in `main.rs`, the static binding tables of `config.rs`, layouts (the `layout` field of `Workspace` and the `Layout` trait), and the never-populated `WindowType`/`WindowState` lookups.
- The 32-bit `c_uint` modifier mask is a `bv32`. `key.mod_mask as u16` in the grab keeps its low 16 bits.

## Findings

| source | as written | input that shows it | evidently intended | confidence | as-written member | corrected member |
|---|---|---|---|---|---|---|
| src/core/command.rs:46 | `add` keys the binding on `modkey[0].mask()` alone, dropping every later modifier | `add([Mod4, Shift], "d", ...)` from src/config.rs:52-56 is stored under Mod4+d, the same key as `add([Mod4], "d", ...)`, so it is never reached by Mod4+Shift+d | the key carries the OR of all listed modifiers, as `KeyCombo::new` in void/src/x/keys.rs:75-78 builds it | not executed | Command.AddIgnoresShiftInConfig | Command.Commands.AddCombo |
