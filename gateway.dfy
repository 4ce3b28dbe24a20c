/**
 * The protocol gateway: the `Connection` of src/core/x.rs, whose
 * `window_close`, `window_configure`, `window_enable_keyevents` and
 * `window_root` are repeated unchanged in void/src/core/x.rs. The
 * connection's outgoing request queue is the `outbox` sequence; a reply to
 * a round trip is an argument of the operation that waits for it.
 */
module Gateway {
  import opened Wrappers
  import opened XProto
  import opened Keys

  /** The atoms interned once when the connection is opened. */
  datatype Atoms = Atoms(wmDeleteWindow: Atom, wmProtocols: Atom)

  /** The WM_DELETE_WINDOW ClientMessage of ICCCM section 4.2.8.1 (Window Deletion). */
  function DeleteMessage(atoms: Atoms, win: Window): ClientMessage
  {
    ClientMessage(32, win, atoms.wmProtocols, [atoms.wmDeleteWindow, CURRENT_TIME, 0, 0, 0])
  }

  /**
   * A window takes part in the delete protocol when its WM_PROTOCOLS
   * property (ICCCM section 4.1.2.7) lists WM_DELETE_WINDOW. A failed
   * query (`None`) counts as "not supported".
   */
  predicate SupportsDelete(atoms: Atoms, reply: Option<seq<Atom>>)
  {
    reply.Some? && atoms.wmDeleteWindow in reply.value
  }

  /**
   * The request `window_close` issues once the WM_PROTOCOLS reply is in:
   * the delete message when the window supports it, and a forced destroy
   * otherwise. Exactly one of the two.
   */
  function CloseRequest(atoms: Atoms, win: Window, reply: Option<seq<Atom>>): (r: Request)
    ensures r.SendEvent? <==> SupportsDelete(atoms, reply)
    ensures r.DestroyWindow? <==> !SupportsDelete(atoms, reply)
    ensures r.SendEvent? ==>
      && !r.propagate && r.destination == win && r.eventMask == EVENT_MASK_NO_EVENT
      && r.message.format == 32 && r.message.window == win
      && r.message.messageType == atoms.wmProtocols
      && r.message.data32 == [atoms.wmDeleteWindow, CURRENT_TIME, 0, 0, 0]
    ensures r.DestroyWindow? ==> r.window == win
  {
    // `query_protocols(win).map(|proto| proto.contains(&WM_DELETE_WINDOW)).unwrap_or(false)`
    var supported := match reply
      case Some(proto) => atoms.wmDeleteWindow in proto
      case None => false;
    if supported then SendEvent(false, win, EVENT_MASK_NO_EVENT, DeleteMessage(atoms, win))
    else DestroyWindow(win)
  }

  /** The value list of `window_configure`: X, Y, WIDTH and HEIGHT, in that order. */
  function ConfigureValues(x: u32, y: u32, width: u32, height: u32): (r: seq<ConfigValue>)
    ensures WellOrdered(r)
    ensures |r| == 4
    ensures r[0].0 | r[1].0 | r[2].0 | r[3].0
         == CONFIG_WINDOW_X | CONFIG_WINDOW_Y | CONFIG_WINDOW_WIDTH | CONFIG_WINDOW_HEIGHT
    ensures [r[0].1, r[1].1, r[2].1, r[3].1] == [x, y, width, height]
  {
    [(CONFIG_WINDOW_X, x), (CONFIG_WINDOW_Y, y), (CONFIG_WINDOW_WIDTH, width), (CONFIG_WINDOW_HEIGHT, height)]
  }

  /** `key.mod_mask as u16`: the grab request carries the low 16 bits of the mask. */
  function GrabModifiers(m: ModMask): bv16
  {
    (m & 0xFFFF) as bv16
  }

  /** The grab `window_enable_keyevents` issues for one resolved key combination. */
  function GrabFor(win: Window, combo: KeyCombo, keycode: Keycode): Request
  {
    GrabKey(false, win, GrabModifiers(combo.modMask), keycode, GRAB_MODE_ASYNC, GRAB_MODE_ASYNC)
  }

  /**
   * The grabs `window_enable_keyevents` issues for `combos`, in order: one
   * per combination whose key symbol resolves to a keycode, using the first
   * keycode; the others are skipped.
   */
  function GrabRequests(win: Window, combos: seq<KeyCombo>, keycodeOf: Keysym -> Option<Keycode>): (r: seq<Request>)
    ensures |r| <= |combos|
    ensures forall i :: 0 <= i < |r| ==>
      r[i].GrabKey? && r[i].grabWindow == win && !r[i].ownerEvents
      && r[i].pointerMode == GRAB_MODE_ASYNC && r[i].keyboardMode == GRAB_MODE_ASYNC
  {
    if combos == [] then []
    else
      match keycodeOf(combos[0].keysym)
      case Some(keycode) => [GrabFor(win, combos[0], keycode)] + GrabRequests(win, combos[1..], keycodeOf)
      case None => GrabRequests(win, combos[1..], keycodeOf)
  }

  /**
   * The grabs are exactly those of the resolvable combinations: each
   * resolvable combination is grabbed with its own modifier mask and its
   * first keycode, and every grab comes from such a combination.
   */
  lemma {:induction false} GrabRequestsExact(win: Window, combos: seq<KeyCombo>, keycodeOf: Keysym -> Option<Keycode>)
    ensures forall c :: c in combos && keycodeOf(c.keysym).Some? ==>
      GrabFor(win, c, keycodeOf(c.keysym).value) in GrabRequests(win, combos, keycodeOf)
    ensures forall q :: q in GrabRequests(win, combos, keycodeOf) ==>
      exists c :: c in combos && keycodeOf(c.keysym).Some? && q == GrabFor(win, c, keycodeOf(c.keysym).value)
    decreases |combos|
  {
    if combos != [] {
      GrabRequestsExact(win, combos[1..], keycodeOf);
      assert forall c :: c in combos ==> c == combos[0] || c in combos[1..];
    }
  }

  /** The key symbols `window_enable_keyevents` reports as unresolvable, in order. */
  function Unresolved(combos: seq<KeyCombo>, keycodeOf: Keysym -> Option<Keycode>): (r: seq<Keysym>)
    ensures |r| <= |combos|
    ensures forall i :: 0 <= i < |r| ==> keycodeOf(r[i]).None?
  {
    if combos == [] then []
    else if keycodeOf(combos[0].keysym).None? then [combos[0].keysym] + Unresolved(combos[1..], keycodeOf)
    else Unresolved(combos[1..], keycodeOf)
  }

  /** The reported key symbols are exactly those of the unresolvable combinations. */
  lemma {:induction false} UnresolvedExact(combos: seq<KeyCombo>, keycodeOf: Keysym -> Option<Keycode>)
    ensures forall s :: s in Unresolved(combos, keycodeOf) <==>
      exists c :: c in combos && c.keysym == s && keycodeOf(s).None?
    decreases |combos|
  {
    if combos != [] {
      UnresolvedExact(combos[1..], keycodeOf);
      assert forall c :: c in combos ==> c == combos[0] || c in combos[1..];
    }
  }

  /**
   * A combination that cannot be resolved never stops the ones after it:
   * the grabs for a list are the grabs for its parts, in order.
   */
  lemma {:induction false} GrabRequestsSplit(win: Window, a: seq<KeyCombo>, b: seq<KeyCombo>, keycodeOf: Keysym -> Option<Keycode>)
    ensures GrabRequests(win, a + b, keycodeOf) == GrabRequests(win, a, keycodeOf) + GrabRequests(win, b, keycodeOf)
    decreases |a|
  {
    if a == [] {
      assert a + b == b;
    } else {
      assert (a + b)[1..] == a[1..] + b;
      GrabRequestsSplit(win, a[1..], b, keycodeOf);
    }
  }

  /** Every combination is either grabbed or reported, never both and never neither. */
  lemma {:induction false} GrabCount(win: Window, combos: seq<KeyCombo>, keycodeOf: Keysym -> Option<Keycode>)
    ensures |GrabRequests(win, combos, keycodeOf)| + |Unresolved(combos, keycodeOf)| == |combos|
    decreases |combos|
  {
    if combos != [] {
      GrabCount(win, combos[1..], keycodeOf);
    }
  }

  /**
   * The connection to the X server, as `open` leaves it: the root window,
   * the interned atoms and the keyboard mapping are fixed; only the queue
   * of requests sent so far grows.
   */
  class Connection {
    const root: Window
    const atoms: Atoms
    /** `press_lookup_keysym(event, 0)`: the column-0 key symbol of a keycode. */
    const keysymOf: Keycode -> Keysym
    /** `get_keycode(keysym).next()`: the first keycode producing a key symbol, if any. */
    const keycodeOf: Keysym -> Option<Keycode>
    /** The requests sent on the connection, oldest first. */
    var outbox: seq<Request>

    constructor (root: Window, atoms: Atoms, keysymOf: Keycode -> Keysym, keycodeOf: Keysym -> Option<Keycode>)
      ensures this.root == root && this.atoms == atoms
      ensures this.keysymOf == keysymOf && this.keycodeOf == keycodeOf
      ensures outbox == []
    {
      this.root := root;
      this.atoms := atoms;
      this.keysymOf := keysymOf;
      this.keycodeOf := keycodeOf;
      outbox := [];
    }

    /** `window_root`: the root window found when the connection was opened. */
    function WindowRoot(): (r: Window)
      ensures r == root
    {
      root
    }

    /**
     * `window_close`: query WM_PROTOCOLS (the server's answer is `reply`,
     * `None` when the query fails), then send the delete message or destroy.
     */
    method WindowClose(win: Window, reply: Option<seq<Atom>>)
      modifies this
      ensures outbox == old(outbox) + [GetWmProtocols(win, atoms.wmProtocols), CloseRequest(atoms, win, reply)]
    {
      outbox := outbox + [GetWmProtocols(win, atoms.wmProtocols)];
      outbox := outbox + [CloseRequest(atoms, win, reply)];
    }

    /** `window_configure`: one ConfigureWindow request with the four geometry values. */
    method WindowConfigure(win: Window, x: u32, y: u32, width: u32, height: u32)
      modifies this
      ensures outbox == old(outbox) + [ConfigureWindow(win, ConfigureValues(x, y, width, height))]
    {
      outbox := outbox + [ConfigureWindow(win, ConfigureValues(x, y, width, height))];
    }

    /**
     * `window_enable_keyevents`: grab every combination whose key symbol
     * resolves, and report (rather than fail on) the ones that do not.
     */
    method WindowEnableKeyEvents(win: Window, combos: seq<KeyCombo>) returns (reported: seq<Keysym>)
      modifies this
      ensures outbox == old(outbox) + GrabRequests(win, combos, keycodeOf)
      ensures reported == Unresolved(combos, keycodeOf)
    {
      reported := [];
      var i := 0;
      while i < |combos|
        invariant 0 <= i <= |combos|
        invariant outbox == old(outbox) + GrabRequests(win, combos[..i], keycodeOf)
        invariant reported == Unresolved(combos[..i], keycodeOf)
      {
        var key := combos[i];
        match keycodeOf(key.keysym) {
          case Some(keycode) =>
            outbox := outbox + [GrabFor(win, key, keycode)];
          case None =>
            reported := reported + [key.keysym];
        }
        assert combos[..i + 1] == combos[..i] + [key];
        GrabStep(win, combos[..i], key, keycodeOf);
        i := i + 1;
      }
      assert combos[..i] == combos;
    }
  }

  /** One iteration of `window_enable_keyevents`: at most one more grab, or one more report. */
  lemma GrabStep(win: Window, done: seq<KeyCombo>, key: KeyCombo, keycodeOf: Keysym -> Option<Keycode>)
    ensures GrabRequests(win, done + [key], keycodeOf) == GrabRequests(win, done, keycodeOf) +
      (if keycodeOf(key.keysym).Some? then [GrabFor(win, key, keycodeOf(key.keysym).value)] else [])
    ensures Unresolved(done + [key], keycodeOf) == Unresolved(done, keycodeOf) +
      (if keycodeOf(key.keysym).None? then [key.keysym] else [])
  {
    GrabRequestsSplit(win, done, [key], keycodeOf);
    UnresolvedSplit(done, [key], keycodeOf);
    assert [key][1..] == [];
  }

  lemma {:induction false} UnresolvedSplit(a: seq<KeyCombo>, b: seq<KeyCombo>, keycodeOf: Keysym -> Option<Keycode>)
    ensures Unresolved(a + b, keycodeOf) == Unresolved(a, keycodeOf) + Unresolved(b, keycodeOf)
    decreases |a|
  {
    if a == [] {
      assert a + b == b;
    } else {
      assert (a + b)[1..] == a[1..] + b;
      UnresolvedSplit(a[1..], b, keycodeOf);
    }
  }
}
