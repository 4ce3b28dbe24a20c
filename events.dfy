/**
 * The event translator and loop of src/core/event.rs (repeated in
 * void/src/core/x.rs): raw X events become `Option<Event>`; configure
 * requests are answered on the spot and yield nothing; `Next` pulls raw
 * events until one of them yields an `Event`.
 */
module Events {
  import opened Wrappers
  import opened XProto
  import opened Keys
  import Gateway

  /** The closed set of events the rest of the manager sees. */
  datatype Event =
    | MapRequest(window: Window)
    | UnmapNotify(window: Window)
    | DestroyNotify(window: Window)
    | KeyPress(combo: KeyCombo)
    | EnterNotify(window: Window)

  /** A response type the translator has no handler for (errors, other events, sent events). */
  type UnhandledCode = c: u8 |
    c != KEY_PRESS && c != ENTER_NOTIFY && c != DESTROY_NOTIFY
    && c != UNMAP_NOTIFY && c != MAP_REQUEST && c != CONFIGURE_REQUEST

  /** The fields of each raw event that the translator reads. */
  datatype RawEvent =
    | ConfigureRequestEvent(parent: u32, window: u32, sibling: u32, x: i16, y: i16,
                            width: u16, height: u16, borderWidth: u16, stackMode: u8, valueMask: bv16)
    | MapRequestEvent(parent: u32, window: u32)
    | UnmapNotifyEvent(event: u32, window: u32)
    | DestroyNotifyEvent(event: u32, window: u32)
    | KeyPressEvent(detail: Keycode, state: bv16)
    | EnterNotifyEvent(event: u32, child: u32)
    | OtherEvent(responseType: UnhandledCode)

  /** `event.response_type()`: the code `next` dispatches on. */
  function ResponseType(e: RawEvent): u8
  {
    match e
    case ConfigureRequestEvent(_, _, _, _, _, _, _, _, _, _) => CONFIGURE_REQUEST
    case MapRequestEvent(_, _) => MAP_REQUEST
    case UnmapNotifyEvent(_, _) => UNMAP_NOTIFY
    case DestroyNotifyEvent(_, _) => DESTROY_NOTIFY
    case KeyPressEvent(_, _) => KEY_PRESS
    case EnterNotifyEvent(_, _) => ENTER_NOTIFY
    case OtherEvent(code) => code
  }

  /** The response type of the raw event an `Event` variant stands for. */
  function KindCode(ev: Event): u8
  {
    match ev
    case MapRequest(_) => MAP_REQUEST
    case UnmapNotify(_) => UNMAP_NOTIFY
    case DestroyNotify(_) => DESTROY_NOTIFY
    case KeyPress(_) => KEY_PRESS
    case EnterNotify(_) => ENTER_NOTIFY
  }

  /** Rust's `v as u32` on an `i16`: sign extension, so -1 becomes 0xFFFF_FFFF. */
  function AsU32(v: i16): (r: u32)
    ensures r % 0x1_0000 == v % 0x1_0000
    ensures v >= 0 ==> r == v
    ensures v < 0 ==> r >= 0xFFFF_8000
  {
    if v < 0 then v + 0x1_0000_0000 else v
  }

  /** The seven (mask, value) pairs `on_configure_request` starts from. */
  function ConfigureCandidates(e: RawEvent): seq<ConfigValue>
    requires e.ConfigureRequestEvent?
  {
    [ (CONFIG_WINDOW_X, AsU32(e.x)),
      (CONFIG_WINDOW_Y, AsU32(e.y)),
      (CONFIG_WINDOW_WIDTH, e.width),
      (CONFIG_WINDOW_HEIGHT, e.height),
      (CONFIG_WINDOW_BORDER_WIDTH, e.borderWidth),
      (CONFIG_WINDOW_SIBLING, e.sibling),
      (CONFIG_WINDOW_STACK_MODE, e.stackMode) ]
  }

  lemma CandidatesWellOrdered(e: RawEvent)
    requires e.ConfigureRequestEvent?
    ensures WellOrdered(ConfigureCandidates(e))
  {
  }

  /** `filter(|&(mask, _)| mask & value_mask != 0)`, keeping the order. */
  function KeepSelected(pairs: seq<ConfigValue>, valueMask: bv16): (r: seq<ConfigValue>)
    ensures |r| <= |pairs|
    ensures forall p :: p in r <==> p in pairs && p.0 & valueMask != 0
  {
    if pairs == [] then []
    else
      var rest := KeepSelected(pairs[1..], valueMask);
      assert forall p :: p in pairs <==> p == pairs[0] || p in pairs[1..];
      if pairs[0].0 & valueMask != 0 then [pairs[0]] + rest else rest
  }

  lemma WellOrderedTail(pairs: seq<ConfigValue>)
    requires WellOrdered(pairs) && pairs != []
    ensures WellOrdered(pairs[1..])
    ensures forall q :: q in pairs[1..] ==> pairs[0].0 < q.0
  {
    var tail := pairs[1..];
    forall i | 0 <= i < |tail| ensures SingleBit(tail[i].0) && pairs[0].0 < tail[i].0 {
      assert tail[i] == pairs[i + 1];
    }
    forall i, j | 0 <= i < j < |tail| ensures tail[i].0 < tail[j].0 {
      assert tail[i] == pairs[i + 1] && tail[j] == pairs[j + 1];
    }
  }

  /** A filter that selects nothing keeps nothing. */
  lemma {:induction false} KeepSelectedNone(pairs: seq<ConfigValue>, valueMask: bv16)
    requires forall p :: p in pairs ==> p.0 & valueMask == 0
    ensures KeepSelected(pairs, valueMask) == []
    decreases |pairs|
  {
    if pairs != [] {
      assert pairs[0] in pairs;
      KeepSelectedNone(pairs[1..], valueMask);
    }
  }

  lemma ConsWellOrdered(p: ConfigValue, rest: seq<ConfigValue>)
    requires WellOrdered(rest) && SingleBit(p.0)
    requires forall q :: q in rest ==> p.0 < q.0
    ensures WellOrdered([p] + rest)
  {
    var r := [p] + rest;
    forall i, j | 0 <= i < j < |r| ensures r[i].0 < r[j].0 {
      assert r[j] == rest[j - 1];
      if i > 0 { assert r[i] == rest[i - 1]; }
    }
  }

  /** Filtering keeps the order of what it keeps, so a well-ordered list stays well ordered. */
  lemma {:induction false} KeepSelectedWellOrdered(pairs: seq<ConfigValue>, valueMask: bv16)
    requires WellOrdered(pairs)
    ensures WellOrdered(KeepSelected(pairs, valueMask))
    decreases |pairs|
  {
    if pairs != [] {
      var tail := pairs[1..];
      WellOrderedTail(pairs);
      KeepSelectedWellOrdered(tail, valueMask);
      if pairs[0].0 & valueMask != 0 {
        ConsWellOrdered(pairs[0], KeepSelected(tail, valueMask));
      }
    }
  }

  /**
   * The value list `on_configure_request` forwards: of the seven pairs,
   * exactly those whose mask bit is set in the request's value mask, in
   * the fixed order X, Y, WIDTH, HEIGHT, BORDER_WIDTH, SIBLING, STACK_MODE.
   */
  function ConfigureRequestValues(e: RawEvent): (r: seq<ConfigValue>)
    requires e.ConfigureRequestEvent?
    ensures WellOrdered(r)
    ensures |r| <= 7
    ensures forall p :: p in r ==> p in ConfigureCandidates(e)
    ensures forall i :: 0 <= i < 7 ==>
      (ConfigureCandidates(e)[i] in r <==> ConfigureCandidates(e)[i].0 & e.valueMask != 0)
  {
    var candidates := ConfigureCandidates(e);
    CandidatesWellOrdered(e);
    KeepSelectedWellOrdered(candidates, e.valueMask);
    KeepSelected(candidates, e.valueMask)
  }

  /** `on_map_request`: a map request always propagates, carrying the window to be mapped. */
  function OnMapRequest(e: RawEvent): (r: Option<Event>)
    requires e.MapRequestEvent?
    ensures r.Some? && r.value.MapRequest? && r.value.window.Get() == e.window
  {
    Some(MapRequest(Window(e.window)))
  }

  /**
   * `on_unmap_notify`: an unmap reported on the root window is suppressed;
   * any other carries the unmapped window, not the reporting one.
   */
  function OnUnmapNotify(root: Window, e: RawEvent): (r: Option<Event>)
    requires e.UnmapNotifyEvent?
    ensures r.None? <==> e.event == root.id
    ensures r.Some? ==> r.value.UnmapNotify? && r.value.window.Get() == e.window
  {
    if e.event != root.Get() then Some(UnmapNotify(Window(e.window))) else None
  }

  /** `on_destroy_notify`: always propagates, carrying the destroyed window. */
  function OnDestroyNotify(e: RawEvent): (r: Option<Event>)
    requires e.DestroyNotifyEvent?
    ensures r.Some? && r.value.DestroyNotify? && r.value.window.Get() == e.window
  {
    Some(DestroyNotify(Window(e.window)))
  }

  /** `on_key_press`: the state widened to 32 bits and the keycode's column-0 key symbol. */
  function OnKeyPress(keysymOf: Keycode -> Keysym, e: RawEvent): (r: Option<Event>)
    requires e.KeyPressEvent?
    ensures r.Some? && r.value.KeyPress? && r.value.combo.keysym == keysymOf(e.detail)
    ensures r.Some? ==> r.value.combo.modMask & 0xFFFF == e.state as bv32 && r.value.combo.modMask < 0x1_0000
  {
    Some(KeyPress(KeyCombo(e.state as bv32, keysymOf(e.detail))))
  }

  /** `on_enter_notify`: always propagates, carrying the `event` window, not the `child`. */
  function OnEnterNotify(e: RawEvent): (r: Option<Event>)
    requires e.EnterNotifyEvent?
    ensures r.Some? && r.value.EnterNotify? && r.value.window.Get() == e.event
  {
    Some(EnterNotify(Window(e.event)))
  }

  /**
   * What one raw event becomes. Configure requests and unhandled kinds
   * yield nothing, an unmap reported on the root window is suppressed, and
   * everything else becomes the `Event` of its own kind.
   */
  function Translate(root: Window, keysymOf: Keycode -> Keysym, e: RawEvent): (r: Option<Event>)
    ensures r.None? <==> e.ConfigureRequestEvent? || e.OtherEvent? || (e.UnmapNotifyEvent? && e.event == root.id)
    ensures r.Some? ==> KindCode(r.value) == ResponseType(e)
    ensures e.MapRequestEvent? ==> r == Some(MapRequest(Window(e.window)))
    ensures e.UnmapNotifyEvent? && e.event != root.id ==> r == Some(UnmapNotify(Window(e.window)))
    ensures e.DestroyNotifyEvent? ==> r == Some(DestroyNotify(Window(e.window)))
    ensures e.EnterNotifyEvent? ==> r == Some(EnterNotify(Window(e.event)))
    ensures e.KeyPressEvent? ==>
      && r.Some? && r.value.combo.keysym == keysymOf(e.detail)
      && r.value.combo.modMask & 0xFFFF == e.state as bv32 && r.value.combo.modMask < 0x1_0000
  {
    match e
    case ConfigureRequestEvent(_, _, _, _, _, _, _, _, _, _) => None
    case MapRequestEvent(_, _) => OnMapRequest(e)
    case UnmapNotifyEvent(_, _) => OnUnmapNotify(root, e)
    case DestroyNotifyEvent(_, _) => OnDestroyNotify(e)
    case KeyPressEvent(_, _) => OnKeyPress(keysymOf, e)
    case EnterNotifyEvent(_, _) => OnEnterNotify(e)
    case OtherEvent(_) => None
  }

  /** The requests the translator itself sends while handling `e`. */
  function Issued(e: RawEvent): (r: seq<Request>)
    ensures |r| <= 1
    ensures r != [] <==> e.ConfigureRequestEvent?
  {
    if e.ConfigureRequestEvent? then [ConfigureWindow(Window(e.window), ConfigureRequestValues(e))] else []
  }

  /** The requests sent while handling each event of `events`, in order. */
  function IssuedAll(events: seq<RawEvent>): (r: seq<Request>)
    ensures |r| <= |events|
  {
    if events == [] then []
    else IssuedAll(events[..|events| - 1]) + Issued(events[|events| - 1])
  }

  lemma IssuedAllStep(s: seq<RawEvent>, k: nat)
    requires k < |s|
    ensures IssuedAll(s[..k + 1]) == IssuedAll(s[..k]) + Issued(s[k])
  {
    assert s[..k + 1][..k] == s[..k];
  }

  /** The outcome of one call of `next`: the event it returns and how many raw events it took. */
  datatype Pulled = Pulled(event: Option<Event>, consumed: nat)

  /**
   * `next` on the raw stream `stream`: the translation of the first raw
   * event that yields an `Event`, after consuming every event before it.
   * Only a stream with no such event at all leaves `next` without a result
   * (the source then waits for the server forever).
   */
  function Pump(root: Window, keysymOf: Keycode -> Keysym, stream: seq<RawEvent>): (p: Pulled)
    ensures p.consumed <= |stream|
    ensures p.event.None? ==> p.consumed == |stream|
    ensures p.event.Some? ==> 0 < p.consumed && Translate(root, keysymOf, stream[p.consumed - 1]) == p.event
    ensures forall i :: 0 <= i < |stream| && (i < p.consumed - 1 || p.event.None?) ==>
      Translate(root, keysymOf, stream[i]).None?
  {
    if stream == [] then Pulled(None, 0)
    else
      var t := Translate(root, keysymOf, stream[0]);
      if t.Some? then Pulled(t, 1)
      else
        var p := Pump(root, keysymOf, stream[1..]);
        assert forall i :: 1 <= i < |stream| ==> stream[i] == stream[1..][i - 1];
        Pulled(p.event, p.consumed + 1)
  }

  /** `Pump` is pinned down by its first-propagating-event property. */
  lemma PumpUnique(root: Window, keysymOf: Keycode -> Keysym, stream: seq<RawEvent>, ev: Option<Event>, k: nat)
    requires k <= |stream|
    requires ev.None? ==> k == |stream|
    requires ev.Some? ==> 0 < k && Translate(root, keysymOf, stream[k - 1]) == ev
    requires forall i :: 0 <= i < |stream| && (i < k - 1 || ev.None?) ==> Translate(root, keysymOf, stream[i]).None?
    ensures Pump(root, keysymOf, stream) == Pulled(ev, k)
  {
  }

  /**
   * The gateway's own configure list is what the translator forwards for a
   * request that sets exactly X, Y, WIDTH and HEIGHT to the same values.
   */
  lemma ConfigureAgreesWithFilter(parent: u32, window: u32, sibling: u32, x: i16, y: i16,
                                  width: u16, height: u16, borderWidth: u16, stackMode: u8)
    requires x >= 0 && y >= 0
    ensures ConfigureRequestValues(ConfigureRequestEvent(parent, window, sibling, x, y, width, height,
              borderWidth, stackMode, CONFIG_WINDOW_X | CONFIG_WINDOW_Y | CONFIG_WINDOW_WIDTH | CONFIG_WINDOW_HEIGHT))
            == Gateway.ConfigureValues(x, y, width, height)
  {
    var mask := CONFIG_WINDOW_X | CONFIG_WINDOW_Y | CONFIG_WINDOW_WIDTH | CONFIG_WINDOW_HEIGHT;
    var e := ConfigureRequestEvent(parent, window, sibling, x, y, width, height, borderWidth, stackMode, mask);
    var head := Gateway.ConfigureValues(x, y, width, height);
    var tail := [(CONFIG_WINDOW_BORDER_WIDTH, borderWidth as u32), (CONFIG_WINDOW_SIBLING, sibling),
                 (CONFIG_WINDOW_STACK_MODE, stackMode as u32)];
    assert ConfigureCandidates(e) == head + tail;
    KeepSelectedHeadThenNone(head, tail, mask);
  }

  /** A filter that selects every pair of `head` and none of `tail` keeps exactly `head`. */
  lemma {:induction false} KeepSelectedHeadThenNone(head: seq<ConfigValue>, tail: seq<ConfigValue>, valueMask: bv16)
    requires forall p :: p in head ==> p.0 & valueMask != 0
    requires forall p :: p in tail ==> p.0 & valueMask == 0
    ensures KeepSelected(head + tail, valueMask) == head
    decreases |head|
  {
    if head == [] {
      assert head + tail == tail;
      KeepSelectedNone(tail, valueMask);
    } else {
      assert head[0] in head;
      KeepSelectedHeadThenNone(head[1..], tail, valueMask);
      assert head + tail == [head[0]] + (head[1..] + tail);
      KeepSelectedCons(head[0], head[1..] + tail, valueMask);
      assert head == [head[0]] + head[1..];
    }
  }

  lemma KeepSelectedCons(p: ConfigValue, rest: seq<ConfigValue>, valueMask: bv16)
    ensures KeepSelected([p] + rest, valueMask)
         == if p.0 & valueMask != 0 then [p] + KeepSelected(rest, valueMask) else KeepSelected(rest, valueMask)
  {
    assert ([p] + rest)[1..] == rest;
  }

  /** The event loop over the connection; `pending` is what the server has yet to deliver. */
  class EventLoop {
    const conn: Gateway.Connection
    var pending: seq<RawEvent>

    /** `EventLoop::new`, which cannot fail. */
    constructor (conn: Gateway.Connection, stream: seq<RawEvent>)
      ensures this.conn == conn && pending == stream
    {
      this.conn := conn;
      pending := stream;
    }

    /** `on_configure_request`: forward the selected values to the server; yield nothing. */
    method OnConfigureRequest(e: RawEvent) returns (r: Option<Event>)
      requires e.ConfigureRequestEvent?
      modifies conn
      ensures r == None
      ensures conn.outbox == old(conn.outbox) + [ConfigureWindow(Window(e.window), ConfigureRequestValues(e))]
    {
      var filtered := ConfigureRequestValues(e);
      conn.outbox := conn.outbox + [ConfigureWindow(Window(e.window), filtered)];
      r := None;
    }

    /** The `match event.response_type()` of `next`, for one raw event. */
    method Dispatch(e: RawEvent) returns (r: Option<Event>)
      modifies conn
      ensures r == Translate(conn.root, conn.keysymOf, e)
      ensures conn.outbox == old(conn.outbox) + Issued(e)
    {
      match e {
        case ConfigureRequestEvent(_, _, _, _, _, _, _, _, _, _) =>
          r := OnConfigureRequest(e);
        case MapRequestEvent(_, _) =>
          r := OnMapRequest(e);
        case UnmapNotifyEvent(_, _) =>
          r := OnUnmapNotify(conn.WindowRoot(), e);
        case DestroyNotifyEvent(_, _) =>
          r := OnDestroyNotify(e);
        case KeyPressEvent(_, _) =>
          r := OnKeyPress(conn.keysymOf, e);
        case EnterNotifyEvent(_, _) =>
          r := OnEnterNotify(e);
        case OtherEvent(_) =>
          r := None;
      }
    }

    /**
     * `Iterator::next`: pull raw events until one yields an `Event` and
     * return it, having handled (and consumed) every event before it.
     */
    method Next() returns (ev: Option<Event>)
      modifies this, conn
      ensures var p := Pump(conn.root, conn.keysymOf, old(pending));
        && ev == p.event
        && pending == old(pending)[p.consumed..]
        && conn.outbox == old(conn.outbox) + IssuedAll(old(pending)[..p.consumed])
    {
      ghost var start := pending;
      ghost var k := 0;
      ev := None;
      while ev.None? && pending != []
        invariant 0 <= k <= |start| && pending == start[k..]
        invariant conn.outbox == old(conn.outbox) + IssuedAll(start[..k])
        invariant ev.Some? ==> 0 < k && Translate(conn.root, conn.keysymOf, start[k - 1]) == ev
        invariant forall i :: 0 <= i < |start| && (i < k - 1 || (ev.None? && i < k)) ==>
          Translate(conn.root, conn.keysymOf, start[i]).None?
        decreases |pending|
      {
        var e := pending[0];
        pending := pending[1..];
        ev := Dispatch(e);
        IssuedAllStep(start, k);
        k := k + 1;
      }
      PumpUnique(conn.root, conn.keysymOf, start, ev, k);
    }
  }
}
