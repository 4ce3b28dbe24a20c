/**
 * The older copy of the gateway in void/src/x/xcb.rs. Its `window_close`
 * and `window_configure` make the same decisions as the current gateway,
 * so they send the requests that `Gateway.CloseRequest` and
 * `Gateway.ConfigureValues` describe; its `window_enable_keyevents` is
 * still an empty stub and sends nothing. One difference in form: this copy
 * writes the configure masks `as u32` where the current one writes them
 * `as u16`; the model keeps the 16-bit masks of the current gateway, which
 * carry the same bits.
 */
module LegacyGateway {
  import opened Wrappers
  import opened XProto
  import Gateway

  class Connection {
    const root: Window
    const atoms: Gateway.Atoms
    /** The requests sent on the connection, oldest first. */
    var outbox: seq<Request>

    constructor (root: Window, atoms: Gateway.Atoms)
      ensures this.root == root && this.atoms == atoms && outbox == []
    {
      this.root := root;
      this.atoms := atoms;
      outbox := [];
    }

    /** `window_root`: the root window found when the connection was opened. */
    function WindowRoot(): (r: Window)
      ensures r == root
    {
      root
    }

    /** `window_close`: the WM_PROTOCOLS query, then the delete message or a destroy. */
    method WindowClose(win: Window, reply: Option<seq<Atom>>)
      modifies this
      ensures outbox == old(outbox) + [GetWmProtocols(win, atoms.wmProtocols), Gateway.CloseRequest(atoms, win, reply)]
      ensures outbox[|outbox| - 1].SendEvent? <==> Gateway.SupportsDelete(atoms, reply)
    {
      outbox := outbox + [GetWmProtocols(win, atoms.wmProtocols)];
      outbox := outbox + [Gateway.CloseRequest(atoms, win, reply)];
    }

    /** `window_configure`: one ConfigureWindow request with X, Y, WIDTH and HEIGHT. */
    method WindowConfigure(win: Window, x: u32, y: u32, width: u32, height: u32)
      modifies this
      ensures outbox == old(outbox) + [ConfigureWindow(win, Gateway.ConfigureValues(x, y, width, height))]
    {
      outbox := outbox + [ConfigureWindow(win, Gateway.ConfigureValues(x, y, width, height))];
    }

    /** `window_enable_keyevents`: an empty body, so no request is sent. */
    method WindowEnableKeyEvents(win: Window)
      modifies this
      ensures outbox == old(outbox)
    {
    }
  }
}
