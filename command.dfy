/**
 * The key-binding table of `src/core/command.rs`: bindings keyed by key
 * combination, an exact-match lookup, and the argv split of `exec`.
 */
module Command {
  import opened Wrappers
  import opened XProto
  import opened Keys

  /** A `fn()` callback; the model knows it only by its identity. */
  datatype Callback = Callback(id: nat)

  /** What a key combination is bound to: the callback and its argument vector. */
  datatype Binding = Binding(func: Callback, args: seq<string>)

  /** The process `exec` asks the OS to start: a program and its arguments, in order. */
  datatype Spawn = Spawn(program: string, args: seq<string>)

  /** `exec` on an empty vector: there is no program to index. */
  datatype ExecError = MissingProgram

  /** The command vector a spawn was built from. */
  function Argv(s: Spawn): seq<string>
  {
    [s.program] + s.args
  }

  /**
   * The key `add` stores a binding under, as written: only the first
   * modifier's mask, whatever follows it in the slice.
   */
  function AddedKey(modkey: seq<ModKey>, keysym: Keysym): (r: KeyCombo)
    requires |modkey| > 0
    ensures r.keysym == keysym
    ensures forall k: ModKey :: Holds(r.modMask, k) <==> k == modkey[0]
    ensures WithinAll(r.modMask)
  {
    OrWithinAll(0, modkey[0]);
    forall k: ModKey ensures Holds(Mask(modkey[0]), k) <==> k == modkey[0] {
      MaskDisjoint(k, modkey[0]);
    }
    KeyCombo(Mask(modkey[0]), keysym)
  }

  /**
   * Any modifier after the first that differs from it is lost: the stored
   * key is not the combination the caller listed.
   */
  lemma AddedKeyDropsLaterModifiers(modkey: seq<ModKey>, keysym: Keysym, k: ModKey)
    requires |modkey| > 0 && k in modkey[1..] && k != modkey[0]
    ensures AddedKey(modkey, keysym) != NewKeyCombo(modkey, keysym)
  {
    assert k in modkey;
    assert Holds(NewKeyCombo(modkey, keysym).modMask, k);
    assert !Holds(AddedKey(modkey, keysym).modMask, k);
  }

  /**
   * The binding `[Mod4, Shift] + d` of the configuration lands on the same
   * key as `[Mod4] + d`, not on Mod4+Shift+d.
   */
  lemma AddIgnoresShiftInConfig(keysym: Keysym)
    ensures AddedKey([Mod4, Shift], keysym) == AddedKey([Mod4], keysym)
    ensures AddedKey([Mod4, Shift], keysym) != NewKeyCombo([Mod4, Shift], keysym)
  {
    AddedKeyDropsLaterModifiers([Mod4, Shift], keysym, Shift);
  }

  /** `Commands`: the map from key combinations to bindings. */
  class Commands {
    var keybinds: map<KeyCombo, Binding>

    /** `Commands::new`: no bindings. */
    constructor ()
      ensures keybinds == map[]
    {
      keybinds := map[];
    }

    /** `lookup`: an exact-match read of the table, which it leaves as it is. */
    function Lookup(combo: KeyCombo): (r: Option<Binding>)
      reads this
      ensures r.Some? <==> combo in keybinds
      ensures r.Some? ==> r.value == keybinds[combo]
    {
      if combo in keybinds then Some(keybinds[combo]) else None
    }

    /**
     * `add` as written: the binding goes under the first modifier's mask
     * and the key symbol, replacing whatever was there; no other key moves.
     */
    method Add(modkey: seq<ModKey>, keysym: Keysym, func: Callback, args: seq<string>)
      requires |modkey| > 0
      modifies this
      ensures keybinds == old(keybinds)[AddedKey(modkey, keysym) := Binding(func, args)]
      ensures Lookup(AddedKey(modkey, keysym)) == Some(Binding(func, args))
      ensures forall c :: c != AddedKey(modkey, keysym) ==> Lookup(c) == old(Lookup(c))
    {
      keybinds := keybinds[AddedKey(modkey, keysym) := Binding(func, args)];
    }

    /**
     * `add` as evidently intended: the binding goes under the combination
     * of all listed modifiers, as `KeyCombo::new` builds it.
     */
    method AddCombo(modkey: seq<ModKey>, keysym: Keysym, func: Callback, args: seq<string>)
      modifies this
      ensures keybinds == old(keybinds)[NewKeyCombo(modkey, keysym) := Binding(func, args)]
      ensures Lookup(NewKeyCombo(modkey, keysym)) == Some(Binding(func, args))
      ensures forall c :: c != NewKeyCombo(modkey, keysym) ==> Lookup(c) == old(Lookup(c))
      ensures forall k: ModKey, c :: Lookup(c) != old(Lookup(c)) ==> (Holds(c.modMask, k) <==> k in modkey)
    {
      keybinds := keybinds[NewKeyCombo(modkey, keysym) := Binding(func, args)];
    }
  }

  /**
   * `exec`: the first element is the program, the rest are appended one by
   * one as its arguments; an empty vector has no program.
   */
  method Exec(cmdStr: seq<string>) returns (r: Result<Spawn, ExecError>)
    ensures r.Failure? <==> cmdStr == []
    ensures r.Success? ==> Argv(r.value) == cmdStr
  {
    if |cmdStr| == 0 {
      return Failure(MissingProgram);
    }
    var program := cmdStr[0];
    var args: seq<string> := [];
    var i := 1;
    while i < |cmdStr|
      invariant 1 <= i <= |cmdStr|
      invariant args == cmdStr[1..i]
    {
      args := args + [cmdStr[i]];
      i := i + 1;
    }
    assert cmdStr == [program] + cmdStr[1..];
    return Success(Spawn(program, args));
  }
}
