/**
 * Modifier keys and key combinations (void/src/x/keys.rs): each modifier
 * maps to its core-protocol bit, and a key combination folds the bits of
 * its modifiers together with bitwise OR.
 */
module Keys {
  import opened XProto

  /** `ModMask = c_uint` */
  type ModMask = bv32

  datatype ModKey = Shift | Lock | Control | Mod1 | Mod2 | Mod3 | Mod4 | Mod5

  /** The modifier's index in the core protocol's modifier map (Shift is 0, Mod5 is 7). */
  function MapIndex(k: ModKey): (r: nat)
    ensures r < 8
  {
    match k
    case Shift => 0
    case Lock => 1
    case Control => 2
    case Mod1 => 3
    case Mod2 => 4
    case Mod3 => 5
    case Mod4 => 6
    case Mod5 => 7
  }

  /** `ModKey::mask`: the key-and-button-mask bit of the modifier. */
  function Mask(k: ModKey): (r: ModMask)
    ensures r != 0
    ensures r < 0x100
  {
    match k
    case Shift => MOD_MASK_SHIFT
    case Lock => MOD_MASK_LOCK
    case Control => MOD_MASK_CONTROL
    case Mod1 => MOD_MASK_1
    case Mod2 => MOD_MASK_2
    case Mod3 => MOD_MASK_3
    case Mod4 => MOD_MASK_4
    case Mod5 => MOD_MASK_5
  }

  /** `ModKey::mask_all`: the OR of all eight modifier masks. */
  function MaskAll(): (r: ModMask)
    ensures forall k: ModKey :: r & Mask(k) == Mask(k)
    ensures r < 0x100
  {
    MOD_MASK_SHIFT | MOD_MASK_LOCK | MOD_MASK_CONTROL | MOD_MASK_1
      | MOD_MASK_2 | MOD_MASK_3 | MOD_MASK_4 | MOD_MASK_5
  }

  /** Two modifiers share a mask bit exactly when they are the same modifier. */
  lemma MaskDisjoint(a: ModKey, b: ModKey)
    ensures (Mask(a) & Mask(b) != 0) <==> a == b
  {
    match a
    case Shift =>
    case Lock =>
    case Control =>
    case Mod1 =>
    case Mod2 =>
    case Mod3 =>
    case Mod4 =>
    case Mod5 =>
  }

  datatype KeyCombo = KeyCombo(modMask: ModMask, keysym: Keysym)

  /** The mask `m` holds the bit of modifier `k`. */
  predicate Holds(m: ModMask, k: ModKey)
  {
    m & Mask(k) != 0
  }

  /** The mask `m` holds no bit outside the eight modifier bits. */
  predicate WithinAll(m: ModMask)
  {
    m & !MaskAll() == 0
  }

  lemma OrHolds(acc: ModMask, m: ModKey, k: ModKey)
    ensures Holds(acc | Mask(m), k) <==> Holds(acc, k) || k == m
  {
    var a, b := Mask(m), Mask(k);
    assert (acc | a) & b == (acc & b) | (a & b);
    MaskDisjoint(m, k);
  }

  /** Each modifier's mask is the bit at its index in the core protocol's modifier map. */
  lemma MaskIsMapIndexBit(k: ModKey)
    ensures Mask(k) == 1 << MapIndex(k)
  {
  }

  lemma OrWithinAll(acc: ModMask, m: ModKey)
    ensures WithinAll(acc) ==> WithinAll(acc | Mask(m))
  {
    assert MaskAll() == 0xFF;
  }

  /** The `fold(0, |mask, k| mask | k.mask())` of `KeyCombo::new`, from an accumulator. */
  function FoldMask(acc: ModMask, mods: seq<ModKey>): (r: ModMask)
    ensures forall k: ModKey :: Holds(r, k) <==> Holds(acc, k) || k in mods
    decreases |mods|
  {
    if mods == [] then acc
    else
      var acc' := acc | Mask(mods[0]);
      forall k: ModKey ensures Holds(acc', k) <==> Holds(acc, k) || k == mods[0] {
        OrHolds(acc, mods[0], k);
      }
      assert forall k: ModKey :: k in mods <==> k == mods[0] || k in mods[1..];
      FoldMask(acc', mods[1..])
  }

  /** Folding modifier masks into a mask within `MaskAll()` stays within it. */
  lemma {:induction false} FoldMaskWithinAll(acc: ModMask, mods: seq<ModKey>)
    requires WithinAll(acc)
    ensures WithinAll(FoldMask(acc, mods))
    decreases |mods|
  {
    if mods != [] {
      OrWithinAll(acc, mods[0]);
      FoldMaskWithinAll(acc | Mask(mods[0]), mods[1..]);
    }
  }

  /**
   * `KeyCombo::new`: the key symbol is kept, and the modifier mask holds
   * the bit of a modifier exactly when the modifier is listed, and no bit
   * outside `MaskAll()`.
   */
  function NewKeyCombo(mods: seq<ModKey>, keysym: Keysym): (r: KeyCombo)
    ensures r.keysym == keysym
    ensures forall k: ModKey :: Holds(r.modMask, k) <==> k in mods
    ensures WithinAll(r.modMask)
  {
    assert forall k: ModKey :: !Holds(0, k);
    FoldMaskWithinAll(0, mods);
    KeyCombo(FoldMask(0, mods), keysym)
  }

  /** A mask within `MaskAll()` is determined by which modifier bits it holds. */
  lemma MasksEqualByModifiers(a: ModMask, b: ModMask)
    requires WithinAll(a) && WithinAll(b)
    requires forall k: ModKey :: Holds(a, k) <==> Holds(b, k)
    ensures a == b
  {
    assert Holds(a, Shift) <==> Holds(b, Shift);
    assert Holds(a, Lock) <==> Holds(b, Lock);
    assert Holds(a, Control) <==> Holds(b, Control);
    assert Holds(a, Mod1) <==> Holds(b, Mod1);
    assert Holds(a, Mod2) <==> Holds(b, Mod2);
    assert Holds(a, Mod3) <==> Holds(b, Mod3);
    assert Holds(a, Mod4) <==> Holds(b, Mod4);
    assert Holds(a, Mod5) <==> Holds(b, Mod5);
    assert MaskAll() == 0xFF;
  }

  /**
   * `KeyCombo::new` is an OR-fold, so it depends only on which modifiers
   * are listed: neither their order nor repetitions change the combination.
   */
  lemma {:induction false} NewKeyComboIgnoresOrder(m1: seq<ModKey>, m2: seq<ModKey>, keysym: Keysym)
    requires forall k: ModKey :: k in m1 <==> k in m2
    ensures NewKeyCombo(m1, keysym) == NewKeyCombo(m2, keysym)
  {
    MasksEqualByModifiers(NewKeyCombo(m1, keysym).modMask, NewKeyCombo(m2, keysym).modMask);
  }

  /** Conversely, two different sets of modifiers never give the same combination. */
  lemma {:induction false} NewKeyComboSeparatesModifierSets(m1: seq<ModKey>, m2: seq<ModKey>, keysym: Keysym, k: ModKey)
    requires k in m1 && k !in m2
    ensures NewKeyCombo(m1, keysym) != NewKeyCombo(m2, keysym)
  {
    assert Holds(NewKeyCombo(m1, keysym).modMask, k);
    assert !Holds(NewKeyCombo(m2, keysym).modMask, k);
  }
}
