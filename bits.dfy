/**
  * Bit-level view of a 32-bit peripheral register.
  *
  * Every driver call in this model is a read-modify-write of one `bv32`
  * register: `reg |= (1 << n)` sets bit `n`, `reg &= ~(1 << n)` clears it.
  * This module gives those two transforms their meaning bit by bit, states
  * when one register value "includes" another (no bit was lost), and proves
  * the algebra the drivers rely on: idempotence and enable/disable inverses.
  */
module Bits {

  /** Number of bits in a register. */
  const Width: bv16 := 32

  /** The single-bit mask `1 << n`. */
  function Mask(n: bv16): (m: bv32)
    requires n < Width
  {
    (1 as bv32) << n
  }

  /** Bit `n` of `w` is 1. */
  predicate IsSet(w: bv32, n: bv16)
    requires n < Width
  {
    w & Mask(n) != 0
  }

  /** Every bit that is 1 in `b` is also 1 in `a`: going from `b` to `a` lost no bit. */
  predicate Includes(a: bv32, b: bv32)
  {
    a & b == b
  }

  lemma OrMaskOther(w: bv32, n: bv16, k: bv16)
    requires n < Width && k < Width && n != k
    ensures IsSet(w | Mask(n), k) == IsSet(w, k)
  {
  }

  lemma AndNotMaskOther(w: bv32, n: bv16, k: bv16)
    requires n < Width && k < Width && n != k
    ensures IsSet(w & !Mask(n), k) == IsSet(w, k)
  {
  }

  /** OR-ing the mask of bit `n` leaves every other bit as it was. */
  lemma OrMaskKeepsOthers(w: bv32, n: bv16)
    requires n < Width
    ensures forall k: bv16 :: k < Width && k != n ==> IsSet(w | Mask(n), k) == IsSet(w, k)
  {
    forall k: bv16 | k < Width && k != n {
      OrMaskOther(w, n, k);
    }
  }

  /** AND-ing the complement of the mask of bit `n` leaves every other bit as it was. */
  lemma AndNotMaskKeepsOthers(w: bv32, n: bv16)
    requires n < Width
    ensures forall k: bv16 :: k < Width && k != n ==> IsSet(w & !Mask(n), k) == IsSet(w, k)
  {
    forall k: bv16 | k < Width && k != n {
      AndNotMaskOther(w, n, k);
    }
  }

  /** `w |= (1 << n)`. */
  function Set(w: bv32, n: bv16): bv32
    requires n < Width
  {
    w | Mask(n)
  }

  /** `w &= ~(1 << n)`. */
  function Clear(w: bv32, n: bv16): bv32
    requires n < Width
  {
    w & !Mask(n)
  }

  lemma SetOther(w: bv32, n: bv16, k: bv16)
    requires n < Width && k < Width && n != k
    ensures IsSet(Set(w, n), k) == IsSet(w, k)
  {
    OrMaskOther(w, n, k);
  }

  lemma ClearOther(w: bv32, n: bv16, k: bv16)
    requires n < Width && k < Width && n != k
    ensures IsSet(Clear(w, n), k) == IsSet(w, k)
  {
    AndNotMaskOther(w, n, k);
  }

  lemma SetMakesSet(w: bv32, n: bv16)
    requires n < Width
    ensures IsSet(Set(w, n), n)
  {
  }

  lemma ClearMakesClear(w: bv32, n: bv16)
    requires n < Width
    ensures !IsSet(Clear(w, n), n)
  {
  }

  /** Setting bit `n` makes it 1 and changes no other bit. */
  lemma SetBits(w: bv32, n: bv16)
    requires n < Width
    ensures IsSet(Set(w, n), n)
    ensures forall k: bv16 :: k < Width && k != n ==> IsSet(Set(w, n), k) == IsSet(w, k)
  {
    SetMakesSet(w, n);
    OrMaskKeepsOthers(w, n);
  }

  /** Clearing bit `n` makes it 0 and changes no other bit. */
  lemma ClearBits(w: bv32, n: bv16)
    requires n < Width
    ensures !IsSet(Clear(w, n), n)
    ensures forall k: bv16 :: k < Width && k != n ==> IsSet(Clear(w, n), k) == IsSet(w, k)
  {
    ClearMakesClear(w, n);
    AndNotMaskKeepsOthers(w, n);
  }

  lemma IncludesBit(a: bv32, b: bv32, k: bv16)
    requires Includes(a, b) && k < Width && IsSet(b, k)
    ensures IsSet(a, k)
  {
  }

  /** `Includes` means what it says: every bit set in `b` is set in `a`. */
  lemma IncludesMeansBitwise(a: bv32, b: bv32)
    requires Includes(a, b)
    ensures forall k: bv16 :: k < Width && IsSet(b, k) ==> IsSet(a, k)
  {
    forall k: bv16 | k < Width && IsSet(b, k) {
      IncludesBit(a, b, k);
    }
  }

  /** OR-ing anything into a register loses no bit, and every OR-ed bit ends up set. */
  lemma OrIncludes(a: bv32, b: bv32)
    ensures Includes(a | b, a) && Includes(a | b, b)
  {
  }

  /** Setting a bit loses no bit. */
  lemma SetIncludes(w: bv32, n: bv16)
    requires n < Width
    ensures Includes(Set(w, n), w)
  {
  }

  lemma IncludesReflexive(a: bv32)
    ensures Includes(a, a)
  {
  }

  lemma IncludesTransitive(a: bv32, b: bv32, c: bv32)
    requires Includes(a, b) && Includes(b, c)
    ensures Includes(a, c)
  {
  }

  lemma ShiftedOrLowBit(w: bv32, v: bv32, s: bv16, k: bv16)
    requires k < s <= Width
    ensures IsSet(w | (v << s), k) == IsSet(w, k)
  {
  }

  /** `w |= (v << s)` leaves the `s` lowest bits of `w` as they were. */
  lemma ShiftedOrKeepsLowBits(w: bv32, v: bv32, s: bv16)
    requires s <= Width
    ensures forall k: bv16 :: k < s ==> IsSet(w | (v << s), k) == IsSet(w, k)
  {
    forall k: bv16 | k < s {
      ShiftedOrLowBit(w, v, s, k);
    }
  }

  /** Setting a bit that is already 1 changes nothing. */
  lemma SetIsIdentity(w: bv32, n: bv16)
    requires n < Width && IsSet(w, n)
    ensures Set(w, n) == w
  {
  }

  /** Clearing a bit that is already 0 changes nothing. */
  lemma ClearIsIdentity(w: bv32, n: bv16)
    requires n < Width && !IsSet(w, n)
    ensures Clear(w, n) == w
  {
  }

  /** Enabling twice is enabling once. */
  lemma SetIdempotent(w: bv32, n: bv16)
    requires n < Width
    ensures Set(Set(w, n), n) == Set(w, n)
  {
  }

  /** Disabling twice is disabling once. */
  lemma ClearIdempotent(w: bv32, n: bv16)
    requires n < Width
    ensures Clear(Clear(w, n), n) == Clear(w, n)
  {
  }

  /**
    * Disabling after enabling gives the original register with only bit `n`
    * cleared; when bit `n` was 0 to begin with, it gives the original register.
    */
  lemma ClearAfterSet(w: bv32, n: bv16)
    requires n < Width
    ensures Clear(Set(w, n), n) == Clear(w, n)
    ensures !IsSet(w, n) ==> Clear(Set(w, n), n) == w
  {
  }

  /**
    * Enabling after disabling gives the original register with only bit `n`
    * set; when bit `n` was 1 to begin with, it gives the original register.
    */
  lemma SetAfterClear(w: bv32, n: bv16)
    requires n < Width
    ensures Set(Clear(w, n), n) == Set(w, n)
    ensures IsSet(w, n) ==> Set(Clear(w, n), n) == w
  {
  }
}
