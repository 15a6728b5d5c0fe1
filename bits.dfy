/**
 * Bit fields of 32-bit peripheral registers.
 *
 * Every register of the drivers is a `bv32`; a 16-bit or 8-bit register or
 * argument is a `bv32` whose upper bits are zero. Shift amounts are `bv32`
 * values as well.
 */
module Bits {

  /** The 2-bit field number `pos` (bits 2pos+1..2pos). */
  function Field2(w: bv32, pos: bv32): bv32
    requires pos < 16
  {
    (w >> (2 * pos)) & 3
  }

  /** Bit `pos`. */
  function Bit(w: bv32, pos: bv32): bv32
    requires pos < 32
  {
    (w >> pos) & 1
  }

  /** The 4-bit field number `slot` (bits 4slot+3..4slot). */
  function Field4(w: bv32, slot: bv32): bv32
    requires slot < 8
  {
    (w >> (4 * slot)) & 0xF
  }

  /** The mask of 2-bit field `pos`. */
  function Mask2(pos: bv32): bv32
    requires pos < 16
  {
    (3 as bv32) << (2 * pos)
  }

  /** The mask of 4-bit field `slot`. */
  function Mask4(slot: bv32): bv32
    requires slot < 8
  {
    (0xF as bv32) << (4 * slot)
  }

  /** `w &= ~mask`: the read-modify-write that clears the bits of `mask`. */
  function AndNot(w: bv32, mask: bv32): bv32
  {
    w & !mask
  }

  /** `w |= mask`: the read-modify-write that sets the bits of `mask`. */
  function Or(w: bv32, mask: bv32): bv32
  {
    w | mask
  }

  /** `AndNot` clears the bits of the mask ... */
  lemma AndNotClears(w: bv32, mask: bv32)
    ensures AndNot(w, mask) & mask == 0
  {
  }

  /** ... and keeps every other bit. */
  lemma AndNotKeeps(w: bv32, mask: bv32)
    ensures AndNot(w, mask) & !mask == w & !mask
  {
  }

  /** `Or` sets the bits of the mask ... */
  lemma OrSets(w: bv32, mask: bv32)
    ensures Or(w, mask) & mask == mask
  {
  }

  /** ... and keeps every other bit. */
  lemma OrKeeps(w: bv32, mask: bv32)
    ensures Or(w, mask) & !mask == w & !mask
  {
  }

  /** `w = (w & ~mask) | v`: the field `mask` replaced by `v`. */
  function Replace(w: bv32, mask: bv32, v: bv32): bv32
  {
    Or(AndNot(w, mask), v)
  }

  /** A value inside the mask is what the field reads back ... */
  lemma ReplaceSets(w: bv32, mask: bv32, v: bv32)
    requires v & !mask == 0
    ensures Replace(w, mask, v) & mask == v
  {
  }

  /** ... and every bit outside the mask is kept. */
  lemma ReplaceKeeps(w: bv32, mask: bv32, v: bv32)
    requires v & !mask == 0
    ensures AndNot(Replace(w, mask, v), mask) == AndNot(w, mask)
  {
  }
}
