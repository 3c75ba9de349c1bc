/** The arithmetic of the 64-bit wake bitmap: a `u64` as its bits, lowest first. */
module WakeBitmap {
  const SLOTS: nat := 64

  type Bitmap = bits: seq<bool> | |bits| == SLOTS witness seq(SLOTS, _ => false)

  function Empty(): Bitmap {
    seq(SLOTS, _ => false)
  }

  /** `rotate_right`: bit `shift` becomes bit zero. */
  function RotateRight(bits: Bitmap, shift: nat): (r: Bitmap)
    requires shift < SLOTS
  {
    bits[shift..] + bits[..shift]
  }

  /** `trailing_zeros`: the index of the lowest set bit, or the width. */
  function TrailingZeros(bits: seq<bool>): (n: nat)
    ensures n <= |bits|
    ensures n < |bits| ==> bits[n]
    ensures forall i | 0 <= i < n :: !bits[i]
  {
    if bits == [] || bits[0] then 0 else 1 + TrailingZeros(bits[1..])
  }

  /** The slot the rotation arithmetic selects from `cursor` on. */
  function Select(bits: Bitmap, cursor: nat): (bit: nat)
    ensures bit < SLOTS
  {
    var shift := cursor % SLOTS;
    (TrailingZeros(RotateRight(bits, shift)) + shift) % SLOTS
  }

  /** How many slots lie cyclically between `cursor` and `slot`. */
  function Distance(cursor: nat, slot: nat): (d: nat)
    requires slot < SLOTS
    ensures d < SLOTS
  {
    var shift := cursor % SLOTS;
    if shift <= slot then slot - shift else slot + SLOTS - shift
  }

  /** The slot `d` places from `cursor` on. */
  function SlotAt(cursor: nat, d: nat): (slot: nat)
    requires d < SLOTS
    ensures slot < SLOTS
  {
    var shift := cursor % SLOTS;
    if shift + d < SLOTS then shift + d else shift + d - SLOTS
  }

  /** Each slot lies at one distance, and each distance names one slot. */
  lemma DistancesAreNames(cursor: nat, slot: nat, d: nat)
    requires slot < SLOTS && d < SLOTS
    ensures SlotAt(cursor, Distance(cursor, slot)) == slot
    ensures Distance(cursor, SlotAt(cursor, d)) == d
    ensures SlotAt(cursor, d) == (cursor + d) % SLOTS
  {
  }

  /** Bit `d` of the rotated bitmap is the slot `d` places on. */
  lemma RotationCounts(bits: Bitmap, cursor: nat, d: nat)
    requires d < SLOTS
    ensures RotateRight(bits, cursor % SLOTS)[d] == bits[SlotAt(cursor, d)]
  {
  }

  /** The rotation selects a set bit, and none is cyclically nearer. */
  lemma SelectIsNearest(bits: Bitmap, cursor: nat)
    requires exists i | 0 <= i < SLOTS :: bits[i]
    ensures bits[Select(bits, cursor)]
    ensures forall i | 0 <= i < SLOTS && bits[i] :: Distance(cursor, Select(bits, cursor)) <= Distance(cursor, i)
  {
    var rotated := RotateRight(bits, cursor % SLOTS);
    var n := TrailingZeros(rotated);
    forall i | 0 <= i < SLOTS && bits[i]
      ensures n <= Distance(cursor, i)
    {
      DistancesAreNames(cursor, i, 0);
      RotationCounts(bits, cursor, Distance(cursor, i));
    }
    RotationCounts(bits, cursor, n);
    DistancesAreNames(cursor, 0, n);
  }

  /** Moving the cursor past the slot `d` places on keeps the cyclic order of the
      slots further on. */
  lemma CursorKeepsOrder(cursor: nat, d: nat, slot: nat)
    requires d < SLOTS && slot < SLOTS && d < Distance(cursor, slot)
    ensures Distance(SlotAt(cursor, d) + 1, slot) == Distance(cursor, slot) - d - 1
  {
  }
}
