/** Who waits in which park slot: exclusive leases of the 64 slots of a wake set,
    and none beyond. */
module ParkRegistry {
  import opened WakeBitmap

  /** A leased slot is its holder's alone; a shared one is no slot at all. */
  datatype ParkSlot = Leased(bit: nat) | Shared
  {
    predicate Fits() {
      Leased? ==> bit < SLOTS
    }
  }

  /** An index from some other exclusive allocation, never wrapped onto the table. */
  function FromExclusiveIndex(index: nat): (slot: ParkSlot)
    ensures slot.Fits() && (slot.Leased? <==> index < SLOTS)
  {
    if index < SLOTS then Leased(index) else Shared
  }

  /** Two indices never share a slot: each has the slot of its number, or none. */
  lemma IndicesDoNotAlias(i: nat, j: nat)
    ensures i != j && FromExclusiveIndex(i) == FromExclusiveIndex(j) ==> FromExclusiveIndex(i).Shared?
    ensures i < SLOTS ==> FromExclusiveIndex(i) == Leased(i)
  {
  }

  class ParkRegistry {
    var held: Bitmap

    constructor ()
      ensures held == Empty()
    {
      held := Empty();
    }

    /** `lease`: the lowest slot nobody holds, or none when all are held. */
    method Lease() returns (slot: ParkSlot)
      modifies this
      ensures slot.Fits()
      ensures slot.Shared? <==> forall i | 0 <= i < SLOTS :: old(held)[i]
      ensures slot.Shared? ==> held == old(held)
      ensures slot.Leased? ==>
                && !old(held)[slot.bit] && held == old(held)[slot.bit := true]
                && forall i | 0 <= i < slot.bit :: old(held)[i]
    {
      var taken := held;
      var free := seq(SLOTS, i requires 0 <= i < SLOTS => !taken[i]);
      var bit := TrailingZeros(free);
      forall i | 0 <= i < bit ensures taken[i] { assert !free[i]; }
      if bit == SLOTS { return Shared; }
      assert free[bit];
      held := held[bit := true];
      return Leased(bit);
    }

    /** `release`: gives a leased slot back, and nothing for a shared one. After it the
        slot can be leased again, so that the next lease finds one. */
    method Release(slot: ParkSlot)
      requires slot.Fits()
      modifies this
      ensures slot.Leased? ==> exists i :: 0 <= i < SLOTS && !held[i]
      ensures forall i | 0 <= i < SLOTS :: held[i] <==> old(held)[i] && slot != Leased(i)
      ensures held == if slot.Leased? then old(held)[slot.bit := false] else old(held)
    {
      if slot.Leased? {
        held := held[slot.bit := false];
        assert !held[slot.bit];
      }
    }
  }
}
