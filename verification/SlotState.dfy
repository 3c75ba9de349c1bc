/** Positions, the slots they map to, and the word a broadcast slot carries.
    Positions stay below 2^63, so `pos * 2 + 2` never wraps. */
module SlotState {
  /** The slot backing a position: what is left of it once whole laps are taken
      away. The capacity is a power of two in the program, where this is
      `pos & (cap - 1)`. */
  function SlotOf(cap: nat, pos: nat): (q: nat)
    requires cap > 0
    ensures q < cap
  {
    if pos < cap then pos else SlotOf(cap, pos - cap)
  }

  /** The slot is the remainder of dividing the position by the capacity. */
  lemma {:induction false} SlotIsTheRemainder(cap: nat, pos: nat) returns (laps: nat)
    requires cap > 0
    ensures pos == laps * cap + SlotOf(cap, pos)
  {
    if pos < cap {
      laps := 0;
    } else {
      var fewer := SlotIsTheRemainder(cap, pos - cap);
      laps := fewer + 1;
    }
  }

  /** Two positions less than a lap apart never share a slot. */
  lemma {:induction false} SlotsApart(cap: nat, p: nat, q: nat)
    requires cap > 0 && p < q < p + cap
    ensures SlotOf(cap, p) != SlotOf(cap, q)
    decreases q
  {
    if cap <= p {
      SlotsApart(cap, p - cap, q - cap);
    } else if cap <= q {
      assert SlotOf(cap, q) == q - cap;
    }
  }

  /** Every position of a window one lap wide has a slot of its own. */
  lemma WindowHasNoAliases(cap: nat, tail: nat)
    requires cap > 0
    ensures forall p: nat, q: nat | p < tail <= p + cap && q < tail <= q + cap && p != q ::
              SlotOf(cap, p) != SlotOf(cap, q)
  {
    forall p: nat, q: nat | p < tail <= p + cap && q < tail <= q + cap && p != q
      ensures SlotOf(cap, p) != SlotOf(cap, q)
    {
      if p < q { SlotsApart(cap, p, q); } else { SlotsApart(cap, q, p); }
    }
  }

  /** Every slot that has been claimed backs some position of the last lap. */
  lemma {:induction false} EverySlotHasALatest(cap: nat, tail: nat, q: nat, from: nat) returns (pos: nat)
    requires cap > 0 && from < tail && SlotOf(cap, from) == q
    ensures pos < tail <= pos + cap && SlotOf(cap, pos) == q
    decreases tail - from
  {
    if tail <= from + cap {
      pos := from;
    } else {
      pos := EverySlotHasALatest(cap, tail, q, from + cap);
    }
  }

  datatype SlotState = Vacant | Published(pos: nat) | Abandoned(pos: nat)
  {
    /** Whether the slot's storage owns a live value. */
    predicate HoldsValue() {
      Published?
    }
  }

  const VACANT: nat := 0

  function PublishedWord(pos: nat): nat {
    pos * 2 + 1
  }

  function AbandonedWord(pos: nat): nat {
    pos * 2 + 2
  }

  function Encode(s: SlotState): nat {
    match s
    case Vacant => VACANT
    case Published(pos) => PublishedWord(pos)
    case Abandoned(pos) => AbandonedWord(pos)
  }

  function Decode(word: nat): SlotState {
    if word == VACANT then Vacant
    else if word % 2 == 1 then Published((word - 1) / 2)
    else Abandoned((word - 2) / 2)
  }

  /** The encoding is a bijection: every word means exactly one state. */
  lemma WordsRoundTrip(s: SlotState, word: nat)
    ensures Decode(Encode(s)) == s
    ensures Encode(Decode(word)) == word
    ensures Encode(s) == word <==> Decode(word) == s
  {
  }

  datatype Snapshot = Ready | Tombstoned | NotReady

  /** What a consumer reading `pos` sees in a slot carrying `word`. */
  function Classify(word: nat, pos: nat): Snapshot {
    match Decode(word)
    case Published(at) => if at == pos then Ready else NotReady
    case Abandoned(at) => if at == pos then Tombstoned else NotReady
    case Vacant => NotReady
  }

  /** A word speaks to exactly the consumer whose position it names. */
  lemma ClassifyNamesThePosition(word: nat, pos: nat)
    ensures Classify(word, pos) == Ready <==> word == PublishedWord(pos)
    ensures Classify(word, pos) == Tombstoned <==> word == AbandonedWord(pos)
  {
  }

  /** Whether the previous occupant of `pos`'s slot has resolved. */
  predicate PriorOccupantResolved(cap: nat, pos: nat, word: nat) {
    pos < cap || word != VACANT
  }
}
