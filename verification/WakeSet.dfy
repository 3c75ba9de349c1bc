/** The park state of one side of a ring, call by call: a wake bitmap, a table of
    armed thread handles, a round-robin cursor, and the stack of waiters that
    hold no slot. A thread's unpark is recorded by appending it to `unparked`. */
module WakeSet {
  import opened Wrappers
  import opened WakeBitmap
  import opened WakeInterest
  import opened ParkRegistry

  type Handles = hs: seq<Option<nat>> | |hs| == SLOTS witness seq(SLOTS, _ => None)

  /** A waiter a wake can deliver to. */
  predicate Reachable(bits: Bitmap, handles: Handles, slot: nat)
    requires slot < SLOTS
  {
    bits[slot] && handles[slot].Some?
  }

  /** The threads armed at the reachable slots less than `d` places from
      `cursor`, nearest first. */
  function Sweep(bits: Bitmap, handles: Handles, cursor: nat, d: nat): (threads: seq<nat>)
    requires d <= SLOTS
  {
    if d == 0 then []
    else
      var slot := SlotAt(cursor, d - 1);
      Sweep(bits, handles, cursor, d - 1) + (if Reachable(bits, handles, slot) then [handles[slot].value] else [])
  }

  /** How many slots are reachable. */
  function CountReachable(bits: Bitmap, handles: Handles): nat {
    |set slot | 0 <= slot < SLOTS && Reachable(bits, handles, slot)|
  }

  lemma {:induction false} SweepCounts(bits: Bitmap, handles: Handles, cursor: nat, d: nat)
    requires d <= SLOTS
    ensures |Sweep(bits, handles, cursor, d)|
            == |set slot | 0 <= slot < SLOTS && Reachable(bits, handles, slot) && Distance(cursor, slot) < d|
  {
    var here := set slot | 0 <= slot < SLOTS && Reachable(bits, handles, slot) && Distance(cursor, slot) < d;
    if d > 0 {
      SweepCounts(bits, handles, cursor, d - 1);
      var before := set slot | 0 <= slot < SLOTS && Reachable(bits, handles, slot) && Distance(cursor, slot) < d - 1;
      var last := SlotAt(cursor, d - 1);
      DistancesAreNames(cursor, 0, d - 1);
      forall slot | slot in here ensures slot in before || slot == last { DistancesAreNames(cursor, slot, 0); }
      assert here == before + if Reachable(bits, handles, last) then {last} else {};
    } else {
      assert here == {};
    }
  }

  /** A whole turn visits every reachable slot once. */
  lemma FullTurnCounts(bits: Bitmap, handles: Handles, cursor: nat)
    ensures |Sweep(bits, handles, cursor, SLOTS)| == CountReachable(bits, handles)
  {
    SweepCounts(bits, handles, cursor, SLOTS);
    assert (set slot | 0 <= slot < SLOTS && Reachable(bits, handles, slot))
        == set slot | 0 <= slot < SLOTS && Reachable(bits, handles, slot) && Distance(cursor, slot) < SLOTS;
  }

  /** Slots whose bits are clear add nothing to a sweep. */
  lemma {:induction false} SweepPassesClearBits(bits: Bitmap, handles: Handles, cursor: nat, d: nat, e: nat)
    requires d <= e <= SLOTS
    requires forall slot | 0 <= slot < SLOTS && d <= Distance(cursor, slot) < e :: !bits[slot]
    ensures Sweep(bits, handles, cursor, e) == Sweep(bits, handles, cursor, d)
  {
    if d < e {
      SweepPassesClearBits(bits, handles, cursor, d, e - 1);
      DistancesAreNames(cursor, 0, e - 1);
    }
  }

  /** The state a wake leaves once it has passed the first `d` places: their bits
      are clear, their handles taken, and the rest as it was. */
  predicate Swept(bits0: Bitmap, handles0: Handles, cursor0: nat, bits: Bitmap, handles: Handles, d: nat) {
    forall slot | 0 <= slot < SLOTS ::
      var passed := Distance(cursor0, slot) < d;
      && bits[slot] == (bits0[slot] && !passed)
      && handles[slot] == if bits0[slot] && passed then None else handles0[slot]
  }

  lemma SweptToNearest(bits0: Bitmap, handles0: Handles, cursor0: nat, bits: Bitmap, handles: Handles, d: nat, bit: nat)
    requires d <= SLOTS && Swept(bits0, handles0, cursor0, bits, handles, d)
    requires bit < SLOTS && bits[bit]
    requires forall i | 0 <= i < SLOTS && bits[i] :: Distance(cursor0, bit) <= Distance(cursor0, i)
    ensures d <= Distance(cursor0, bit)
    ensures Swept(bits0, handles0, cursor0, bits[bit := false], handles[bit := None], Distance(cursor0, bit) + 1)
    ensures Sweep(bits0, handles0, cursor0, Distance(cursor0, bit) + 1)
            == Sweep(bits0, handles0, cursor0, d) + if handles[bit].Some? then [handles[bit].value] else []
    ensures Sweep(bits0, handles0, cursor0, Distance(cursor0, bit)) == Sweep(bits0, handles0, cursor0, d)
    ensures handles[bit] == handles0[bit] && bits0[bit]
  {
    var e := Distance(cursor0, bit);
    SweepPassesClearBits(bits0, handles0, cursor0, d, e);
    DistancesAreNames(cursor0, bit, e);
    forall slot | 0 <= slot < SLOTS && slot != bit ensures Distance(cursor0, slot) != e {
      DistancesAreNames(cursor0, slot, e);
    }
  }

  lemma NonzeroMeansSomeBit(bits: Bitmap)
    ensures bits != Empty() <==> exists i | 0 <= i < SLOTS :: bits[i]
  {
    if forall i | 0 <= i < SLOTS :: !bits[i] {
      assert bits == Empty();
    }
  }

  lemma {:induction false} SweepIsMonotone(bits: Bitmap, handles: Handles, cursor: nat, d: nat, e: nat)
    requires d <= e <= SLOTS
    ensures |Sweep(bits, handles, cursor, d)| <= |Sweep(bits, handles, cursor, e)|
  {
    if d < e {
      SweepIsMonotone(bits, handles, cursor, d, e - 1);
    }
  }

  lemma SweptNoMoreThanThereAre(bits: Bitmap, handles: Handles, cursor: nat, d: nat)
    requires d <= SLOTS
    ensures |Sweep(bits, handles, cursor, d)| <= CountReachable(bits, handles)
  {
    SweepIsMonotone(bits, handles, cursor, d, SLOTS);
    FullTurnCounts(bits, handles, cursor);
  }

  /** A turn that ends with every bit clear has visited everything. */
  lemma NothingLeft(bits0: Bitmap, handles0: Handles, cursor0: nat, bits: Bitmap, handles: Handles, d: nat)
    requires d <= SLOTS && Swept(bits0, handles0, cursor0, bits, handles, d) && bits == Empty()
    ensures |Sweep(bits0, handles0, cursor0, d)| == CountReachable(bits0, handles0)
  {
    assert forall slot | 0 <= slot < SLOTS :: !bits[slot];
    SweepPassesClearBits(bits0, handles0, cursor0, d, SLOTS);
    FullTurnCounts(bits0, handles0, cursor0);
  }

  /** The nearest set bit from where a sweep has got to is the nearest from where
      it began. */
  lemma NearestFromLaterCursor(bits0: Bitmap, handles0: Handles, cursor0: nat, bits: Bitmap, handles: Handles,
                               d: nat, at: nat, bit: nat)
    requires d <= SLOTS && Swept(bits0, handles0, cursor0, bits, handles, d)
    requires at == if d == 0 then cursor0 else SlotAt(cursor0, d - 1) + 1
    requires bit < SLOTS && bits[bit]
    requires forall i | 0 <= i < SLOTS && bits[i] :: Distance(at, bit) <= Distance(at, i)
    ensures forall i | 0 <= i < SLOTS && bits[i] :: Distance(cursor0, bit) <= Distance(cursor0, i)
  {
    if d > 0 {
      forall i | 0 <= i < SLOTS && bits[i]
        ensures Distance(at, i) == Distance(cursor0, i) - d
      {
        CursorKeepsOrder(cursor0, d - 1, i);
      }
    }
  }

  type Interests = ns: seq<Interest> | |ns| == SLOTS witness seq(SLOTS, _ => Any)

  /** The set bits whose waiters have exactly this use for the release. */
  function Matching(bits: Bitmap, interests: Interests, rank: Interest): Bitmap {
    seq(SLOTS, i requires 0 <= i < SLOTS => bits[i] && interests[i] == rank)
  }

  /** `next_matching`: walks the rotated bitmap from its lowest bit and stops at
      the first waiter of this rank, the cyclically nearest one. */
  method NextMatching(ws: Bitmap, cursor: nat, rank: Interest, interests: Interests) returns (found: Option<nat>)
    ensures found.None? ==> Matching(ws, interests, rank) == Empty()
    ensures found.Some? ==>
              && found.value < SLOTS && Matching(ws, interests, rank)[found.value]
              && forall i | 0 <= i < SLOTS && Matching(ws, interests, rank)[i] ::
                   Distance(cursor, found.value) <= Distance(cursor, i)
  {
    var shift := cursor % SLOTS;
    var rotated := RotateRight(ws, shift);
    ghost var seen := 0;
    while TrailingZeros(rotated) < SLOTS
      invariant |rotated| == SLOTS && 0 <= seen <= SLOTS
      invariant forall k | 0 <= k < SLOTS :: rotated[k] == (k >= seen && RotateRight(ws, shift)[k])
      invariant forall k | 0 <= k < seen :: !Matching(ws, interests, rank)[SlotAt(cursor, k)]
      decreases SLOTS - seen
    {
      var relBit := TrailingZeros(rotated);
      rotated := rotated[relBit := false];
      var bit := (relBit + shift) % SLOTS;
      RotationReaches(ws, cursor, relBit);
      forall k | seen <= k < relBit ensures !Matching(ws, interests, rank)[SlotAt(cursor, k)] {
        RotationCounts(ws, cursor, k);
      }
      if interests[bit] == rank {
        NearestByDistance(Matching(ws, interests, rank), cursor, relBit);
        return Some(bit);
      }
      seen := relBit + 1;
    }
    forall k | 0 <= k < SLOTS ensures !Matching(ws, interests, rank)[SlotAt(cursor, k)] {
      RotationCounts(ws, cursor, k);
    }
    NothingAtAnyDistance(Matching(ws, interests, rank), cursor);
    return None;
  }

  lemma RotationReaches(bits: Bitmap, cursor: nat, d: nat)
    requires d < SLOTS && RotateRight(bits, cursor % SLOTS)[d]
    ensures (d + cursor % SLOTS) % SLOTS == SlotAt(cursor, d) && bits[SlotAt(cursor, d)]
  {
    RotationCounts(bits, cursor, d);
  }

  lemma NearestByDistance(bits: Bitmap, cursor: nat, d: nat)
    requires d < SLOTS && forall k | 0 <= k < d :: !bits[SlotAt(cursor, k)]
    ensures forall i | 0 <= i < SLOTS && bits[i] :: Distance(cursor, SlotAt(cursor, d)) <= Distance(cursor, i)
  {
    DistancesAreNames(cursor, 0, d);
    forall i | 0 <= i < SLOTS && bits[i] ensures d <= Distance(cursor, i) {
      DistancesAreNames(cursor, i, 0);
    }
  }

  lemma NothingAtAnyDistance(bits: Bitmap, cursor: nat)
    requires forall k | 0 <= k < SLOTS :: !bits[SlotAt(cursor, k)]
    ensures bits == Empty()
  {
    forall i | 0 <= i < SLOTS ensures !bits[i] {
      DistancesAreNames(cursor, i, 0);
    }
  }

  /** `slot` is the reachable waiter of this rank cyclically nearest the cursor. */
  predicate Nearest(bits: Bitmap, handles: Handles, cursor: nat, interests: Interests, rank: Interest, slot: nat) {
    && slot < SLOTS && Reachable(bits, handles, slot) && interests[slot] == rank
    && forall i | 0 <= i < SLOTS && Reachable(bits, handles, i) && interests[i] == rank ::
         Distance(cursor, slot) <= Distance(cursor, i)
  }

  /** A pass for `rank` touches no waiter of another rank, and of its own rank no
      reachable waiter but the one it woke. */
  predicate LeavesOthersReachable(bits0: Bitmap, handles0: Handles, bits: Bitmap, handles: Handles,
                                  interests: Interests, rank: Interest, woken: Option<nat>) {
    && (forall i | 0 <= i < SLOTS && (interests[i] != rank || (Reachable(bits0, handles0, i) && woken != Some(i))) ::
          bits[i] == bits0[i] && handles[i] == handles0[i])
    && (woken.Some? ==> woken.value < SLOTS && !bits[woken.value] && handles[woken.value] == None)
  }

  /** An empty sweep passed nobody. */
  lemma {:induction false} NoneReachableSwept(bits: Bitmap, handles: Handles, cursor: nat, d: nat)
    requires d <= SLOTS && Sweep(bits, handles, cursor, d) == []
    ensures forall i | 0 <= i < SLOTS && Reachable(bits, handles, i) :: d <= Distance(cursor, i)
  {
    if d > 0 {
      NoneReachableSwept(bits, handles, cursor, d - 1);
      forall i | 0 <= i < SLOTS && Reachable(bits, handles, i) ensures d <= Distance(cursor, i) {
        DistancesAreNames(cursor, i, 0);
      }
    }
  }

  /** Retiring the nearest bit of this rank carries the sweep of that rank on. */
  lemma RankedStep(bits0: Bitmap, handles0: Handles, cursor0: nat, wake: Bitmap, handles: Handles,
                   interests: Interests, rank: Interest, d: nat, at: nat, bit: nat)
    returns (e: nat)
    requires d <= SLOTS && Swept(bits0, handles0, cursor0, Matching(wake, interests, rank), handles, d)
    requires at == if d == 0 then cursor0 else SlotAt(cursor0, d - 1) + 1
    requires bit < SLOTS && Matching(wake, interests, rank)[bit]
    requires forall i | 0 <= i < SLOTS && Matching(wake, interests, rank)[i] :: Distance(at, bit) <= Distance(at, i)
    ensures d < e <= SLOTS && SlotAt(cursor0, e - 1) == bit && Distance(cursor0, bit) == e - 1
    ensures Swept(bits0, handles0, cursor0, Matching(wake[bit := false], interests, rank), handles[bit := None], e)
    ensures Sweep(bits0, handles0, cursor0, e - 1) == Sweep(bits0, handles0, cursor0, d)
    ensures Sweep(bits0, handles0, cursor0, e)
            == Sweep(bits0, handles0, cursor0, d) + if handles[bit].Some? then [handles[bit].value] else []
    ensures handles[bit] == handles0[bit] && bits0[bit]
  {
    var now := Matching(wake, interests, rank);
    NearestFromLaterCursor(bits0, handles0, cursor0, now, handles, d, at, bit);
    SweptToNearest(bits0, handles0, cursor0, now, handles, d, bit);
    DistancesAreNames(cursor0, bit, 0);
    e := Distance(cursor0, bit) + 1;
    assert Matching(wake[bit := false], interests, rank) == now[bit := false];
  }

  lemma NobodyOfRank(bits: Bitmap, handles: Handles, interests: Interests, rank: Interest)
    requires CountReachable(Matching(bits, interests, rank), handles) == 0
    ensures forall i | 0 <= i < SLOTS && Reachable(bits, handles, i) :: interests[i] != rank
  {
    var reach := set slot | 0 <= slot < SLOTS && Reachable(Matching(bits, interests, rank), handles, slot);
    assert reach == {};
    forall i | 0 <= i < SLOTS && Reachable(bits, handles, i) ensures interests[i] != rank {
      assert i !in reach;
    }
  }

  /** A pass for one rank leaves the bits of another. */
  lemma SameRank(bits0: Bitmap, bits: Bitmap, interests: Interests, rank: Interest)
    requires forall i | 0 <= i < SLOTS && interests[i] == rank :: bits[i] == bits0[i]
    ensures Matching(bits, interests, rank) == Matching(bits0, interests, rank)
  {
  }

  lemma LowestIsNearest(bits: Bitmap)
    ensures forall i | 0 <= i < SLOTS :: Distance(0, i) == i
    ensures forall i | 0 <= i < SLOTS && bits[i] :: TrailingZeros(bits) <= i
  {
  }

  /** One call of `wake_one`, or one pass of a routed wake over the bits of its rank:
      what it found, what it left, and how many places from the cursor it went. */
  datatype Call = Call(
    bits0: Bitmap, handles0: Handles, cursor0: nat, bits: Bitmap, handles: Handles, cursor: nat, d: nat)

  /** The call delivered to the nearest reachable slot, cleared the bits up to it
      and no other; with nobody reachable it cleared every bit. It left the cursor just
      past the last slot whose bit it cleared, and where it was if it cleared none. */
  predicate WokeOne(call: Call) {
    && call.d <= SLOTS
    && Swept(call.bits0, call.handles0, call.cursor0, call.bits, call.handles, call.d)
    && call.cursor == (if call.d == 0 then call.cursor0 else SlotAt(call.cursor0, call.d - 1) + 1)
    && (call.d > 0 ==> call.bits0[SlotAt(call.cursor0, call.d - 1)])
    && if CountReachable(call.bits0, call.handles0) == 0 then
         Sweep(call.bits0, call.handles0, call.cursor0, call.d) == [] && call.bits == Empty()
       else
         && call.d > 0 && Sweep(call.bits0, call.handles0, call.cursor0, call.d - 1) == []
         && Reachable(call.bits0, call.handles0, SlotAt(call.cursor0, call.d - 1))
  }

  /** A call that has delivered is done. */
  lemma Delivered(bits0: Bitmap, handles0: Handles, cursor0: nat, bits: Bitmap, handles: Handles, d: nat)
    requires 0 < d <= SLOTS && Swept(bits0, handles0, cursor0, bits, handles, d)
    requires Sweep(bits0, handles0, cursor0, d - 1) == []
    requires Reachable(bits0, handles0, SlotAt(cursor0, d - 1))
    ensures WokeOne(Call(bits0, handles0, cursor0, bits, handles, SlotAt(cursor0, d - 1) + 1, d))
  {
    ReachableCounts(bits0, handles0, SlotAt(cursor0, d - 1));
  }

  /** So is one that has run out of bits. */
  lemma RanOut(bits0: Bitmap, handles0: Handles, cursor0: nat, bits: Bitmap, handles: Handles, cursor: nat, d: nat)
    requires d <= SLOTS && Swept(bits0, handles0, cursor0, bits, handles, d) && bits == Empty()
    requires Sweep(bits0, handles0, cursor0, d) == []
    requires cursor == if d == 0 then cursor0 else SlotAt(cursor0, d - 1) + 1
    requires d > 0 ==> bits0[SlotAt(cursor0, d - 1)]
    ensures WokeOne(Call(bits0, handles0, cursor0, bits, handles, cursor, d))
    ensures CountReachable(bits0, handles0) == 0
  {
    NothingLeft(bits0, handles0, cursor0, bits, handles, d);
  }

  /** The call delivered its unpark to `slot`. */
  predicate Wakes(call: Call, slot: nat) {
    slot < SLOTS && 0 < call.d <= SLOTS
    && SlotAt(call.cursor0, call.d - 1) == slot && Reachable(call.bits0, call.handles0, slot)
  }

  /** A call that passes a reachable slot over brings the cursor nearer to it. */
  lemma PassedOverMeansNearer(call: Call, slot: nat)
    requires WokeOne(call) && slot < SLOTS && Reachable(call.bits0, call.handles0, slot) && !Wakes(call, slot)
    ensures Distance(call.cursor, slot) < Distance(call.cursor0, slot)
  {
    var reach := set i | 0 <= i < SLOTS && Reachable(call.bits0, call.handles0, i);
    assert slot in reach;
    NoneReachableSwept(call.bits0, call.handles0, call.cursor0, call.d - 1);
    DistancesAreNames(call.cursor0, slot, call.d - 1);
    CursorKeepsOrder(call.cursor0, call.d - 1, slot);
  }

  /** Bounded bypass: whatever other slots arm, re-arm or disarm between the
      calls, a slot that stays reachable is woken within one call more than its
      distance from the cursor. */
  lemma {:induction false} BoundedBypass(calls: seq<Call>, slot: nat) returns (i: nat)
    requires slot < SLOTS && |calls| > 0 && |calls| > Distance(calls[0].cursor0, slot)
    requires forall j | 0 <= j < |calls| :: WokeOne(calls[j])
    requires forall j | 0 < j < |calls| :: calls[j].cursor0 == calls[j - 1].cursor
    requires forall j | 0 <= j < |calls| ::
               (forall h | 0 <= h < j :: !Wakes(calls[h], slot)) ==> Reachable(calls[j].bits0, calls[j].handles0, slot)
    ensures i <= Distance(calls[0].cursor0, slot) && Wakes(calls[i], slot)
  {
    if Wakes(calls[0], slot) {
      i := 0;
    } else {
      PassedOverMeansNearer(calls[0], slot);
      var rest := calls[1..];
      forall j | 0 <= j < |rest| && forall h | 0 <= h < j :: !Wakes(rest[h], slot)
        ensures Reachable(rest[j].bits0, rest[j].handles0, slot)
      {
        assert forall h | 0 <= h < j + 1 :: h == 0 || calls[h] == rest[h - 1];
      }
      i := BoundedBypass(rest, slot);
      i := i + 1;
    }
  }

  /** A pass for `rank` as the call it is on the bits of that rank. */
  function Pass(rank: Interest, interests: Interests, bits0: Bitmap, handles0: Handles, cursor0: nat,
                bits: Bitmap, handles: Handles, cursor: nat, d: nat): Call {
    Call(Matching(bits0, interests, rank), handles0, cursor0, Matching(bits, interests, rank), handles, cursor, d)
  }

  lemma FoundNearest(bits0: Bitmap, handles0: Handles, cursor0: nat, wake: Bitmap, handles: Handles,
                     interests: Interests, rank: Interest, e: nat, bit: nat)
    requires 0 < e <= SLOTS && SlotAt(cursor0, e - 1) == bit && Distance(cursor0, bit) == e - 1
    requires Swept(Matching(bits0, interests, rank), handles0, cursor0, Matching(wake, interests, rank), handles, e)
    requires Sweep(Matching(bits0, interests, rank), handles0, cursor0, e - 1) == []
    requires Reachable(Matching(bits0, interests, rank), handles0, bit)
    requires forall i | 0 <= i < SLOTS && interests[i] != rank :: wake[i] == bits0[i]
    ensures WokeOne(Pass(rank, interests, bits0, handles0, cursor0, wake, handles, bit + 1, e))
    ensures Wakes(Pass(rank, interests, bits0, handles0, cursor0, wake, handles, bit + 1, e), bit)
    ensures CountReachable(Matching(bits0, interests, rank), handles0) > 0
    ensures Nearest(bits0, handles0, cursor0, interests, rank, bit)
    ensures LeavesOthersReachable(bits0, handles0, wake, handles, interests, rank, Some(bit))
  {
    var all := Matching(bits0, interests, rank);
    NoneReachableSwept(all, handles0, cursor0, e - 1);
    ReachableCounts(all, handles0, bit);
    forall i | 0 <= i < SLOTS && Reachable(bits0, handles0, i) && interests[i] == rank
      ensures e - 1 <= Distance(cursor0, i)
    {
      assert Reachable(all, handles0, i);
    }
    forall i | 0 <= i < SLOTS && Reachable(bits0, handles0, i) && i != bit && interests[i] == rank
      ensures wake[i] == bits0[i] && handles[i] == handles0[i]
    {
      DistancesAreNames(cursor0, i, 0);
      assert Matching(wake, interests, rank)[i] == all[i];
    }
    assert handles[bit] == None && !Matching(wake, interests, rank)[bit];
  }

  lemma FoundNobody(bits0: Bitmap, handles0: Handles, cursor0: nat, wake: Bitmap, handles: Handles,
                    interests: Interests, rank: Interest, cursor: nat, d: nat)
    requires d <= SLOTS && Matching(wake, interests, rank) == Empty()
    requires Swept(Matching(bits0, interests, rank), handles0, cursor0, Matching(wake, interests, rank), handles, d)
    requires Sweep(Matching(bits0, interests, rank), handles0, cursor0, d) == []
    requires forall i | 0 <= i < SLOTS && interests[i] != rank :: wake[i] == bits0[i]
    requires cursor == if d == 0 then cursor0 else SlotAt(cursor0, d - 1) + 1
    requires d > 0 ==> Matching(bits0, interests, rank)[SlotAt(cursor0, d - 1)]
    ensures WokeOne(Pass(rank, interests, bits0, handles0, cursor0, wake, handles, cursor, d))
    ensures CountReachable(Matching(bits0, interests, rank), handles0) == 0
    ensures LeavesOthersReachable(bits0, handles0, wake, handles, interests, rank, None)
  {
    NothingLeft(Matching(bits0, interests, rank), handles0, cursor0, Matching(wake, interests, rank), handles, d);
    NobodyOfRank(bits0, handles0, interests, rank);
  }

  /** One call of `wake_one_interested`: what its waiters were interested in, the bits it
      found, and its passes, for the reserved and, if that woke nobody, for the others. */
  datatype Routed = Routed(interests: Interests, bits0: Bitmap, reserved: Call, any: Option<Call>)
  {
    /** The cursor it leaves. */
    function Cursor(): nat {
      if any.Some? then any.value.cursor else reserved.cursor
    }

    /** The pass for the others goes on where the one for the reserved ended. */
    predicate Ok() {
      && WokeOne(reserved) && reserved.bits0 == Matching(bits0, interests, Interest.Reserved)
      && (any.None? <==> CountReachable(reserved.bits0, reserved.handles0) > 0)
      && (any.Some? ==>
            && WokeOne(any.value) && any.value.bits0 == Matching(bits0, interests, Interest.Any)
            && any.value.handles0 == reserved.handles && any.value.cursor0 == reserved.cursor)
    }
  }

  lemma ReachableCounts(bits: Bitmap, handles: Handles, slot: nat)
    requires slot < SLOTS && Reachable(bits, handles, slot)
    ensures CountReachable(bits, handles) > 0
  {
    var reach := set i | 0 <= i < SLOTS && Reachable(bits, handles, i);
    assert slot in reach;
  }

  /** Waiters of one rank take turns: the routed calls follow one another, and until one
      of them wakes it the waiter in `slot` is reachable and of that rank. */
  predicate InTurn(calls: seq<Routed>, slot: nat, rank: Interest, woken: Routed -> bool)
    requires slot < SLOTS
  {
    && (forall j | 0 <= j < |calls| :: calls[j].Ok())
    && (forall j | 0 < j < |calls| :: calls[j].reserved.cursor0 == calls[j - 1].Cursor())
    && forall j | 0 <= j < |calls| ::
         (forall h | 0 <= h < j :: !woken(calls[h])) ==>
           Reachable(calls[j].bits0, calls[j].reserved.handles0, slot) && calls[j].interests[slot] == rank
  }

  lemma LaterInTurn(calls: seq<Routed>, slot: nat, rank: Interest, woken: Routed -> bool)
    requires slot < SLOTS && |calls| > 0 && InTurn(calls, slot, rank, woken) && !woken(calls[0])
    ensures InTurn(calls[1..], slot, rank, woken)
  {
    var rest := calls[1..];
    forall j | 0 <= j < |rest| && forall h | 0 <= h < j :: !woken(rest[h])
      ensures Reachable(rest[j].bits0, rest[j].reserved.handles0, slot) && rest[j].interests[slot] == rank
    {
      assert forall h | 0 <= h < j + 1 :: h == 0 || calls[h] == rest[h - 1];
    }
  }

  /** Bounded bypass among those the releases are reserved for: such a waiter is woken
      within one call more than its distance from the cursor. */
  lemma {:induction false} ReservedBypass(calls: seq<Routed>, slot: nat) returns (i: nat)
    requires slot < SLOTS && |calls| > 0 && |calls| > Distance(calls[0].reserved.cursor0, slot)
    requires InTurn(calls, slot, Interest.Reserved, (c: Routed) => Wakes(c.reserved, slot))
    ensures i <= Distance(calls[0].reserved.cursor0, slot) && Wakes(calls[i].reserved, slot)
  {
    var call := calls[0];
    if Wakes(call.reserved, slot) {
      i := 0;
    } else {
      ReachableCounts(call.reserved.bits0, call.reserved.handles0, slot);
      PassedOverMeansNearer(call.reserved, slot);
      LaterInTurn(calls, slot, Interest.Reserved, (c: Routed) => Wakes(c.reserved, slot));
      i := ReservedBypass(calls[1..], slot);
      i := i + 1;
    }
  }

  /** And among those that take anything, while nobody that announced a reservation of
      the release has its bit set. */
  lemma {:induction false} TakersBypass(calls: seq<Routed>, slot: nat) returns (i: nat)
    requires slot < SLOTS && |calls| > 0 && |calls| > Distance(calls[0].reserved.cursor0, slot)
    requires InTurn(calls, slot, Interest.Any, (c: Routed) => c.any.Some? && Wakes(c.any.value, slot))
    requires forall j | 0 <= j < |calls| :: calls[j].reserved.bits0 == Empty()
    ensures i <= Distance(calls[0].reserved.cursor0, slot)
    ensures calls[i].any.Some? && Wakes(calls[i].any.value, slot)
  {
    var call := calls[0];
    NobodySet(call.reserved);
    if call.any.Some? && Wakes(call.any.value, slot) {
      i := 0;
    } else {
      PassedOverMeansNearer(call.any.value, slot);
      LaterInTurn(calls, slot, Interest.Any, (c: Routed) => c.any.Some? && Wakes(c.any.value, slot));
      i := TakersBypass(calls[1..], slot);
      i := i + 1;
    }
  }

  /** With no bit set a pass retires nothing and moves nothing. */
  lemma NobodySet(call: Call)
    requires WokeOne(call) && call.bits0 == Empty()
    ensures call.cursor == call.cursor0 && call.handles == call.handles0
    ensures CountReachable(call.bits0, call.handles0) == 0
  {
    assert (set i | 0 <= i < SLOTS && Reachable(call.bits0, call.handles0, i)) == {};
    assert call.d == 0;
    assert call.handles == call.handles0;
  }

  class WakeSet {
    var wake: Bitmap
    var parkers: Handles
    var cursor: nat
    var overflow: seq<nat>
    var unparked: seq<nat>

    constructor ()
      ensures wake == Empty() && parkers == seq(SLOTS, _ => None) && cursor == 0
      ensures overflow == [] && unparked == []
    {
      wake := Empty();
      parkers := seq(SLOTS, _ => None);
      cursor := 0;
      overflow := [];
      unparked := [];
    }

    /** Drains the overflow stack, unparking everyone on it. */
    method WakeOverflow()
      modifies this`overflow, this`unparked
      ensures overflow == [] && unparked == old(unparked) + old(overflow)
    {
      while overflow != []
        invariant unparked + overflow == old(unparked) + old(overflow)
        decreases |overflow|
      {
        unparked := unparked + [overflow[0]];
        overflow := overflow[1..];
      }
    }

    /** `ThreadParker::wake`: claims the armed handle, if any, and unparks it. No wake
        can deliver to the slot again until it is armed, and others are as reachable
        as they were. */
    method WakeHandle(slot: nat) returns (delivered: bool)
      requires slot < SLOTS
      modifies this`parkers, this`unparked
      ensures !Reachable(wake, parkers, slot)
      ensures forall i | 0 <= i < SLOTS && i != slot ::
                Reachable(wake, parkers, i) <==> Reachable(old(wake), old(parkers), i)
      ensures old(wake)[slot] ==> (delivered <==> Reachable(old(wake), old(parkers), slot))
      ensures delivered == old(parkers)[slot].Some?
      ensures parkers == old(parkers)[slot := None]
      ensures unparked == old(unparked) + if delivered then [old(parkers)[slot].value] else []
    {
      delivered := parkers[slot].Some?;
      if delivered {
        unparked := unparked + [parkers[slot].value];
      }
      parkers := parkers[slot := None];
    }

    /** Retires `bit`, the nearest set bit from `start`, and claims its handle. */
    method Retire(bit: nat, ghost bits0: Bitmap, ghost handles0: Handles, ghost start: nat, ghost d: nat)
      returns (delivered: bool, ghost e: nat)
      requires d <= SLOTS && Swept(bits0, handles0, start, wake, parkers, d)
      requires bit < SLOTS && wake[bit]
      requires forall i | 0 <= i < SLOTS && wake[i] :: Distance(start, bit) <= Distance(start, i)
      modifies this`wake, this`parkers, this`unparked
      ensures d < e <= SLOTS && Swept(bits0, handles0, start, wake, parkers, e)
      ensures SlotAt(start, e - 1) == bit && bits0[bit]
      ensures delivered == Reachable(bits0, handles0, bit)
      ensures Sweep(bits0, handles0, start, e)
              == Sweep(bits0, handles0, start, d) + if delivered then [handles0[bit].value] else []
      ensures unparked == old(unparked) + if delivered then [handles0[bit].value] else []
    {
      SweptToNearest(bits0, handles0, start, wake, parkers, d, bit);
      DistancesAreNames(start, bit, 0);
      e := Distance(start, bit) + 1;
      wake := wake[bit := false];
      delivered := WakeHandle(bit);
    }

    /** `wake_one`: delivers one unpark if any slot is reachable, to the one
        cyclically nearest the cursor; clears the bits up to it and no other, and
        leaves the cursor just past it. With nobody reachable it clears every bit. */
    method WakeOne() returns (ghost d: nat)
      modifies this
      ensures overflow == []
      ensures WokeOne(Call(old(wake), old(parkers), old(cursor), wake, parkers, cursor, d))
      ensures unparked == old(unparked) + old(overflow) + Sweep(old(wake), old(parkers), old(cursor), d)
    {
      hide WokeOne, CountReachable;
      WakeOverflow();
      var start := cursor;
      d := 0;
      while wake != Empty()
        invariant d <= SLOTS && Swept(old(wake), old(parkers), start, wake, parkers, d)
        invariant Sweep(old(wake), old(parkers), start, d) == []
        invariant overflow == [] && unparked == old(unparked) + old(overflow)
        invariant cursor == if d == 0 then start else SlotAt(start, d - 1) + 1
        invariant d > 0 ==> old(wake)[SlotAt(start, d - 1)]
        decreases SLOTS - d
      {
        NonzeroMeansSomeBit(wake);
        SelectIsNearest(wake, start);
        var bit := Select(wake, start);
        cursor := bit + 1;
        var delivered;
        delivered, d := Retire(bit, old(wake), old(parkers), start, d);
        if delivered {
          Delivered(old(wake), old(parkers), start, wake, parkers, d);
          return;
        }
      }
      RanOut(old(wake), old(parkers), start, wake, parkers, cursor, d);
    }

    /** `wake_n`: delivers as many unparks as there are reachable slots, but at
        most `n`, nearest the cursor first; clears only the bits it passed. */
    method WakeN(n: nat) returns (ghost d: nat)
      modifies this
      ensures overflow == []
      ensures d <= SLOTS && Swept(old(wake), old(parkers), old(cursor), wake, parkers, d)
      ensures unparked == old(unparked) + old(overflow) + Sweep(old(wake), old(parkers), old(cursor), d)
      ensures |Sweep(old(wake), old(parkers), old(cursor), d)|
              == if n < CountReachable(old(wake), old(parkers)) then n else CountReachable(old(wake), old(parkers))
      ensures |Sweep(old(wake), old(parkers), old(cursor), d)| == n ==>
                d == 0 || Reachable(old(wake), old(parkers), SlotAt(old(cursor), d - 1))
      ensures |Sweep(old(wake), old(parkers), old(cursor), d)| < n ==> wake == Empty()
      ensures cursor == if d == 0 then old(cursor) else SlotAt(old(cursor), d - 1) + 1
      ensures d > 0 ==> old(wake)[SlotAt(old(cursor), d - 1)]
    {
      WakeOverflow();
      var at := cursor;
      var woken := 0;
      ghost var start := cursor;
      d := 0;
      while woken < n
        invariant d <= SLOTS && Swept(old(wake), old(parkers), start, wake, parkers, d)
        invariant woken == |Sweep(old(wake), old(parkers), start, d)| <= n
        invariant overflow == [] && unparked == old(unparked) + old(overflow) + Sweep(old(wake), old(parkers), start, d)
        invariant at == if d == 0 then start else SlotAt(start, d - 1) + 1
        invariant d > 0 ==> old(wake)[SlotAt(start, d - 1)]
        invariant woken == n ==> d == 0 || Reachable(old(wake), old(parkers), SlotAt(start, d - 1))
        decreases SLOTS - d
      {
        if wake == Empty() {
          NothingLeft(old(wake), old(parkers), start, wake, parkers, d);
          cursor := at;
          return;
        }
        NonzeroMeansSomeBit(wake);
        SelectIsNearest(wake, at);
        NearestFromLaterCursor(old(wake), old(parkers), start, wake, parkers, d, at, Select(wake, at));
        var bit := Select(wake, at);
        at := bit + 1;
        var delivered;
        delivered, d := Retire(bit, old(wake), old(parkers), start, d);
        if delivered { woken := woken + 1; }
      }
      SweptNoMoreThanThereAre(old(wake), old(parkers), start, d);
      cursor := at;
    }

    /** One pass of `wake_one_interested`: wakes the nearest reachable waiter of
        exactly this rank, retiring on the way the bits of that rank whose
        handles were already claimed, and leaves the cursor just past the last bit it
        retired. On the bits of its rank it is a call of `wake_one`. */
    method WakeOneRanked(rank: Interest, interests: Interests) returns (woken: Option<nat>, ghost d: nat)
      modifies this`wake, this`parkers, this`cursor, this`unparked
      ensures var pass := Pass(rank, interests, old(wake), old(parkers), old(cursor), wake, parkers, cursor, d);
              WokeOne(pass) && (woken.Some? ==> Wakes(pass, woken.value))
      ensures woken.Some? <==> CountReachable(Matching(old(wake), interests, rank), old(parkers)) > 0
      ensures LeavesOthersReachable(old(wake), old(parkers), wake, parkers, interests, rank, woken)
      ensures woken.Some? ==> Nearest(old(wake), old(parkers), old(cursor), interests, rank, woken.value)
      ensures unparked == old(unparked) + if woken.Some? then [old(parkers)[woken.value].value] else []
    {
      hide WokeOne, Wakes, Nearest, LeavesOthersReachable, CountReachable, Pass;
      ghost var start, all := cursor, Matching(wake, interests, rank);
      d := 0;
      while wake != Empty()
        invariant d <= SLOTS && Swept(all, old(parkers), start, Matching(wake, interests, rank), parkers, d)
        invariant Sweep(all, old(parkers), start, d) == []
        invariant cursor == if d == 0 then start else SlotAt(start, d - 1) + 1
        invariant d > 0 ==> all[SlotAt(start, d - 1)]
        invariant forall i | 0 <= i < SLOTS && interests[i] != rank :: wake[i] == old(wake)[i]
        invariant unparked == old(unparked)
        decreases SLOTS - d
      {
        var found := NextMatching(wake, cursor, rank, interests);
        if found.None? { break; }
        var bit := found.value;
        d := RankedStep(all, old(parkers), start, wake, parkers, interests, rank, d, cursor, bit);
        wake := wake[bit := false];
        cursor := bit + 1;
        var delivered := WakeHandle(bit);
        if delivered {
          FoundNearest(old(wake), old(parkers), start, wake, parkers, interests, rank, d, bit);
          return Some(bit), d;
        }
      }
      NonzeroMeansSomeBit(wake);
      NonzeroMeansSomeBit(Matching(wake, interests, rank));
      FoundNobody(old(wake), old(parkers), start, wake, parkers, interests, rank, cursor, d);
      return None, d;
    }

    /** `wake_one_interested`: the waiter that reserved the release is woken if one
        is reachable, else one that takes anything, each the nearest of its rank; one that
        declines is never touched, and no reachable waiter but the woken one is. The cursor
        is left just past the last bit either pass retired. */
    method WakeOneInterested(interests: Interests) returns (woken: Option<nat>, ghost call: Routed)
      modifies this
      ensures overflow == []
      ensures call.Ok() && call.interests == interests && call.bits0 == old(wake) && cursor == call.Cursor()
      ensures call.reserved.handles0 == old(parkers) && call.reserved.cursor0 == old(cursor)
      ensures Matching(wake, interests, Interest.Reserved) == call.reserved.bits
      ensures Matching(wake, interests, Interest.Any)
              == if call.any.Some? then call.any.value.bits else Matching(old(wake), interests, Interest.Any)
      ensures parkers == if call.any.Some? then call.any.value.handles else call.reserved.handles
      ensures woken.Some? ==> Wakes(if call.any.Some? then call.any.value else call.reserved, woken.value)
      ensures woken.Some? && interests[woken.value].Any? ==>
                Nearest(old(wake), old(parkers), call.reserved.cursor, interests, Interest.Any, woken.value)
      ensures CountReachable(Matching(old(wake), interests, Interest.Reserved), old(parkers)) > 0 ==>
                woken.Some? && Nearest(old(wake), old(parkers), old(cursor), interests, Interest.Reserved, woken.value)
      ensures woken.Some? ==>
                && woken.value < SLOTS && Reachable(old(wake), old(parkers), woken.value)
                && !interests[woken.value].Declines?
      ensures unparked == old(unparked) + old(overflow) + if woken.Some? then [old(parkers)[woken.value].value] else []
      ensures woken.None? ==>
                forall i | 0 <= i < SLOTS && Reachable(old(wake), old(parkers), i) :: interests[i].Declines?
      ensures forall i | 0 <= i < SLOTS && woken != Some(i)
                         && (interests[i].Declines? || Reachable(old(wake), old(parkers), i)) ::
                wake[i] == old(wake)[i] && parkers[i] == old(parkers)[i]
      ensures woken.Some? ==> !wake[woken.value] && parkers[woken.value] == None
    {
      hide WokeOne, Wakes, CountReachable;
      WakeOverflow();
      ghost var d;
      woken, d := WakeOneRanked(Interest.Reserved, interests);
      ghost var reserved :=
        Pass(Interest.Reserved, interests, old(wake), old(parkers), old(cursor), wake, parkers, cursor, d);
      call := Routed(interests, old(wake), reserved, None);
      if woken.Some? { return; }
      NobodyOfRank(old(wake), old(parkers), interests, Interest.Reserved);
      ghost var wake1, parkers1, cursor1 := wake, parkers, cursor;
      SameRank(old(wake), wake1, interests, Interest.Any);
      woken, d := WakeOneRanked(Interest.Any, interests);
      call := Routed(interests, old(wake), reserved,
                     Some(Pass(Interest.Any, interests, wake1, parkers1, cursor1, wake, parkers, cursor, d)));
      if woken.None? {
        NobodyOfRank(wake1, parkers1, interests, Interest.Any);
      }
    }

    /** `flush`: everyone reachable is unparked, and no bit stays set. */
    method Flush()
      modifies this
      ensures overflow == [] && wake == Empty() && cursor == old(cursor)
      ensures unparked == old(unparked) + old(overflow) + Sweep(old(wake), old(parkers), 0, SLOTS)
      ensures forall i | 0 <= i < SLOTS :: parkers[i] == if old(wake)[i] then None else old(parkers)[i]
    {
      WakeOverflow();
      var bits := wake;
      wake := Empty();
      ghost var d := 0;
      while bits != Empty()
        invariant d <= SLOTS && Swept(old(wake), old(parkers), 0, bits, parkers, d)
        invariant overflow == [] && wake == Empty() && cursor == old(cursor)
        invariant unparked == old(unparked) + old(overflow) + Sweep(old(wake), old(parkers), 0, d)
        decreases SLOTS - d
      {
        NonzeroMeansSomeBit(bits);
        var b := TrailingZeros(bits);
        LowestIsNearest(bits);
        SweptToNearest(old(wake), old(parkers), 0, bits, parkers, d, b);
        d := b + 1;
        var delivered := WakeHandle(b);
        bits := bits[b := false];
      }
      NonzeroMeansSomeBit(bits);
      SweepPassesClearBits(old(wake), old(parkers), 0, d, SLOTS);
    }

    /** `arm`: a leased waiter publishes its handle, then its bit; a slotless one
        goes on the overflow stack. */
    method Arm(slot: ParkSlot, thread: nat)
      requires slot.Fits()
      modifies this`wake, this`parkers, this`overflow
      ensures slot.Leased? ==>
                && Reachable(wake, parkers, slot.bit) && overflow == old(overflow)
                && wake == old(wake)[slot.bit := true] && parkers == old(parkers)[slot.bit := Some(thread)]
      ensures slot.Shared? ==> wake == old(wake) && parkers == old(parkers) && overflow == [thread] + old(overflow)
    {
      match slot
      case Shared =>
        overflow := [thread] + overflow;
      case Leased(bit) =>
        parkers := parkers[bit := Some(thread)];
        wake := wake[bit := true];
    }

    /** `disarm`: clears the bit and leaves the handle. The slot is out of every wake's
        reach, and no other slot is. */
    method Disarm(slot: ParkSlot)
      requires slot.Fits()
      modifies this`wake
      ensures slot.Leased? ==> !Reachable(wake, parkers, slot.bit)
      ensures forall i | 0 <= i < SLOTS && slot != Leased(i) ::
                Reachable(wake, parkers, i) <==> Reachable(old(wake), old(parkers), i)
      ensures wake == if slot.Leased? then old(wake)[slot.bit := false] else old(wake)
    {
      if slot.Leased? {
        wake := wake[slot.bit := false];
      }
    }
  }
}
