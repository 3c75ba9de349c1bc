/** What a parked producer of the many-to-many ring announces: the start of its
    batch and which positions of it are unused, packed into one 64-bit word. */
module AwaitedBatch {
  import opened WakeInterest

  /** One past the largest 32-bit number. */
  const HALF: nat := 0x1_0000_0000

  const ANY: nat := 0xFFFF_FFFF_FFFF_FFFF

  const BATCH_WIDTH: nat := 32

  function Shifted(u: nat, k: nat): nat {
    if k == 0 then u else Shifted(u / 2, k - 1)
  }

  predicate Bit(u: nat, k: nat) {
    Shifted(u, k) % 2 == 1
  }

  function Pow2(k: nat): (p: nat)
    ensures p > 0
  {
    if k == 0 then 1 else 2 * Pow2(k - 1)
  }

  /** `Bit` is the binary digit worth 2^k: between the digits above it and a remainder
      below 2^k. */
  lemma {:induction false} BitIsTheDigit(u: nat, k: nat, above: nat, digit: nat, below: nat)
    requires u == above * Pow2(k + 1) + digit * Pow2(k) + below && digit < 2 && below < Pow2(k)
    ensures Bit(u, k) <==> digit == 1
    decreases k
  {
    if k == 0 {
      assert Pow2(1) == 2 && u == 2 * above + digit;
    } else {
      var half := above * Pow2(k) + digit * Pow2(k - 1);
      assert u == 2 * half + below by {
        assert above * Pow2(k + 1) == 2 * (above * Pow2(k));
        assert digit * Pow2(k) == 2 * (digit * Pow2(k - 1));
      }
      assert u / 2 == half + below / 2;
      BitIsTheDigit(u / 2, k - 1, above, digit, below / 2);
    }
  }

  /** `u` with the digit worth 2^k set, the digits above it, and a remainder below. */
  predicate SetBetween(u: nat, k: nat, above: nat, below: nat) {
    below < Pow2(k) && u == above * Pow2(k + 1) + Pow2(k) + below
  }

  /** A bit is set exactly if the number splits so. */
  lemma BitIff(u: nat, k: nat)
    ensures Bit(u, k) <==> exists above: nat, below: nat :: SetBetween(u, k, above, below)
  {
    var above, digit, below := Digits(u, k);
    BitIsTheDigit(u, k, above, digit, below);
    if digit == 1 { assert SetBetween(u, k, above, below); }
    forall a: nat, b: nat | SetBetween(u, k, a, b) ensures Bit(u, k) {
      BitIsTheDigit(u, k, a, 1, b);
    }
  }

  lemma {:induction false} Digits(u: nat, k: nat) returns (above: nat, digit: nat, below: nat)
    ensures u == above * Pow2(k + 1) + digit * Pow2(k) + below && digit < 2 && below < Pow2(k)
    decreases k
  {
    if k == 0 {
      above, digit, below := u / 2, u % 2, 0;
      assert Pow2(1) == 2;
    } else {
      above, digit, below := Digits(u / 2, k - 1);
      assert above * Pow2(k + 1) == 2 * (above * Pow2(k));
      assert digit * Pow2(k) == 2 * (digit * Pow2(k - 1));
      below := 2 * below + u % 2;
    }
  }

  /** The bitmap of the offsets below `n`: the sum of their powers of two. */
  function BitmapOf(offsets: set<nat>, n: nat): (u: nat)
    ensures u < Pow2(n)
  {
    if n == 0 then 0 else BitmapOf(offsets, n - 1) + if n - 1 in offsets then Pow2(n - 1) else 0
  }

  /** Its bits are the offsets. */
  lemma {:induction false} BitmapHoldsTheOffsets(offsets: set<nat>, n: nat, k: nat, above: nat)
    requires k < n
    ensures Bit(above * Pow2(n) + BitmapOf(offsets, n), k) <==> k in offsets
    decreases n
  {
    var digit, below := if n - 1 in offsets then 1 else 0, BitmapOf(offsets, n - 1);
    var u := above * Pow2(n) + BitmapOf(offsets, n);
    assert u == above * Pow2(n) + digit * Pow2(n - 1) + below;
    if k == n - 1 {
      BitIsTheDigit(u, k, above, digit, below);
    } else {
      assert u == (2 * above + digit) * Pow2(n - 1) + below by {
        assert above * Pow2(n) == (2 * above) * Pow2(n - 1);
      }
      BitmapHoldsTheOffsets(offsets, n - 1, k, 2 * above + digit);
    }
  }

  /** The low 32 bits of the start above the 32 bits of the bitmap. */
  function Pack(start: nat, unused: nat): nat {
    start % HALF * HALF + unused
  }

  function Announced(start: nat, unused: nat): nat {
    if unused == 0 then ANY else Pack(start, unused)
  }

  /** The distance from the packed start to `pos`, on 32 bits. */
  function Offset(word: nat, pos: nat): (offset: nat)
    requires word <= ANY
  {
    (pos % HALF + HALF - word / HALF) % HALF
  }

  predicate Matches(word: nat, pos: nat)
    requires word <= ANY
  {
    word != ANY && Offset(word, pos) < BATCH_WIDTH && Bit(word % HALF, Offset(word, pos))
  }

  function InterestIn(word: nat, pos: nat): Interest
    requires word <= ANY
  {
    if word == ANY then Any else if Matches(word, pos) then Reserved else Declines
  }

  /** `pos` is, to 32 bits, one of the announced positions. */
  ghost predicate InBatch(start: nat, unused: nat, pos: nat) {
    exists i :: 0 <= i < BATCH_WIDTH && Bit(unused, i) && (pos - start - i) % HALF == 0
  }

  /** The one announcement whose word is the word for anything. */
  predicate Collides(start: nat, unused: nat) {
    unused == HALF - 1 && start % HALF == HALF - 1
  }

  lemma PackingRoundTrips(start: nat, unused: nat)
    requires unused < HALF
    ensures Pack(start, unused) / HALF == start % HALF && Pack(start, unused) % HALF == unused
    ensures Pack(start, unused) <= ANY
    ensures Pack(start, unused) == ANY <==> Collides(start, unused)
  {
  }

  /** The offset is the distance modulo 2^32. */
  lemma OffsetIsTheDistance(start: nat, unused: nat, pos: nat, i: nat)
    requires unused < HALF && i < BATCH_WIDTH
    ensures Pack(start, unused) <= ANY
    ensures Offset(Pack(start, unused), pos) == i <==> (pos - start - i) % HALF == 0
  {
    PackingRoundTrips(start, unused);
    var p, b := pos % HALF, start % HALF;
    assert (pos - start - i) % HALF == 0 <==> (p - b - i) % HALF == 0 by {
      assert pos - start - i == (p - b - i) + HALF * (pos / HALF - start / HALF);
    }
  }

  /** What the announcer is told it can do with a release of `pos`: exactly what it
      announced, except that the one colliding announcement reads as anything. */
  lemma InterestIsWhatWasAnnounced(start: nat, unused: nat, pos: nat)
    requires unused < HALF
    ensures Announced(start, unused) <= ANY
    ensures InterestIn(Announced(start, unused), pos) == Any <==> unused == 0 || Collides(start, unused)
    ensures InterestIn(Announced(start, unused), pos) == Reserved <==>
              unused != 0 && !Collides(start, unused) && InBatch(start, unused, pos)
    ensures InterestIn(Announced(start, unused), pos) == Declines <==>
              unused != 0 && !Collides(start, unused) && !InBatch(start, unused, pos)
  {
    PackingRoundTrips(start, unused);
    if unused != 0 && !Collides(start, unused) {
      var word := Pack(start, unused);
      var offset := Offset(word, pos);
      if offset < BATCH_WIDTH { OffsetIsTheDistance(start, unused, pos, offset); }
      if InBatch(start, unused, pos) {
        var i :| 0 <= i < BATCH_WIDTH && Bit(unused, i) && (pos - start - i) % HALF == 0;
        OffsetIsTheDistance(start, unused, pos, i);
      }
      hide Bit, Offset;
      assert Matches(word, pos) <==> InBatch(start, unused, pos);
    }
  }

  lemma HalfIsAPower()
    ensures Pow2(BATCH_WIDTH) == HALF
  {
    assert Pow2(8) == 0x100;
    assert Pow2(16) == 0x1_0000 by { assert Pow2(12) == 0x1000; }
    assert Pow2(24) == 0x100_0000 by { assert Pow2(20) == 0x10_0000; }
    assert Pow2(28) == 0x1000_0000;
  }

  /** To 32 bits, `pos` is one of the announced offsets from the start. */
  ghost predicate Awaits(start: nat, offsets: set<nat>, pos: nat) {
    exists i: nat :: i in offsets && (pos - start - i) % HALF == 0
  }

  /** Announce any set of offsets in the batch, as the sum of their powers of two: the
      release of exactly those positions is reserved, and that of any other declined,
      unless the set is empty or the word collides. */
  lemma AnnouncedOffsetsAreReserved(start: nat, offsets: set<nat>, pos: nat)
    requires forall i | i in offsets :: i < BATCH_WIDTH
    ensures BitmapOf(offsets, BATCH_WIDTH) < HALF
    ensures var word := Announced(start, BitmapOf(offsets, BATCH_WIDTH));
            && word <= ANY
            && (InterestIn(word, pos) == Any <==> offsets == {} || Collides(start, BitmapOf(offsets, BATCH_WIDTH)))
            && (InterestIn(word, pos) != Any ==> (InterestIn(word, pos) == Reserved <==> Awaits(start, offsets, pos)))
  {
    var unused := BitmapOf(offsets, BATCH_WIDTH);
    HalfIsAPower();
    forall i: nat | i < BATCH_WIDTH ensures Bit(unused, i) <==> i in offsets {
      BitmapHoldsTheOffsets(offsets, BATCH_WIDTH, i, 0);
    }
    if offsets == {} {
      EmptyBitmap(BATCH_WIDTH);
    } else {
      var i :| i in offsets;
      BitIsTheDigit(0, i, 0, 0, 0);
      assert unused != 0;
    }
    InterestIsWhatWasAnnounced(start, unused, pos);
    hide Bit, BitmapOf, Announced, InterestIn, Collides;
    assert InBatch(start, unused, pos) <==> Awaits(start, offsets, pos);
  }

  lemma {:induction false} EmptyBitmap(n: nat)
    ensures BitmapOf({}, n) == 0
  {
    if n > 0 { EmptyBitmap(n - 1); }
  }

  /** Thirty-two bits are enough: within 2^32 - 32 positions of the batch, on either
      side, only the announced positions themselves match. */
  lemma NearbyPositionsDoNotAlias(start: nat, unused: nat, pos: nat)
    requires pos < start + HALF && start + BATCH_WIDTH <= pos + HALF
    ensures InBatch(start, unused, pos) <==> start <= pos < start + BATCH_WIDTH && Bit(unused, pos - start)
  {
    if InBatch(start, unused, pos) {
      var i :| 0 <= i < BATCH_WIDTH && Bit(unused, i) && (pos - start - i) % HALF == 0;
      assert pos - start == i;
    }
  }

  class AwaitedBatch {
    var word: nat

    constructor ()
      ensures word == ANY
    {
      word := ANY;
    }

    method Announce(start: nat, unused: nat)
      requires unused < HALF
      modifies this
      ensures word == Announced(start, unused) <= ANY
    {
      PackingRoundTrips(start, unused);
      word := if unused == 0 then ANY else Pack(start, unused);
    }

    method Retract()
      modifies this
      ensures word == ANY
    {
      word := ANY;
    }

    method InterestOf(pos: nat) returns (interest: Interest)
      requires word <= ANY
      ensures interest == InterestIn(word, pos)
    {
      if word == ANY { return Any; }
      return if Matches(word, pos) then Reserved else Declines;
    }
  }
}

/** Routing a freed position to the producer parked for it. */
module MpmcRouting {
  import opened Wrappers
  import opened WakeBitmap
  import opened WakeInterest
  import opened AwaitedBatch
  import opened WakeSet

  /** A parked producer's batch, as announced for its slot. */
  datatype Batch = Batch(start: nat, unused: nat)

  type Batches = bs: seq<Batch> | |bs| == SLOTS && forall b :: b in bs ==> b.unused < HALF
    witness seq(SLOTS, _ => Batch(0, 0))

  /** Announced a batch with `pos` in it. */
  ghost predicate Wants(b: Batch, pos: nat) {
    b.unused != 0 && !Collides(b.start, b.unused) && InBatch(b.start, b.unused, pos)
  }

  /** Waits for a refill, or announced the colliding batch. */
  predicate TakesAny(b: Batch) {
    b.unused == 0 || Collides(b.start, b.unused)
  }

  lemma SomebodyReserved(bits: Bitmap, handles: Handles, interests: Interests, i: nat)
    requires i < SLOTS && Reachable(bits, handles, i) && interests[i] == Reserved
    ensures CountReachable(Matching(bits, interests, Reserved), handles) > 0
  {
    if CountReachable(Matching(bits, interests, Reserved), handles) == 0 {
      NobodyOfRank(bits, handles, interests, Reserved);
    }
  }

  /** `wake_producer_for`: the release of `pos` goes to the nearest reachable
      producer that reserved it, if there is one, else to the nearest that takes anything,
      from where the cursor then is; it wakes nobody only when no reachable producer can use it, and a producer
      pinned elsewhere stays as reachable as it was. */
  method WakeProducerFor(park: WakeSet, awaited: seq<nat>, ghost batches: Batches, pos: nat)
    returns (woken: Option<nat>, ghost call: Routed)
    requires |awaited| == SLOTS
    requires forall i | 0 <= i < SLOTS :: awaited[i] == Announced(batches[i].start, batches[i].unused)
    modifies park
    ensures park.overflow == []
    ensures call.Ok() && call.bits0 == old(park.wake) && call.reserved.handles0 == old(park.parkers)
    ensures call.reserved.cursor0 == old(park.cursor) && park.cursor == call.Cursor()
    ensures forall i | 0 <= i < SLOTS :: call.interests[i] == Reserved <==> Wants(batches[i], pos)
    ensures forall i | 0 <= i < SLOTS :: call.interests[i] == Any <==> TakesAny(batches[i])
    ensures woken.Some? ==> Wakes(if call.any.Some? then call.any.value else call.reserved, woken.value)
    ensures woken.Some? && TakesAny(batches[woken.value]) ==>
              forall i | 0 <= i < SLOTS && Reachable(old(park.wake), old(park.parkers), i) && TakesAny(batches[i]) ::
                Distance(call.reserved.cursor, woken.value) <= Distance(call.reserved.cursor, i)
    ensures woken.Some? ==>
              && woken.value < SLOTS && Reachable(old(park.wake), old(park.parkers), woken.value)
              && (Wants(batches[woken.value], pos) || TakesAny(batches[woken.value]))
    ensures forall i | 0 <= i < SLOTS && Reachable(old(park.wake), old(park.parkers), i) && Wants(batches[i], pos) ::
              && woken.Some? && Wants(batches[woken.value], pos)
              && Distance(old(park.cursor), woken.value) <= Distance(old(park.cursor), i)
    ensures woken.None? ==>
              forall i | 0 <= i < SLOTS && Reachable(old(park.wake), old(park.parkers), i) ::
                !Wants(batches[i], pos) && !TakesAny(batches[i])
    ensures forall i | 0 <= i < SLOTS && !Wants(batches[i], pos) && !TakesAny(batches[i]) ::
              park.wake[i] == old(park.wake)[i] && park.parkers[i] == old(park.parkers)[i]
  {
    forall i | 0 <= i < SLOTS ensures awaited[i] <= ANY {
      PackingRoundTrips(batches[i].start, batches[i].unused);
    }
    var interests: Interests := seq(SLOTS, i requires 0 <= i < SLOTS => InterestIn(awaited[i], pos));
    forall i | 0 <= i < SLOTS
      ensures interests[i] == Reserved <==> Wants(batches[i], pos)
      ensures interests[i] == Any <==> TakesAny(batches[i])
    {
      InterestIsWhatWasAnnounced(batches[i].start, batches[i].unused, pos);
    }
    forall i | 0 <= i < SLOTS && Reachable(park.wake, park.parkers, i) && Wants(batches[i], pos)
      ensures CountReachable(Matching(park.wake, interests, Reserved), park.parkers) > 0
    {
      SomebodyReserved(park.wake, park.parkers, interests, i);
    }
    hide Wants, TakesAny, CountReachable, Matching, InterestIn, Announced;
    woken, call := park.WakeOneInterested(interests);
  }
}
