/** A clone that races an unmarked claim: its consumer settles past the claim, so that
    nothing holds a second producer back from going round the ring to the same slot. */
module BroadcastMarkRace {
  import opened Wrappers
  import opened SlotState
  import opened PositionLog
  import opened BroadcastMachine
  import opened BroadcastWindows
  import opened BroadcastMarks
  import opened BroadcastConservation
  import opened BroadcastRuns

  /** The consumer reads one value, the first producer wins position `cap`, and
      the consumer's clone settles past it. */
  lemma CloneSettlesPastUnmarkedClaim(s0: Origin, s: Machine) returns (t: Machine)
    requires s0.w.mark && s0.w.late && Leads(s0, s) && |s.seats| > 1 && FirstLap(s) && s.tail == s.cap
    ensures Leads(s0, t) && OnlyAt(t, 1, s.cap + 1) && NoneCloning(t) && t.tail == s.cap + 1 && t.cap == s.cap
    ensures t.seats[1] == Seat(true, s.cap + 1, s.cap + 1, [], Resting)
    ensures t.producers == [Producer(1, Claimed(s.cap)), Producer(0, Idle)] && t.shared == 1 && t.words == s.words
  {
    hide Leads;
    t := ReadsNextValue(s0, s, 0);
    t := ScansAndWins(s0, t, 0, 0, 1);
    t := Hop(s0, t, 0, 1);
  }

  /** The first producer has won position `cap` and not marked its slot; the
      second has just won the tail, on a floor past that position, and published
      everything between. */
  predicate Unmarked(s: Machine) {
    && Shape(s) && |s.seats| > 1 && s.seats[1].active && |s.producers| == 2
    && s.producers[0].pc == Claimed(s.cap)
    && s.cap + 1 < s.tail <= 2 * s.cap + 1
    && s.producers[1] == Producer(s.cap + 1, Claimed(s.tail - 1))
    && (forall q | 0 <= q < s.cap :: s.words[q] != VACANT)
    && (forall pos | s.cap < pos < s.tail - 1 :: s.words[pos - s.cap] == PublishedWord(pos))
  }

  /** Both have won positions of slot zero. */
  predicate Collided(s: Machine) {
    Unmarked(s) && s.tail == 2 * s.cap + 1
  }

  /** The second producer goes on to claim the first one's slot. */
  lemma {:induction false} ClaimsCollide(s0: Origin, s: Machine) returns (t: Machine)
    requires Leads(s0, s) && Unmarked(s)
    ensures Leads(s0, t) && Collided(t) && t.seats == s.seats && t.cloners == s.cloners && t.cap == s.cap
    decreases 2 * s.cap + 1 - s.tail
  {
    t := s;
    if s.tail < 2 * s.cap + 1 {
      hide Leads;
      assert SlotOf(s.cap, s.tail - 1) == s.tail - 1 - s.cap;
      t := Publishes(s0, s, 1);
      t := WinsTail(s0, t, 1);
      t := ClaimsCollide(s0, t);
    }
  }

  /** The consumer past the claim is being cloned, and the second producer has won the
      first position it was held back from. */
  lemma ReachesUnmarked(w: Window, cap: nat, seats: nat, needsDrop: bool) returns (t: Machine)
    requires cap > 0 && seats >= 2 && w.mark && w.late
    ensures Leads(RingIn(w, cap, seats, needsDrop), t) && Unmarked(t) && t.cap == cap && t.tail == cap + 2
    ensures !t.seats[0].active && t.seats[1] == Seat(true, cap + 1, cap + 1, [], Resting)
    ensures |t.cloners| > 0 && t.cloners[|t.cloners| - 1] == Cloner(1, Seeking(cap + 1, 0))
    ensures forall c | 0 <= c < |t.cloners| - 1 :: t.cloners[c].pc.Finished?
  {
    var s0 := RingIn(w, cap, seats, needsDrop);
    t := ReachesFullLap(w, cap, seats, needsDrop);
    t := CloneSettlesPastUnmarkedClaim(s0, t);
    hide Leads;
    t := CloneStarts(s0, t, 1);
    LeadsOn(s0, t, Begin(1));
    t := Apply(t, Begin(1));
    t := ScansAndWins(s0, t, 1, 1, cap + 1);
  }

  /** Two consumers that started together stand together, short of the position whose
      slot both producers have won. */
  predicate Doubled(s: Machine) {
    && Collided(s) && NoneCloning(s)
    && s.seats[0] == Seat(true, s.cap + 1, s.cap + 1, [], Resting) && s.seats[1] == s.seats[0]
  }

  lemma ReachesDoubled(w: Window, cap: nat, seats: nat, needsDrop: bool) returns (t: Machine)
    requires cap > 0 && seats >= 2 && w.mark && w.late
    ensures Leads(RingIn(w, cap, seats, needsDrop), t) && Doubled(t) && t.cap == cap
  {
    var s0 := RingIn(w, cap, seats, needsDrop);
    t := ReachesUnmarked(w, cap, seats, needsDrop);
    hide Leads;
    t := ClaimsCollide(s0, t);
    t := CloneSettles(s0, t, |t.cloners| - 1);
  }

  /** With two seats or more, some run gives one slot to two producers, at any
      capacity, once clones may come later and race an unmarked claim. */
  lemma TwoSeatsCanCollide(w: Window, cap: nat, seats: nat, needsDrop: bool) returns (t: Machine)
    requires cap > 0 && seats >= 2 && w.mark && w.late
    ensures Leads(RingIn(w, cap, seats, needsDrop), t) && t.cap > 0 && !SlotsExclusive(t)
  {
    t := ReachesDoubled(w, cap, seats, needsDrop);
    assert SlotOf(cap, cap) == 0 && SlotOf(cap, 2 * cap) == SlotOf(cap, cap);
    assert t.producers[0].pc.Claim() == Some(cap) && t.producers[1].pc.Claim() == Some(2 * cap);
  }

  /** The first producer's late mark empties the cell the second has filled; when both
      are done the value is in no slot, and has not been destroyed. */
  lemma TwoSeatsCanLose(w: Window, cap: nat, seats: nat) returns (t: Machine, v: nat)
    requires cap > 0 && seats >= 2 && w.mark && w.late
    ensures Leads(RingIn(w, cap, seats, true), t) && Shape(t) && Quiet(t)
    ensures v < t.born && !Stored(t, v) && t.destroyed[v] == 0
  {
    var s0 := RingIn(w, cap, seats, true);
    t := ReachesDoubled(w, cap, seats, true);
    assert SlotOf(cap, cap) == 0 && SlotOf(cap, 2 * cap) == SlotOf(cap, cap);
    t := TakesSlot(s0, t, 1);
    ReachedUnique(w, cap, seats, true, t);
    v := t.born;
    hide Leads;
    t := MarksLate(s0, t);
    LeadsOn(s0, t, Publish(1));
    t := Apply(t, Publish(1));
    LeadsOn(s0, t, Abandon(0));
    t := Apply(t, Abandon(0));
  }

  /** The second producer fills its cell, and the first one's mark empties it. */
  lemma MarksLate(s0: Origin, s: Machine) returns (t: Machine)
    requires Leads(s0, s) && Shape(s) && Unique(s)
    requires s.words[0] == VACANT && |s.producers| == 2 && s.tail == 2 * s.cap + 1
    requires s.producers[0].pc == Claimed(s.cap) && s.producers[1].pc == Holding(2 * s.cap)
    ensures Leads(s0, t) && Shape(t) && t.tail == s.tail && t.cap == s.cap && |t.producers| == 2
    ensures t.producers[0].pc == Holding(s.cap) && t.producers[1].pc == Filled(2 * s.cap, s.born)
    ensures t.born == s.born + 1 && !Stored(t, s.born) && t.destroyed[s.born] == 0
  {
    assert SlotOf(s.cap, s.cap) == 0 && SlotOf(s.cap, 2 * s.cap) == SlotOf(s.cap, s.cap);
    LeadsOn(s0, s, Fill(1));
    t := Apply(s, Fill(1));
    LeadsOn(s0, t, Mark(0));
    t := Apply(t, Mark(0));
  }

  /** Both consumers found the position published; the one in seat zero was shown its value
      `v`, and the one in seat one the value the first producer then wrote over it. */
  predicate Divided(s: Machine, v: nat) {
    && Shape(s) && |s.seats| > 1 && s.tail == 2 * s.cap + 1 && s.log[2 * s.cap] == Holds(v)
    && (var seat := s.seats[0];
        && seat.Settled() && seat.rpc.Resting? && seat.head == 2 * s.cap + 1 && seat.start == s.cap + 1
        && seat.seen != [] && seat.seen[|seat.seen| - 1] == v)
    && (var seat := s.seats[1];
        && seat.Settled() && seat.rpc.Leaving? && seat.head == 2 * s.cap && seat.start == s.cap + 1
        && seat.seen != [] && seat.seen[|seat.seen| - 1] != v)
  }

  /** Both consumers read along to the position, and the second producer publishes it. */
  lemma BothReadAlong(s0: Origin, s: Machine) returns (t: Machine, v: nat)
    requires Leads(s0, s) && Doubled(s)
    ensures Leads(s0, t) && Shape(t) && NoneCloning(t) && t.cap == s.cap && |t.seats| > 1 && |t.producers| == 2
    ensures t.tail == 2 * s.cap + 1 && t.log[2 * s.cap] == Holds(v) && v < t.born
    ensures t.producers[0].pc == Claimed(s.cap)
    ensures t.data[0] == Some(v) && t.words[0] == PublishedWord(2 * s.cap)
    ensures AtRest(t, 0) && t.seats[0].head == 2 * s.cap && t.seats[0].start == s.cap + 1
    ensures AtRest(t, 1) && t.seats[1].head == 2 * s.cap && t.seats[1].start == s.cap + 1
  {
    hide Leads;
    forall pos | s.cap < pos < 2 * s.cap ensures s.words[SlotOf(s.cap, pos)] == PublishedWord(pos) {
      assert SlotOf(s.cap, pos) == pos - s.cap;
    }
    t := ReadsTo(s0, s, 0, 2 * s.cap);
    t := ReadsTo(s0, t, 1, 2 * s.cap);
    v := t.born;
    assert SlotOf(s.cap, s.cap) == 0 && SlotOf(s.cap, 2 * s.cap) == SlotOf(s.cap, s.cap);
    t := Publishes(s0, t, 1);
  }

  lemma TwoSeatsCanDivide(w: Window, cap: nat, seats: nat, needsDrop: bool) returns (t: Machine, v: nat)
    requires cap > 0 && seats >= 2 && w.mark && w.late
    ensures Leads(RingIn(w, cap, seats, needsDrop), t) && Divided(t, v)
  {
    var s0 := RingIn(w, cap, seats, needsDrop);
    t := ReachesDoubled(w, cap, seats, needsDrop);
    t, v := BothReadAlong(s0, t);
    hide Leads;
    assert SlotOf(cap, cap) == 0 && SlotOf(cap, 2 * cap) == SlotOf(cap, cap);
    t := ReadsNextValue(s0, t, 0);
    t := FindsNextValue(s0, t, 1);
    t := FillsSlot(s0, t, 0);
    LeadsOn(s0, t, Show(1));
    t := Apply(t, Show(1));
  }
}
