/** A clone that races a floor scan: the consumer moves between two seats so that a scan
    sees its clone only, and a producer goes on to write over what it has not read. */
module BroadcastScanRace {
  import opened Wrappers
  import opened SlotState
  import opened ConsumerFloor
  import opened PositionLog
  import opened BroadcastMachine
  import opened BroadcastWindows
  import opened BroadcastBounds
  import opened BroadcastRuns

  /** Both consumers' seats once the first has moved to seat one. */
  predicate OnlySeatOne(s: Machine) {
    && Shape(s) && NoneCloning(s) && |s.seats| >= 2
    && s.seats[1] == FIRST_SEAT && !s.seats[0].active
    && (forall k | 2 <= k < |s.seats| :: !s.seats[k].active)
  }

  predicate OnlySeatZero(s: Machine) {
    && Shape(s) && NoneCloning(s) && |s.seats| >= 2
    && s.seats[0] == FIRST_SEAT && !s.seats[1].active
    && (forall k | 2 <= k < |s.seats| :: !s.seats[k].active)
  }

  /** Nothing has been claimed, and the first producer's accesses are at `pc`. */
  predicate Untouched(s: Machine, pc: PPc) {
    && s.tail == 0 && s.born == 0 && s.shared == 0 && s.producers == [Producer(0, pc), Producer(0, Idle)]
    && (forall q | 0 <= q < |s.words| :: s.words[q] == VACANT)
  }

  /** The consumer keeps out of the first producer's sight: each seat is empty
      when its flag is loaded. */
  lemma EveryFlagReadFalse(s0: Origin, s: Machine) returns (t: Machine)
    requires Leads(s0, s) && OnlySeatOne(s) && Untouched(s, Asking(0, 0))
    ensures Leads(s0, t) && OnlySeatZero(t) && Untouched(t, Asking(0, |s.seats|))
    ensures |t.seats| == |s.seats| && t.cap == s.cap
  {
    LeadsOn(s0, s, Probe(0));
    t := Apply(s, Probe(0));
    t := Hop(s0, t, 1, 0);
    t := WalksVacantSeats(s0, t, 0);
  }

  /** So `any_subscribed` answers no. */
  lemma AskingMissesEveryone(s0: Origin, s: Machine) returns (t: Machine)
    requires Leads(s0, s) && OnlySeatOne(s) && Untouched(s, Asking(0, 0))
    ensures Leads(s0, t) && OnlySeatZero(t) && Untouched(t, Scanning(0, 0, NoConsumers))
    ensures |t.seats| == |s.seats| && t.cap == s.cap
  {
    t := EveryFlagReadFalse(s0, s);
    LeadsOn(s0, t, Probe(0));
    t := Apply(t, Probe(0));
  }

  /** During the floor scan it moves to seat one and back; the scan has seen
      seat zero empty, and seat one's occupant has yet to be read. */
  lemma ScanMissesSeatZero(s0: Origin, s: Machine) returns (t: Machine)
    requires s0.w.scan && Leads(s0, s) && OnlySeatZero(s) && Untouched(s, Scanning(0, 0, NoConsumers))
    ensures Leads(s0, t) && Shape(t) && NoneCloning(t) && Untouched(t, Scanning(0, 1, NoConsumers))
    ensures |t.seats| == |s.seats| && t.cap == s.cap
    ensures t.seats[0] == FIRST_SEAT && t.seats[1] == FIRST_SEAT
    ensures forall k | 2 <= k < |t.seats| :: !t.seats[k].active
  {
    t := Hop(s0, s, 0, 1);
    LeadsOn(s0, t, Probe(0));
    t := Apply(t, Probe(0));
    var c := |t.cloners|;
    t := CloneStarts(s0, t, 1);
    t := CloneSettles(s0, t, c);
  }

  /** The second producer publishes at position zero and the consumer in seat one
      reads it; the first producer's scan still stands before seat one. */
  predicate OneRead(s: Machine) {
    && Shape(s) && NoneCloning(s) && |s.seats| >= 2 && |s.producers| == 2
    && s.tail == 1 && s.producers[0] == Producer(0, Scanning(0, 1, NoConsumers)) && s.shared == 0
    && s.seats[0] == FIRST_SEAT
    && s.seats[1] == Seat(true, 1, 0, [0], Resting) && s.log == [Holds(0)] && s.born == 1
    && (forall k | 2 <= k < |s.seats| :: !s.seats[k].active)
    && s.words[0] == PublishedWord(0)
    && (forall q | 1 <= q < s.cap :: s.words[q] == VACANT)
  }

  lemma SecondProducerPublishes(s0: Origin, s: Machine) returns (t: Machine)
    requires Leads(s0, s) && Shape(s) && Untouched(s, Scanning(0, 1, NoConsumers))
    requires |s.seats| >= 2 && s.seats[0] == FIRST_SEAT
    ensures Leads(s0, t) && Shape(t) && t.seats == s.seats && t.cloners == s.cloners && t.cap == s.cap
    ensures t.tail == 1 && t.shared == 0 && t.log == [Holds(0)] && t.born == 1
    ensures |t.producers| == 2 && t.producers[0] == s.producers[0]
    ensures t.words == s.words[0 := PublishedWord(0)] && t.data[0] == Some(0)
  {
    LeadsOn(s0, s, Begin(1));
    t := Apply(s, Begin(1));
    t := WinsTail(s0, t, 1);
    t := Publishes(s0, t, 1);
  }

  /** The scan ends on a floor of one, although the consumer in seat zero is
      still at position zero. */
  lemma ScanOverstates(s0: Origin, s: Machine) returns (t: Machine)
    requires Leads(s0, s) && OneRead(s)
    ensures Leads(s0, t) && t == s.(producers := t.producers, shared := 1)
    ensures |t.producers| == 2 && t.producers[0] == Producer(1, Inspecting(0))
  {
    LeadsOn(s0, s, Probe(0));
    t := Apply(s, Probe(0));
    LeadsOn(s0, t, Probe(0));
    t := Apply(t, Probe(0));
    t := WalksVacantSeats(s0, t, 0);
    LeadsOn(s0, t, Probe(0));
    t := Apply(t, Probe(0));
    LeadsOn(s0, t, Probe(0));
    t := Apply(t, Probe(0));
  }

  /** The stale claim on position zero loses, and the producer starts over with
      the overstated floor in its cache. */
  lemma StaleClaimLoses(s0: Origin, s: Machine) returns (t: Machine)
    requires Leads(s0, s) && Shape(s) && s.tail == 1
    requires |s.producers| == 2 && s.producers[0] == Producer(1, Inspecting(0))
    ensures Leads(s0, t) && t == s.(producers := t.producers)
    ensures |t.producers| == 2 && t.producers[0] == Producer(1, Asking(1, 0))
  {
    LeadsOn(s0, s, Probe(0));
    t := Apply(s, Probe(0));
    LeadsOn(s0, t, Swing(0));
    t := Apply(t, Swing(0));
  }

  /** The consumer has moved to seat one and the first producer is asking. */
  lemma ConsumerMovesUp(w: Window, cap: nat, seats: nat, needsDrop: bool) returns (t: Machine)
    requires cap > 0 && seats >= 2
    ensures Leads(RingIn(w, cap, seats, needsDrop), t) && OnlySeatOne(t) && Untouched(t, Asking(0, 0))
    ensures |t.seats| == seats && t.cap == cap
  {
    var s0 := RingIn(w, cap, seats, needsDrop);
    LeadsNowhere(s0);
    LeadsOn(s0, s0.start, NewProducer);
    t := Apply(s0.start, NewProducer);
    t := Hop(s0, t, 0, 1);
    LeadsOn(s0, t, Begin(0));
    t := Apply(t, Begin(0));
  }

  /** A producer whose cached floor stands one past the consumer in seat zero,
      with the first lap still to fill from the tail on. */
  predicate Overstated(s: Machine) {
    && Shape(s) && NoneCloning(s) && |s.seats| > 1 && |s.producers| > 0
    && s.seats[0].Settled() && s.seats[0].head == 0
    && s.producers[0] == Producer(1, Asking(s.tail, 0)) && s.shared == 1
    && 1 <= s.tail <= s.cap && s.log[0] == Holds(0) && s.born > 0
    && (forall q | 0 <= q < s.tail :: s.words[q] == PublishedWord(q))
    && (forall q | s.tail <= q < s.cap :: s.words[q] == VACANT)
  }

  /** The same producer has won the position whose slot the consumer has not read. */
  predicate Overrun(s: Machine) {
    && Shape(s) && NoneCloning(s) && |s.seats| > 1 && |s.producers| > 0
    && s.seats[0].Settled() && s.seats[0].head == 0
    && s.tail == s.cap + 1 && s.producers[0].pc == Claimed(s.cap) && s.log[0] == Holds(0) && s.born > 0
    && (forall q | 0 <= q < s.cap :: s.words[q] == PublishedWord(q))
  }

  /** Such a producer fills the lap and then claims the slot the consumer has
      not read. */
  lemma {:induction false} OverstatedFloorOverruns(s0: Origin, s: Machine) returns (t: Machine)
    requires Leads(s0, s) && Overstated(s)
    ensures Leads(s0, t) && Overrun(t) && t.seats == s.seats && t.cap == s.cap
    decreases s.cap - s.tail
  {
    hide Leads;
    t := WinsTail(s0, s, 0);
    if s.tail < s.cap {
      t := Publishes(s0, t, 0);
      t := OverstatedFloorOverruns(s0, t);
    }
  }

  /** Some run, in which every seat is taken before the first claim, comes to such a
      state; the consumer in seat one has read the first value. */
  lemma ReachesOverstated(w: Window, cap: nat, seats: nat, needsDrop: bool) returns (t: Machine)
    requires cap > 0 && seats >= 2 && w.scan
    ensures Leads(RingIn(w, cap, seats, needsDrop), t) && Overstated(t) && t.cap == cap && t.tail == 1
    ensures t.seats[0] == FIRST_SEAT && t.seats[1] == Seat(true, 1, 0, [0], Resting)
    ensures forall k | 2 <= k < |t.seats| :: !t.seats[k].active
  {
    var s0 := RingIn(w, cap, seats, needsDrop);
    t := ConsumerMovesUp(w, cap, seats, needsDrop);
    t := AskingMissesEveryone(s0, t);
    t := ScanMissesSeatZero(s0, t);
    t := SecondProducerPublishes(s0, t);
    t := ReadsNextValue(s0, t, 1);
    assert OneRead(t);
    t := ScanOverstates(s0, t);
    t := StaleClaimLoses(s0, t);
  }

  /** With two seats or more, some run overruns a consumer, at any capacity, once
      clones may race the floor scan, even when every seat is taken before the
      first claim. */
  lemma TwoSeatsCanOverrun(w: Window, cap: nat, seats: nat, needsDrop: bool) returns (t: Machine)
    requires cap > 0 && seats >= 2 && w.scan
    ensures Leads(RingIn(w, cap, seats, needsDrop), t) && !HeadsInWindow(t)
  {
    t := ReachesOverstated(w, cap, seats, needsDrop);
    t := OverstatedFloorOverruns(RingIn(w, cap, seats, needsDrop), t);
  }

  /** The consumer in seat zero, which found its position published, has been shown the
      value `v` that a producer wrote over it; the one in seat one read the right one. */
  predicate Misled(s: Machine, v: nat) {
    && Shape(s) && NoneCloning(s) && |s.seats| > 1 && |s.producers| > 0
    && s.seats[0] == Seat(true, 0, 0, [v], Leaving) && s.seats[1] == Seat(true, 1, 0, [0], Resting)
    && s.tail == s.cap + 1 && s.producers[0].pc == Filled(s.cap, v) && v > 0
    && s.log[0] == Holds(0) && s.data[0] == Some(v)
    && (forall q | 1 <= q < s.cap :: s.words[q] == PublishedWord(q))
  }

  lemma TwoSeatsCanMislead(w: Window, cap: nat, seats: nat, needsDrop: bool) returns (t: Machine, v: nat)
    requires cap > 0 && seats >= 2 && w.scan
    ensures Leads(RingIn(w, cap, seats, needsDrop), t) && Misled(t, v) && t.cap == cap
  {
    var s0 := RingIn(w, cap, seats, needsDrop);
    t := ReachesOverstated(w, cap, seats, needsDrop);
    hide Leads;
    t := FindsNextValue(s0, t, 0);
    t := OverstatedFloorOverruns(s0, t);
    v := t.born;
    assert SlotOf(cap, cap) == 0;
    t := FillsSlot(s0, t, 0);
    LeadsOn(s0, t, Show(0));
    t := Apply(t, Show(0));
  }

  /** It goes on to read that value again at the position it was written for. */
  lemma TwoSeatsCanRepeat(w: Window, cap: nat, seats: nat, needsDrop: bool) returns (t: Machine)
    requires cap > 0 && seats >= 2 && w.scan
    ensures Leads(RingIn(w, cap, seats, needsDrop), t) && |t.seats| > 0 && t.seats[0].Settled()
    ensures var seen := t.seats[0].seen; exists i, j :: 0 <= i < j < |seen| && seen[i] == seen[j]
  {
    var s0 := RingIn(w, cap, seats, needsDrop);
    var v;
    t, v := TwoSeatsCanMislead(w, cap, seats, needsDrop);
    hide Leads;
    assert SlotOf(cap, cap) == 0;
    t := PublishesIt(s0, t, 0);
    LeadsOn(s0, t, Advance(0));
    t := Apply(t, Advance(0));
    t := ReadsTo(s0, t, 0, cap);
    var before := t.seats[0].seen;
    t := ReadsNextValue(s0, t, 0);
    assert t.seats[0].seen == before + [v] && before[0] == v;
    assert t.seats[0].seen[0] == t.seats[0].seen[|before|];
  }
}
