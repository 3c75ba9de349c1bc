/** Stretches of runs, from which whole runs are put together. */
module BroadcastRuns {
  import opened Wrappers
  import opened SlotState
  import opened ConsumerFloor
  import opened PositionLog
  import opened BroadcastMachine
  import opened BroadcastWindows

  predicate NoneCloning(s: Machine) {
    forall c | 0 <= c < |s.cloners| :: s.cloners[c].pc.Finished?
  }

  lemma CloneStarts(s0: Origin, s: Machine, k: nat) returns (t: Machine)
    requires Leads(s0, s) && Shape(s) && AtRest(s, k)
    ensures Leads(s0, t) && t == s.(cloners := s.cloners + [Cloner(k, Seeking(s.tail, 0))])
  {
    t := Apply(s, StartClone(k));
    LeadsOn(s0, s, StartClone(k));
    LeadsOn(s0, t, CloneStep(|s.cloners|));
    t := Apply(t, CloneStep(|s.cloners|));
  }

  lemma CloneLooksOn(s0: Origin, s: Machine, c: nat) returns (t: Machine)
    requires Leads(s0, s) && Shape(s) && c < |s.cloners| && s.cloners[c].pc.Seeking?
    requires s.cloners[c].pc.j < |s.seats| && s.seats[s.cloners[c].pc.j].active
    ensures Leads(s0, t)
    ensures var pc := s.cloners[c].pc; t == s.(cloners := s.cloners[c := s.cloners[c].(pc := Seeking(pc.t, pc.j + 1))])
  {
    LeadsOn(s0, s, CloneStep(c));
    t := Apply(s, CloneStep(c));
  }

  lemma CloneSettles(s0: Origin, s: Machine, c: nat) returns (t: Machine)
    requires Leads(s0, s) && Shape(s) && c < |s.cloners| && s.cloners[c].pc.Seeking?
    requires s.cloners[c].pc.j < |s.seats| && !s.seats[s.cloners[c].pc.j].active && Shielded(s0.w, s)
    ensures Leads(s0, t)
    ensures
      var pc := s.cloners[c].pc;
      t == s.(cloners := s.cloners[c := s.cloners[c].(pc := Finished)],
              seats := s.seats[pc.j := Seat(true, pc.t, pc.t, [], Resting)])
  {
    LeadsOn(s0, s, CloneStep(c));
    t := Apply(s, CloneStep(c));
    LeadsOn(s0, t, CloneStep(c));
    t := Apply(t, CloneStep(c));
  }

  /** The consumer in seat `k` clones itself into seat `j`, the first free one,
      which is seat zero or seat one; then it leaves. */
  lemma Hop(s0: Origin, s: Machine, k: nat, j: nat) returns (t: Machine)
    requires Leads(s0, s) && Shape(s) && NoneCloning(s) && AtRest(s, k)
    requires j <= 1 && j < |s.seats| && !s.seats[j].active && (j == 1 ==> s.seats[0].active) && Shielded(s0.w, s)
    ensures Leads(s0, t) && Shape(t) && NoneCloning(t)
    ensures t == s.(cloners := t.cloners,
                    seats := s.seats[j := Seat(true, s.tail, s.tail, [], Resting)]
                                    [k := s.seats[k].(active := false, rpc := Absent)])
  {
    var c := |s.cloners|;
    t := CloneStarts(s0, s, k);
    if j == 1 { t := CloneLooksOn(s0, t, c); }
    t := CloneSettles(s0, t, c);
    assert NoneCloning(t);
    LeadsOn(s0, t, Leave(k));
    t := Apply(t, Leave(k));
  }

  /** The same scan, at seat `i`. */
  function AtSeat(pc: PPc, i: nat): PPc {
    match pc
    case Asking(t, _) => Asking(t, i)
    case Scanning(t, _, m) => Scanning(t, i, m)
    case _ => pc
  }

  /** A scan walks over the seats nobody sits in. */
  lemma {:induction false} WalksVacantSeats(s0: Origin, s: Machine, p: nat) returns (t: Machine)
    requires Leads(s0, s) && Shape(s) && p < |s.producers|
    requires s.producers[p].pc.Asking? || s.producers[p].pc.Scanning?
    requires s.producers[p].pc.i <= |s.seats|
    requires forall k | s.producers[p].pc.i <= k < |s.seats| :: !s.seats[k].active
    ensures Leads(s0, t) && t == WithPc(s, p, AtSeat(s.producers[p].pc, |s.seats|))
    decreases |s.seats| - s.producers[p].pc.i
  {
    var pc := s.producers[p].pc;
    if pc.i == |s.seats| {
      t := s;
      assert t == WithPc(s, p, AtSeat(pc, |s.seats|));
    } else {
      LeadsOn(s0, s, Probe(p));
      t := WalksVacantSeats(s0, Apply(s, Probe(p)), p);
    }
  }

  /** Seat zero or seat one is taken. */
  predicate SomeoneUpFront(s: Machine) {
    |s.seats| > 0 && (s.seats[0].active || (|s.seats| > 1 && s.seats[1].active))
  }

  /** `any_subscribed` answers yes when seat zero or seat one is taken. */
  lemma FindsSomeone(s0: Origin, s: Machine, p: nat) returns (t: Machine)
    requires Leads(s0, s) && Shape(s) && p < |s.producers| && s.producers[p].pc.Asking? && s.producers[p].pc.i == 0
    requires SomeoneUpFront(s)
    ensures Leads(s0, t) && t == WithPc(s, p, Trying(s.producers[p].pc.t))
  {
    LeadsOn(s0, s, Probe(p));
    t := Apply(s, Probe(p));
    if !s.seats[0].active {
      LeadsOn(s0, t, Probe(p));
      t := Apply(t, Probe(p));
    }
    assert t == WithPc(s, p, Trying(s.producers[p].pc.t));
  }

  /** Room known from the private cache lets a producer at the tail win it. */
  lemma WinsTail(s0: Origin, s: Machine, p: nat) returns (t: Machine)
    requires Leads(s0, s) && Shape(s) && p < |s.producers| && s.producers[p].pc == Asking(s.tail, 0)
    requires SomeoneUpFront(s)
    requires At(s.producers[p].private).Permits(s.tail, s.cap)
    requires PriorOccupantResolved(s.cap, s.tail, s.words[SlotOf(s.cap, s.tail)])
    ensures Leads(s0, t)
    ensures t == WithPc(s, p, Claimed(s.tail)).(tail := s.tail + 1, log := s.log + [Unresolved(p)])
  {
    t := FindsSomeone(s0, s, p);
    LeadsOn(s0, t, Probe(p));
    t := Apply(t, Probe(p));
    LeadsOn(s0, t, Probe(p));
    t := Apply(t, Probe(p));
    LeadsOn(s0, t, Swing(p));
    t := Apply(t, Swing(p));
  }

  /** A winner marks its slot, destroying what it held. */
  lemma TakesSlot(s0: Origin, s: Machine, p: nat) returns (t: Machine)
    requires Leads(s0, s) && Shape(s) && p < |s.producers| && s.producers[p].pc.Claimed?
    ensures Leads(s0, t) && Shape(t)
    ensures
      var pos := s.producers[p].pc.pos;
      t == WithPc(s, p, Holding(pos)).(words := s.words[SlotOf(s.cap, pos) := VACANT],
                                       data := t.data, destroyed := t.destroyed)
  {
    LeadsOn(s0, s, Mark(p));
    t := Apply(s, Mark(p));
    if t.producers[p].pc.Clearing? {
      LeadsOn(s0, t, Clear(p));
      t := Apply(t, Clear(p));
    }
    assert t.producers == WithPc(s, p, Holding(s.producers[p].pc.pos)).producers;
  }

  /** It fills the slot. */
  lemma FillsSlot(s0: Origin, s: Machine, p: nat) returns (t: Machine)
    requires Leads(s0, s) && Shape(s) && p < |s.producers| && s.producers[p].pc.Claimed?
    ensures Leads(s0, t) && Shape(t)
    ensures
      var pos := s.producers[p].pc.pos;
      && t == WithPc(s, p, Filled(pos, s.born)).(words := s.words[SlotOf(s.cap, pos) := VACANT],
                                                 data := t.data, destroyed := t.destroyed, born := s.born + 1)
      && t.data[SlotOf(s.cap, pos)] == Some(s.born)
  {
    t := TakesSlot(s0, s, p);
    LeadsOn(s0, t, Fill(p));
    t := Apply(t, Fill(p));
    assert t.producers == WithPc(s, p, Filled(s.producers[p].pc.pos, s.born)).producers;
  }

  /** It publishes, and loads the tail again. */
  lemma PublishesIt(s0: Origin, s: Machine, p: nat) returns (t: Machine)
    requires Leads(s0, s) && Shape(s)
    requires p < |s.producers| && s.producers[p].pc.Filled? && s.producers[p].pc.pos < s.tail
    ensures Leads(s0, t) && Shape(t)
    ensures
      var (pos, v) := (s.producers[p].pc.pos, s.producers[p].pc.ticket);
      t == WithPc(s, p, Asking(s.tail, 0)).(words := s.words[SlotOf(s.cap, pos) := PublishedWord(pos)],
                                            log := s.log[pos := Holds(v)])
  {
    LeadsOn(s0, s, Publish(p));
    t := Apply(s, Publish(p));
    LeadsOn(s0, t, Begin(p));
    t := Apply(t, Begin(p));
    assert t.producers == WithPc(s, p, Asking(s.tail, 0)).producers;
  }

  lemma Publishes(s0: Origin, s: Machine, p: nat) returns (t: Machine)
    requires Leads(s0, s) && Shape(s) && p < |s.producers|
    requires s.producers[p].pc.Claimed? && s.producers[p].pc.pos < s.tail
    ensures Leads(s0, t) && Shape(t)
    ensures
      var pos := s.producers[p].pc.pos;
      && t == WithPc(s, p, Asking(s.tail, 0)).(words := s.words[SlotOf(s.cap, pos) := PublishedWord(pos)],
                                               log := s.log[pos := Holds(s.born)],
                                               data := t.data, destroyed := t.destroyed, born := s.born + 1)
      && t.data[SlotOf(s.cap, pos)] == Some(s.born)
  {
    var pos := s.producers[p].pc.pos;
    hide Leads;
    t := FillsSlot(s0, s, p);
    t := PublishesIt(s0, t, p);
    assert t.words == s.words[SlotOf(s.cap, pos) := PublishedWord(pos)];
    assert t.producers == WithPc(s, p, Asking(s.tail, 0)).producers;
  }

  /** The seat of a consumer that has read the cell at its head and moved on. */
  function ReadOn(s: Machine, k: nat): Seat
    requires Shape(s) && k < |s.seats|
  {
    var seat := s.seats[k];
    var read := match s.data[SlotOf(s.cap, seat.head)] case Some(v) => [v] case None => [];
    seat.(rpc := Resting, head := seat.head + 1, seen := seat.seen + read)
  }

  /** The consumer in seat `k` finds its head published. */
  lemma FindsNextValue(s0: Origin, s: Machine, k: nat) returns (t: Machine)
    requires Leads(s0, s) && Shape(s) && NoneCloning(s) && AtRest(s, k)
    requires s.words[SlotOf(s.cap, s.seats[k].head)] == PublishedWord(s.seats[k].head)
    ensures Leads(s0, t) && t == s.(seats := s.seats[k := s.seats[k].(rpc := Lent)])
  {
    LeadsOn(s0, s, Look(k));
    t := Apply(s, Look(k));
  }

  /** It reads the value and moves on. */
  lemma ReadsNextValue(s0: Origin, s: Machine, k: nat) returns (t: Machine)
    requires Leads(s0, s) && Shape(s) && NoneCloning(s) && AtRest(s, k)
    requires s.words[SlotOf(s.cap, s.seats[k].head)] == PublishedWord(s.seats[k].head)
    ensures Leads(s0, t) && t == s.(seats := s.seats[k := ReadOn(s, k)])
  {
    t := FindsNextValue(s0, s, k);
    LeadsOn(s0, t, Show(k));
    t := Apply(t, Show(k));
    LeadsOn(s0, t, Advance(k));
    t := Apply(t, Advance(k));
  }

  /** It reads along to `until`. */
  lemma {:induction false} ReadsTo(s0: Origin, s: Machine, k: nat, until: nat) returns (t: Machine)
    requires Leads(s0, s) && Shape(s) && NoneCloning(s) && AtRest(s, k) && s.seats[k].head <= until
    requires forall pos | s.seats[k].head <= pos < until :: s.words[SlotOf(s.cap, pos)] == PublishedWord(pos)
    ensures Leads(s0, t) && |t.seats| == |s.seats| && t == s.(seats := s.seats[k := t.seats[k]])
    ensures AtRest(t, k) && t.seats[k].head == until && t.seats[k].start == s.seats[k].start
    ensures s.seats[k].seen <= t.seats[k].seen
    decreases until - s.seats[k].head
  {
    t := s;
    if s.seats[k].head < until {
      hide Leads;
      t := ReadsNextValue(s0, s, k);
      t := ReadsTo(s0, t, k, until);
    }
  }

  /** The only consumer sits in seat `j`, at `head`. */
  predicate OnlyAt(s: Machine, j: nat, head: nat) {
    && Shape(s) && j <= 1 && j < |s.seats|
    && AtRest(s, j) && s.seats[j].head == head
    && (forall k | 0 <= k < |s.seats| && k != j :: !s.seats[k].active)
  }

  /** A floor scan reads the head of the only consumer. */
  lemma PeeksAt(s0: Origin, s: Machine, p: nat, j: nat, head: nat) returns (t: Machine)
    requires Leads(s0, s) && OnlyAt(s, j, head) && p < |s.producers|
    requires s.producers[p].pc == Scanning(s.tail, 0, NoConsumers)
    ensures Leads(s0, t) && t == WithPc(s, p, Scanning(s.tail, j + 1, At(head)))
  {
    hide Leads;
    t := s;
    if j == 1 {
      LeadsOn(s0, t, Probe(p));
      t := Apply(t, Probe(p));
    }
    assert t == WithPc(s, p, Scanning(s.tail, j, NoConsumers));
    t := PeeksHere(s0, t, p);
    assert t == WithPc(s, p, Scanning(s.tail, j + 1, At(head)));
  }

  lemma PeeksHere(s0: Origin, s: Machine, p: nat) returns (t: Machine)
    requires Leads(s0, s) && Shape(s) && p < |s.producers| && s.producers[p].pc.Scanning?
    requires s.producers[p].pc.m.NoConsumers? && s.producers[p].pc.i < |s.seats| && s.seats[s.producers[p].pc.i].active
    ensures Leads(s0, t)
    ensures var pc := s.producers[p].pc; t == WithPc(s, p, Scanning(pc.t, pc.i + 1, At(s.seats[pc.i].head)))
  {
    LeadsOn(s0, s, Probe(p));
    t := Apply(s, Probe(p));
    LeadsOn(s0, t, Probe(p));
    t := Apply(t, Probe(p));
  }

  /** Caches too low to permit the tail send a producer to the scan. */
  lemma CachesRefuse(s0: Origin, s: Machine, p: nat) returns (t: Machine)
    requires Leads(s0, s) && Shape(s) && p < |s.producers| && s.producers[p].pc == Trying(s.tail)
    requires !At(s.producers[p].private).Permits(s.tail, s.cap) && !At(s.shared).Permits(s.tail, s.cap)
    ensures Leads(s0, t)
    ensures t == s.(producers := s.producers[p := Producer(s.shared, Scanning(s.tail, 0, NoConsumers))])
  {
    LeadsOn(s0, s, Probe(p));
    t := Apply(s, Probe(p));
    LeadsOn(s0, t, Probe(p));
    t := Apply(t, Probe(p));
  }

  /** A floor that permits the tail lets a producer raise the caches and go on. */
  lemma RaisesCaches(s0: Origin, s: Machine, p: nat, head: nat) returns (t: Machine)
    requires Leads(s0, s) && Shape(s) && p < |s.producers| && s.producers[p].pc == Scanning(s.tail, |s.seats|, At(head))
    requires s.shared <= head && At(head).Permits(s.tail, s.cap)
    ensures Leads(s0, t)
    ensures t == s.(producers := s.producers[p := Producer(head, Inspecting(s.tail))], shared := head)
  {
    LeadsOn(s0, s, Probe(p));
    t := Apply(s, Probe(p));
    LeadsOn(s0, t, Probe(p));
    t := Apply(t, Probe(p));
  }

  /** With the slot's previous occupant resolved it wins the tail. */
  lemma RaisesAndWins(s0: Origin, s: Machine, p: nat, head: nat) returns (t: Machine)
    requires Leads(s0, s) && Shape(s) && p < |s.producers| && s.producers[p].pc == Scanning(s.tail, |s.seats|, At(head))
    requires s.shared <= head && At(head).Permits(s.tail, s.cap)
    requires PriorOccupantResolved(s.cap, s.tail, s.words[SlotOf(s.cap, s.tail)])
    ensures Leads(s0, t)
    ensures t == s.(producers := s.producers[p := Producer(head, Claimed(s.tail))], shared := head,
                    tail := s.tail + 1, log := s.log + [Unresolved(p)])
  {
    t := RaisesCaches(s0, s, p, head);
    LeadsOn(s0, t, Probe(p));
    t := Apply(t, Probe(p));
    LeadsOn(s0, t, Swing(p));
    t := Apply(t, Swing(p));
  }

  /** A scan for the tail comes back with the only consumer's head. */
  lemma ScansTo(s0: Origin, s: Machine, p: nat, j: nat, head: nat) returns (t: Machine)
    requires Leads(s0, s) && OnlyAt(s, j, head) && p < |s.producers| && s.producers[p].pc == Asking(s.tail, 0)
    requires !At(s.producers[p].private).Permits(s.tail, s.cap) && !At(s.shared).Permits(s.tail, s.cap)
    ensures Leads(s0, t)
    ensures t == s.(producers := s.producers[p := Producer(s.shared, Scanning(s.tail, |s.seats|, At(head)))])
  {
    t := FindsSomeone(s0, s, p);
    t := CachesRefuse(s0, t, p);
    t := PeeksAt(s0, t, p, j, head);
    t := WalksVacantSeats(s0, t, p);
  }

  /** A producer at the tail whose caches are too low wins it on the scanned floor. */
  lemma ScansAndWins(s0: Origin, s: Machine, p: nat, j: nat, head: nat) returns (t: Machine)
    requires Leads(s0, s) && OnlyAt(s, j, head) && p < |s.producers|
    requires s.producers[p].pc == Asking(s.tail, 0) && s.shared <= head
    requires !At(s.producers[p].private).Permits(s.tail, s.cap) && !At(s.shared).Permits(s.tail, s.cap)
    requires At(head).Permits(s.tail, s.cap)
    requires PriorOccupantResolved(s.cap, s.tail, s.words[SlotOf(s.cap, s.tail)])
    ensures Leads(s0, t)
    ensures t == s.(producers := s.producers[p := Producer(head, Claimed(s.tail))], shared := head,
                    tail := s.tail + 1, log := s.log + [Unresolved(p)])
  {
    t := ScansTo(s0, s, p, j, head);
    t := RaisesAndWins(s0, t, p, head);
  }

  /** The first producer is filling the first lap; nobody has read anything. */
  predicate FirstLap(s: Machine) {
    && OnlyAt(s, 0, 0) && NoneCloning(s) && s.seats[0] == FIRST_SEAT && s.shared == 0 && s.tail <= s.cap
    && (forall k | 1 <= k < |s.seats| :: s.seats[k] == VACANCY)
    && s.producers == [Producer(0, Asking(s.tail, 0)), Producer(0, Idle)]
    && (forall q | 0 <= q < s.tail :: s.words[q] == PublishedWord(q))
  }

  lemma {:induction false} FillsLap(s0: Origin, s: Machine) returns (t: Machine)
    requires Leads(s0, s) && FirstLap(s)
    ensures Leads(s0, t) && FirstLap(t) && t.tail == t.cap == s.cap && |t.seats| == |s.seats|
    decreases s.cap - s.tail
  {
    t := s;
    if s.tail < s.cap {
      t := WinsTail(s0, s, 0);
      t := Publishes(s0, t, 0);
      t := FillsLap(s0, t);
    }
  }

  /** Some run fills the first lap with the first of two producers. */
  lemma ReachesFullLap(w: Window, cap: nat, seats: nat, needsDrop: bool) returns (t: Machine)
    requires cap > 0 && seats > 0
    ensures Leads(RingIn(w, cap, seats, needsDrop), t) && FirstLap(t)
    ensures t.tail == t.cap == cap && |t.seats| == seats
  {
    var s0 := RingIn(w, cap, seats, needsDrop);
    LeadsNowhere(s0);
    LeadsOn(s0, s0.start, NewProducer);
    t := Apply(s0.start, NewProducer);
    LeadsOn(s0, t, Begin(0));
    t := Apply(t, Begin(0));
    t := FillsLap(s0, t);
  }
}
