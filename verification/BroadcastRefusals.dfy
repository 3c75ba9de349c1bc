/** When the broadcast ring refuses a claim, and that it may do so with room left:
    the producer checks the word of the slot it loaded the tail for, and a peer may
    have taken that position meanwhile. */
module BroadcastRefusals {
  import opened SlotState
  import opened ConsumerFloor
  import opened BroadcastMachine
  import opened BroadcastWindows
  import opened BroadcastBasics
  import opened BroadcastBounds
  import opened BroadcastMarks
  import opened BroadcastInvariant
  import opened BroadcastTheorems
  import opened BroadcastRuns

  /** A producer has marked a claim on the slot of position `t`, and not resolved it. */
  predicate SlotTaken(s: Machine, t: nat)
    requires s.cap > 0
  {
    exists w :: 0 <= w < |s.producers| && HasMarked(s, w, SlotOf(s.cap, t))
  }

  predicate HasMarked(s: Machine, w: nat, q: nat)
    requires s.cap > 0 && w < |s.producers|
  {
    var pc := s.producers[w].pc;
    pc.Claim().Some? && !pc.Claimed? && SlotOf(s.cap, pc.Claim().value) == q
  }

  /** The access producer `p` is about to make ends its claim empty-handed: its scan
      met no consumer, or a consumer a whole lap behind, or the slot of the position
      it is after is in a producer's hands. */
  predicate Refuses(s: Machine, p: nat)
    requires Shape(s) && Enabled(s, Probe(p))
  {
    match s.producers[p].pc
    case Scanning(_, i, m) => i == |s.seats| && m.NoConsumers?
    case Raising(t, head) => head + s.cap <= t
    case Inspecting(t) => s.cap <= t && SlotTaken(s, t)
    case _ => false
  }

  /** A slot's word is vacant exactly while a marked claim on it is unresolved. */
  lemma VacantIffTaken(s: Machine, t: nat)
    requires Inv(s) && s.cap <= t <= s.tail && NoneClaimedAt(s, t)
    ensures s.words[SlotOf(s.cap, t)] == VACANT <==> SlotTaken(s, t)
  {
    var q := SlotOf(s.cap, t);
    var pos := EverySlotHasALatest(s.cap, s.tail, q, t - s.cap);
    assert SlotOk(s, pos);
    if SlotTaken(s, t) {
      var w :| 0 <= w < |s.producers| && HasMarked(s, w, q);
      assert ClaimOk(s, w) && LatestOk(s, w);
      WindowHasNoAliases(s.cap, s.tail);
      assert s.producers[w].pc.Claim().value == pos;
    }
    if s.words[q] == VACANT {
      var w := s.log[pos].owner;
      if s.producers[w].pc.Claimed? { UnmarkedWordIsOld(s, w, t); }
      assert HasMarked(s, w, q);
    }
  }

  /** The word of a claim awaiting its mark is vacant on the first lap only, and then
      nobody may inspect the slot for the second. */
  lemma UnmarkedWordIsOld(s: Machine, w: nat, t: nat)
    requires Inv(s) && s.cap <= t <= s.tail && NoneClaimedAt(s, t)
    requires w < |s.producers| && s.producers[w].pc.Claimed?
    requires SlotOf(s.cap, s.producers[w].pc.pos) == SlotOf(s.cap, t)
    ensures s.words[SlotOf(s.cap, t)] != VACANT
  {
    var pos := s.producers[w].pc.pos;
    assert ClaimOk(s, w) && LatestOk(s, w) && SlotOk(s, pos);
  }

  /** An access refuses exactly then. */
  lemma RefusesIff(s: Machine, p: nat)
    requires Inv(s) && Enabled(s, Probe(p))
    ensures ProbeStep(s, p).producers[p].pc.Idle? <==> Refuses(s, p)
  {
    assert ProbeOk(s, p) && CheckOk(s, p);
    if s.producers[p].pc.Inspecting? && s.cap <= s.producers[p].pc.t { VacantIffTaken(s, s.producers[p].pc.t); }
  }

  /** At the tail itself the slot is taken exactly when the position a lap before has
      not resolved. */
  lemma RefusedAtTheTailIff(s: Machine, p: nat)
    requires Inv(s) && Enabled(s, Probe(p)) && s.producers[p].pc == Inspecting(s.tail)
    ensures Refuses(s, p) <==> s.cap <= s.tail && s.log[s.tail - s.cap].Unresolved?
  {
    assert ProbeOk(s, p) && CheckOk(s, p);
    if s.cap <= s.tail {
      VacantIffTaken(s, s.tail);
      assert SlotOk(s, s.tail - s.cap);
      if s.log[s.tail - s.cap].Unresolved? {
        var w := s.log[s.tail - s.cap].owner;
        assert HasMarked(s, w, SlotOf(s.cap, s.tail));
      }
    }
  }

  /** A scan comes back empty only with nobody subscribed. */
  lemma RefusedForWantOfConsumers(s: Machine, p: nat)
    requires Inv(s) && Enabled(s, Probe(p)) && Refuses(s, p) && s.producers[p].pc.Scanning?
    ensures forall k | 0 <= k < |s.seats| :: !s.seats[k].Settled()
  {
    assert BoundOk(s, p);
  }

  /** A scan that reads a head too far behind the position it is for does so with the
      ring full. */
  lemma TooFarBehindMeansFull(s: Machine, p: nat)
    requires Inv(s) && Enabled(s, Probe(p)) && s.producers[p].pc.Peeking?
    requires s.seats[s.producers[p].pc.i].Settled()
    requires s.seats[s.producers[p].pc.i].head + s.cap <= s.producers[p].pc.t
    ensures s.tail == s.producers[p].pc.t == s.seats[s.producers[p].pc.i].head + s.cap && !RoomAtTail(s)
  {
    assert ProbeOk(s, p) && SeatOk(s, s.producers[p].pc.i);
    FloorIsTheLeastHead(s.seats, |s.seats|);
  }

  /** `acts` leads from `s` to `t` by disciplined steps, with room for a claim at the
      tail in every state, and without producer `p` beginning another call. */
  predicate RunsWithRoom(s: Machine, acts: seq<Action>, t: Machine, p: nat)
    decreases |acts|
  {
    && Shape(s) && RoomAtTail(s)
    && if acts == [] then s == t
       else
         && Enabled(s, acts[0]) && Disciplined(s, acts[0]) && acts[0] != Begin(p)
         && RunsWithRoom(Apply(s, acts[0]), acts[1..], t, p)
  }

  /** Nothing the scan of `p` has met so far speaks against the position it is for. */
  predicate Encouraged(s: Machine, p: nat)
    requires p < |s.producers|
  {
    match s.producers[p].pc
    case Scanning(t, i, m) =>
      && i <= |s.seats|
      && if m.At? then t < m.head + s.cap else forall k | 0 <= k < i :: !s.seats[k].active
    case Peeking(t, i, m) =>
      i < |s.seats| && t < s.seats[i].head + s.cap && (m.At? ==> t < m.head + s.cap)
    case Raising(t, head) => t < head + s.cap
    case _ => true
  }

  /** Room at the tail is room ahead of every subscribed consumer. */
  lemma RoomAheadOfEveryone(s: Machine)
    requires Shape(s) && RoomAtTail(s)
    ensures SomebodySubscribed(s)
    ensures forall k | 0 <= k < |s.seats| && s.seats[k].active :: s.tail < s.seats[k].head + s.cap
  {
    FloorIsTheLeastHead(s.seats, |s.seats|);
  }

  lemma ProbeStaysEncouraged(s: Machine, p: nat)
    requires Inv(s) && Enabled(s, Probe(p)) && RoomAtTail(s) && Encouraged(s, p)
    ensures Encouraged(ProbeStep(s, p), p)
  {
    RoomAheadOfEveryone(s);
    assert ProbeOk(s, p);
    hide Inv, RoomAtTail;
  }

  lemma ScannedSeatsMoveOn(s: Machine, a: Action, p: nat)
    requires Shape(s) && Enabled(s, a) && Disciplined(s, a) && p < |s.producers| && s.producers[p].pc.Exposed()
    ensures SeatsMoveOn(s, Apply(s, a))
  {
    SeatsMoveOnStep(s, a);
  }

  /** The other steps of a producer that has not yet claimed are those of a scan only
      if they are accesses of `claim_slot`. */
  lemma OthersScanNothing(s: Machine, a: Action, p: nat)
    requires Shape(s) && Enabled(s, a) && a != Probe(p) && p < |s.producers|
    ensures p < |Apply(s, a).producers|
    ensures var pc := Apply(s, a).producers[p].pc;
            pc.Scanning? || pc.Peeking? || pc.Raising? ==> pc == s.producers[p].pc
  {
    if a.Asks() { OthersAskOn(s, a, p); } else if a.Handles() {
      HandlersDoNotProbe(s, a);
      if a.p != p { HandlersMoveNoOther(s, a, p); }
    }
  }

  lemma OthersAskOn(s: Machine, a: Action, p: nat)
    requires Shape(s) && Enabled(s, a) && a != Probe(p) && p < |s.producers| && a.Asks()
    ensures p < |Apply(s, a).producers|
    ensures var pc := Apply(s, a).producers[p].pc;
            pc.Scanning? || pc.Peeking? || pc.Raising? ==> pc == s.producers[p].pc
  {
    if a.NewProducer? || a.p != p { AskersMoveNoOther(s, a, p); }
  }

  lemma OthersStayEncouraging(s: Machine, a: Action, p: nat)
    requires Inv(s) && Enabled(s, a) && Disciplined(s, a) && a != Probe(p)
    requires p < |s.producers| && Encouraged(s, p)
    ensures p < |Apply(s, a).producers| && Encouraged(Apply(s, a), p)
  {
    OthersScanNothing(s, a, p);
    if s.producers[p].pc.Exposed() { ScannedSeatsMoveOn(s, a, p); }
    assert Apply(s, a).cap == s.cap by { SizesStay(s, a); }
    hide Inv, Apply, Disciplined;
  }

  lemma {:induction false} RunsEncouraged(s: Machine, acts: seq<Action>, t: Machine, p: nat)
    requires Inv(s) && RunsWithRoom(s, acts, t, p) && p < |s.producers| && Encouraged(s, p)
    ensures Inv(t) && RoomAtTail(t) && p < |t.producers| && Encouraged(t, p)
    decreases |acts|
  {
    if acts != [] {
      InvStep(s, acts[0]);
      if acts[0] == Probe(p) { ProbeStaysEncouraged(s, p); } else { OthersStayEncouraging(s, acts[0], p); }
      RunsEncouraged(Apply(s, acts[0]), acts[1..], t, p);
    }
  }

  /** Within one call, with room at the tail throughout: a claim is refused exactly
      when the position whose word is checked is no longer the tail, and a peer that
      took it, or a later position of its slot, has marked that slot and not resolved. */
  lemma RefusedWithRoomIff(s: Machine, acts: seq<Action>, t: Machine, p: nat)
    requires Inv(s) && Enabled(s, Begin(p)) && RunsWithRoom(Apply(s, Begin(p)), acts, t, p) && Enabled(t, Probe(p))
    ensures Inv(t)
    ensures Refuses(t, p) <==>
              t.producers[p].pc.Inspecting? && t.cap <= t.producers[p].pc.t < t.tail
              && SlotTaken(t, t.producers[p].pc.t)
  {
    InvStep(s, Begin(p));
    RunsEncouraged(Apply(s, Begin(p)), acts, t, p);
    RoomAheadOfEveryone(t);
    assert ProbeOk(t, p);
    if t.producers[p].pc.Inspecting? && t.cap <= t.producers[p].pc.t {
      assert CheckOk(t, p);
      VacantIffTaken(t, t.producers[p].pc.t);
    }
  }

  /** One call of producer `p`, from the load of the tail on. */
  datatype Call = Call(start: Machine, p: nat)

  /** Some run with room leads the call to `t`. */
  ghost predicate Within(c: Call, t: Machine) {
    exists acts :: RunsWithRoom(c.start, acts, t, c.p)
  }

  lemma {:induction false} RunsWithRoomOn(s: Machine, acts: seq<Action>, t: Machine, p: nat, a: Action)
    requires RunsWithRoom(s, acts, t, p) && Enabled(t, a) && Disciplined(t, a) && a != Begin(p)
    requires Shape(t) && Shape(Apply(t, a)) && RoomAtTail(Apply(t, a))
    ensures RunsWithRoom(s, acts + [a], Apply(t, a), p)
    decreases |acts|
  {
    if acts == [] {
      assert [a][1..] == [] && acts + [a] == [a];
      assert RunsWithRoom(Apply(t, a), [], Apply(t, a), p);
    } else {
      RunsWithRoomOn(Apply(s, acts[0]), acts[1..], t, p, a);
      assert (acts + [a])[1..] == acts[1..] + [a];
    }
  }

  lemma GoesOn(c: Call, t: Machine, a: Action)
    requires Within(c, t) && Shape(t) && Enabled(t, a) && Disciplined(t, a) && a != Begin(c.p)
    requires Shape(Apply(t, a)) && RoomAtTail(Apply(t, a))
    ensures Within(c, Apply(t, a))
  {
    var acts :| RunsWithRoom(c.start, acts, t, c.p);
    RunsWithRoomOn(c.start, acts, t, c.p, a);
  }

  /** Nobody has claimed past the first lap, the only consumer has read two values,
      and the first of two producers knows it. */
  predicate Primed(s: Machine) {
    && OnlyAt(s, 0, 2) && s.tail == s.cap >= 2 && s.shared == 2
    && s.producers == [Producer(2, Idle), Producer(0, Idle)]
    && (forall q | 0 <= q < s.cap :: s.words[q] == PublishedWord(q))
  }

  /** `t` comes after `s`, with at most the next position claimed. */
  predicate After(s: Machine, t: Machine)
    requires Shape(s) && s.cap >= 2
  {
    && Shape(t) && t.cap == s.cap && t.seats == s.seats && t.words[1] == s.words[1]
    && ((t.tail == s.tail && t.words == s.words) || t.tail == s.tail + 1)
  }

  lemma RoomAfterwards(s: Machine, t: Machine)
    requires Primed(s) && After(s, t)
    ensures RoomAtTail(t)
  {
    FloorIsTheLeastHead(s.seats, |s.seats|);
    assert FloorUpTo(s.seats, |s.seats|) == At(2);
    SecondLapBegins(s.cap);
  }

  lemma SecondLapBegins(cap: nat)
    requires cap >= 2
    ensures SlotOf(cap, cap) == 0 && SlotOf(cap, cap + 1) == 1
  {
    assert SlotOf(cap, 0) == 0;
    assert SlotOf(cap, 1) == 1;
  }

  /** The primed ring with its producers where `ps` says. */
  function Placed(s: Machine, pc0: PPc, me: Producer): Machine {
    s.(producers := [Producer(2, pc0), me])
  }

  /** The first producer, asking about the tail, is told yes by its own cache. */
  lemma CacheSaysYes(c: Call, s: Machine) returns (t: Machine)
    requires Primed(s) && Within(c, Placed(s, Asking(s.cap, 0), Producer(0, Idle)))
    ensures t == Placed(s, Inspecting(s.cap), Producer(0, Idle)) && Within(c, t)
  {
    t := Placed(s, Asking(s.cap, 0), Producer(0, Idle));
    RoomAfterwards(s, Placed(s, Trying(s.cap), Producer(0, Idle)));
    RoomAfterwards(s, Placed(s, Inspecting(s.cap), Producer(0, Idle)));
    hide RoomAtTail, Within;
    assert Apply(t, Probe(0)) == Placed(s, Trying(s.cap), Producer(0, Idle));
    GoesOn(c, t, Probe(0));
    t := Apply(t, Probe(0));
    assert Apply(t, Probe(0)) == Placed(s, Inspecting(s.cap), Producer(0, Idle));
    GoesOn(c, t, Probe(0));
    t := Apply(t, Probe(0));
  }

  /** One access of the second producer, which changes nothing but its own record. */
  lemma PeerGoesOn(c: Call, s: Machine, me: Producer, me': Producer, a: Action)
    requires Primed(s) && c.p == 0 && (a == Begin(1) || a == Probe(1))
    requires Within(c, Placed(s, Inspecting(s.cap), me)) && Enabled(Placed(s, Inspecting(s.cap), me), a)
    requires Apply(Placed(s, Inspecting(s.cap), me), a) == Placed(s, Inspecting(s.cap), me')
    ensures Within(c, Placed(s, Inspecting(s.cap), me'))
  {
    RoomAfterwards(s, Placed(s, Inspecting(s.cap), me'));
    GoesOn(c, Placed(s, Inspecting(s.cap), me), a);
  }

  /** The second producer goes after the same position, and finds the slot free. */
  lemma PeerInspects(c: Call, s: Machine)
    requires Primed(s) && c.p == 0 && Within(c, Placed(s, Inspecting(s.cap), Producer(0, Idle)))
    ensures Within(c, Placed(s, Inspecting(s.cap), Producer(2, Swinging(s.cap))))
  {
    hide RoomAtTail, Within;
    var t := s.cap;
    assert SlotOf(t, t) == 0;
    PeerGoesOn(c, s, Producer(0, Idle), Producer(0, Asking(t, 0)), Begin(1));
    PeerGoesOn(c, s, Producer(0, Asking(t, 0)), Producer(0, Trying(t)), Probe(1));
    PeerGoesOn(c, s, Producer(0, Trying(t)), Producer(0, Sharing(t)), Probe(1));
    PeerGoesOn(c, s, Producer(0, Sharing(t)), Producer(2, Inspecting(t)), Probe(1));
    PeerGoesOn(c, s, Producer(2, Inspecting(t)), Producer(2, Swinging(t)), Probe(1));
  }

  /** It wins the position. */
  lemma PeerWins(c: Call, s: Machine) returns (t: Machine)
    requires Primed(s) && c.p == 0 && Within(c, Placed(s, Inspecting(s.cap), Producer(0, Idle)))
    ensures Within(c, t) && After(s, t) && t.tail == s.cap + 1
    ensures t.producers == [Producer(2, Inspecting(s.cap)), Producer(2, Claimed(s.cap))]
  {
    hide RoomAtTail, Within;
    PeerInspects(c, s);
    t := Placed(s, Inspecting(s.cap), Producer(2, Swinging(s.cap)));
    RoomAfterwards(s, Apply(t, Swing(1)));
    GoesOn(c, t, Swing(1));
    t := Apply(t, Swing(1));
  }

  /** It marks the slot; now the first producer is refused. */
  lemma PeerTakesThePosition(c: Call, s: Machine) returns (t: Machine)
    requires Primed(s) && c.p == 0 && Within(c, Placed(s, Inspecting(s.cap), Producer(0, Idle)))
    ensures Within(c, t) && Shape(t) && Enabled(t, Probe(0)) && Refuses(t, 0)
  {
    hide RoomAtTail, Within;
    t := PeerWins(c, s);
    assert SlotOf(s.cap, s.cap) == 0;
    RoomAfterwards(s, Apply(t, Mark(1)));
    GoesOn(c, t, Mark(1));
    t := Apply(t, Mark(1));
    assert HasMarked(t, 1, 0);
  }

  /** Producer `p`, idle in `s`, begins a call that ends refused in `t` although there
      was room at the tail all the while. */
  predicate RefusedWithRoom(s: Machine, acts: seq<Action>, t: Machine, p: nat) {
    && Shape(s) && RoomAtTail(s) && Enabled(s, Begin(p))
    && RunsWithRoom(Apply(s, Begin(p)), acts, t, p)
    && Shape(t) && Enabled(t, Probe(p)) && Refuses(t, p)
  }

  /** `reserve_block`: `any_subscribed` has answered yes in `s`, `has_space` answers yes
      in `t`, and the `reserve` that follows is refused in `u`, room all the while. */
  predicate GivesUpWithRoom(s: Machine, acts: seq<Action>, t: Machine, more: seq<Action>, u: Machine, p: nat) {
    && Shape(s) && RoomAtTail(s) && p < |s.producers| && s.producers[p].pc.Trying?
    && RunsWithRoom(Apply(Apply(s, Quit(p)), Begin(p)), acts, t, p)
    && Shape(t) && p < |t.producers| && t.producers[p].pc.Inspecting?
    && RefusedWithRoom(Apply(t, Quit(p)), more, u, p)
  }

  /** Some push, or reservation, is refused with room at the tail all through the call. */
  ghost predicate ClaimsCanBeRefusedWithRoom(cap: nat, seats: nat, needsDrop: bool) {
    exists s, acts, t, p: nat :: Reachable(s, cap, seats, needsDrop) && RefusedWithRoom(s, acts, t, p)
  }

  /** Some `reserve_block` answers `None` with consumers subscribed and room at the
      tail all through. */
  ghost predicate ReserveBlockCanGiveUpWithRoom(cap: nat, seats: nat, needsDrop: bool) {
    exists s, acts, t, more, u, p: nat ::
      Reachable(s, cap, seats, needsDrop) && GivesUpWithRoom(s, acts, t, more, u, p)
  }

  /** In a ring of one slot the peer that holds the slot has also taken the tail's. */
  lemma OneSlotIsNeverFreeThen(s: Machine, acts: seq<Action>, t: Machine, p: nat)
    requires Inv(s) && RefusedWithRoom(s, acts, t, p)
    ensures s.cap >= 2
  {
    RefusedWithRoomIff(s, acts, t, p);
    RunsKeepCap(Apply(s, Begin(p)), acts, t, p);
    assert ProbeOk(t, p) && CheckOk(t, p);
    VacantIffTaken(t, t.producers[p].pc.t);
  }

  lemma {:induction false} RunsKeepCap(s: Machine, acts: seq<Action>, t: Machine, p: nat)
    requires RunsWithRoom(s, acts, t, p)
    ensures t.cap == s.cap && Shape(t) && RoomAtTail(t)
    decreases |acts|
  {
    if acts != [] {
      SizesStay(s, acts[0]);
      RunsKeepCap(Apply(s, acts[0]), acts[1..], t, p);
    }
  }

  /** A run fills the first lap, and the consumer reads twice. */
  lemma TwoValuesRead(w: Window, cap: nat, seats: nat, needsDrop: bool) returns (s: Machine)
    requires cap >= 2 && seats > 0
    ensures Leads(RingIn(w, cap, seats, needsDrop), s) && OnlyAt(s, 0, 2) && s.tail == s.cap == cap
    ensures s.producers == [Producer(0, Asking(cap, 0)), Producer(0, Idle)] && s.shared == 0
    ensures forall q | 0 <= q < s.cap :: s.words[q] == PublishedWord(q)
  {
    var o := RingIn(w, cap, seats, needsDrop);
    s := ReachesFullLap(w, cap, seats, needsDrop);
    hide Leads;
    s := ReadsNextValue(o, s, 0);
    s := ReadsNextValue(o, s, 0);
  }

  /** The first producer then looks for space, which leaves the head it found in both
      caches. */
  lemma ReachesPrimed(cap: nat, seats: nat, needsDrop: bool) returns (s: Machine)
    requires cap >= 2 && seats > 0
    ensures Reachable(s, cap, seats, needsDrop) && Primed(s) && s.cap == cap
  {
    var o := RingIn(DISCIPLINED, cap, seats, needsDrop);
    s := TwoValuesRead(DISCIPLINED, cap, seats, needsDrop);
    hide Leads;
    s := ScansTo(o, s, 0, 0, 2);
    s := RaisesCaches(o, s, 0, 2);
    LeadsOn(o, s, Quit(0));
    s := Apply(s, Quit(0));
  }

  /** From a primed ring: a claim that is refused with room. */
  lemma PrimedRefuses(s: Machine) returns (acts: seq<Action>, t: Machine)
    requires Primed(s)
    ensures RefusedWithRoom(s, acts, t, 0)
  {
    var start := Placed(s, Asking(s.cap, 0), Producer(0, Idle));
    assert Apply(s, Begin(0)) == start;
    var c := Call(start, 0);
    RoomAfterwards(s, s);
    RoomAfterwards(s, start);
    assert RunsWithRoom(start, [], start, 0);
    hide RoomAtTail, Primed, Refuses;
    t := CacheSaysYes(c, s);
    t := PeerTakesThePosition(c, s);
    acts :| RunsWithRoom(start, acts, t, 0);
  }

  /** From a primed ring: a `reserve_block` that gives up. */
  lemma PrimedGivesUp(s: Machine) returns (acts: seq<Action>, t: Machine, more: seq<Action>, u: Machine)
    requires Primed(s)
    ensures GivesUpWithRoom(Placed(s, Trying(s.cap), Producer(0, Idle)), acts, t, more, u, 0)
  {
    var asked := Placed(s, Trying(s.cap), Producer(0, Idle));
    var start := Placed(s, Asking(s.cap, 0), Producer(0, Idle));
    assert Apply(Apply(asked, Quit(0)), Begin(0)) == start;
    var c := Call(start, 0);
    RoomAfterwards(s, asked);
    RoomAfterwards(s, start);
    assert RunsWithRoom(start, [], start, 0);
    t := CacheSaysYes(c, s);
    acts :| RunsWithRoom(start, acts, t, 0);
    assert Apply(t, Quit(0)) == s;
    more, u := PrimedRefuses(s);
  }

  /** A claim can be refused with room at the tail all through the call exactly when
      the ring has two slots or more. */
  lemma RefusedWithRoomIffTwoSlots(cap: nat, seats: nat, needsDrop: bool)
    requires cap > 0 && seats > 0
    ensures ClaimsCanBeRefusedWithRoom(cap, seats, needsDrop) <==> cap >= 2
  {
    forall s, acts, t, p: nat | Reachable(s, cap, seats, needsDrop) && RefusedWithRoom(s, acts, t, p) ensures cap >= 2 {
      ReachableInv(s, cap, seats, needsDrop);
      OneSlotIsNeverFreeThen(s, acts, t, p);
    }
    if cap >= 2 {
      var s := ReachesPrimed(cap, seats, needsDrop);
      var acts, t := PrimedRefuses(s);
    }
  }

  /** So, too, `reserve_block`: it can answer `None` with consumers subscribed and room
      throughout exactly when the ring has two slots or more. */
  lemma ReserveBlockGivesUpIffTwoSlots(cap: nat, seats: nat, needsDrop: bool)
    requires cap > 0 && seats > 0
    ensures ReserveBlockCanGiveUpWithRoom(cap, seats, needsDrop) <==> cap >= 2
  {
    forall s, acts, t, more, u, p: nat | Reachable(s, cap, seats, needsDrop) && GivesUpWithRoom(s, acts, t, more, u, p)
      ensures cap >= 2
    {
      GivesUpNeedsTwoSlots(s, acts, t, more, u, p, cap, seats, needsDrop);
    }
    if cap >= 2 {
      var s := ReachesPrimed(cap, seats, needsDrop);
      var acts, t, more, u := PrimedGivesUp(s);
      PrimedAsks(s, cap, seats, needsDrop);
    }
  }

  /** The first producer asks whether anybody is subscribed. */
  lemma PrimedAsks(s: Machine, cap: nat, seats: nat, needsDrop: bool)
    requires Primed(s) && Reachable(s, cap, seats, needsDrop)
    ensures Reachable(Placed(s, Trying(s.cap), Producer(0, Idle)), cap, seats, needsDrop)
  {
    var o := RingIn(DISCIPLINED, cap, seats, needsDrop);
    hide Leads;
    LeadsOn(o, s, Begin(0));
    LeadsOn(o, Apply(s, Begin(0)), Probe(0));
    assert Apply(Apply(s, Begin(0)), Probe(0)) == Placed(s, Trying(s.cap), Producer(0, Idle));
  }

  lemma GivesUpNeedsTwoSlots(s: Machine, acts: seq<Action>, t: Machine, more: seq<Action>, u: Machine, p: nat,
                             cap: nat, seats: nat, needsDrop: bool)
    requires Reachable(s, cap, seats, needsDrop) && GivesUpWithRoom(s, acts, t, more, u, p)
    ensures cap >= 2
  {
    ReachableInv(s, cap, seats, needsDrop);
    InvStep(s, Quit(p));
    var s' := Apply(s, Quit(p));
    InvStep(s', Begin(p));
    assert Encouraged(Apply(s', Begin(p)), p);
    RunsEncouraged(Apply(s', Begin(p)), acts, t, p);
    RunsKeepCap(Apply(s', Begin(p)), acts, t, p);
    InvStep(t, Quit(p));
    OneSlotIsNeverFreeThen(Apply(t, Quit(p)), more, u, p);
  }
}
