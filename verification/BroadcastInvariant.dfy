/** The joint invariant of the broadcast ring: with nobody overrun and every slot telling
    of its latest position, consumers read exactly what was published. */
module BroadcastInvariant {
  import opened Wrappers
  import opened SlotState
  import opened PositionLog
  import opened BroadcastMachine
  import opened BroadcastBasics
  import opened BroadcastBounds
  import opened BroadcastMarks

  /** Where a consumer has got to, counting the value it is being shown. */
  function Shown(seat: Seat): nat {
    if seat.rpc.Leaving? then seat.head + 1 else seat.head
  }

  /** The consumer has been shown exactly what was published between its start and
      where it stands. */
  predicate ReadOk(s: Machine, k: nat)
    requires Shape(s) && k < |s.seats|
  {
    var seat := s.seats[k];
    seat.Settled() ==> Shown(seat) <= s.tail && seat.seen == Values(s.log, seat.start, Shown(seat))
  }

  /** What a settled consumer has been shown is what was published, in position order. */
  predicate ReadsRight(s: Machine)
    requires Shape(s)
  {
    forall k | 0 <= k < |s.seats| :: ReadOk(s, k)
  }

  predicate Inv(s: Machine) {
    Basics(s) && Bounds(s) && Marks(s) && ReadsRight(s)
  }

  lemma InvInit(cap: nat, seats: nat, needsDrop: bool)
    requires cap > 0 && seats > 0
    ensures Inv(Init(cap, seats, needsDrop))
  {
    BasicsInit(cap, seats, needsDrop);
    BoundsInit(cap, seats, needsDrop);
    MarksInit(cap, seats, needsDrop);
  }

  /** The slot at the head of a consumer that is not overrun speaks to it exactly when the
      position has resolved, and holds its value. */
  lemma HeadSlotSpeaksTruth(s: Machine, k: nat)
    requires Basics(s) && HeadsInWindow(s) && Marks(s) && k < |s.seats| && s.seats[k].Settled()
    ensures
      var head := s.seats[k].head;
      var seen := Classify(s.words[SlotOf(s.cap, head)], head);
      && (seen.Ready? <==> head < s.tail && s.log[head].Holds?)
      && (seen.Tombstoned? <==> head < s.tail && s.log[head].Empty?)
      && (head < s.tail && s.log[head].Holds? ==> s.data[SlotOf(s.cap, head)] == Some(s.log[head].ticket))
  {
    var head := s.seats[k].head;
    SeenIsSo(s, k);
    ClassifyNamesThePosition(s.words[SlotOf(s.cap, head)], head);
    if head < s.tail { assert SlotOk(s, head); }
  }

  /** What a seat nobody touched was shown stays right while the log keeps what resolved. */
  lemma ReadFrame(s: Machine, s': Machine, k: nat)
    requires Shape(s) && Shape(s') && k < |s.seats| && k < |s'.seats| && s'.seats[k] == s.seats[k]
    requires SeatOk(s, k) && ReadOk(s, k) && s.tail <= s'.tail
    requires forall pos | 0 <= pos < s.tail && !s.log[pos].Unresolved? :: s'.log[pos] == s.log[pos]
    ensures ReadOk(s', k)
  {
    var seat := s.seats[k];
    if seat.Settled() { ValuesFrame(s.log, s'.log, seat.start, Shown(seat)); }
  }

  /** What a position resolved to never changes, and claims are never taken back. */
  lemma HistoryStep(s: Machine, a: Action)
    requires Basics(s) && Enabled(s, a)
    ensures
      var s' := Apply(s, a);
      && s.tail <= s'.tail && |s'.log| == s'.tail
      && forall pos | 0 <= pos < s.tail && !s.log[pos].Unresolved? :: s'.log[pos] == s.log[pos]
  {
    if a.Handles() {
      if a.Publish? || a.Abandon? { ResolvingFurthers(s, a); } else { WorkingFurthers(s, a); }
      assert ClaimOk(s, a.p);
    }
  }

  /** A consumer's own access shows it the value of its position, or nothing. */
  lemma ReadingReadsRight(s: Machine, a: Action)
    requires Basics(s) && HeadsInWindow(s) && Marks(s) && Enabled(s, a) && Reads(a) && ReadOk(s, a.k)
    ensures Shape(Apply(s, a)) && a.k < |Apply(s, a).seats| && ReadOk(Apply(s, a), a.k)
  {
    assert SeatOk(s, a.k);
    if a.Show? { HeadSlotSpeaksTruth(s, a.k); }
  }

  lemma ReadsRightStep(s: Machine, a: Action)
    requires Basics(s) && HeadsInWindow(s) && Marks(s) && ReadsRight(s) && Enabled(s, a)
    ensures Shape(Apply(s, a)) && ReadsRight(Apply(s, a))
  {
    var s' := Apply(s, a);
    BasicsStep(s, a);
    HistoryStep(s, a);
    if a.Asks() { AskersMoveNoSeat(s, a); } else if a.Handles() { HandlersMoveNoSeat(s, a); }
    else if Reads(a) { ReadingMoves(s, a); }
    else if TakesSeat(s, a) { TakingFills(s, a); }
    if Reads(a) { ReadingReadsRight(s, a); }
    forall k | 0 <= k < |s'.seats| ensures ReadOk(s', k) {
      assert ReadOk(s, k) && SeatOk(s, k);
      if s'.seats[k] == s.seats[k] { ReadFrame(s, s', k); }
    }
  }

  /** The joint invariant is inductive. */
  lemma InvStep(s: Machine, a: Action)
    requires Inv(s) && Enabled(s, a) && Disciplined(s, a)
    ensures Inv(Apply(s, a))
  {
    BasicsStep(s, a);
    BoundsStep(s, a);
    MarksStep(s, a);
    ReadsRightStep(s, a);
  }
}
