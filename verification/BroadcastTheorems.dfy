/** What holds of every state of the broadcast ring: in every run, in every run whose
    clones keep off floor scans, in every run whose clones keep off unmarked claims, and
    where they keep off both. */
module BroadcastTheorems {
  import opened SlotState
  import opened ConsumerFloor
  import opened PositionLog
  import opened BroadcastMachine
  import opened BroadcastWindows
  import opened BroadcastBasics
  import opened BroadcastBounds
  import opened BroadcastMarks
  import opened BroadcastInvariant

  /** What no step changes. */
  predicate SameSizes(s: Machine, s': Machine) {
    Shape(s') && s'.cap == s.cap && |s'.seats| == |s.seats| && s'.needsDrop == s.needsDrop
  }

  lemma AskingKeepsSizes(s: Machine, a: Action)
    requires Shape(s) && Enabled(s, a) && a.Asks()
    ensures SameSizes(s, Apply(s, a))
  {
  }

  lemma HandlingKeepsSizes(s: Machine, a: Action)
    requires Shape(s) && Enabled(s, a) && a.Handles()
    ensures SameSizes(s, Apply(s, a))
  {
  }

  lemma ReadingKeepsSizes(s: Machine, a: Action)
    requires Shape(s) && Enabled(s, a) && !a.Asks() && !a.Handles()
    ensures SameSizes(s, Apply(s, a))
  {
  }

  lemma SizesStay(s: Machine, a: Action)
    requires Shape(s) && Enabled(s, a)
    ensures SameSizes(s, Apply(s, a))
  {
    hide Apply, Enabled, Shape, SameSizes;
    if a.Asks() { AskingKeepsSizes(s, a); }
    else if a.Handles() { HandlingKeepsSizes(s, a); }
    else { ReadingKeepsSizes(s, a); }
  }

  /** A clone within its window keeps off what the window keeps it off. */
  lemma StepsStayOff(w: Window, s: Machine, a: Action)
    requires Basics(s) && Enabled(s, a) && (TakesSeat(s, a) ==> Shielded(w, s))
    ensures w.OffScans(|s.seats|) ==> ScansUnraced(s, a)
    ensures w.OffMarks(|s.seats|) ==> MarksUnraced(s, a)
  {
    if |s.seats| == 1 { OneSeatAdmitsNoClone(s, a); }
    forall p | 0 <= p < |s.producers| && s.producers[p].pc.Claimed? ensures s.tail > 0 { assert ClaimOk(s, p); }
  }

  lemma {:induction false} BasicsRun(w: Window, s: Machine, acts: seq<Action>, t: Machine)
    requires Basics(s) && RunsIn(w, s, acts, t)
    ensures Basics(t) && t.cap == s.cap && |t.seats| == |s.seats| && t.needsDrop == s.needsDrop
    decreases |acts|
  {
    if acts != [] {
      BasicsStep(s, acts[0]);
      SizesStay(s, acts[0]);
      BasicsRun(w, Apply(s, acts[0]), acts[1..], t);
    }
  }

  lemma {:induction false} BoundsRun(w: Window, s: Machine, acts: seq<Action>, t: Machine)
    requires Basics(s) && Bounds(s) && RunsIn(w, s, acts, t) && w.OffScans(|s.seats|)
    ensures Bounds(t)
    decreases |acts|
  {
    if acts != [] {
      StepsStayOff(w, s, acts[0]);
      BasicsStep(s, acts[0]);
      SizesStay(s, acts[0]);
      BoundsStep(s, acts[0]);
      BoundsRun(w, Apply(s, acts[0]), acts[1..], t);
    }
  }

  lemma {:induction false} MarksRun(w: Window, s: Machine, acts: seq<Action>, t: Machine)
    requires Basics(s) && Marks(s) && RunsIn(w, s, acts, t) && w.OffMarks(|s.seats|)
    ensures Shape(t) && Marks(t)
    decreases |acts|
  {
    if acts != [] {
      StepsStayOff(w, s, acts[0]);
      BasicsStep(s, acts[0]);
      SizesStay(s, acts[0]);
      MarksStep(s, acts[0]);
      MarksRun(w, Apply(s, acts[0]), acts[1..], t);
    }
  }

  lemma {:induction false} InvRun(w: Window, s: Machine, acts: seq<Action>, t: Machine)
    requires Inv(s) && RunsIn(w, s, acts, t) && w.OffScans(|s.seats|) && w.OffMarks(|s.seats|)
    ensures Inv(t)
    decreases |acts|
  {
    if acts != [] {
      StepsStayOff(w, s, acts[0]);
      SizesStay(s, acts[0]);
      InvStep(s, acts[0]);
      InvRun(w, Apply(s, acts[0]), acts[1..], t);
    }
  }

  lemma ReachedBasics(w: Window, cap: nat, seats: nat, needsDrop: bool, t: Machine)
    requires cap > 0 && seats > 0 && Leads(RingIn(w, cap, seats, needsDrop), t)
    ensures Basics(t) && t.cap == cap && |t.seats| == seats && t.needsDrop == needsDrop
  {
    var s := Init(cap, seats, needsDrop);
    var acts :| RunsIn(w, s, acts, t);
    BasicsInit(cap, seats, needsDrop);
    BasicsRun(w, s, acts, t);
  }

  lemma ReachedBounds(w: Window, cap: nat, seats: nat, needsDrop: bool, t: Machine)
    requires cap > 0 && seats > 0 && Leads(RingIn(w, cap, seats, needsDrop), t) && w.OffScans(seats)
    ensures Bounds(t)
  {
    var s := Init(cap, seats, needsDrop);
    var acts :| RunsIn(w, s, acts, t);
    BasicsInit(cap, seats, needsDrop);
    BoundsInit(cap, seats, needsDrop);
    BoundsRun(w, s, acts, t);
  }

  lemma ReachedMarks(w: Window, cap: nat, seats: nat, needsDrop: bool, t: Machine)
    requires cap > 0 && seats > 0 && Leads(RingIn(w, cap, seats, needsDrop), t) && w.OffMarks(seats)
    ensures Shape(t) && Marks(t)
  {
    var s := Init(cap, seats, needsDrop);
    var acts :| RunsIn(w, s, acts, t);
    BasicsInit(cap, seats, needsDrop);
    MarksInit(cap, seats, needsDrop);
    MarksRun(w, s, acts, t);
  }

  lemma ReachedInv(w: Window, cap: nat, seats: nat, needsDrop: bool, t: Machine)
    requires cap > 0 && seats > 0 && Leads(RingIn(w, cap, seats, needsDrop), t)
    requires w.OffScans(seats) && w.OffMarks(seats)
    ensures Inv(t)
  {
    var s := Init(cap, seats, needsDrop);
    var acts :| RunsIn(w, s, acts, t);
    InvInit(cap, seats, needsDrop);
    InvRun(w, s, acts, t);
  }

  /** `s` is reachable from the ring `split` returns by disciplined steps. */
  ghost predicate Reachable(s: Machine, cap: nat, seats: nat, needsDrop: bool) {
    cap > 0 && seats > 0 && Leads(RingIn(DISCIPLINED, cap, seats, needsDrop), s)
  }

  lemma ReachableInv(s: Machine, cap: nat, seats: nat, needsDrop: bool)
    requires Reachable(s, cap, seats, needsDrop)
    ensures Inv(s) && s.cap == cap && |s.seats| == seats && s.needsDrop == needsDrop
  {
    ReachedInv(DISCIPLINED, cap, seats, needsDrop, s);
    ReachedBasics(DISCIPLINED, cap, seats, needsDrop, s);
  }

  /** Overwrite safety: no claim ever reuses a slot a consumer has not passed,
      whatever consumers subscribe between the floor check and the swap, as long as
      none does while a floor is scanned. */
  lemma OverwriteSafety(w: Window, cap: nat, seats: nat, needsDrop: bool, t: Machine)
    requires cap > 0 && seats > 0 && Leads(RingIn(w, cap, seats, needsDrop), t) && w.OffScans(seats)
    ensures HeadsInWindow(t)
  {
    ReachedBounds(w, cap, seats, needsDrop, t);
  }

  /** Slot exclusivity: one unresolved claim per slot at most; and a resolved
      slot's word names exactly the latest position claimed for it. */
  lemma SlotExclusivity(w: Window, cap: nat, seats: nat, needsDrop: bool, t: Machine)
    requires cap > 0 && seats > 0 && Leads(RingIn(w, cap, seats, needsDrop), t) && w.OffMarks(seats)
    ensures t.cap > 0 && |t.words| == t.cap && |t.log| == t.tail
    ensures SlotsExclusive(t)
    ensures forall pos | 0 <= pos < t.tail <= pos + t.cap && !t.log[pos].Unresolved? ::
              t.words[SlotOf(t.cap, pos)] == if t.log[pos].Holds? then PublishedWord(pos) else AbandonedWord(pos)
  {
    ReachedBasics(w, cap, seats, needsDrop, t);
    ReachedMarks(w, cap, seats, needsDrop, t);
    MarksMeanExclusive(t);
    forall pos | 0 <= pos < t.tail <= pos + t.cap && !t.log[pos].Unresolved?
      ensures t.words[SlotOf(t.cap, pos)] == if t.log[pos].Holds? then PublishedWord(pos) else AbandonedWord(pos)
    {
      assert SlotOk(t, pos);
    }
  }

  /** What a consumer has been shown is what was published from its start up to
      where it stands, in position order, abandoned positions skipped; and no
      position it has passed is still open. */
  lemma ReadsExactlyThePublished(w: Window, cap: nat, seats: nat, needsDrop: bool, t: Machine, k: nat)
    requires cap > 0 && seats > 0 && Leads(RingIn(w, cap, seats, needsDrop), t)
    requires w.OffScans(seats) && w.OffMarks(seats) && k < |t.seats| && t.seats[k].Settled()
    ensures |t.log| == t.tail && Shown(t.seats[k]) <= t.tail
    ensures t.seats[k].seen == Values(t.log, t.seats[k].start, Shown(t.seats[k]))
    ensures Resolved(t.log, t.seats[k].start, Shown(t.seats[k]))
  {
    ReachedInv(w, cap, seats, needsDrop, t);
    assert SeatOk(t, k) && ReadOk(t, k);
  }

  lemma {:induction false} ValuesSplit(log: seq<Entry>, lo: nat, mid: nat, hi: nat)
    requires lo <= mid <= hi <= |log|
    ensures Values(log, lo, hi) == Values(log, lo, mid) + Values(log, mid, hi)
    decreases hi
  {
    if mid < hi {
      ValuesSplit(log, lo, mid, hi - 1);
    }
  }

  /** Two consumers agree on every stretch of positions both have passed. */
  lemma ConsumersAgree(w: Window, cap: nat, seats: nat, needsDrop: bool, s: Machine, k: nat, j: nat, lo: nat, hi: nat)
    requires cap > 0 && seats > 0 && Leads(RingIn(w, cap, seats, needsDrop), s)
    requires w.OffScans(seats) && w.OffMarks(seats)
    requires k < |s.seats| && j < |s.seats| && s.seats[k].Settled() && s.seats[j].Settled()
    requires s.seats[k].start <= lo && s.seats[j].start <= lo <= hi
    requires hi <= Shown(s.seats[k]) && hi <= Shown(s.seats[j])
    ensures exists shared, a, b, c, d ::
              s.seats[k].seen == a + shared + b && s.seats[j].seen == c + shared + d
              && |s.log| == s.tail && hi <= s.tail && shared == Values(s.log, lo, hi)
              && |a| <= lo - s.seats[k].start && |c| <= lo - s.seats[j].start
  {
    forall i | i == k || i == j
      ensures hi <= |s.log| == s.tail && Shown(s.seats[i]) <= s.tail
      ensures s.seats[i].seen
              == Values(s.log, s.seats[i].start, lo) + Values(s.log, lo, hi) + Values(s.log, hi, Shown(s.seats[i]))
      ensures |Values(s.log, s.seats[i].start, lo)| <= lo - s.seats[i].start
    {
      ReadsExactlyThePublished(w, cap, seats, needsDrop, s, i);
      ValuesSplit(s.log, s.seats[i].start, hi, Shown(s.seats[i]));
      ValuesSplit(s.log, s.seats[i].start, lo, hi);
      ValuesAtMostOneEach(s.log, s.seats[i].start, lo);
    }
  }

  lemma {:induction false} ValuesAtMostOneEach(log: seq<Entry>, lo: nat, hi: nat)
    requires lo <= hi <= |log|
    ensures |Values(log, lo, hi)| <= hi - lo
    decreases hi
  {
    if lo < hi {
      ValuesAtMostOneEach(log, lo, hi - 1);
    }
  }

  lemma {:induction false} HistoryRun(w: Window, s: Machine, acts: seq<Action>, t: Machine)
    requires Basics(s) && RunsIn(w, s, acts, t)
    ensures s.tail <= t.tail == |t.log|
    ensures forall pos | 0 <= pos < s.tail && !s.log[pos].Unresolved? :: t.log[pos] == s.log[pos]
    decreases |acts|
  {
    if acts != [] {
      HistoryStep(s, acts[0]);
      BasicsStep(s, acts[0]);
      HistoryRun(w, Apply(s, acts[0]), acts[1..], t);
    }
  }

  /** History is final in every run, whatever clones do. */
  lemma HistoryIsFinal(w: Window, cap: nat, seats: nat, needsDrop: bool, s: Machine, acts: seq<Action>, t: Machine)
    requires cap > 0 && seats > 0 && Leads(RingIn(w, cap, seats, needsDrop), s) && RunsIn(w, s, acts, t)
    ensures s.tail == |s.log| && s.tail <= t.tail == |t.log|
    ensures forall pos | 0 <= pos < s.tail && !s.log[pos].Unresolved? :: t.log[pos] == s.log[pos]
  {
    ReachedBasics(w, cap, seats, needsDrop, s);
    HistoryRun(w, s, acts, t);
  }

  /** Every settled consumer leaves room for the position a producer was permitted, and
      nothing cached is ahead of any of them. */
  predicate PermissionsHold(s: Machine) {
    && LowerBound(s, s.shared)
    && forall p | 0 <= p < |s.producers| ::
         && LowerBound(s, s.producers[p].private)
         && (s.producers[p].pc.Inspecting? || s.producers[p].pc.Swinging? ==>
               forall k | 0 <= k < |s.seats| && s.seats[k].Settled() ::
                 At(s.seats[k].head).Permits(s.producers[p].pc.t, s.cap))
  }

  lemma BoundsMeanPermissions(s: Machine)
    requires s.cap > 0 && Bounds(s)
    ensures PermissionsHold(s)
  {
    forall p | 0 <= p < |s.producers|
      ensures LowerBound(s, s.producers[p].private)
      ensures s.producers[p].pc.Inspecting? || s.producers[p].pc.Swinging? ==> Room(s, s.producers[p].pc.t)
    {
      assert BoundOk(s, p);
    }
  }

  /** A yes from any level of the cache is a yes from every settled consumer. */
  lemma PermissionSpeaksForEveryConsumer(w: Window, cap: nat, seats: nat, needsDrop: bool, t: Machine)
    requires cap > 0 && seats > 0 && Leads(RingIn(w, cap, seats, needsDrop), t) && w.OffScans(seats)
    ensures PermissionsHold(t)
  {
    ReachedBasics(w, cap, seats, needsDrop, t);
    ReachedBounds(w, cap, seats, needsDrop, t);
    BoundsMeanPermissions(t);
  }

  /** The least head of the subscribed seats below `i`, as the scan gathers it. */
  function FloorUpTo(seats: seq<Seat>, i: nat): Floor
    requires i <= |seats|
  {
    if i == 0 then NoConsumers
    else
      var floor := FloorUpTo(seats, i - 1);
      if seats[i - 1].active then floor.Meet(seats[i - 1].head) else floor
  }

  /** The scan's answer: no consumers exactly when no seat is subscribed, and
      otherwise the head of the slowest subscribed seat. */
  lemma {:induction false} FloorIsTheLeastHead(seats: seq<Seat>, i: nat)
    requires i <= |seats|
    ensures FloorUpTo(seats, i).NoConsumers? <==> forall k | 0 <= k < i :: !seats[k].active
    ensures FloorUpTo(seats, i).At? ==>
              && (exists k :: 0 <= k < i && seats[k].active && seats[k].head == FloorUpTo(seats, i).head)
              && forall k | 0 <= k < i && seats[k].active :: FloorUpTo(seats, i).head <= seats[k].head
  {
    if i > 0 {
      FloorIsTheLeastHead(seats, i - 1);
    }
  }

  /** The slowest subscribed consumer leaves room for a claim at the tail, and the
      previous occupant of its slot has resolved. */
  predicate RoomAtTail(s: Machine)
    requires Shape(s)
  {
    && FloorUpTo(s.seats, |s.seats|).Permits(s.tail, s.cap)
    && PriorOccupantResolved(s.cap, s.tail, s.words[SlotOf(s.cap, s.tail)])
  }

  /** Nobody is between taking a seat and settling in it. */
  predicate AllSettled(s: Machine) {
    forall k | 0 <= k < |s.seats| && s.seats[k].active :: s.seats[k].Settled()
  }

  predicate SomebodySubscribed(s: Machine) {
    exists k :: 0 <= k < |s.seats| && s.seats[k].active
  }

  /** The caches refine the scan: with somebody subscribed, a position that either
      level permits is one the scan would permit too. */
  lemma CacheYesIsScanYes(s: Machine, p: nat, t: nat)
    requires Bounds(s) && p < |s.producers| && AllSettled(s) && SomebodySubscribed(s)
    requires At(s.producers[p].private).Permits(t, s.cap) || At(s.shared).Permits(t, s.cap)
    ensures FloorUpTo(s.seats, |s.seats|).Permits(t, s.cap)
  {
    FloorIsTheLeastHead(s.seats, |s.seats|);
    assert BoundOk(s, p);
  }
}
