/** As long as clones keep off unmarked claims, every value written into the broadcast
    ring is destroyed exactly once, by the overwrite of its slot, by a reservation
    dropped before its commit, or by the ring's teardown; and as long as they keep off
    floor scans, no consumer is shown a value twice. */
module BroadcastConservation {
  import opened Wrappers
  import opened SlotState
  import opened BroadcastMachine
  import opened BroadcastWindows
  import opened BroadcastBasics
  import opened BroadcastBounds
  import opened BroadcastMarks
  import opened BroadcastInvariant
  import opened BroadcastTheorems

  /** Some slot holds the value written as number `v`. */
  predicate Stored(s: Machine, v: nat) {
    exists q :: 0 <= q < |s.data| && s.data[q] == Some(v)
  }

  /** No value lies in two slots, and only values written lie anywhere or have been
      destroyed. */
  ghost predicate Unique(s: Machine) {
    && (forall q, r | 0 <= q < |s.data| && 0 <= r < |s.data| && q != r && s.data[q].Some? :: s.data[q] != s.data[r])
    && (forall q | 0 <= q < |s.data| && s.data[q].Some? :: s.data[q].value < s.born)
    && (forall v: nat | s.destroyed[v] != 0 :: v < s.born)
  }

  /** Every value ever written lies in exactly one slot, or has been destroyed
      exactly once. */
  ghost predicate TicketsOk(s: Machine) {
    && Unique(s)
    && (forall q | 0 <= q < |s.data| && s.data[q].Some? :: s.data[q].value !in s.destroyed)
    && (forall v: nat | v < s.born :: Stored(s, v) || s.destroyed[v] == 1)
    && (forall v: nat | s.destroyed[v] != 0 :: s.destroyed[v] == 1)
  }

  lemma TicketsInit(cap: nat, seats: nat)
    requires cap > 0 && seats > 0
    ensures TicketsOk(Init(cap, seats, true))
  {
  }

  lemma DestroyKeepsTickets(s: Machine, q: nat)
    requires TicketsOk(s) && q < |s.data|
    ensures TicketsOk(Destroy(s, q))
  {
    var s' := Destroy(s, q);
    forall v: nat | v < s.born ensures Stored(s', v) || s'.destroyed[v] == 1 {
      if Stored(s, v) {
        var r :| 0 <= r < |s.data| && s.data[r] == Some(v);
        if r != q { assert s'.data[r] == Some(v); }
      }
    }
  }

  lemma FillKeepsTickets(s: Machine, s': Machine, q: nat)
    requires TicketsOk(s) && q < |s.data| && s.data[q] == None
    requires s'.data == s.data[q := Some(s.born)] && s'.born == s.born + 1 && s'.destroyed == s.destroyed
    ensures TicketsOk(s')
  {
    forall v: nat | v < s'.born ensures Stored(s', v) || s'.destroyed[v] == 1 {
      if v == s.born {
        assert s'.data[q] == Some(v);
      } else if Stored(s, v) {
        var r :| 0 <= r < |s.data| && s.data[r] == Some(v);
        assert s'.data[r] == Some(v);
      }
    }
  }

  lemma SameTickets(s: Machine, s': Machine)
    requires TicketsOk(s) && s'.data == s.data && s'.born == s.born && s'.destroyed == s.destroyed
    ensures TicketsOk(s')
  {
    forall v: nat | v < s'.born ensures Stored(s', v) || s'.destroyed[v] == 1 {
      if Stored(s, v) {
        var r :| 0 <= r < |s.data| && s.data[r] == Some(v);
        assert s'.data[r] == Some(v);
      }
    }
  }

  /** Only clearing, discarding and filling a slot change what slots hold. */
  lemma OthersMoveNoValue(s: Machine, a: Action)
    requires Basics(s) && Marks(s) && Enabled(s, a) && s.needsDrop && !a.Clear? && !a.Discard? && !a.Fill?
    ensures Apply(s, a).data == s.data && Apply(s, a).born == s.born && Apply(s, a).destroyed == s.destroyed
  {
    if a.Mark? { assert ClaimOk(s, a.p) && LatestOk(s, a.p) && SlotOk(s, s.producers[a.p].pc.pos); }
    hide Basics, Marks;
    if a.Asks() { AskersMoveNoValue(s, a); } else if !a.Handles() { ReadersMoveNoValue(s, a); }
  }

  lemma AskersMoveNoValue(s: Machine, a: Action)
    requires Shape(s) && Enabled(s, a) && a.Asks()
    ensures Apply(s, a).data == s.data && Apply(s, a).born == s.born && Apply(s, a).destroyed == s.destroyed
  {
  }

  lemma ReadersMoveNoValue(s: Machine, a: Action)
    requires Shape(s) && Enabled(s, a) && !a.Asks() && !a.Handles()
    ensures Apply(s, a).data == s.data && Apply(s, a).born == s.born && Apply(s, a).destroyed == s.destroyed
    ensures Apply(s, a).producers == s.producers && Apply(s, a).log == s.log
    ensures Apply(s, a).cap == s.cap && Apply(s, a).tail == s.tail
  {
  }

  lemma TicketsStep(s: Machine, a: Action)
    requires Basics(s) && Marks(s) && TicketsOk(s) && Enabled(s, a) && s.needsDrop
    ensures TicketsOk(Apply(s, a))
  {
    if a.Clear? || a.Discard? {
      assert ClaimOk(s, a.p);
      var pos := s.producers[a.p].pc.pos;
      var moved := WithPc(s, a.p, if a.Clear? then Holding(pos) else Discarding(pos));
      hide Basics, Marks;
      SameTickets(s, moved);
      DestroyKeepsTickets(moved, SlotOf(s.cap, pos));
    } else if a.Fill? {
      var pos := s.producers[a.p].pc.pos;
      assert ClaimOk(s, a.p) && LatestOk(s, a.p) && SlotOk(s, pos);
      hide Basics, Marks;
      FillKeepsTickets(s, Apply(s, a), SlotOf(s.cap, pos));
    } else {
      OthersMoveNoValue(s, a);
      hide Basics, Marks, Apply;
      SameTickets(s, Apply(s, a));
    }
  }

  /** In every run whose clones keep off unmarked claims, each value written so far lies in
      one slot or has been destroyed once, never both. */
  lemma {:induction false} TicketsRun(w: Window, s: Machine, acts: seq<Action>, t: Machine)
    requires Basics(s) && Marks(s) && TicketsOk(s) && s.needsDrop && RunsIn(w, s, acts, t) && w.OffMarks(|s.seats|)
    ensures TicketsOk(t)
    decreases |acts|
  {
    if acts != [] {
      StepsStayOff(w, s, acts[0]);
      TicketsStep(s, acts[0]);
      BasicsStep(s, acts[0]);
      MarksStep(s, acts[0]);
      SizesStay(s, acts[0]);
      hide Basics, Marks, TicketsOk, Apply;
      TicketsRun(w, Apply(s, acts[0]), acts[1..], t);
    }
  }

  lemma ReachedTickets(w: Window, cap: nat, seats: nat, t: Machine)
    requires cap > 0 && seats > 0 && Leads(RingIn(w, cap, seats, true), t) && w.OffMarks(seats)
    ensures Basics(t) && Marks(t) && TicketsOk(t) && t.needsDrop
  {
    var s := Init(cap, seats, true);
    var acts :| RunsIn(w, s, acts, t);
    BasicsInit(cap, seats, true);
    MarksInit(cap, seats, true);
    TicketsInit(cap, seats);
    TicketsRun(w, s, acts, t);
    ReachedBasics(w, cap, seats, true, t);
    ReachedMarks(w, cap, seats, true, t);
  }

  /** Each value written so far lies in exactly one slot, or in none and has been
      destroyed exactly once. */
  predicate EachStoredOrDestroyedOnce(s: Machine) {
    && (forall v | 0 <= v < s.born :: Stored(s, v) <==> s.destroyed[v] == 0)
    && (forall v | 0 <= v < s.born :: s.destroyed[v] <= 1)
    && (forall q, r | 0 <= q < r < |s.data| && s.data[q].Some? :: s.data[q] != s.data[r])
  }

  lemma EveryValueIsStoredOrDestroyedOnce(w: Window, cap: nat, seats: nat, t: Machine)
    requires cap > 0 && seats > 0 && Leads(RingIn(w, cap, seats, true), t) && w.OffMarks(seats)
    ensures EachStoredOrDestroyedOnce(t)
    ensures forall v: nat | v >= t.born :: t.destroyed[v] == 0 && !Stored(t, v)
  {
    ReachedTickets(w, cap, seats, t);
  }

  /** No producer has a claim in progress. */
  predicate Quiet(s: Machine) {
    forall p | 0 <= p < |s.producers| :: s.producers[p].pc.Claim().None?
  }

  /** One position of the teardown: the value its slot's word says is live. */
  function Visit(s: Machine, pos: nat): Machine
    requires Shape(s)
  {
    var q := SlotOf(s.cap, pos);
    if Decode(s.words[q]).HoldsValue() then Destroy(s, q) else s
  }

  /** `s'` differs from `s` only in what the cells hold and what is destroyed. */
  predicate OnlyEmptied(s: Machine, s': Machine)
    requires Shape(s)
  {
    Shape(s') && s' == s.(data := s'.data, destroyed := s'.destroyed)
  }

  /** The positions of `[lo, hi)` visited. */
  function VisitAll(s: Machine, lo: nat, hi: nat): (visited: Machine)
    requires Shape(s) && lo <= hi
    ensures OnlyEmptied(s, visited)
    decreases hi
  {
    if lo == hi then s else Visit(VisitAll(s, lo, hi - 1), hi - 1)
  }

  /** Where the last lap of positions starts. */
  function LastLap(s: Machine): (start: nat)
    ensures start <= s.tail
  {
    if s.tail < s.cap then 0 else s.tail - s.cap
  }

  /** The ring once it has been dropped. */
  function TornDown(s: Machine): Machine
    requires Shape(s)
  {
    VisitAll(s, LastLap(s), s.tail)
  }

  /** A teardown has emptied the cells of the last lap's positions below `pos`,
      and left those from `pos` on alone. */
  predicate Visited(data0: seq<Option<nat>>, data: seq<Option<nat>>, pos: nat, tail: nat) {
    && |data0| == |data| > 0
    && (forall i | 0 <= i < pos && i < tail <= i + |data| :: data[SlotOf(|data|, i)].None?)
    && (forall i | pos <= i < tail <= i + |data| :: data[SlotOf(|data|, i)] == data0[SlotOf(|data|, i)])
    && (forall q | tail <= q < |data| :: data[q].None?)
  }

  lemma VisitOne(data0: seq<Option<nat>>, data: seq<Option<nat>>, data': seq<Option<nat>>, pos: nat, tail: nat)
    requires Visited(data0, data, pos, tail) && pos < tail <= pos + |data|
    requires data' == data[SlotOf(|data|, pos) := None]
    ensures Visited(data0, data', pos + 1, tail)
  {
    WindowHasNoAliases(|data|, tail);
  }

  /** Cells emptied over the last lap of positions, and never used beyond it, are
      all the cells there are. */
  lemma LastLapIsEverySlot(data: seq<Option<nat>>, tail: nat)
    requires |data| > 0
    requires forall pos | 0 <= pos < tail <= pos + |data| :: data[SlotOf(|data|, pos)].None?
    requires forall q | tail <= q < |data| :: data[q].None?
    ensures forall q | 0 <= q < |data| :: data[q].None?
  {
    forall q | 0 <= q < |data| && q < tail ensures data[q].None? {
      var pos := EverySlotHasALatest(|data|, tail, q, q);
    }
  }

  /** A cell of the last lap holds a value exactly when its word says so, and no
      other cell does. */
  predicate WordsTell(s: Machine)
    requires Shape(s)
  {
    && (forall pos | 0 <= pos < s.tail <= pos + s.cap ::
          s.data[SlotOf(s.cap, pos)].Some? <==> Decode(s.words[SlotOf(s.cap, pos)]).HoldsValue())
    && (forall q | s.tail <= q < s.cap :: s.data[q].None?)
  }

  lemma QuietWordsTell(s: Machine)
    requires Basics(s) && Marks(s) && Quiet(s)
    ensures WordsTell(s)
  {
    forall pos | 0 <= pos < s.tail <= pos + s.cap
      ensures s.data[SlotOf(s.cap, pos)].Some? <==> Decode(s.words[SlotOf(s.cap, pos)]).HoldsValue()
    {
      assert SlotOk(s, pos);
    }
  }

  lemma VisitEmptiesOne(s: Machine, pos: nat)
    requires Shape(s) && TicketsOk(s)
    requires s.data[SlotOf(s.cap, pos)].Some? <==> Decode(s.words[SlotOf(s.cap, pos)]).HoldsValue()
    ensures TicketsOk(Visit(s, pos)) && Visit(s, pos).data == s.data[SlotOf(s.cap, pos) := None]
  {
    DestroyKeepsTickets(s, SlotOf(s.cap, pos));
  }

  lemma {:induction false} VisitsEmpty(s: Machine, pos: nat)
    requires Shape(s) && WordsTell(s) && TicketsOk(s) && LastLap(s) <= pos <= s.tail
    ensures TicketsOk(VisitAll(s, LastLap(s), pos))
    ensures Visited(s.data, VisitAll(s, LastLap(s), pos).data, pos, s.tail)
    decreases pos
  {
    hide TicketsOk, Visit;
    if LastLap(s) < pos {
      VisitsEmpty(s, pos - 1);
      var before := VisitAll(s, LastLap(s), pos - 1);
      VisitEmptiesOne(before, pos - 1);
      hide WordsTell, Visited;
      VisitOne(s.data, before.data, Visit(before, pos - 1).data, pos - 1, s.tail);
    }
  }

  /** Tearing a quiet ring down leaves every value ever written destroyed exactly
      once, and no slot holding one. */
  lemma TeardownDestroysTheRest(s: Machine)
    requires Basics(s) && Marks(s) && TicketsOk(s) && s.needsDrop && Quiet(s)
    ensures forall v: nat | v < s.born :: TornDown(s).destroyed[v] == 1
    ensures forall v: nat | v >= s.born :: TornDown(s).destroyed[v] == 0
    ensures forall q | 0 <= q < s.cap :: TornDown(s).data[q].None?
  {
    QuietWordsTell(s);
    VisitsEmpty(s, s.tail);
    LastLapIsEverySlot(TornDown(s).data, s.tail);
  }

  /** Over any whole run that ends quiet, then torn down: each value written has
      been destroyed exactly once, by an overwrite, by a dropped reservation or by
      the teardown. */
  lemma EveryValueIsDestroyedOnceByTheEnd(w: Window, cap: nat, seats: nat, t: Machine)
    requires cap > 0 && seats > 0 && Leads(RingIn(w, cap, seats, true), t) && w.OffMarks(seats) && Quiet(t)
    ensures Shape(t)
    ensures forall v: nat | v < t.born :: TornDown(t).destroyed[v] == 1
    ensures forall v: nat | v >= t.born :: TornDown(t).destroyed[v] == 0
    ensures forall q | 0 <= q < t.cap :: TornDown(t).data[q].None?
  {
    ReachedTickets(w, cap, seats, t);
    TeardownDestroysTheRest(t);
  }

  /** Whenever no claim is in progress, a teardown would leave every value destroyed once. */
  predicate EndsClean(s: Machine) {
    Shape(s) && (Quiet(s) ==> forall v | 0 <= v < s.born :: TornDown(s).destroyed[v] == 1)
  }

  /** A teardown destroys only what lies in a slot. */
  lemma {:induction false} LostStaysLost(s: Machine, lo: nat, hi: nat, v: nat)
    requires Shape(s) && lo <= hi && !Stored(s, v)
    ensures !Stored(VisitAll(s, lo, hi), v) && VisitAll(s, lo, hi).destroyed[v] == s.destroyed[v]
    decreases hi
  {
    if lo < hi { LostStaysLost(s, lo, hi - 1, v); }
  }

  /** What any step may do to the cells: one is emptied, or filled with a new value. */
  predicate CellsRenewed(s: Machine, s': Machine) {
    && |s'.data| == |s.data| && s.born <= s'.born <= s.born + 1
    && (forall q | 0 <= q < |s.data| ::
          s'.data[q] == s.data[q] || s'.data[q].None? || (s'.born > s.born && s'.data[q] == Some(s.born)))
    && (forall q, r | 0 <= q < |s.data| && 0 <= r < |s.data| && q != r ::
          s'.data[q] == s.data[q] || s'.data[r] == s.data[r])
  }

  lemma HandlersRenewCells(s: Machine, a: Action)
    requires Shape(s) && Enabled(s, a) && a.Handles()
    ensures CellsRenewed(s, Apply(s, a))
    ensures forall v: nat :: Apply(s, a).destroyed[v] != 0 ==>
              s.destroyed[v] != 0 || exists q :: 0 <= q < |s.data| && s.data[q] == Some(v)
  {
  }

  lemma UniqueStep(s: Machine, a: Action)
    requires Shape(s) && Unique(s) && Enabled(s, a)
    ensures CellsRenewed(s, Apply(s, a)) && Unique(Apply(s, a))
  {
    if a.Asks() { AskersMoveNoValue(s, a); } else if a.Handles() { HandlersRenewCells(s, a); } else {
      ReadersMoveNoValue(s, a);
    }
    hide Apply;
  }

  lemma {:induction false} UniqueRun(w: Window, s: Machine, acts: seq<Action>, t: Machine)
    requires Shape(s) && Unique(s) && RunsIn(w, s, acts, t)
    ensures Unique(t)
    decreases |acts|
  {
    if acts != [] {
      UniqueStep(s, acts[0]);
      SizesStay(s, acts[0]);
      UniqueRun(w, Apply(s, acts[0]), acts[1..], t);
    }
  }

  /** In every run whatever, no value lies in two slots. */
  lemma ReachedUnique(w: Window, cap: nat, seats: nat, needsDrop: bool, t: Machine)
    requires cap > 0 && seats > 0 && Leads(RingIn(w, cap, seats, needsDrop), t)
    ensures Unique(t)
  {
    var acts :| RunsIn(w, Init(cap, seats, needsDrop), acts, t);
    UniqueRun(w, Init(cap, seats, needsDrop), acts, t);
  }

  /** The claim on `pos` has not emptied its cell yet. */
  predicate Awaits(s: Machine, pos: nat) {
    && pos < |s.log| && s.log[pos].Unresolved? && s.log[pos].owner < |s.producers|
    && (s.producers[s.log[pos].owner].pc.Claimed? || s.producers[s.log[pos].owner].pc.Clearing?)
  }

  /** What the consumer has seen is distinct; and where a value it has seen still lies,
      no position it has yet to read has got further than being claimed. */
  predicate SeenOk(s: Machine, k: nat)
    requires Shape(s) && k < |s.seats|
  {
    var seat := s.seats[k];
    seat.Settled() ==>
      && (forall v | v in seat.seen :: v < s.born)
      && (forall i, j | 0 <= i < j < |seat.seen| :: seat.seen[i] != seat.seen[j])
      && (forall pos | Shown(seat) <= pos < s.tail && CellSeen(s, seat, SlotOf(s.cap, pos)) :: Awaits(s, pos))
  }

  predicate CellSeen(s: Machine, seat: Seat, q: nat)
    requires q < |s.data|
  {
    s.data[q].Some? && s.data[q].value in seat.seen
  }

  /** What every step keeps of the positions whose cells it does not renew. */
  predicate AwaitsOn(s: Machine, s': Machine)
    requires Shape(s) && Shape(s') && s'.cap == s.cap
  {
    && s.tail <= s'.tail
    && (forall pos | 0 <= pos < s.tail && Awaits(s, pos) && s'.data[SlotOf(s.cap, pos)] == s.data[SlotOf(s.cap, pos)]
                     && s.data[SlotOf(s.cap, pos)].Some? ::
          Awaits(s', pos))
    && (forall pos | s.tail <= pos < s'.tail :: Awaits(s', pos))
  }

  lemma AskersOnlyClaim(s: Machine, a: Action)
    requires Shape(s) && Enabled(s, a) && a.Asks()
    ensures Shape(Apply(s, a)) && Apply(s, a).cap == s.cap && s.log <= Apply(s, a).log
    ensures forall pos | s.tail <= pos < Apply(s, a).tail :: Awaits(Apply(s, a), pos)
  {
  }

  lemma AskersAwaitOn(s: Machine, a: Action)
    requires Basics(s) && Enabled(s, a) && a.Asks()
    ensures Shape(Apply(s, a)) && Apply(s, a).cap == s.cap && AwaitsOn(s, Apply(s, a))
  {
    AskersOnlyClaim(s, a);
    forall pos | 0 <= pos < s.tail && Awaits(s, pos) ensures Awaits(Apply(s, a), pos) {
      AskersMoveNoOther(s, a, s.log[pos].owner);
    }
    hide Apply;
  }

  lemma HandlersAwaitOn(s: Machine, a: Action)
    requires Basics(s) && Enabled(s, a) && a.Handles()
    ensures Shape(Apply(s, a)) && Apply(s, a).cap == s.cap && AwaitsOn(s, Apply(s, a))
  {
    assert ClaimOk(s, a.p);
  }

  lemma AwaitsOnStep(s: Machine, a: Action)
    requires Basics(s) && Enabled(s, a)
    ensures Shape(Apply(s, a)) && Apply(s, a).cap == s.cap && AwaitsOn(s, Apply(s, a))
  {
    if a.Asks() { AskersAwaitOn(s, a); } else if a.Handles() { HandlersAwaitOn(s, a); } else {
      SizesStay(s, a);
      ReadersMoveNoValue(s, a);
      hide Apply;
    }
  }

  /** A seat that is shown nothing new. */
  lemma SeenFrame(s: Machine, s': Machine, k: nat)
    requires Shape(s) && Shape(s') && s'.cap == s.cap && CellsRenewed(s, s') && AwaitsOn(s, s')
    requires k < |s.seats| && k < |s'.seats| && SeenOk(s, k)
    requires s'.seats[k].Settled() && s'.seats[k].seen != [] ==>
               s.seats[k].Settled() && s'.seats[k].seen == s.seats[k].seen && Shown(s.seats[k]) <= Shown(s'.seats[k])
    ensures SeenOk(s', k)
  {
  }

  /** A consumer inside its window is shown nothing it has seen. */
  lemma ShowIsNew(s: Machine, k: nat)
    requires Basics(s) && HeadsInWindow(s) && Unique(s) && Enabled(s, Show(k)) && SeenOk(s, k)
    ensures SeenOk(Apply(s, Show(k)), k)
  {
    var s', seat := Apply(s, Show(k)), s.seats[k];
    assert SeatOk(s, k);
    forall pos | seat.head + 1 <= pos < s.tail && CellSeen(s', s'.seats[k], SlotOf(s.cap, pos))
      ensures Awaits(s', pos)
    {
      SlotsApart(s.cap, seat.head, pos);
      assert CellSeen(s, seat, SlotOf(s.cap, pos));
    }
    assert !Awaits(s, seat.head);
  }

  /** Every consumer has seen distinct values. */
  predicate NothingTwice(s: Machine) {
    forall k | 0 <= k < |s.seats| && s.seats[k].Settled() ::
      forall i, j | 0 <= i < j < |s.seats[k].seen| :: s.seats[k].seen[i] != s.seats[k].seen[j]
  }

  predicate AllSeenOk(s: Machine)
    requires Shape(s)
  {
    forall k | 0 <= k < |s.seats| :: SeenOk(s, k)
  }

  /** Every step but a show leaves what consumers have seen alone. */
  lemma OthersShowNothing(s: Machine, a: Action, k: nat)
    requires Basics(s) && Enabled(s, a) && a != Show(k) && k < |s.seats| && k < |Apply(s, a).seats|
    requires Apply(s, a).seats[k].Settled() && Apply(s, a).seats[k].seen != []
    ensures s.seats[k].Settled() && Apply(s, a).seats[k].seen == s.seats[k].seen
    ensures Shown(s.seats[k]) <= Shown(Apply(s, a).seats[k])
  {
    if a.Asks() { AskersMoveNoSeat(s, a); } else if a.Handles() { HandlersMoveNoSeat(s, a); }
    else if TakesSeat(s, a) {
      TakingFills(s, a);
      hide Apply;
    }
  }

  lemma AllSeenOkStep(s: Machine, a: Action)
    requires Basics(s) && HeadsInWindow(s) && Unique(s) && AllSeenOk(s) && Enabled(s, a)
    ensures Shape(Apply(s, a)) && AllSeenOk(Apply(s, a))
  {
    AwaitsOnStep(s, a);
    UniqueStep(s, a);
    SizesStay(s, a);
    forall k | 0 <= k < |s.seats| ensures SeenOk(Apply(s, a), k) {
      assert SeenOk(s, k);
      if a == Show(k) {
        ShowIsNew(s, k);
      } else {
        if Apply(s, a).seats[k].Settled() && Apply(s, a).seats[k].seen != [] { OthersShowNothing(s, a, k); }
        hide Apply, SeenOk, AwaitsOn, CellsRenewed;
        SeenFrame(s, Apply(s, a), k);
      }
    }
  }

  lemma {:induction false} AllSeenOkRun(w: Window, s: Machine, acts: seq<Action>, t: Machine)
    requires Basics(s) && Bounds(s) && Unique(s) && AllSeenOk(s) && RunsIn(w, s, acts, t) && w.OffScans(|s.seats|)
    ensures Shape(t) && AllSeenOk(t)
    decreases |acts|
  {
    if acts != [] {
      StepsStayOff(w, s, acts[0]);
      AllSeenOkStep(s, acts[0]);
      UniqueStep(s, acts[0]);
      BasicsStep(s, acts[0]);
      BoundsStep(s, acts[0]);
      SizesStay(s, acts[0]);
      hide Basics, Bounds, Unique, AllSeenOk, Apply;
      AllSeenOkRun(w, Apply(s, acts[0]), acts[1..], t);
    }
  }

  /** No consumer is ever shown one value twice. */
  lemma NothingIsSeenTwice(w: Window, cap: nat, seats: nat, needsDrop: bool, t: Machine)
    requires cap > 0 && seats > 0 && Leads(RingIn(w, cap, seats, needsDrop), t) && w.OffScans(seats)
    ensures NothingTwice(t)
  {
    var s := Init(cap, seats, needsDrop);
    var acts :| RunsIn(w, s, acts, t);
    BasicsInit(cap, seats, needsDrop);
    BoundsInit(cap, seats, needsDrop);
    AllSeenOkRun(w, s, acts, t);
    forall k | 0 <= k < |t.seats| && t.seats[k].Settled()
      ensures forall i, j | 0 <= i < j < |t.seats[k].seen| :: t.seats[k].seen[i] != t.seats[k].seen[j]
    {
      assert SeenOk(t, k);
    }
  }
}
