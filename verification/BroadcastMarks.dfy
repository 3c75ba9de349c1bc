/** What holds of the broadcast ring as long as no clone takes a seat while a won
    position awaits its mark: claims in progress are the latest of their slots, no two
    on one slot, and each slot's word and cell tell of its latest position. */
module BroadcastMarks {
  import opened Wrappers
  import opened SlotState
  import opened ConsumerFloor
  import opened PositionLog
  import opened BroadcastMachine
  import opened BroadcastBasics

  /** Nobody sits between the swap and the mark on the position a lap before `t`. */
  predicate NoneClaimedAt(s: Machine, t: nat) {
    forall w | 0 <= w < |s.producers| && s.producers[w].pc.Claimed? :: s.producers[w].pc.pos + s.cap != t
  }

  /** What a producer knows of the slot it is after. */
  predicate CheckOk(s: Machine, p: nat)
    requires Shape(s) && p < |s.producers|
  {
    match s.producers[p].pc
    case Inspecting(t) => NoneClaimedAt(s, t)
    case Swinging(t) => t == s.tail && t >= s.cap ==> !s.log[t - s.cap].Unresolved?
    case _ => true
  }

  /** What one producer knows, and what its scan has gathered, is at most `pos`. */
  predicate KnowsAtMost(me: Producer, pos: nat) {
    && me.private <= pos
    && (me.pc.Raising? ==> me.pc.head <= pos)
    && (me.pc.Scanning? || me.pc.Peeking? ==> (me.pc.m.At? ==> me.pc.m.head <= pos))
  }

  /** While a claim awaits its mark, nothing anyone knows or reads exceeds it. */
  predicate NothingPast(s: Machine, pos: nat) {
    && s.shared <= pos
    && (forall k | 0 <= k < |s.seats| :: s.seats[k].head <= pos)
    && (forall w | 0 <= w < |s.producers| :: KnowsAtMost(s.producers[w], pos))
  }

  /** A claim in progress is the latest of its slot. */
  predicate LatestOk(s: Machine, w: nat)
    requires w < |s.producers|
  {
    match s.producers[w].pc.Claim()
    case None => true
    case Some(pos) => s.tail <= pos + s.cap && (s.producers[w].pc.Claimed? ==> NothingPast(s, pos))
  }

  /** What a resolved position left in its slot. */
  predicate ShowsEntry(s: Machine, q: nat, pos: nat, e: Entry)
    requires Shape(s) && q < s.cap
  {
    match e
    case Holds(v) => s.words[q] == PublishedWord(pos) && s.data[q] == Some(v)
    case Empty => s.words[q] == AbandonedWord(pos) && s.data[q] == None
    case Unresolved(_) => true
  }

  /** What a claim in progress finds in, or has done to, its slot. */
  predicate ShowsClaim(s: Machine, q: nat, pc: PPc)
    requires Shape(s) && q < s.cap
  {
    match pc
    case Claimed(pos) =>
      if pos < s.cap then s.words[q] == VACANT && s.data[q] == None
      else
        pos < s.tail ==>
          !s.log[pos - s.cap].Unresolved? && ShowsEntry(s, q, pos - s.cap, s.log[pos - s.cap])
    case Clearing(_) => s.words[q] == VACANT && s.data[q].Some?
    case Holding(_) => s.words[q] == VACANT && s.data[q] == None
    case Filled(_, v) => s.words[q] == VACANT && s.data[q] == Some(v)
    case Discarding(_) => s.words[q] == VACANT && s.data[q] == None
    case _ => true
  }

  /** The slot of the latest position of each residue tells of that position. */
  predicate SlotOk(s: Machine, pos: nat)
    requires Shape(s) && pos < s.tail
  {
    var q := SlotOf(s.cap, pos);
    && ShowsEntry(s, q, pos, s.log[pos])
    && (s.log[pos].Unresolved? && s.log[pos].owner < |s.producers| ==>
          ShowsClaim(s, q, s.producers[s.log[pos].owner].pc))
  }

  predicate SlotsOk(s: Machine)
    requires Shape(s)
  {
    && (forall pos | 0 <= pos < s.tail <= pos + s.cap :: SlotOk(s, pos))
    && (forall q | s.tail <= q < s.cap :: s.words[q] == VACANT && s.data[q] == None)
  }

  predicate Marks(s: Machine)
    requires Shape(s)
  {
    SlotsOk(s) && forall w | 0 <= w < |s.producers| :: CheckOk(s, w) && LatestOk(s, w)
  }

  lemma MarksInit(cap: nat, seats: nat, needsDrop: bool)
    requires cap > 0 && seats > 0
    ensures Marks(Init(cap, seats, needsDrop))
  {
  }

  /** No two producers have claims on one slot. */
  predicate SlotsExclusive(s: Machine)
    requires s.cap > 0
  {
    forall v, w | 0 <= v < |s.producers| && 0 <= w < |s.producers| && v != w
                  && s.producers[v].pc.Claim().Some? && s.producers[w].pc.Claim().Some? ::
      SlotOf(s.cap, s.producers[v].pc.Claim().value) != SlotOf(s.cap, s.producers[w].pc.Claim().value)
  }

  lemma MarksMeanExclusive(s: Machine)
    requires Basics(s) && Marks(s)
    ensures SlotsExclusive(s)
  {
    WindowHasNoAliases(s.cap, s.tail);
    forall v, w | 0 <= v < |s.producers| && 0 <= w < |s.producers| && v != w
                  && s.producers[v].pc.Claim().Some? && s.producers[w].pc.Claim().Some?
      ensures SlotOf(s.cap, s.producers[v].pc.Claim().value) != SlotOf(s.cap, s.producers[w].pc.Claim().value)
    {
      assert ClaimOk(s, v) && ClaimOk(s, w) && LatestOk(s, v) && LatestOk(s, w);
    }
  }

  /** Slots are as they were when words, cells, log and claims are. */
  lemma SlotsFrame(s: Machine, s': Machine)
    requires Basics(s) && Marks(s) && Shape(s') && |s.producers| <= |s'.producers|
    requires s'.cap == s.cap && s'.tail == s.tail && s'.words == s.words && s'.data == s.data && s'.log == s.log
    requires forall w | 0 <= w < |s.producers| && s.producers[w].pc.Claim().Some? ::
               s'.producers[w].pc == s.producers[w].pc
    ensures SlotsOk(s')
  {
    forall pos | 0 <= pos < s.tail <= pos + s.cap ensures SlotOk(s', pos) { assert SlotOk(s, pos); }
  }

  /** A permission granted on a floor no higher than any claim awaiting its mark rules
      out such a claim a lap behind. */
  lemma PermissionSeesMarks(s: Machine, m: nat, t: nat)
    requires s.cap > 0 && At(m).Permits(t, s.cap)
    requires forall w | 0 <= w < |s.producers| && s.producers[w].pc.Claimed? :: m <= s.producers[w].pc.pos
    ensures NoneClaimedAt(s, t)
  {
  }

  /** Nothing anyone has cached or gathered is past a claim awaiting its mark. */
  lemma KnownIsBehindClaims(s: Machine, p: nat, w: nat)
    requires Basics(s) && Marks(s) && p < |s.producers| && w < |s.producers| && s.producers[w].pc.Claimed?
    ensures s.shared <= s.producers[w].pc.pos && KnowsAtMost(s.producers[p], s.producers[w].pc.pos)
  {
    assert LatestOk(s, w);
  }

  /** A word that is not vacant, on a slot nobody is about to mark, belongs to a
      resolved position. */
  lemma WordSaysResolved(s: Machine, t: nat)
    requires Basics(s) && Marks(s) && t == s.tail && t >= s.cap && NoneClaimedAt(s, t)
    requires s.words[SlotOf(s.cap, t)] != VACANT
    ensures !s.log[t - s.cap].Unresolved?
  {
    assert SlotOk(s, t - s.cap);
  }

  lemma InspectLearns(s: Machine, p: nat)
    requires Basics(s) && Marks(s) && Enabled(s, Probe(p)) && s.producers[p].pc.Inspecting?
    ensures CheckOk(ProbeStep(s, p), p)
  {
    assert CheckOk(s, p);
    var t := s.producers[p].pc.t;
    if t == s.tail && t >= s.cap && s.words[SlotOf(s.cap, t)] != VACANT {
      WordSaysResolved(s, t);
    }
  }

  /** A permission from a cache, or from a scan. */
  lemma AskLearns(s: Machine, p: nat)
    requires Basics(s) && Marks(s) && Enabled(s, Probe(p)) && !s.producers[p].pc.Inspecting?
    ensures CheckOk(ProbeStep(s, p), p)
  {
    var me, s' := s.producers[p], ProbeStep(s, p);
    if s'.producers[p].pc.Inspecting? {
      forall w | 0 <= w < |s.producers| && s.producers[w].pc.Claimed?
        ensures s.shared <= s.producers[w].pc.pos && KnowsAtMost(me, s.producers[w].pc.pos)
      {
        KnownIsBehindClaims(s, p, w);
      }
      hide Basics, Marks;
      var m := if me.pc.Trying? then me.private else if me.pc.Sharing? then s.shared else me.pc.head;
      PermissionSeesMarks(s, m, me.pc.t);
    }
  }

  /** A claim awaiting its mark still bounds everything known. */
  lemma ProbeStaysBehindClaims(s: Machine, p: nat, pos: nat)
    requires Shape(s) && Enabled(s, Probe(p)) && NothingPast(s, pos)
    ensures NothingPast(ProbeStep(s, p), pos)
  {
    var s' := ProbeStep(s, p);
    assert KnowsAtMost(s.producers[p], pos);
    assert s'.shared <= pos && KnowsAtMost(s'.producers[p], pos);
  }

  lemma ProbeKeepsMarks(s: Machine, p: nat)
    requires Basics(s) && Marks(s) && Enabled(s, Probe(p))
    ensures Marks(ProbeStep(s, p))
  {
    var s' := ProbeStep(s, p);
    ProbeOnlyProbes(s, p);
    SlotsFrame(s, s');
    if s.producers[p].pc.Inspecting? { InspectLearns(s, p); } else { AskLearns(s, p); }
    forall w | 0 <= w < |s.producers| ensures LatestOk(s', w) {
      assert LatestOk(s, w);
      if s.producers[w].pc.Claimed? { ProbeStaysBehindClaims(s, p, s.producers[w].pc.pos); }
    }
    hide Basics, ProbeStep, NothingPast;
    forall w | 0 <= w < |s.producers| && w != p ensures CheckOk(s', w) { assert CheckOk(s, w); }
  }

  /** Nothing anyone knows or reads has passed the tail. */
  lemma NothingPastTail(s: Machine)
    requires Basics(s)
    ensures NothingPast(s, s.tail)
  {
    forall v | 0 <= v < |s.producers| ensures KnowsAtMost(s.producers[v], s.tail) { assert ProbeOk(s, v); }
    forall k | 0 <= k < |s.seats| ensures s.seats[k].head <= s.tail { assert SeatOk(s, k); }
  }

  lemma WinnerOk(s: Machine, p: nat)
    requires Basics(s) && Marks(s) && Enabled(s, Swing(p)) && s.producers[p].pc.t == s.tail
    ensures CheckOk(SwingStep(s, p), p) && LatestOk(SwingStep(s, p), p)
  {
    NothingPastTail(s);
    assert NothingPast(SwingStep(s, p), s.tail);
  }

  lemma LosersOk(s: Machine, p: nat, w: nat)
    requires Basics(s) && Marks(s) && Enabled(s, Swing(p)) && s.producers[p].pc.t == s.tail
    requires w < |s.producers| && w != p
    ensures CheckOk(SwingStep(s, p), w) && LatestOk(SwingStep(s, p), w)
  {
    assert CheckOk(s, w) && LatestOk(s, w) && CheckOk(s, p);
    assert ProbeOk(s, w) && ClaimOk(s, w);
  }

  lemma WinKeepsSlots(s: Machine, p: nat, pos: nat)
    requires Basics(s) && Marks(s) && Enabled(s, Swing(p)) && s.producers[p].pc.t == s.tail
    requires pos < s.tail < pos + s.cap
    ensures SlotOk(SwingStep(s, p), pos)
  {
    assert s.producers[p].pc.Claim().None? && SlotOk(s, pos);
  }

  lemma WinFindsSlot(s: Machine, p: nat)
    requires Basics(s) && Marks(s) && Enabled(s, Swing(p)) && s.producers[p].pc.t == s.tail
    ensures SlotOk(SwingStep(s, p), s.tail)
  {
    assert CheckOk(s, p);
    if s.tail >= s.cap { assert SlotOk(s, s.tail - s.cap); }
  }

  /** The winning swap: the new position is the latest of its slot, and nothing
      anyone knows has passed it. */
  lemma WinKeepsMarks(s: Machine, p: nat)
    requires Basics(s) && Marks(s) && Enabled(s, Swing(p)) && s.producers[p].pc.t == s.tail
    ensures Marks(SwingStep(s, p))
  {
    var s' := SwingStep(s, p);
    forall pos | 0 <= pos < s'.tail <= pos + s.cap ensures SlotOk(s', pos) {
      if pos < s.tail { WinKeepsSlots(s, p, pos); } else { WinFindsSlot(s, p); }
    }
    forall w | 0 <= w < |s'.producers| ensures CheckOk(s', w) && LatestOk(s', w) {
      if w == p { WinnerOk(s, p); } else { LosersOk(s, p, w); }
    }
  }

  /** A producer that starts over, is new, or gives up knows nothing to be wrong about. */
  lemma StartingKeepsMarks(s: Machine, s': Machine, p: nat)
    requires Basics(s) && Marks(s) && OnlyProbed(s, s') && s'.shared == s.shared
    requires forall w | 0 <= w < |s'.producers| && w != p :: w < |s.producers| && s'.producers[w] == s.producers[w]
    requires p < |s'.producers| && (s'.producers[p].pc.Asking? || s'.producers[p].pc.Idle?)
    requires s'.producers[p].private == if p < |s.producers| then s.producers[p].private else 0
    ensures Marks(s')
  {
    SlotsFrame(s, s');
    forall w | 0 <= w < |s'.producers| && w != p ensures CheckOk(s', w) && LatestOk(s', w) {
      var me := s'.producers[w];
      assert me == s.producers[w];
      assert CheckOk(s, w) && LatestOk(s, w);
      if me.pc.Claimed? { assert NothingPast(s', me.pc.pos); }
    }
  }

  lemma HandledSlots(s: Machine, s': Machine, p: nat, pos: nat)
    requires Basics(s) && Marks(s)
    requires p < |s.producers| && s.producers[p].pc.Claim() == Some(pos) && OnlyHandled(s, s', p, pos)
    requires pos < s.tail ==> SlotOk(s', pos)
    ensures SlotsOk(s')
  {
    assert ClaimOk(s, p) && LatestOk(s, p);
    WindowHasNoAliases(s.cap, s.tail);
    forall i | 0 <= i < s.tail <= i + s.cap ensures SlotOk(s', i) {
      if i != pos {
        assert SlotOk(s, i);
        assert s.log[i].Unresolved? ==> s.log[i].owner != p;
      }
    }
  }

  /** A step on one's own claimed slot keeps the marks as long as the slot then shows
      how far the claim has come, or what it came to. */
  lemma HandledKeepsMarks(s: Machine, s': Machine, p: nat, pos: nat)
    requires Basics(s) && Marks(s)
    requires p < |s.producers| && s.producers[p].pc.Claim() == Some(pos) && OnlyHandled(s, s', p, pos)
    requires pos < s.tail && SlotOk(s', pos)
    requires s'.producers[p].pc.Claim() == Some(pos) || s'.producers[p].pc.Claim().None?
    ensures Marks(s')
  {
    assert LatestOk(s, p) && ClaimOk(s, p);
    HandledSlots(s, s', p, pos);
    forall w | 0 <= w < |s.producers| && w != p ensures CheckOk(s', w) && LatestOk(s', w) {
      assert CheckOk(s, w) && LatestOk(s, w);
      if s.producers[w].pc.Claimed? {
        assert KnowsAtMost(s.producers[p], s.producers[w].pc.pos);
        assert NothingPast(s', s.producers[w].pc.pos);
      }
    }
  }

  lemma MarkShows(s: Machine, p: nat)
    requires Basics(s) && Marks(s) && Enabled(s, Mark(p))
    ensures s.producers[p].pc.pos < MarkStep(s, p).tail && SlotOk(MarkStep(s, p), s.producers[p].pc.pos)
  {
    assert ClaimOk(s, p) && LatestOk(s, p) && SlotOk(s, s.producers[p].pc.pos);
  }

  lemma WorkShows(s: Machine, a: Action)
    requires Basics(s) && Marks(s) && Enabled(s, a) && (a.Clear? || a.Fill? || a.Discard?)
    ensures s.producers[a.p].pc.pos < Apply(s, a).tail && SlotOk(Apply(s, a), s.producers[a.p].pc.pos)
  {
    assert ClaimOk(s, a.p) && LatestOk(s, a.p) && SlotOk(s, s.producers[a.p].pc.pos);
  }

  lemma ResolutionShows(s: Machine, a: Action)
    requires Basics(s) && Marks(s) && Enabled(s, a) && (a.Publish? || a.Abandon?)
    ensures s.producers[a.p].pc.pos < Apply(s, a).tail && SlotOk(Apply(s, a), s.producers[a.p].pc.pos)
    ensures Apply(s, a).producers[a.p].pc.Idle?
  {
    assert ClaimOk(s, a.p) && LatestOk(s, a.p) && SlotOk(s, s.producers[a.p].pc.pos);
  }

  lemma HandlingKeepsMarks(s: Machine, a: Action)
    requires Basics(s) && Marks(s) && Enabled(s, a) && a.Handles()
    ensures Marks(Apply(s, a))
  {
    if a.Publish? || a.Abandon? {
      ResolvingFurthers(s, a);
      ResolutionShows(s, a);
    } else {
      WorkingFurthers(s, a);
      if a.Mark? { MarkShows(s, a.p); } else { WorkShows(s, a); }
    }
    hide Apply, Basics, Marks, OnlyHandled, Furthers, SlotOk, MarkStep;
    HandledKeepsMarks(s, Apply(s, a), a.p, s.producers[a.p].pc.pos);
  }

  /** A consumer passes no position that awaits its mark. */
  lemma NobodyPassesAClaim(s: Machine, a: Action, w: nat)
    requires Basics(s) && Marks(s) && Enabled(s, a) && Reads(a) && w < |s.producers| && s.producers[w].pc.Claimed?
    ensures a.k < |Apply(s, a).seats| && Apply(s, a).seats[a.k].head <= s.producers[w].pc.pos
  {
    assert LatestOk(s, w) && ClaimOk(s, w) && SeatOk(s, a.k);
  }

  lemma MovedKeepsMarks(s: Machine, s': Machine, k: nat)
    requires Basics(s) && Marks(s) && OnlyMoved(s, s', k)
    requires forall w | 0 <= w < |s.producers| && s.producers[w].pc.Claimed? ::
               s'.seats[k].head <= s.producers[w].pc.pos
    ensures Marks(s')
  {
    SlotsFrame(s, s');
    hide Basics;
    forall w | 0 <= w < |s.producers| ensures CheckOk(s', w) && LatestOk(s', w) {
      assert CheckOk(s, w) && LatestOk(s, w);
    }
  }

  lemma ReadingKeepsMarks(s: Machine, a: Action)
    requires Basics(s) && Marks(s) && Enabled(s, a) && Reads(a)
    ensures Marks(Apply(s, a))
  {
    ReadingMoves(s, a);
    forall w | 0 <= w < |s.producers| && s.producers[w].pc.Claimed?
      ensures Apply(s, a).seats[a.k].head <= s.producers[w].pc.pos
    {
      NobodyPassesAClaim(s, a, w);
    }
    hide Apply, Basics, Marks;
    MovedKeepsMarks(s, Apply(s, a), a.k);
  }

  lemma CloningKeepsMarks(s: Machine, s': Machine)
    requires Basics(s) && Marks(s) && s' == s.(cloners := s'.cloners, seats := s'.seats)
    requires s'.seats == s.seats || forall w | 0 <= w < |s.producers| :: !s.producers[w].pc.Claimed?
    ensures Marks(s')
  {
    SlotsFrame(s, s');
    hide Basics;
    forall w | 0 <= w < |s.producers| ensures CheckOk(s', w) && LatestOk(s', w) {
      assert CheckOk(s, w) && LatestOk(s, w);
    }
  }

  lemma MarksStep(s: Machine, a: Action)
    requires Basics(s) && Marks(s) && Enabled(s, a) && MarksUnraced(s, a)
    ensures Shape(Apply(s, a)) && Marks(Apply(s, a))
  {
    BasicsStep(s, a);
    if a.Handles() {
      HandlingKeepsMarks(s, a);
    } else if a.Probe? {
      ProbeKeepsMarks(s, a.p);
    } else if a.Swing? && s.producers[a.p].pc.t == s.tail {
      WinKeepsMarks(s, a.p);
    } else if a.Asks() {
      hide Basics, Marks;
      StartingKeepsMarks(s, Apply(s, a), if a.NewProducer? then |s.producers| else a.p);
    } else if Reads(a) {
      ReadingKeepsMarks(s, a);
    } else {
      if TakesSeat(s, a) { TakingFills(s, a); }
      hide Basics, Marks;
      CloningKeepsMarks(s, Apply(s, a));
    }
  }
}
