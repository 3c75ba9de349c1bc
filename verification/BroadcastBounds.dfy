/** What holds of the broadcast ring as long as no clone takes a seat while a floor is
    scanned: whatever producers have gathered is a lower bound on every consumer, and no
    consumer is ever overrun. */
module BroadcastBounds {
  import opened ConsumerFloor
  import opened BroadcastMachine
  import opened BroadcastBasics

  /** `m` is no higher than any settled consumer's head. */
  predicate LowerBound(s: Machine, m: nat) {
    forall k | 0 <= k < |s.seats| && s.seats[k].Settled() :: m <= s.seats[k].head
  }

  /** A claim at `t` leaves every settled consumer within a lap of the tail. */
  predicate Room(s: Machine, t: nat) {
    forall k | 0 <= k < |s.seats| && s.seats[k].Settled() :: t < s.seats[k].head + s.cap
  }

  /** A floor scan that has passed the seats below `i` stays below the heads of
      their occupants. */
  predicate Gathered(s: Machine, i: nat, m: Floor) {
    forall k | 0 <= k < i && k < |s.seats| && s.seats[k].Settled() :: m.At? && m.head <= s.seats[k].head
  }

  /** What a producer knows of the consumers. */
  predicate BoundOk(s: Machine, p: nat)
    requires p < |s.producers|
  {
    && LowerBound(s, s.producers[p].private)
    && match s.producers[p].pc
       case Scanning(_, i, m) => Gathered(s, i, m)
       case Peeking(_, i, m) => Gathered(s, i, m)
       case Raising(_, head) => LowerBound(s, head)
       case Inspecting(t) => Room(s, t)
       case Swinging(t) => Room(s, t)
       case _ => true
  }

  /** Every settled consumer is within a lap of the tail. */
  predicate HeadsInWindow(s: Machine) {
    forall k | 0 <= k < |s.seats| && s.seats[k].Settled() ::
      s.seats[k].head <= s.tail <= s.seats[k].head + s.cap
  }

  predicate Bounds(s: Machine) {
    && LowerBound(s, s.shared) && HeadsInWindow(s)
    && forall p | 0 <= p < |s.producers| :: BoundOk(s, p)
  }

  lemma BoundsInit(cap: nat, seats: nat, needsDrop: bool)
    requires cap > 0 && seats > 0
    ensures Bounds(Init(cap, seats, needsDrop))
  {
  }

  /** Nobody settles in a seat, and nobody falls back. */
  predicate SeatsMoveOn(s: Machine, s': Machine) {
    && s'.cap == s.cap && |s'.seats| == |s.seats|
    && forall k | 0 <= k < |s.seats| ::
         s.seats[k].head <= s'.seats[k].head && (s'.seats[k].active ==> s.seats[k].active)
         && (s'.seats[k].Settled() ==> s.seats[k].Settled())
  }

  /** Whoever is settled has somebody before it who was no further. */
  predicate HeadsGrow(s: Machine, s': Machine) {
    && s'.cap == s.cap
    && forall k | 0 <= k < |s'.seats| && s'.seats[k].Settled() ::
         exists j :: 0 <= j < |s.seats| && s.seats[j].Settled() && s.seats[j].head <= s'.seats[k].head
  }

  lemma AskersMoveNoSeat(s: Machine, a: Action)
    requires Shape(s) && Enabled(s, a) && a.Asks()
    ensures Apply(s, a).seats == s.seats && Apply(s, a).cloners == s.cloners && Apply(s, a).cap == s.cap
  {
  }

  lemma HandlersMoveNoSeat(s: Machine, a: Action)
    requires Shape(s) && Enabled(s, a) && a.Handles()
    ensures Apply(s, a).seats == s.seats && Apply(s, a).cloners == s.cloners && Apply(s, a).cap == s.cap
    ensures Apply(s, a).tail == s.tail && Apply(s, a).shared == s.shared
  {
  }

  /** A producer's access before it has a claim is its own affair. */
  lemma AskersMoveNoOther(s: Machine, a: Action, p: nat)
    requires Shape(s) && Enabled(s, a) && a.Asks() && p < |s.producers| && (a.NewProducer? || a.p != p)
    ensures p < |Apply(s, a).producers| && Apply(s, a).producers[p] == s.producers[p]
  {
  }

  /** So is its access to the slot it has claimed. */
  lemma HandlersMoveNoOther(s: Machine, a: Action, p: nat)
    requires Shape(s) && Enabled(s, a) && a.Handles() && p < |s.producers| && a.p != p
    ensures p < |Apply(s, a).producers| == |s.producers| && Apply(s, a).producers[p] == s.producers[p]
  {
  }

  /** Whoever works on a claim asks and scans nothing. */
  lemma HandlersDoNotProbe(s: Machine, a: Action)
    requires Shape(s) && Enabled(s, a) && a.Handles()
    ensures |Apply(s, a).producers| == |s.producers| && !Apply(s, a).producers[a.p].pc.Probing()
  {
    if a.Mark? { MarkersDoNotProbe(s, a.p); } else { hide MarkStep; }
  }

  lemma MarkersDoNotProbe(s: Machine, p: nat)
    requires Shape(s) && Enabled(s, Mark(p))
    ensures |MarkStep(s, p).producers| == |s.producers| && !MarkStep(s, p).producers[p].pc.Probing()
  {
  }

  lemma SeatsMoveOnStep(s: Machine, a: Action)
    requires Shape(s) && Enabled(s, a) && !TakesSeat(s, a)
    ensures SeatsMoveOn(s, Apply(s, a))
  {
    if a.Asks() { AskersMoveNoSeat(s, a); } else if a.Handles() { HandlersMoveNoSeat(s, a); }
  }

  lemma HeadsGrowStep(s: Machine, a: Action)
    requires Basics(s) && Enabled(s, a)
    ensures HeadsGrow(s, Apply(s, a))
  {
    if TakesSeat(s, a) {
      TakingFills(s, a);
    } else {
      SeatsMoveOnStep(s, a);
    }
    hide Apply;
  }

  /** The floor of the settled consumers never falls while one is left: a lower
      bound of their heads stays one. */
  lemma FloorNeverFalls(s: Machine, a: Action, m: nat)
    requires Basics(s) && Enabled(s, a) && LowerBound(s, m)
    ensures LowerBound(Apply(s, a), m)
  {
    HeadsGrowStep(s, a);
    hide Apply, Basics;
  }

  /** Once nobody is subscribed, nobody ever is again: whoever is subscribed
      after a step had somebody subscribed before it. */
  lemma NoConsumersIsAbsorbing(s: Machine, a: Action, k: nat)
    requires Basics(s) && Enabled(s, a) && k < |Apply(s, a).seats| && Apply(s, a).seats[k].Settled()
    ensures exists j :: 0 <= j < |s.seats| && s.seats[j].Settled()
  {
    HeadsGrowStep(s, a);
    hide Apply, Basics;
  }

  /** What a producer knows stays so while seats move on. */
  lemma BoundStays(s: Machine, s': Machine, w: nat)
    requires SeatsMoveOn(s, s') && w < |s.producers| && w < |s'.producers| && BoundOk(s, w)
    requires s'.producers[w] == s.producers[w]
    ensures BoundOk(s', w)
  {
  }

  /** And while one is filled, unless the producer is scanning. */
  lemma BoundOutlivesFilling(s: Machine, s': Machine, w: nat)
    requires HeadsGrow(s, s') && w < |s.producers| && w < |s'.producers| && BoundOk(s, w)
    requires s'.producers[w] == s.producers[w] && !s.producers[w].pc.Scanning? && !s.producers[w].pc.Peeking?
    ensures BoundOk(s', w)
  {
  }

  /** A permission granted on a lower bound holds of every consumer. */
  lemma PermissionLeavesRoom(s: Machine, m: nat, t: nat)
    requires s.cap > 0 && LowerBound(s, m) && At(m).Permits(t, s.cap)
    ensures Room(s, t)
  {
  }

  /** A permission by either cache. */
  lemma CachesLearn(s: Machine, p: nat)
    requires Basics(s) && Bounds(s) && Enabled(s, Probe(p))
    requires s.producers[p].pc.Trying? || s.producers[p].pc.Sharing?
    ensures BoundOk(ProbeStep(s, p), p)
  {
    var t := s.producers[p].pc.t;
    assert BoundOk(s, p);
    hide Basics, Bounds, BoundOk;
    if At(s.producers[p].private).Permits(t, s.cap) { PermissionLeavesRoom(s, s.producers[p].private, t); }
    if At(s.shared).Permits(t, s.cap) { PermissionLeavesRoom(s, s.shared, t); }
  }

  /** The end of a scan, republished to both caches. */
  lemma RaiseLearns(s: Machine, p: nat)
    requires Bounds(s) && Enabled(s, Probe(p)) && Shape(s) && s.producers[p].pc.Raising?
    ensures BoundOk(ProbeStep(s, p), p) && LowerBound(ProbeStep(s, p), ProbeStep(s, p).shared)
  {
    var pc := s.producers[p].pc;
    assert BoundOk(s, p);
    hide Bounds;
    if At(pc.head).Permits(pc.t, s.cap) { PermissionLeavesRoom(s, pc.head, pc.t); }
  }

  /** A seat of a scan, or its end. */
  lemma ScanLearns(s: Machine, p: nat)
    requires Bounds(s) && Enabled(s, Probe(p)) && Shape(s)
    requires s.producers[p].pc.Scanning? || s.producers[p].pc.Peeking?
    ensures BoundOk(ProbeStep(s, p), p)
  {
    assert BoundOk(s, p);
    hide Bounds;
  }

  /** What `p` learns by one access on the way to its claim. */
  lemma ProbeLearns(s: Machine, p: nat)
    requires Basics(s) && Bounds(s) && Enabled(s, Probe(p))
    ensures BoundOk(ProbeStep(s, p), p) && LowerBound(ProbeStep(s, p), ProbeStep(s, p).shared)
  {
    match s.producers[p].pc
    case Asking(_, _) => assert BoundOk(s, p);
    case Trying(_) => CachesLearn(s, p);
    case Sharing(_) => CachesLearn(s, p);
    case Raising(_, _) => RaiseLearns(s, p);
    case Scanning(_, _, _) => ScanLearns(s, p);
    case Peeking(_, _, _) => ScanLearns(s, p);
    case Inspecting(_) => assert BoundOk(s, p);
  }

  lemma ProbeKeepsBounds(s: Machine, p: nat)
    requires Basics(s) && Bounds(s) && Enabled(s, Probe(p))
    ensures Bounds(ProbeStep(s, p))
  {
    var s' := ProbeStep(s, p);
    ProbeLearns(s, p);
    ProbeOnlyProbes(s, p);
    hide ProbeStep, Basics;
    forall w | 0 <= w < |s.producers| && w != p ensures BoundOk(s', w) { BoundStays(s, s', w); }
  }

  lemma SwingKeepsBounds(s: Machine, p: nat)
    requires Basics(s) && Bounds(s) && Enabled(s, Swing(p))
    ensures Bounds(SwingStep(s, p))
  {
    var s' := SwingStep(s, p);
    assert BoundOk(s, p);
    hide Basics;
    forall w | 0 <= w < |s.producers| && w != p ensures BoundOk(s', w) { BoundStays(s, s', w); }
  }

  /** The other accesses of a producer leave it with what it knew, or less. */
  predicate KnowsNoMore(s: Machine, s': Machine, p: nat) {
    && |s.producers| <= |s'.producers| && (p < |s'.producers|)
    && s'.tail == s.tail && s'.cap == s.cap && s'.seats == s.seats && s'.shared == s.shared
    && (forall w | 0 <= w < |s'.producers| && w != p :: w < |s.producers| && s'.producers[w] == s.producers[w])
    && s'.producers[p].private == (if p < |s.producers| then s.producers[p].private else 0)
    && (s'.producers[p].pc.Asking? || (!s'.producers[p].pc.Probing() && !s'.producers[p].pc.Swinging?))
  }

  lemma BeginningKnowsNoMore(s: Machine, a: Action)
    requires Shape(s) && Enabled(s, a) && (a.NewProducer? || a.Begin? || a.Quit? || a.Spurious?)
    ensures KnowsNoMore(s, Apply(s, a), if a.NewProducer? then |s.producers| else a.p)
  {
  }

  lemma WorkingKnowsNoMore(s: Machine, a: Action)
    requires Shape(s) && Enabled(s, a) && (a.Mark? || a.Clear? || a.Fill? || a.Discard?)
    ensures KnowsNoMore(s, Apply(s, a), a.p)
  {
  }

  lemma HandlingKnowsNoMore(s: Machine, a: Action)
    requires Shape(s) && Enabled(s, a) && a.Handles()
    ensures KnowsNoMore(s, Apply(s, a), a.p)
  {
    if !a.Publish? && !a.Abandon? { WorkingKnowsNoMore(s, a); }
  }

  lemma KnowingNoMoreKeepsBounds(s: Machine, s': Machine, p: nat)
    requires Bounds(s) && KnowsNoMore(s, s', p)
    ensures Bounds(s')
  {
    forall w | 0 <= w < |s'.producers| && w != p ensures BoundOk(s', w) {
      var me := s'.producers[w];
      assert me == s.producers[w];
      BoundStays(s, s', w);
    }
    if p < |s.producers| { assert BoundOk(s, p); }
  }

  /** A consumer's own step, or a clone's that takes no seat. */
  predicate OnlySeatsMove(s: Machine, s': Machine) {
    SeatsMoveOn(s, s') && s' == s.(seats := s'.seats, cloners := s'.cloners)
  }

  lemma ReadingMovesSeats(s: Machine, a: Action)
    requires Shape(s) && Enabled(s, a) && !a.Asks() && !a.Handles() && !TakesSeat(s, a)
    ensures OnlySeatsMove(s, Apply(s, a))
  {
  }

  lemma MovingKeepsBounds(s: Machine, s': Machine)
    requires Basics(s') && Bounds(s) && OnlySeatsMove(s, s')
    ensures Bounds(s')
  {
    forall w | 0 <= w < |s.producers| ensures BoundOk(s', w) { BoundStays(s, s', w); }
    forall k | 0 <= k < |s'.seats| && s'.seats[k].Settled() ensures s'.seats[k].head <= s.tail { assert SeatOk(s', k); }
  }

  lemma TakingKeepsBounds(s: Machine, a: Action)
    requires Basics(s) && Bounds(s) && Enabled(s, a) && TakesSeat(s, a) && ScansUnraced(s, a)
    ensures Bounds(Apply(s, a))
  {
    var s' := Apply(s, a);
    HeadsGrowStep(s, a);
    TakingFills(s, a);
    hide Apply, Basics;
    forall w | 0 <= w < |s.producers| ensures BoundOk(s', w) { BoundOutlivesFilling(s, s', w); }
  }

  lemma BoundsStep(s: Machine, a: Action)
    requires Basics(s) && Bounds(s) && Enabled(s, a) && ScansUnraced(s, a)
    ensures Bounds(Apply(s, a))
  {
    if a.Probe? {
      ProbeKeepsBounds(s, a.p);
    } else if a.Swing? {
      SwingKeepsBounds(s, a.p);
    } else if a.Asks() {
      BeginningKnowsNoMore(s, a);
      hide Apply, Basics, Bounds, KnowsNoMore;
      KnowingNoMoreKeepsBounds(s, Apply(s, a), if a.NewProducer? then |s.producers| else a.p);
    } else if a.Handles() {
      HandlingKnowsNoMore(s, a);
      hide Apply, Basics, Bounds, KnowsNoMore;
      KnowingNoMoreKeepsBounds(s, Apply(s, a), a.p);
    } else if TakesSeat(s, a) {
      TakingKeepsBounds(s, a);
    } else {
      ReadingMovesSeats(s, a);
      BasicsStep(s, a);
      hide Apply, Basics, Bounds, OnlySeatsMove;
      MovingKeepsBounds(s, Apply(s, a));
    }
  }
}
