/** The floor caches beside the scan. A cache may be ahead of the scan while a clone has
    its seat and not yet its head there, since the seat then shows where its last
    occupant stood; and it may be ahead of a consumer after a raced scan. */
module BroadcastCaches {
  import opened ConsumerFloor
  import opened BroadcastMachine
  import opened BroadcastWindows
  import opened BroadcastBasics
  import opened BroadcastBounds
  import opened BroadcastTheorems
  import opened BroadcastRuns
  import opened BroadcastScanRace
  import opened BroadcastLimits

  /** `m` is no higher than the head any taken seat shows. */
  predicate Low(s: Machine, m: nat) {
    forall k | 0 <= k < |s.seats| && s.seats[k].active :: m <= s.seats[k].head
  }

  /** The same of the seats a scan has passed. */
  predicate LowSoFar(s: Machine, i: nat, m: Floor) {
    forall k | 0 <= k < i && k < |s.seats| && s.seats[k].active :: m.At? && m.head <= s.seats[k].head
  }

  predicate LowOk(s: Machine, p: nat)
    requires p < |s.producers|
  {
    && Low(s, s.producers[p].private)
    && match s.producers[p].pc
       case Scanning(_, i, m) => LowSoFar(s, i, m)
       case Peeking(_, i, m) => LowSoFar(s, i, m)
       case Raising(_, head) => Low(s, head)
       case _ => true
  }

  /** Nothing anyone has gathered is ahead of what the seats show. */
  predicate Lows(s: Machine) {
    Low(s, s.shared) && forall p | 0 <= p < |s.producers| :: LowOk(s, p)
  }

  lemma LowStays(s: Machine, s': Machine, w: nat)
    requires SeatsMoveOn(s, s') && w < |s.producers| && w < |s'.producers| && LowOk(s, w)
    requires s'.producers[w] == s.producers[w]
    ensures LowOk(s', w)
  {
  }

  lemma ProbeKeepsLows(s: Machine, p: nat)
    requires Basics(s) && Lows(s) && Enabled(s, Probe(p))
    ensures Lows(ProbeStep(s, p))
  {
    var s' := ProbeStep(s, p);
    assert LowOk(s, p) && ProbeOk(s, p);
    ProbeOnlyProbes(s, p);
    assert LowOk(s', p) && Low(s', s'.shared);
    hide ProbeStep, Basics;
    forall w | 0 <= w < |s.producers| && w != p ensures LowOk(s', w) { LowStays(s, s', w); }
  }

  lemma SwingKeepsLows(s: Machine, p: nat)
    requires Lows(s) && Enabled(s, Swing(p))
    ensures Lows(SwingStep(s, p))
  {
    var s' := SwingStep(s, p);
    assert LowOk(s, p);
    forall w | 0 <= w < |s.producers| && w != p ensures LowOk(s', w) { LowStays(s, s', w); }
  }

  lemma KnowingNoMoreKeepsLows(s: Machine, s': Machine, p: nat)
    requires Lows(s) && KnowsNoMore(s, s', p)
    ensures Lows(s')
  {
    forall w | 0 <= w < |s'.producers| && w != p ensures LowOk(s', w) {
      var me := s'.producers[w];
      assert me == s.producers[w];
      LowStays(s, s', w);
    }
    if p < |s.producers| { assert LowOk(s, p); }
  }

  lemma MovingKeepsLows(s: Machine, s': Machine)
    requires Lows(s) && OnlySeatsMove(s, s')
    ensures Lows(s')
  {
    forall w | 0 <= w < |s.producers| ensures LowOk(s', w) { LowStays(s, s', w); }
  }

  /** Before the first claim nobody has gathered more than zero. */
  lemma EarlyTakingKeepsLows(s: Machine, a: Action)
    requires Basics(s) && Enabled(s, a) && TakesSeat(s, a) && ScansUnraced(s, a) && s.tail == 0
    ensures Lows(Apply(s, a))
  {
    var s' := Apply(s, a);
    TakingFills(s, a);
    hide Apply;
    forall w | 0 <= w < |s.producers| ensures LowOk(s', w) { assert ProbeOk(s, w); }
  }

  lemma LowsStep(s: Machine, a: Action)
    requires Basics(s) && Lows(s) && Enabled(s, a)
    requires TakesSeat(s, a) ==> ScansUnraced(s, a) && s.tail == 0
    ensures Lows(Apply(s, a))
  {
    if a.Probe? {
      ProbeKeepsLows(s, a.p);
    } else if a.Swing? {
      SwingKeepsLows(s, a.p);
    } else if a.Asks() {
      BeginningKnowsNoMore(s, a);
      hide Apply, Basics, Lows, KnowsNoMore;
      KnowingNoMoreKeepsLows(s, Apply(s, a), if a.NewProducer? then |s.producers| else a.p);
    } else if a.Handles() {
      HandlingKnowsNoMore(s, a);
      hide Apply, Basics, Lows, KnowsNoMore;
      KnowingNoMoreKeepsLows(s, Apply(s, a), a.p);
    } else if TakesSeat(s, a) {
      EarlyTakingKeepsLows(s, a);
    } else {
      ReadingMovesSeats(s, a);
      hide Apply, Basics, Lows, OnlySeatsMove;
      MovingKeepsLows(s, Apply(s, a));
    }
  }

  lemma {:induction false} LowsRun(w: Window, s: Machine, acts: seq<Action>, t: Machine)
    requires Basics(s) && Lows(s) && RunsIn(w, s, acts, t) && w.Early(|s.seats|)
    ensures Lows(t)
    decreases |acts|
  {
    if acts != [] {
      if |s.seats| == 1 { OneSeatAdmitsNoClone(s, acts[0]); }
      LowsStep(s, acts[0]);
      BasicsStep(s, acts[0]);
      SizesStay(s, acts[0]);
      LowsRun(w, Apply(s, acts[0]), acts[1..], t);
    }
  }

  /** A scan at this moment would permit position `t`, if a cache permits it to `p`. */
  predicate ScanPermitsToo(s: Machine, p: nat, t: nat)
    requires s.cap > 0 && p < |s.producers|
  {
    At(s.producers[p].private).Permits(t, s.cap) || At(s.shared).Permits(t, s.cap) ==>
      FloorUpTo(s.seats, |s.seats|).Permits(t, s.cap)
  }

  /** A scan at this moment would permit all that either cache permits to anyone. */
  ghost predicate CachesMatchScan(s: Machine) {
    SomebodySubscribed(s) && s.cap > 0 ==>
      forall p, t: nat | 0 <= p < |s.producers| :: ScanPermitsToo(s, p, t)
  }

  lemma LowsMatch(s: Machine)
    requires Lows(s)
    ensures CachesMatchScan(s)
  {
    FloorIsTheLeastHead(s.seats, |s.seats|);
    forall p | 0 <= p < |s.producers| ensures Low(s, s.producers[p].private) { assert LowOk(s, p); }
  }

  /** A clone that comes later shows a scan a head that the caches have left behind. */
  lemma TwoSeatsCanLag(w: Window, cap: nat, seats: nat, needsDrop: bool) returns (t: Machine)
    requires cap > 0 && seats >= 2 && w.late
    ensures Leads(RingIn(w, cap, seats, needsDrop), t) && t.cap == cap && |t.producers| > 0
    ensures t.shared == 1 && |t.seats| > 1 && t.seats[0].active && t.seats[1].active && t.seats[1].head == 0
  {
    var s0 := RingIn(w, cap, seats, needsDrop);
    t := ReachesFullLap(w, cap, seats, needsDrop);
    hide Leads;
    t := ReadsNextValue(s0, t, 0);
    t := ScansTo(s0, t, 0, 0, 1);
    t := RaisesCaches(s0, t, 0, 1);
    var c := |t.cloners|;
    t := CloneStarts(s0, t, 0);
    t := CloneLooksOn(s0, t, c);
    LeadsOn(s0, t, CloneStep(c));
    t := Apply(t, CloneStep(c));
  }

  /** Whatever shows a head the shared cache has passed is a mismatch. */
  lemma LaggingSeatMismatches(s: Machine, k: nat)
    requires s.cap > 0 && |s.producers| > 0 && k < |s.seats| && s.seats[k].active && s.seats[k].head < s.shared
    ensures !CachesMatchScan(s)
  {
    var t := s.seats[k].head + s.cap;
    FloorIsTheLeastHead(s.seats, |s.seats|);
    assert At(s.shared).Permits(t, s.cap) && !FloorUpTo(s.seats, |s.seats|).Permits(t, s.cap);
    assert !ScanPermitsToo(s, 0, t);
  }

  /** The caches match the scan in every run exactly when clones come before the first
      claim and race no floor scan. */
  lemma CachesMatchIff(w: Window, cap: nat, seats: nat, needsDrop: bool)
    requires cap > 0 && seats > 0
    ensures Always(RingIn(w, cap, seats, needsDrop), CachesMatchScan) <==> w.Early(seats)
  {
    if w.Early(seats) {
      forall t | Leads(RingIn(w, cap, seats, needsDrop), t) ensures CachesMatchScan(t) {
        var acts :| RunsIn(w, Init(cap, seats, needsDrop), acts, t);
        BasicsInit(cap, seats, needsDrop);
        LowsRun(w, Init(cap, seats, needsDrop), acts, t);
        LowsMatch(t);
      }
    } else if w.late {
      var t := TwoSeatsCanLag(w, cap, seats, needsDrop);
      LaggingSeatMismatches(t, 1);
    } else {
      var t := ReachesOverstated(w, cap, seats, needsDrop);
      LaggingSeatMismatches(t, 0);
    }
  }

  /** At moments when every taken seat is settled. */
  ghost predicate SettledCachesMatchScan(s: Machine) {
    AllSettled(s) ==> CachesMatchScan(s)
  }

  /** At such moments they match in every run exactly when clones race no floor scan. */
  lemma SettledCachesMatchIff(w: Window, cap: nat, seats: nat, needsDrop: bool)
    requires cap > 0 && seats > 0
    ensures Always(RingIn(w, cap, seats, needsDrop), SettledCachesMatchScan) <==> w.OffScans(seats)
  {
    if w.OffScans(seats) {
      forall t | Leads(RingIn(w, cap, seats, needsDrop), t) ensures SettledCachesMatchScan(t) {
        ReachedBounds(w, cap, seats, needsDrop, t);
        if AllSettled(t) { SettledMatch(t); }
      }
    } else {
      var t := ReachesOverstated(w, cap, seats, needsDrop);
      LaggingSeatMismatches(t, 0);
      assert AllSettled(t);
    }
  }

  lemma SettledMatch(s: Machine)
    requires Bounds(s) && AllSettled(s)
    ensures CachesMatchScan(s)
  {
    if !SomebodySubscribed(s) || s.cap == 0 { return; }
    forall p, t: nat | 0 <= p < |s.producers| ensures ScanPermitsToo(s, p, t) {
      if At(s.producers[p].private).Permits(t, s.cap) || At(s.shared).Permits(t, s.cap) {
        CacheYesIsScanYes(s, p, t);
      }
    }
  }
}
