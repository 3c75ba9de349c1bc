/** Where each promise of the broadcast ring ends: for every capacity, every number of
    seats and every window, a promise holds of every run exactly when clones keep off
    what breaks it. */
module BroadcastLimits {
  import opened PositionLog
  import opened BroadcastMachine
  import opened BroadcastWindows
  import opened BroadcastBasics
  import opened BroadcastBounds
  import opened BroadcastMarks
  import opened BroadcastInvariant
  import opened BroadcastTheorems
  import opened BroadcastConservation
  import opened BroadcastScanRace
  import opened BroadcastMarkRace

  /** Every state of every run from the origin is as `good` says. */
  ghost predicate Always(o: Origin, good: Machine -> bool) {
    forall t | Leads(o, t) :: good(t)
  }

  lemma {:induction false} RunsAreDisciplined(w: Window, s: Machine, acts: seq<Action>, t: Machine)
    requires Basics(s) && RunsIn(w, s, acts, t) && w.OffScans(|s.seats|) && w.OffMarks(|s.seats|)
    ensures RunsIn(DISCIPLINED, s, acts, t)
    decreases |acts|
  {
    if acts != [] {
      StepsStayOff(w, s, acts[0]);
      BasicsStep(s, acts[0]);
      SizesStay(s, acts[0]);
      RunsAreDisciplined(w, Apply(s, acts[0]), acts[1..], t);
    }
  }

  /** Where clones keep off both, every run is a disciplined one. */
  lemma SafeWindowsAreCovered(w: Window, cap: nat, seats: nat, needsDrop: bool, t: Machine)
    requires cap > 0 && seats > 0 && Leads(RingIn(w, cap, seats, needsDrop), t)
    requires w.OffScans(seats) && w.OffMarks(seats)
    ensures Reachable(t, cap, seats, needsDrop)
  {
    var s := Init(cap, seats, needsDrop);
    var acts :| RunsIn(w, s, acts, t);
    BasicsInit(cap, seats, needsDrop);
    RunsAreDisciplined(w, s, acts, t);
  }

  /** Nobody is overrun in any run exactly when clones keep off floor scans. */
  lemma InWindowIff(w: Window, cap: nat, seats: nat, needsDrop: bool)
    requires cap > 0 && seats > 0
    ensures Always(RingIn(w, cap, seats, needsDrop), HeadsInWindow) <==> w.OffScans(seats)
  {
    if w.OffScans(seats) {
      forall t | Leads(RingIn(w, cap, seats, needsDrop), t) ensures HeadsInWindow(t) {
        OverwriteSafety(w, cap, seats, needsDrop, t);
      }
    } else {
      var t := TwoSeatsCanOverrun(w, cap, seats, needsDrop);
    }
  }

  predicate Exclusive(s: Machine) {
    s.cap > 0 && SlotsExclusive(s)
  }

  /** No two producers hold one slot in any run exactly when clones keep off unmarked
      claims. */
  lemma ExclusiveIff(w: Window, cap: nat, seats: nat, needsDrop: bool)
    requires cap > 0 && seats > 0
    ensures Always(RingIn(w, cap, seats, needsDrop), Exclusive) <==> w.OffMarks(seats)
  {
    if w.OffMarks(seats) {
      forall t | Leads(RingIn(w, cap, seats, needsDrop), t) ensures Exclusive(t) {
        SlotExclusivity(w, cap, seats, needsDrop, t);
      }
    } else {
      var t := TwoSeatsCanCollide(w, cap, seats, needsDrop);
    }
  }

  /** So with two seats or more the ring is safe in every run of a window exactly when
      clones keep out of floor scans, and either out of unmarked claims or ahead of the
      first claim. Coming before the first claim is not enough by itself. */
  lemma SafeIffDisciplined(w: Window, cap: nat, seats: nat, needsDrop: bool)
    requires cap > 0 && seats > 0
    ensures var o := RingIn(w, cap, seats, needsDrop);
            Always(o, HeadsInWindow) && Always(o, Exclusive) <==> w.OffScans(seats) && w.OffMarks(seats)
  {
    InWindowIff(w, cap, seats, needsDrop);
    ExclusiveIff(w, cap, seats, needsDrop);
  }

  /** Overwrite safety holds of every run, however clones are timed, exactly when
      the registry has a single seat. */
  lemma SafeInEveryRunIffOneSeat(cap: nat, seats: nat, needsDrop: bool)
    requires cap > 0 && seats > 0
    ensures Always(RingIn(ALL_RACES, cap, seats, needsDrop), HeadsInWindow) <==> seats == 1
  {
    InWindowIff(ALL_RACES, cap, seats, needsDrop);
  }

  /** Slot exclusivity, too, holds of every run exactly when there is one seat. */
  lemma ExclusiveInEveryRunIffOneSeat(cap: nat, seats: nat, needsDrop: bool)
    requires cap > 0 && seats > 0
    ensures Always(RingIn(ALL_RACES, cap, seats, needsDrop), Exclusive) <==> seats == 1
  {
    ExclusiveIff(ALL_RACES, cap, seats, needsDrop);
  }

  predicate ReadsPublished(s: Machine) {
    Shape(s) && ReadsRight(s)
  }

  /** Consumers are shown exactly what was published in every run exactly when clones
      keep off both. */
  lemma ReadsPublishedIff(w: Window, cap: nat, seats: nat, needsDrop: bool)
    requires cap > 0 && seats > 0
    ensures Always(RingIn(w, cap, seats, needsDrop), ReadsPublished) <==> w.OffScans(seats) && w.OffMarks(seats)
  {
    if w.OffScans(seats) && w.OffMarks(seats) {
      forall t | Leads(RingIn(w, cap, seats, needsDrop), t) ensures ReadsPublished(t) {
        ReachedInv(w, cap, seats, needsDrop, t);
      }
    } else if !w.OffScans(seats) {
      var t, v := TwoSeatsCanMislead(w, cap, seats, needsDrop);
      MisledReadsWrong(t, v);
    } else {
      var t, v := TwoSeatsCanDivide(w, cap, seats, needsDrop);
      DividedReadsWrong(t, v);
    }
  }

  lemma MisledReadsWrong(s: Machine, v: nat)
    requires Misled(s, v)
    ensures !ReadsPublished(s)
  {
    if Shape(s) {
      assert Values(s.log, 0, 1) == [0];
      assert !ReadOk(s, 0);
    }
  }

  lemma DividedReadsWrong(s: Machine, v: nat)
    requires Divided(s, v)
    ensures !ReadsPublished(s)
  {
    if Shape(s) {
      var start, head := s.cap + 1, 2 * s.cap;
      assert Values(s.log, start, head + 1) == Values(s.log, start, head) + [v];
      assert !ReadOk(s, 1);
    }
  }

  /** Consumers that started together and stand together have been shown the same. */
  predicate Agreement(s: Machine) {
    forall k, j | 0 <= k < |s.seats| && 0 <= j < |s.seats| && s.seats[k].Settled() && s.seats[j].Settled() ::
      s.seats[k].start == s.seats[j].start && Shown(s.seats[k]) == Shown(s.seats[j]) ==>
        s.seats[k].seen == s.seats[j].seen
  }

  /** Consumers agree in every run exactly when clones keep off both. */
  lemma AgreementIff(w: Window, cap: nat, seats: nat, needsDrop: bool)
    requires cap > 0 && seats > 0
    ensures Always(RingIn(w, cap, seats, needsDrop), Agreement) <==> w.OffScans(seats) && w.OffMarks(seats)
  {
    if w.OffScans(seats) && w.OffMarks(seats) {
      forall t | Leads(RingIn(w, cap, seats, needsDrop), t) ensures Agreement(t) {
        ReachedInv(w, cap, seats, needsDrop, t);
        ReadingRightIsAgreeing(t);
      }
    } else if !w.OffScans(seats) {
      var t, v := TwoSeatsCanMislead(w, cap, seats, needsDrop);
      assert Shown(t.seats[0]) == Shown(t.seats[1]);
      assert t.seats[0].seen[0] != t.seats[1].seen[0];
    } else {
      var t, v := TwoSeatsCanDivide(w, cap, seats, needsDrop);
      assert Shown(t.seats[0]) == Shown(t.seats[1]);
      assert t.seats[0].seen != t.seats[1].seen;
    }
  }

  lemma ReadingRightIsAgreeing(s: Machine)
    requires Inv(s)
    ensures Agreement(s)
  {
    forall k | 0 <= k < |s.seats| && s.seats[k].Settled()
      ensures Shown(s.seats[k]) <= s.tail == |s.log|
      ensures s.seats[k].seen == Values(s.log, s.seats[k].start, Shown(s.seats[k]))
    {
      assert ReadOk(s, k);
    }
    hide Inv;
  }

  /** No consumer is shown a value twice in any run exactly when clones keep off floor
      scans. */
  lemma NothingTwiceIff(w: Window, cap: nat, seats: nat, needsDrop: bool)
    requires cap > 0 && seats > 0
    ensures Always(RingIn(w, cap, seats, needsDrop), NothingTwice) <==> w.OffScans(seats)
  {
    if w.OffScans(seats) {
      forall t | Leads(RingIn(w, cap, seats, needsDrop), t) ensures NothingTwice(t) {
        NothingIsSeenTwice(w, cap, seats, needsDrop, t);
      }
    } else {
      var t := TwoSeatsCanRepeat(w, cap, seats, needsDrop);
    }
  }

  /** No value is lost or destroyed twice in any run exactly when clones keep off unmarked
      claims. */
  lemma ValuesKeptIff(w: Window, cap: nat, seats: nat)
    requires cap > 0 && seats > 0
    ensures Always(RingIn(w, cap, seats, true), EachStoredOrDestroyedOnce) <==> w.OffMarks(seats)
  {
    if w.OffMarks(seats) {
      forall t | Leads(RingIn(w, cap, seats, true), t) ensures EachStoredOrDestroyedOnce(t) {
        EveryValueIsStoredOrDestroyedOnce(w, cap, seats, t);
      }
    } else {
      var t, v := TwoSeatsCanLose(w, cap, seats);
    }
  }

  /** Likewise of what a teardown leaves. */
  lemma EndsCleanIff(w: Window, cap: nat, seats: nat)
    requires cap > 0 && seats > 0
    ensures Always(RingIn(w, cap, seats, true), EndsClean) <==> w.OffMarks(seats)
  {
    if w.OffMarks(seats) {
      forall t | Leads(RingIn(w, cap, seats, true), t) ensures EndsClean(t) {
        ReachedBasics(w, cap, seats, true, t);
        if Quiet(t) { EveryValueIsDestroyedOnceByTheEnd(w, cap, seats, t); }
      }
    } else {
      var t, v := TwoSeatsCanLose(w, cap, seats);
      LostStaysLost(t, LastLap(t), t.tail, v);
      assert TornDown(t).destroyed[v] == 0 && !EndsClean(t);
    }
  }

  /** Permissions speak for every consumer in every run exactly when clones keep off floor
      scans. */
  lemma PermissionsIff(w: Window, cap: nat, seats: nat, needsDrop: bool)
    requires cap > 0 && seats > 0
    ensures Always(RingIn(w, cap, seats, needsDrop), PermissionsHold) <==> w.OffScans(seats)
  {
    if w.OffScans(seats) {
      forall t | Leads(RingIn(w, cap, seats, needsDrop), t) ensures PermissionsHold(t) {
        PermissionSpeaksForEveryConsumer(w, cap, seats, needsDrop, t);
      }
    } else {
      var t := ReachesOverstated(w, cap, seats, needsDrop);
      assert t.seats[0].Settled() && t.seats[0].head < t.shared;
    }
  }

  /** `any_subscribed` has read every flag false and is about to answer no. */
  predicate ConcludesNobody(s: Machine, p: nat) {
    p < |s.producers| && s.producers[p].pc.Asking? && s.producers[p].pc.i == |s.seats|
  }

  /** Whenever it is about to answer no, nobody is subscribed. */
  ghost predicate RightAboutNobody(s: Machine) {
    forall p: nat | ConcludesNobody(s, p) :: forall k | 0 <= k < |s.seats| :: !s.seats[k].active
  }

  /** With one seat, a flag read false stays false. */
  predicate FalseStaysFalse(s: Machine) {
    && |s.seats| == 1
    && forall p | 0 <= p < |s.producers| && s.producers[p].pc.Asking? && s.producers[p].pc.i > 0 :: !s.seats[0].active
  }

  lemma NobodySitsDown(s: Machine, a: Action, k: nat)
    requires Shape(s) && Enabled(s, a) && !TakesSeat(s, a) && k < |s.seats| && !s.seats[k].active
    ensures |Apply(s, a).seats| == |s.seats| && !Apply(s, a).seats[k].active
  {
  }

  /** A producer asks about the next seat only once it has read the last flag false. */
  lemma ProbeAsksOn(s: Machine, p: nat)
    requires Shape(s) && Enabled(s, Probe(p))
    requires ProbeStep(s, p).producers[p].pc.Asking? && ProbeStep(s, p).producers[p].pc.i > 0
    ensures s.producers[p].pc.Asking? && (s.producers[p].pc.i > 0 || (0 < |s.seats| && !s.seats[0].active))
  {
  }

  /** No other access leaves a producer asking about a seat past the first. */
  lemma OthersAskNothing(s: Machine, a: Action, p: nat)
    requires Shape(s) && Enabled(s, a) && a != Probe(p) && p < |Apply(s, a).producers|
    requires Apply(s, a).producers[p].pc.Asking? && Apply(s, a).producers[p].pc.i > 0
    ensures p < |s.producers| && Apply(s, a).producers[p].pc == s.producers[p].pc
  {
    if a.NewProducer? {
      if p < |s.producers| { AskersMoveNoOther(s, a, p); }
    } else if a.Asks() {
      AskersKeepCount(s, a);
      if a.p != p { AskersMoveNoOther(s, a, p); }
    } else if a.Handles() {
      HandlersDoNotProbe(s, a);
      if a.p != p { HandlersMoveNoOther(s, a, p); }
    }
  }

  lemma AskersKeepCount(s: Machine, a: Action)
    requires Shape(s) && Enabled(s, a) && a.Asks() && !a.NewProducer?
    ensures |Apply(s, a).producers| == |s.producers|
  {
  }

  lemma FalseStaysFalseStep(s: Machine, a: Action)
    requires Shape(s) && Enabled(s, a) && !TakesSeat(s, a) && FalseStaysFalse(s) && |Apply(s, a).seats| == 1
    ensures FalseStaysFalse(Apply(s, a))
  {
    var s' := Apply(s, a);
    forall p | 0 <= p < |s'.producers| && s'.producers[p].pc.Asking? && s'.producers[p].pc.i > 0
      ensures !s'.seats[0].active
    {
      if a == Probe(p) { ProbeAsksOn(s, p); } else { OthersAskNothing(s, a, p); }
      NobodySitsDown(s, a, 0);
    }
  }

  lemma {:induction false} OneSeatAnswersAreRight(w: Window, s: Machine, acts: seq<Action>, t: Machine)
    requires Basics(s) && FalseStaysFalse(s) && RunsIn(w, s, acts, t)
    ensures FalseStaysFalse(t)
    decreases |acts|
  {
    if acts != [] {
      OneSeatAdmitsNoClone(s, acts[0]);
      BasicsStep(s, acts[0]);
      SizesStay(s, acts[0]);
      FalseStaysFalseStep(s, acts[0]);
      OneSeatAnswersAreRight(w, Apply(s, acts[0]), acts[1..], t);
    }
  }

  /** With two seats or more a consumer that clones itself from seat to seat can
      make `any_subscribed` answer no while one handle or another was subscribed
      throughout, and no discipline on scans and claims keeps it from that: the
      answer is right in every run exactly when there is one seat. */
  lemma NobodyIsRightInEveryRunIffOneSeat(w: Window, cap: nat, seats: nat, needsDrop: bool)
    requires cap > 0 && seats > 0
    ensures Always(RingIn(w, cap, seats, needsDrop), RightAboutNobody) <==> seats == 1
  {
    var o := RingIn(w, cap, seats, needsDrop);
    if seats == 1 {
      BasicsInit(cap, seats, needsDrop);
      forall t | Leads(o, t) ensures RightAboutNobody(t) {
        var acts :| RunsIn(w, o.start, acts, t);
        OneSeatAnswersAreRight(w, o.start, acts, t);
      }
    } else {
      var s := ConsumerMovesUp(w, cap, seats, needsDrop);
      var t := EveryFlagReadFalse(o, s);
      assert ConcludesNobody(t, 0) && t.seats[0].active;
    }
  }
}
