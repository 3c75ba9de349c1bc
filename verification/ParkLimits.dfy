/** Where the capacity theorem ends: a slot stays free beside a sleeper in some run as
    soon as wakes may pass waiters over or questions may be answered early. */
module ParkLimits {
  import opened ParkRegistry
  import opened ParkMachine
  import opened ParkTheorems
  import opened ParkCapacity

  lemma {:induction false} RunsSoOn(how: Manners, s: Machine, acts: seq<Action>, t: Machine, a: Action)
    requires RunsSo(how, s, acts, t) && Enabled(t, a) && Minds(how, t, a)
    ensures RunsSo(how, s, acts + [a], Apply(t, a))
    decreases |acts|
  {
    if acts == [] {
      assert [a][1..] == [];
      assert acts + [a] == [a];
    } else {
      RunsSoOn(how, Apply(s, acts[0]), acts[1..], t, a);
      assert (acts + [a])[1..] == acts[1..] + [a];
    }
  }

  lemma ReachedOn(how: Manners, t: Machine, a: Action)
    requires Reached(how, t) && Enabled(t, a) && Minds(how, t, a)
    ensures Reached(how, Apply(t, a))
  {
    var acts :| RunsSo(how, INIT, acts, t);
    RunsSoOn(how, INIT, acts, t, a);
  }

  /** `s` with one thread more, inside a call on the slot of its number. */
  function WithThread(s: Machine, pc: Waiting): Machine {
    s.(threads := s.threads + [pc])
  }

  lemma ThreadGoes(s: Machine, pc: Waiting, pc': Waiting)
    ensures GoTo(WithThread(s, pc), |s.threads|, pc') == WithThread(s, pc')
  {
    assert (s.threads + [pc])[|s.threads| := pc'] == s.threads + [pc'];
  }

  /** What a thread that shows itself on `slot` leaves behind: its handle and the bit, or
      without a slot a node. */
  function Showing(s: Machine, slot: ParkSlot): Machine {
    match slot
    case Leased(b) => s.(parkers := s.parkers[b := |s.threads|], wake := s.wake + {b})
    case Shared => s.(overflow := [|s.threads|] + s.overflow)
  }

  /** `s` with one thread more, asleep on `slot`. */
  function WithSleeper(s: Machine, slot: ParkSlot): Machine {
    WithThread(Showing(s, slot), Parked(slot, s.releases, s.releases))
  }

  /** A full ring does put a caller to sleep: a new thread finds no space, makes itself
      known on its slot or on the stack, looks again, and parks. */
  lemma FallsAsleep(how: Manners, s: Machine, slot: ParkSlot)
    requires Reached(how, s) && s.free == {} && s.closedBy == 0 && Free(s, slot)
    ensures Reached(how, WithSleeper(s, slot))
  {
    var n := |s.threads|;
    hide Reached;
    ReachedOn(how, s, NewThread);
    assert Apply(s, NewThread) == WithThread(s, Away);
    ReachedOn(how, WithThread(s, Away), Enter(n, slot));
    ThreadGoes(s, Away, Trying(slot));
    ReachedOn(how, WithThread(s, Trying(slot)), Seek(n));
    ThreadGoes(s, Trying(slot), Seeking(slot));
    ShowsItself(how, s, slot);
    var shown := Showing(s, slot);
    ReachedOn(how, WithThread(shown, Published(slot)), Recheck(n, false));
    ThreadGoes(shown, Published(slot), Checked(slot, s.releases));
    ReachedOn(how, WithThread(shown, Checked(slot, s.releases)), Sleep(n));
    ThreadGoes(shown, Checked(slot, s.releases), Parked(slot, s.releases, s.releases));
  }

  lemma ShowsItself(how: Manners, s: Machine, slot: ParkSlot)
    requires Reached(how, WithThread(s, Seeking(slot)))
    ensures Reached(how, WithThread(Showing(s, slot), Published(slot)))
  {
    var n := |s.threads|;
    hide Reached;
    ThreadGoes(s, Seeking(slot), Published(slot));
    match slot
    case Shared =>
      ReachedOn(how, WithThread(s, Seeking(slot)), Publish(n));
      assert Apply(WithThread(s, Seeking(slot)), Publish(n)) == WithThread(Showing(s, slot), Published(slot));
    case Leased(b) =>
      ReachedOn(how, WithThread(s, Seeking(slot)), ArmHandle(n));
      var armed := s.(parkers := s.parkers[b := n]);
      ThreadGoes(s, Seeking(slot), Arming(slot));
      assert Apply(WithThread(s, Seeking(slot)), ArmHandle(n)) == WithThread(armed, Arming(slot));
      ReachedOn(how, WithThread(armed, Arming(slot)), Publish(n));
      ThreadGoes(s, Arming(slot), Published(slot));
      assert Apply(WithThread(armed, Arming(slot)), Publish(n)) == WithThread(Showing(s, slot), Published(slot));
  }

  const SLOT: Ticket := Ticket(1, 0)

  /** Two threads sleep, the waker of the one free slot is at `pc` with `left` deliveries
      to make, and the first thread, at `first`, has been given `carry`. */
  function Scene(wake: set<nat>, parkers: map<nat, nat>, tokens: set<nat>, carry: map<nat, Ticket>,
                 first: Waiting, left: nat, pc: Waking): Machine {
    Machine(wake, parkers, [], tokens, {SLOT}, carry, [first, Parked(Leased(1), 0, 0)],
            [Waker(1, false, left, pc)], 1, 0, 1, 0)
  }

  const ASLEEP: Waiting := Parked(Leased(0), 0, 0)

  const BOTH: map<nat, nat> := map[0 := 0, 1 := 1]

  /** The waker of a scene takes one of its steps. */
  lemma WakerActs(how: Manners, s: Machine, a: Action, s': Machine)
    requires Reached(how, s) && Enabled(s, a) && Minds(how, s, a)
    requires |s.wakers| == 1 && |s'.wakers| == 1 && |Apply(s, a).wakers| == 1
    requires Apply(s, a).wakers[0] == s'.wakers[0]
    requires Apply(s, a) == s'.(wakers := Apply(s, a).wakers)
    ensures Reached(how, s')
  {
    assert Apply(s, a).wakers == s'.wakers;
    ReachedOn(how, s, a);
  }

  /** Its first thread takes one of its own. */
  lemma FirstActs(how: Manners, s: Machine, a: Action, s': Machine)
    requires Reached(how, s) && Enabled(s, a) && Minds(how, s, a)
    requires |s'.threads| == |Apply(s, a).threads| == 2
    requires Apply(s, a).threads[0] == s'.threads[0] && Apply(s, a).threads[1] == s'.threads[1]
    requires Apply(s, a) == s'.(threads := Apply(s, a).threads)
    ensures Reached(how, s')
  {
    assert Apply(s, a).threads == s'.threads;
    ReachedOn(how, s, a);
  }

  /** Two threads asleep, and the ring full. */
  const SLEEPERS: Machine :=
    Machine({0, 1}, BOTH, [], {}, {}, map[], [ASLEEP, Parked(Leased(1), 0, 0)], [], 0, 0, 0, 0)

  lemma TwoFallAsleep(how: Manners)
    ensures Reached(how, SLEEPERS)
  {
    assert RunsSo(how, INIT, [], INIT);
    hide Reached;
    FallsAsleep(how, INIT, Leased(0));
    FallsAsleep(how, WithSleeper(INIT, Leased(0)), Leased(1));
    assert WithSleeper(WithSleeper(INIT, Leased(0)), Leased(1)) == SLEEPERS;
  }

  /** A slot is freed while two threads sleep, and its waker has found the overflow
      empty. */
  lemma OneSlotFreed(how: Manners)
    ensures Reached(how, Scene({0, 1}, BOTH, {}, map[], ASLEEP, 1, Looking))
  {
    TwoFallAsleep(how);
    hide Reached;
    ReachedOn(how, SLEEPERS, NewWaker);
    var s := SLEEPERS.(wakers := [Waker(0, false, 0, Resting)]);
    assert Apply(SLEEPERS, NewWaker) == s;
    var glancing := Scene({0, 1}, BOTH, {}, map[], ASLEEP, 1, Glancing).(drained := 0);
    assert Freed(1, 0) == {} && Freed(1, 1) == {SLOT};
    WakerActs(how, s, Release(0, false, false, 1, 1), glancing);
    WakerActs(how, glancing, Glance(0), Scene({0, 1}, BOTH, {}, map[], ASLEEP, 1, Looking));
  }

  /** A wake that passes both over leaves them asleep beside the free slot. */
  lemma PassedOver(how: Manners)
    requires how.routed
    ensures Reached(how, Scene({0, 1}, BOTH, {}, map[], ASLEEP, 0, Resting))
  {
    OneSlotFreed(how);
    hide Reached;
    WakerActs(how, Scene({0, 1}, BOTH, {}, map[], ASLEEP, 1, Looking), PassOver(0),
              Scene({0, 1}, BOTH, {}, map[], ASLEEP, 0, Resting));
  }

  /** The waker takes the first thread's bit and handle and unparks it. */
  lemma FirstIsWoken(how: Manners)
    ensures Reached(how, Scene({1}, map[1 := 1], {0}, map[0 := SLOT], ASLEEP, 0, Resting))
  {
    OneSlotFreed(how);
    hide Reached;
    var looking := Scene({0, 1}, BOTH, {}, map[], ASLEEP, 1, Looking);
    var retiring := Scene({0, 1}, BOTH, {}, map[], ASLEEP, 1, Retiring(0));
    var finding := Scene({1}, BOTH, {}, map[], ASLEEP, 1, Finding({0}));
    var claiming := Scene({1}, BOTH, {}, map[], ASLEEP, 1, Claiming(0, {}));
    var rousing := Scene({1}, map[1 := 1], {}, map[0 := SLOT], ASLEEP, 1, Rousing(0, {}));
    WakerActs(how, looking, Look(0, 0), retiring);
    assert {0, 1} - {0} == {1 as nat};
    WakerActs(how, retiring, Retire(0), finding);
    assert {0 as nat} - {0} == {};
    WakerActs(how, finding, Find(0, 0), claiming);
    assert BOTH - {0} == map[1 := 1];
    WakerActs(how, claiming, Claim(0), rousing);
    WakerActs(how, rousing, Rouse(0), Scene({1}, map[1 := 1], {0}, map[0 := SLOT], ASLEEP, 0, Resting));
  }

  /** Told early that the side is closed, the thread woken gives up, and the other one
      sleeps on beside the free slot. */
  lemma WokenGivesUp(how: Manners)
    requires how.early
    ensures Reached(how, Scene({1}, map[1 := 1], {}, map[0 := SLOT], Away, 0, Resting))
  {
    FirstIsWoken(how);
    hide Reached;
    var slot := Leased(0);
    var woken := Scene({1}, map[1 := 1], {0}, map[0 := SLOT], ASLEEP, 0, Resting);
    var disarming := Scene({1}, map[1 := 1], {}, map[0 := SLOT], Disarming(slot, false), 0, Resting);
    var trying := Scene({1}, map[1 := 1], {}, map[0 := SLOT], Trying(slot), 0, Resting);
    FirstActs(how, woken, Return(0), disarming);
    FirstActs(how, disarming, Disarm(0), trying);
    FirstActs(how, trying, Leave(0), Scene({1}, map[1 := 1], {}, map[0 := SLOT], Away, 0, Resting));
  }

  /** Otherwise than plainly, a run comes to a standstill with a slot free and a thread
      asleep that nobody is about to wake, and nobody on the way to the slot. */
  lemma SlotIsWasted(how: Manners) returns (s: Machine)
    requires !how.Plain()
    ensures Reached(how, s) && s.closedBy == 0 && Still(s) && |s.threads| == 2 && s.threads[1].Parked?
    ensures SLOT in s.free && Sleeps(s, 1) && !Guarded(s, SLOT)
  {
    if how.routed {
      PassedOver(how);
      s := Scene({0, 1}, BOTH, {}, map[], ASLEEP, 0, Resting);
    } else {
      WokenGivesUp(how);
      s := Scene({1}, map[1 := 1], {}, map[0 := SLOT], Away, 0, Resting);
    }
    hide Reached;
  }

  /** While the side is open and all is still, a sleeper means a full ring. */
  predicate SleeperMeansFull(s: Machine) {
    s.closedBy == 0 && Still(s) && (exists t :: 0 <= t < |s.threads| && s.threads[t].Parked?) ==> s.free == {}
  }

  /** One delivery per freed slot is enough in every run exactly when no wake passes
      waiters over and no question is answered early. */
  lemma AsleepMeansFullIff(how: Manners)
    ensures (forall s | Reached(how, s) :: SleeperMeansFull(s)) <==> how.Plain()
  {
    if how.Plain() {
      forall s | Reached(how, s) ensures SleeperMeansFull(s) {
        if t :| s.closedBy == 0 && Still(s) && 0 <= t < |s.threads| && s.threads[t].Parked? {
          AsleepMeansFull(s, t);
        }
      }
    } else {
      var s := SlotIsWasted(how);
      assert !SleeperMeansFull(s);
    }
  }

  /** While the side is open and somebody sleeps whom nobody is about to wake, each free
      slot has somebody on the way to it. */
  ghost predicate FreeSlotsGuarded(s: Machine) {
    s.closedBy == 0 ==> forall t: nat, x | Sleeps(s, t) && x in s.free :: Guarded(s, x)
  }

  /** No free slot is wasted in any run exactly then, too. */
  lemma NoFreeSlotIsWastedIff(how: Manners)
    ensures (forall s | Reached(how, s) :: FreeSlotsGuarded(s)) <==> how.Plain()
  {
    if how.Plain() {
      forall s | Reached(how, s) ensures FreeSlotsGuarded(s) {
        if s.closedBy == 0 {
          forall t: nat, x | Sleeps(s, t) && x in s.free ensures Guarded(s, x) { NoFreeSlotIsWasted(s, t, x); }
        }
      }
    } else {
      var s := SlotIsWasted(how);
      assert !FreeSlotsGuarded(s);
    }
  }

  /** Two threads sleep, one on a slot and one without; the waker of the close is at `pc`. */
  function LastScene(wake: set<nat>, parkers: map<nat, nat>, overflow: seq<nat>, tokens: set<nat>,
                     drained: nat, cleared: nat, pc: Waking): Machine {
    Machine(wake, parkers, overflow, tokens, {}, map[], [ASLEEP, Parked(Shared, 0, 0)], [Waker(1, true, 0, pc)],
            1, 1, drained, cleared)
  }

  /** The same before the close. */
  function BeforeTheClose(): Machine {
    LastScene({0}, map[0 := 0], [1], {}, 0, 0, Resting).(
      wakers := [Waker(0, false, 0, Resting)], releases := 0, closedBy := 0)
  }

  lemma OneOfEachSleeps(how: Manners)
    ensures Reached(how, BeforeTheClose())
  {
    assert RunsSo(how, INIT, [], INIT);
    hide Reached;
    FallsAsleep(how, INIT, Leased(0));
    FallsAsleep(how, WithSleeper(INIT, Leased(0)), Shared);
    var s := WithSleeper(WithSleeper(INIT, Leased(0)), Shared);
    assert s == BeforeTheClose().(wakers := []);
    ReachedOn(how, s, NewWaker);
    assert Apply(s, NewWaker) == BeforeTheClose();
  }

  /** A side does get closed on sleepers, and each of them, with a slot or without, is
      unparked by the time the closer is done. */
  lemma ClosedOnSleepers(how: Manners)
    ensures Reached(how, LastScene({}, map[], [], {0, 1}, 1, 1, Resting))
    ensures var s := LastScene({}, map[], [], {0, 1}, 1, 1, Resting);
            s.closedBy > 0 && Quiet(s) && forall t: nat | t < 2 :: s.threads[t].Parked? && t in s.tokens
  {
    var armed, ready := map[0 := 0], BeforeTheClose();
    OneOfEachSleeps(how);
    hide Reached;
    WakerActs(how, ready, Release(0, true, true, 0, 0), LastScene({0}, armed, [1], {}, 0, 0, Glancing));
    WakerActs(how, LastScene({0}, armed, [1], {}, 0, 0, Glancing), Glance(0),
              LastScene({0}, armed, [1], {}, 0, 0, Taking));
    WakerActs(how, LastScene({0}, armed, [1], {}, 0, 0, Taking), Take(0),
              LastScene({0}, armed, [], {}, 1, 0, Draining([1])));
    DrainsAndFlushes(how);
  }

  lemma DrainsAndFlushes(how: Manners)
    requires Reached(how, LastScene({0}, map[0 := 0], [], {}, 1, 0, Draining([1])))
    ensures Reached(how, LastScene({}, map[], [], {0, 1}, 1, 1, Resting))
  {
    hide Reached;
    var armed := map[0 := 0];
    assert [1 as nat][1..] == [];
    WakerActs(how, LastScene({0}, armed, [], {}, 1, 0, Draining([1])), Unpark(0),
              LastScene({0}, armed, [], {1}, 1, 0, Looking));
    WakerActs(how, LastScene({0}, armed, [], {1}, 1, 0, Looking), Look(0, 0),
              LastScene({}, armed, [], {1}, 1, 1, Finding({0})));
    assert {0 as nat} - {0} == {};
    WakerActs(how, LastScene({}, armed, [], {1}, 1, 1, Finding({0})), Find(0, 0),
              LastScene({}, armed, [], {1}, 1, 1, Claiming(0, {})));
    assert armed - {0} == map[];
    WakerActs(how, LastScene({}, armed, [], {1}, 1, 1, Claiming(0, {})), Claim(0),
              LastScene({}, map[], [], {1}, 1, 1, Rousing(0, {})));
    WakerActs(how, LastScene({}, map[], [], {1}, 1, 1, Rousing(0, {})), Rouse(0),
              LastScene({}, map[], [], {0, 1}, 1, 1, Resting));
  }
}
