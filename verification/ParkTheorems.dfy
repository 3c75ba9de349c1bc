/** No waiter sleeps unreachable, no release goes unnoticed, and a close strands
    nobody: the invariants of parking, for any number of threads and wakers. */
module ParkTheorems {
  import opened ParkMachine
  import opened ParkRegistry

  /** Some waker has a handle or node of `t` and will unpark it. */
  ghost predicate Held(s: Machine, t: nat) {
    exists w :: 0 <= w < |s.wakers| && s.wakers[w].pc.Holds(t)
  }

  /** Some waker took `bit` and has still to claim the handle behind it. */
  ghost predicate Taken(s: Machine, bit: nat) {
    exists w :: 0 <= w < |s.wakers| && bit in s.wakers[w].pc.Hand()
  }

  predicate Armed(s: Machine, t: nat, slot: ParkSlot) {
    slot.Leased? && slot.bit in s.parkers && s.parkers[slot.bit] == t
  }

  /** A token is there, or on its way by a waker that has already committed. */
  ghost predicate Rescued(s: Machine, t: nat, slot: ParkSlot) {
    t in s.tokens || Held(s, t) || (Armed(s, t, slot) && Taken(s, slot.bit))
  }

  /** Rescued, or a waker that comes by now will find it. */
  ghost predicate Findable(s: Machine, t: nat, slot: ParkSlot) {
    || Rescued(s, t, slot)
    || (Armed(s, t, slot) && slot.bit in s.wake)
    || (slot.Shared? && t in s.overflow)
  }

  /** A leased slot is in use by one thread at a time. */
  predicate Distinct(s: Machine) {
    forall t, u | 0 <= t < u < |s.threads| && s.threads[t].InCall() && s.threads[u].InCall() ::
      s.threads[t].slot.Leased? ==> s.threads[t].slot != s.threads[u].slot
  }

  /** From arming to waking, a thread can be found. */
  ghost predicate Found(s: Machine, t: nat)
    requires At(s, t)
  {
    var pc := s.threads[t];
    && (pc.Arming? ==> Rescued(s, t, pc.slot) || Armed(s, t, pc.slot))
    && (pc.Published? || pc.Rechecked() ==> Findable(s, t, pc.slot))
  }

  /** A thread that checked before a release is rescued by the time a waker has
      looked for waiters on behalf of that release. */
  ghost predicate Noticed(s: Machine, t: nat)
    requires At(s, t)
  {
    var pc := s.threads[t];
    pc.Rechecked() ==>
      && pc.saw <= s.releases
      && (s.closedBy > 0 ==> pc.saw < s.closedBy)
      && (pc.slot.Shared? && pc.saw < s.drained ==> Rescued(s, t, pc.slot))
      && (pc.slot.Leased? && pc.saw < s.cleared ==> Rescued(s, t, pc.slot))
  }

  /** How far a waker's call has got, told by the counters. */
  predicate OnPace(s: Machine, k: Waker) {
    && k.number <= s.releases
    && (!k.pc.Resting? && !k.pc.BeforeStack() ==> k.number <= s.drained)
    && (!k.pc.Resting? && k.flush && !k.pc.BeforeBits() ==> k.number <= s.cleared)
    && (k.pc.Resting? && (k.flush || k.left > 0) ==> k.number <= s.drained && k.number <= s.cleared)
  }

  predicate Progress(s: Machine) {
    && s.closedBy <= s.releases && s.drained <= s.releases && s.cleared <= s.releases
    && forall w :: 0 <= w < |s.wakers| ==> OnPace(s, s.wakers[w])
  }

  /** The closer's flush has been through the stack, or is on its way to it. */
  ghost predicate StackClosed(s: Machine) {
    s.closedBy > 0 && s.drained < s.closedBy ==>
      exists w :: 0 <= w < |s.wakers| && s.wakers[w].number == s.closedBy && s.wakers[w].pc.BeforeStack()
  }

  /** Likewise for the bitmap. */
  ghost predicate BitsClosed(s: Machine) {
    s.closedBy > 0 && s.cleared < s.closedBy ==>
      exists w :: 0 <= w < |s.wakers| && s.wakers[w].number == s.closedBy && s.wakers[w].flush
                  && s.wakers[w].pc.BeforeBits()
  }

  ghost predicate Inv(s: Machine) {
    && Distinct(s) && Progress(s) && StackClosed(s) && BitsClosed(s)
    && (forall t :: 0 <= t < |s.threads| ==> Found(s, t))
    && (forall t :: 0 <= t < |s.threads| ==> Noticed(s, t))
  }

  lemma InvInit()
    ensures Inv(INIT)
  {
  }

  /** A waker keeps what it owes while others move. */
  lemma HeldKept(s: Machine, s': Machine, w: nat, t: nat)
    requires Works(s, w) && |s'.wakers| == |s.wakers|
    requires forall v :: 0 <= v < |s.wakers| && v != w ==> s'.wakers[v] == s.wakers[v]
    requires s.wakers[w].pc.Holds(t) ==> t in s'.tokens || s'.wakers[w].pc.Holds(t)
    requires s.tokens <= s'.tokens
    ensures Held(s, t) ==> t in s'.tokens || Held(s', t)
  {
    if Held(s, t) {
      var v :| 0 <= v < |s.wakers| && s.wakers[v].pc.Holds(t);
      if v != w { assert s'.wakers[v].pc.Holds(t); }
    }
  }

  lemma TakenKept(s: Machine, s': Machine, w: nat, bit: nat)
    requires Works(s, w) && |s'.wakers| == |s.wakers|
    requires forall v :: 0 <= v < |s.wakers| && v != w ==> s'.wakers[v] == s.wakers[v]
    requires bit in s.wakers[w].pc.Hand() ==> bit in s'.wakers[w].pc.Hand()
    ensures Taken(s, bit) ==> Taken(s', bit)
  {
    if Taken(s, bit) {
      var v :| 0 <= v < |s.wakers| && bit in s.wakers[v].pc.Hand();
      if v != w { assert bit in s'.wakers[v].pc.Hand(); }
    }
  }

  /** A waker's step: which, and what it leaves. */
  predicate WakerStep(s: Machine, a: Action, w: nat) {
    a.By(w) && Enabled(s, a)
  }

  /** A rescue under way stays under way at every step of every waker. */
  lemma WakersKeepRescues(s: Machine, a: Action, w: nat, t: nat, slot: ParkSlot)
    requires WakerStep(s, a, w) && Rescued(s, t, slot)
    ensures Rescued(Apply(s, a), t, slot)
  {
    var s' := Apply(s, a);
    HeldKept(s, s', w, t);
    if Armed(s, t, slot) && Taken(s, slot.bit) {
      var b := slot.bit;
      if b in s.wakers[w].pc.Hand() && b !in s'.wakers[w].pc.Hand() {
        assert a.Claim? && b == s.wakers[w].pc.bit && s'.wakers[w].pc.Holds(t);
      } else {
        TakenKept(s, s', w, b);
        if a.Claim? && s.wakers[w].pc.bit == b { assert s'.wakers[w].pc.Holds(t); }
      }
    }
  }

  /** Nor does a waker take a bit or a node off a thread without being committed
      to unpark it. */
  lemma WakersKeepFindable(s: Machine, a: Action, w: nat, t: nat, slot: ParkSlot)
    requires WakerStep(s, a, w) && Findable(s, t, slot)
    ensures Findable(Apply(s, a), t, slot)
    ensures slot.Shared? && Apply(s, a).drained > s.drained ==> Rescued(Apply(s, a), t, slot)
    ensures slot.Leased? && Apply(s, a).cleared > s.cleared ==> Rescued(Apply(s, a), t, slot)
  {
    var s' := Apply(s, a);
    if Rescued(s, t, slot) {
      WakersKeepRescues(s, a, w, t, slot);
    } else if slot.Shared? {
      if a.Take? { assert s'.wakers[w].pc.Holds(t); }
    } else {
      var b := slot.bit;
      if b !in s'.wake { assert b in s'.wakers[w].pc.Hand(); }
      if a.Claim? && s.wakers[w].pc.bit == b { assert s'.wakers[w].pc.Holds(t); }
    }
  }

  lemma WakersKeepArmed(s: Machine, a: Action, w: nat, t: nat, slot: ParkSlot)
    requires WakerStep(s, a, w) && (Rescued(s, t, slot) || Armed(s, t, slot))
    ensures Rescued(Apply(s, a), t, slot) || Armed(Apply(s, a), t, slot)
  {
    var s' := Apply(s, a);
    if Rescued(s, t, slot) {
      WakersKeepRescues(s, a, w, t, slot);
    } else if a.Claim? && s.wakers[w].pc.bit == slot.bit {
      assert s'.wakers[w].pc.Holds(t);
    }
  }

  lemma WakerKeepsPace(s: Machine, a: Action, w: nat)
    requires WakerStep(s, a, w) && Progress(s)
    ensures Works(Apply(s, a), w) && OnPace(Apply(s, a), Apply(s, a).wakers[w])
    ensures s.drained <= Apply(s, a).drained <= Apply(s, a).releases
    ensures s.cleared <= Apply(s, a).cleared <= Apply(s, a).releases
    ensures s.closedBy <= Apply(s, a).closedBy <= Apply(s, a).releases && s.releases <= Apply(s, a).releases
  {
    assert OnPace(s, s.wakers[w]);
  }

  lemma WakerProgress(s: Machine, a: Action, w: nat)
    requires WakerStep(s, a, w) && Progress(s)
    ensures Progress(Apply(s, a))
  {
    var s' := Apply(s, a);
    WakerKeepsPace(s, a, w);
    assert |s'.wakers| == |s.wakers|;
    forall v | 0 <= v < |s.wakers| && v != w ensures OnPace(s', s'.wakers[v]) {
      assert s'.wakers[v] == s.wakers[v] && OnPace(s, s.wakers[v]);
    }
  }

  /** The closer either goes on with its flush or has left its mark on the counters. */
  lemma CloserGoesOn(s: Machine, a: Action, w: nat)
    requires WakerStep(s, a, w) && s.wakers[w].number == s.closedBy > 0
    ensures Apply(s, a).drained < s.closedBy && s.wakers[w].pc.BeforeStack() ==>
              Apply(s, a).wakers[w].number == s.closedBy && Apply(s, a).wakers[w].pc.BeforeStack()
    ensures Apply(s, a).cleared < s.closedBy && s.wakers[w].flush && s.wakers[w].pc.BeforeBits() ==>
              var k := Apply(s, a).wakers[w]; k.number == s.closedBy && k.flush && k.pc.BeforeBits()
  {
  }

  lemma WakerClosesStack(s: Machine, a: Action, w: nat)
    requires WakerStep(s, a, w) && Progress(s) && StackClosed(s)
    ensures StackClosed(Apply(s, a))
  {
    var s' := Apply(s, a);
    WakerKeepsPace(s, a, w);
    if s.closedBy == 0 {
      assert s'.closedBy > 0 ==> s'.wakers[w].number == s'.closedBy && s'.wakers[w].pc.BeforeStack();
    } else if s.drained < s.closedBy {
      var v :| 0 <= v < |s.wakers| && s.wakers[v].number == s.closedBy && s.wakers[v].pc.BeforeStack();
      if v == w { CloserGoesOn(s, a, w); } else { assert s'.wakers[v] == s.wakers[v]; }
    }
  }

  lemma WakerClosesBits(s: Machine, a: Action, w: nat)
    requires WakerStep(s, a, w) && Progress(s) && BitsClosed(s)
    ensures BitsClosed(Apply(s, a))
  {
    var s' := Apply(s, a);
    WakerKeepsPace(s, a, w);
    if s.closedBy == 0 {
      assert s'.closedBy > 0 ==>
               s'.wakers[w].number == s'.closedBy && s'.wakers[w].flush && s'.wakers[w].pc.BeforeBits();
    } else if s.cleared < s.closedBy {
      var v :| 0 <= v < |s.wakers| && s.wakers[v].number == s.closedBy && s.wakers[v].flush
               && s.wakers[v].pc.BeforeBits();
      if v == w { CloserGoesOn(s, a, w); } else { assert s'.wakers[v] == s.wakers[v]; }
    }
  }

  lemma InvWakerStep(s: Machine, a: Action, w: nat)
    requires WakerStep(s, a, w) && Inv(s)
    ensures Inv(Apply(s, a))
  {
    var s' := Apply(s, a);
    WakerProgress(s, a, w);
    WakerClosesStack(s, a, w);
    WakerClosesBits(s, a, w);
    assert s'.threads == s.threads;
    forall t | 0 <= t < |s.threads| ensures Found(s', t) {
      var pc := s.threads[t];
      assert Found(s, t);
      if pc.Arming? {
        WakersKeepArmed(s, a, w, t, pc.slot);
      } else if pc.Published? || pc.Rechecked() {
        WakersKeepFindable(s, a, w, t, pc.slot);
      }
    }
    forall t | 0 <= t < |s.threads| ensures Noticed(s', t) {
      var pc := s.threads[t];
      assert Found(s, t) && Noticed(s, t);
      if pc.Rechecked() {
        WakersKeepFindable(s, a, w, t, pc.slot);
        if Rescued(s, t, pc.slot) { WakersKeepRescues(s, a, w, t, pc.slot); }
      }
    }
  }

  /** The steps a thread takes inside its own call. */
  predicate ThreadStep(s: Machine, a: Action, t: nat) {
    && Enabled(s, a) && t < |s.threads|
    && match a
       case Enter(u, _) => u == t
       case Leave(u) => u == t
       case ArmHandle(u) => u == t
       case Publish(u) => u == t
       case Recheck(u, _) => u == t
       case Retry(u) => u == t
       case Push(u, _) => u == t
       case Seek(u) => u == t
       case Sleep(u) => u == t
       case Return(u) => u == t
       case Disarm(u) => u == t
       case _ => false
  }

  /** The thread is inside a call on this slot. */
  predicate OnSlot(s: Machine, t: nat, bit: nat) {
    At(s, t) && s.threads[t].InCall() && s.threads[t].slot == Leased(bit)
  }

  /** A thread's own step reaches its own record, the handle and the bit of its own
      slot, its own token, and the top of the overflow stack. */
  predicate OwnReach(s: Machine, s': Machine, t: nat)
    requires At(s, t)
  {
    && |s'.threads| == |s.threads| && (forall u :: 0 <= u < |s.threads| && u != t ==> s'.threads[u] == s.threads[u])
    && s'.wakers == s.wakers && s'.releases == s.releases && s'.closedBy == s.closedBy
    && s'.drained == s.drained && s'.cleared == s.cleared
    && s.tokens <= s'.tokens + {t}
    && (forall x :: x in s.overflow ==> x in s'.overflow)
    && (forall b :: b in s.wake && !OnSlot(s, t, b) ==> b in s'.wake)
    && (forall b :: b in s.parkers && !OnSlot(s, t, b) ==> b in s'.parkers && s'.parkers[b] == s.parkers[b])
  }

  lemma ThreadsReach(s: Machine, a: Action, t: nat)
    requires ThreadStep(s, a, t)
    ensures OwnReach(s, Apply(s, a), t)
  {
  }

  /** So it takes nothing from another thread, whose bit, handle and nodes are its own. */
  lemma OthersUntouched(s: Machine, a: Action, t: nat, u: nat)
    requires ThreadStep(s, a, t) && Distinct(s) && u != t && At(s, u) && Found(s, u) && Noticed(s, u)
    ensures At(Apply(s, a), u) && Found(Apply(s, a), u) && Noticed(Apply(s, a), u)
  {
    var s' := Apply(s, a);
    var pc := s.threads[u];
    ThreadsReach(s, a, t);
    hide Apply, ThreadStep;
    assert s'.threads[u] == pc;
    assert forall x :: Held(s, x) ==> Held(s', x);
    assert forall b :: Taken(s, b) ==> Taken(s', b);
    if pc.Committed() {
      assert pc.slot.Leased? && s.threads[t].InCall() ==> s.threads[t].slot != pc.slot;
      assert Armed(s, u, pc.slot) ==> Armed(s', u, pc.slot);
      assert Rescued(s, u, pc.slot) ==> Rescued(s', u, pc.slot);
    }
  }

  lemma RescueStays(s: Machine, a: Action, t: nat, slot: ParkSlot)
    requires ThreadStep(s, a, t) && !a.Return? && !a.ArmHandle? && Rescued(s, t, slot)
    ensures Rescued(Apply(s, a), t, slot)
  {
    var s' := Apply(s, a);
    assert s'.wakers == s.wakers;
    assert Held(s, t) ==> Held(s', t);
    assert slot.Leased? && Taken(s, slot.bit) ==> Taken(s', slot.bit);
  }

  lemma OwnStep(s: Machine, a: Action, t: nat)
    requires ThreadStep(s, a, t) && Inv(s)
    ensures At(Apply(s, a), t) && Found(Apply(s, a), t) && Noticed(Apply(s, a), t)
  {
    var s' := Apply(s, a);
    var pc := s.threads[t];
    assert Found(s, t) && Noticed(s, t) && Progress(s);
    if pc.Committed() && !a.Return? && Rescued(s, t, pc.slot) {
      RescueStays(s, a, t, pc.slot);
    }
    hide Inv, Rescued;
    assert Found(s', t) && Noticed(s', t);
  }

  lemma DistinctStep(s: Machine, a: Action, t: nat)
    requires ThreadStep(s, a, t) && Distinct(s)
    ensures Distinct(Apply(s, a))
  {
  }

  lemma InvThreadStep(s: Machine, a: Action, t: nat)
    requires ThreadStep(s, a, t) && Inv(s)
    ensures Inv(Apply(s, a))
  {
    var s' := Apply(s, a);
    DistinctStep(s, a, t);
    assert s'.wakers == s.wakers && |s'.threads| == |s.threads|;
    OwnStep(s, a, t);
    forall u | 0 <= u < |s.threads| && u != t ensures Found(s', u) && Noticed(s', u) {
      OthersUntouched(s, a, t, u);
    }
  }

  lemma InvArrival(s: Machine, a: Action)
    requires Enabled(s, a) && (a.NewThread? || a.NewWaker? || a.Steal?) && Inv(s)
    ensures Inv(Apply(s, a))
  {
    var s' := Apply(s, a);
    assert forall w :: 0 <= w < |s.wakers| ==> s'.wakers[w] == s.wakers[w];
    assert forall x :: Held(s, x) ==> Held(s', x);
    assert forall b :: Taken(s, b) ==> Taken(s', b);
    forall u | 0 <= u < |s'.threads| ensures Found(s', u) && Noticed(s', u) {
      if u < |s.threads| {
        assert s'.threads[u] == s.threads[u] && Found(s, u) && Noticed(s, u);
        assert s.threads[u].Committed() && Rescued(s, u, s.threads[u].slot) ==> Rescued(s', u, s.threads[u].slot);
      }
    }
  }

  lemma InvStep(s: Machine, a: Action)
    requires Enabled(s, a) && Inv(s)
    ensures Inv(Apply(s, a))
  {
    match a
    case NewThread => InvArrival(s, a);
    case NewWaker => InvArrival(s, a);
    case Enter(t, _) => InvThreadStep(s, a, t);
    case Leave(t) => InvThreadStep(s, a, t);
    case ArmHandle(t) => InvThreadStep(s, a, t);
    case Publish(t) => InvThreadStep(s, a, t);
    case Recheck(t, _) => InvThreadStep(s, a, t);
    case Retry(t) => InvThreadStep(s, a, t);
    case Push(t, _) => InvThreadStep(s, a, t);
    case Seek(t) => InvThreadStep(s, a, t);
    case Steal(_) => InvArrival(s, a);
    case Sleep(t) => InvThreadStep(s, a, t);
    case Return(t) => InvThreadStep(s, a, t);
    case Disarm(t) => InvThreadStep(s, a, t);
    case Release(w, _, _, _, _) => InvWakerStep(s, a, w);
    case Glance(w) => InvWakerStep(s, a, w);
    case Take(w) => InvWakerStep(s, a, w);
    case Unpark(w) => InvWakerStep(s, a, w);
    case Look(w, _) => InvWakerStep(s, a, w);
    case PassOver(w) => InvWakerStep(s, a, w);
    case Retire(w) => InvWakerStep(s, a, w);
    case Find(w, _) => InvWakerStep(s, a, w);
    case Claim(w) => InvWakerStep(s, a, w);
    case Rouse(w) => InvWakerStep(s, a, w);
  }

  lemma {:induction false} InvRun(s: Machine, acts: seq<Action>, t: Machine)
    requires Inv(s) && Runs(s, acts, t)
    ensures Inv(t)
    decreases |acts|
  {
    if acts != [] {
      InvStep(s, acts[0]);
      InvRun(Apply(s, acts[0]), acts[1..], t);
    }
  }

  lemma ReachableKeepsInv(s: Machine)
    requires Reachable(s)
    ensures Inv(s)
  {
    var acts: seq<Action> :| Runs(INIT, acts, s);
    InvInit();
    InvRun(INIT, acts, s);
  }

  /** No waiter is ever asleep and unreachable: parked without a token, its
      handle is armed and its bit is set or in a waker's hand, or a waker already
      owns its handle; without a slot, its node is on the stack or in a drainer's
      hands. */
  lemma NobodySleepsUnreachable(s: Machine, t: nat)
    requires Reachable(s) && At(s, t) && s.threads[t].Parked? && t !in s.tokens
    ensures s.threads[t].slot.Leased? ==>
              Held(s, t)
              || (Armed(s, t, s.threads[t].slot)
                  && (s.threads[t].slot.bit in s.wake || Taken(s, s.threads[t].slot.bit)))
    ensures s.threads[t].slot.Shared? ==> t in s.overflow || Held(s, t)
  {
    ReachableKeepsInv(s);
    assert Found(s, t);
  }

  /** No release is missed: once a waker has looked at the stack and the bitmap on
      behalf of release `k`, a thread still asleep either checked again after that
      release or is about to be unparked. */
  lemma NoReleaseIsMissed(s: Machine, t: nat, k: nat)
    requires Reachable(s) && At(s, t) && s.threads[t].Parked? && t !in s.tokens
    requires k <= s.drained && k <= s.cleared
    ensures k <= s.threads[t].saw || Rescued(s, t, s.threads[t].slot)
  {
    ReachableKeepsInv(s);
    assert Noticed(s, t);
  }

  /** A wake that ends still seeking somebody leaves nobody behind: every sleeper
      checked again after its release, or is about to be unparked. */
  lemma UnspentWakeLeavesNobodyBehind(s: Machine, w: nat, t: nat)
    requires Reachable(s) && Works(s, w) && s.wakers[w].pc.Resting? && (s.wakers[w].flush || s.wakers[w].left > 0)
    requires At(s, t) && s.threads[t].Parked?
    ensures s.wakers[w].number <= s.threads[t].saw || Rescued(s, t, s.threads[t].slot)
  {
    ReachableKeepsInv(s);
    if t !in s.tokens { NoReleaseIsMissed(s, t, s.wakers[w].number); }
  }

  /** Every waker has finished its call. */
  predicate Quiet(s: Machine) {
    forall w :: 0 <= w < |s.wakers| ==> s.wakers[w].pc.Resting?
  }

  /** A close strands nobody: with no waker mid-call, no thread of a closed side
      is parked without a token. */
  lemma CloseStrandsNobody(s: Machine, t: nat)
    requires Reachable(s) && s.closedBy > 0 && Quiet(s) && At(s, t) && s.threads[t].Parked?
    ensures t in s.tokens
  {
    ReachableKeepsInv(s);
    assert Noticed(s, t);
    assert s.drained >= s.closedBy && s.cleared >= s.closedBy;
  }

  /** Even while others are mid-call: once the closer's flush has been through the
      stack and swapped the bitmap out, every sleeper's unpark is on its way. */
  lemma FlushReachesEverySleeper(s: Machine, t: nat)
    requires Reachable(s) && s.closedBy > 0 && At(s, t) && s.threads[t].Parked?
    requires forall w :: 0 <= w < |s.wakers| && s.wakers[w].number == s.closedBy ==> !s.wakers[w].pc.BeforeBits()
    ensures Rescued(s, t, s.threads[t].slot)
  {
    ReachableKeepsInv(s);
    assert Noticed(s, t);
  }

  /** Steps a waker has left, at most, before it unparks whoever it owes. */
  function Rank(k: Waking): nat {
    match k
    case Draining(nodes) => |nodes| + 1
    case Finding(bits) => 3 * |bits|
    case Claiming(_, bits) => 3 * |bits| + 2
    case Rousing(_, bits) => 3 * |bits| + 1
    case _ => 0
  }

  /** Along the run `t` stays parked with no token. */
  predicate SleepsThrough(s: Machine, acts: seq<Action>, t: nat)
    decreases |acts|
  {
    && At(s, t) && s.threads[t].Parked? && t !in s.tokens
    && (acts != [] ==> Enabled(s, acts[0]) && SleepsThrough(Apply(s, acts[0]), acts[1..], t))
  }

  function OwnSteps(acts: seq<Action>, w: nat): nat {
    if acts == [] then 0 else (if acts[0].By(w) then 1 else 0) + OwnSteps(acts[1..], w)
  }

  lemma OthersLeaveMeAlone(s: Machine, a: Action, w: nat)
    requires Enabled(s, a) && Works(s, w) && !a.By(w)
    ensures Works(Apply(s, a), w) && Apply(s, a).wakers[w] == s.wakers[w]
  {
  }

  lemma HolderAdvances(s: Machine, a: Action, w: nat, t: nat)
    requires Enabled(s, a) && Works(s, w) && s.wakers[w].pc.Holds(t) && t !in Apply(s, a).tokens
    ensures Works(Apply(s, a), w) && Apply(s, a).wakers[w].pc.Holds(t)
    ensures a.By(w) ==> Rank(Apply(s, a).wakers[w].pc) < Rank(s.wakers[w].pc)
    ensures !a.By(w) ==> Apply(s, a).wakers[w] == s.wakers[w]
  {
    if a.By(w) {
      assert if s.wakers[w].pc.Rousing? then a.Rouse? else a.Unpark?;
    } else {
      OthersLeaveMeAlone(s, a, w);
    }
  }

  /** A waker that holds a thread unparks it within its next few steps, whatever
      anyone else does. */
  lemma {:induction false} HolderDelivers(s: Machine, acts: seq<Action>, w: nat, t: nat)
    requires Works(s, w) && s.wakers[w].pc.Holds(t) && SleepsThrough(s, acts, t)
    ensures OwnSteps(acts, w) < Rank(s.wakers[w].pc)
    decreases |acts|
  {
    if acts != [] {
      HolderAdvances(s, acts[0], w, t);
      HolderDelivers(Apply(s, acts[0]), acts[1..], w, t);
    }
  }

  lemma ClaimantMoves(s: Machine, a: Action, w: nat, t: nat, b: nat)
    requires Enabled(s, a) && Works(s, w) && b in s.wakers[w].pc.Hand() && a.By(w) && Armed(s, t, Leased(b))
    ensures Works(Apply(s, a), w) && Rank(Apply(s, a).wakers[w].pc) < Rank(s.wakers[w].pc)
    ensures Armed(Apply(s, a), t, Leased(b)) ==> b in Apply(s, a).wakers[w].pc.Hand()
    ensures !Armed(Apply(s, a), t, Leased(b)) ==> Held(Apply(s, a), t)
  {
    var s' := Apply(s, a);
    assert match s.wakers[w].pc
      case Finding(_) => a.Find?
      case Claiming(_, _) => a.Claim?
      case _ => a.Rouse?;
    if a.Find? { BitsShrink(s.wakers[w].pc.bits, a.bit); }
    if a.Claim? && s.wakers[w].pc.bit == b {
      assert s'.wakers[w].pc.Holds(t);
    }
  }

  /** An armed sleeper's handle stays where it is until a waker claims it. */
  lemma HandleStays(s: Machine, a: Action, t: nat, b: nat)
    requires Enabled(s, a) && Distinct(s) && At(s, t) && s.threads[t].Parked? && s.threads[t].slot == Leased(b)
    requires Armed(s, t, Leased(b))
    ensures Armed(Apply(s, a), t, Leased(b)) || Held(Apply(s, a), t)
  {
    if a.Claim? && s.wakers[a.w].pc.bit == b {
      assert Apply(s, a).wakers[a.w].pc.Holds(t);
    }
  }

  lemma BitsShrink(bits: set<nat>, b: nat)
    requires b in bits
    ensures |bits - {b}| == |bits| - 1
  {
  }

  /** A waker that took a sleeper's bit claims its handle and unparks it within its
      next few steps, unless another waker claimed the handle first and is about to. */
  lemma {:induction false} TakerDelivers(s: Machine, acts: seq<Action>, w: nat, t: nat, b: nat, end: Machine)
    requires Inv(s) && Works(s, w) && b in s.wakers[w].pc.Hand() && SleepsThrough(s, acts, t) && Runs(s, acts, end)
    requires s.threads[t].slot == Leased(b) && Armed(s, t, Leased(b))
    ensures OwnSteps(acts, w) <= Rank(s.wakers[w].pc) || Held(end, t)
    decreases |acts|
  {
    if acts != [] {
      var s' := Apply(s, acts[0]);
      HandleStays(s, acts[0], t, b);
      if acts[0].By(w) { ClaimantMoves(s, acts[0], w, t, b); } else { OthersLeaveMeAlone(s, acts[0], w); }
      InvStep(s, acts[0]);
      assert s'.threads[t].slot == Leased(b);
      if Armed(s', t, Leased(b)) {
        TakerDelivers(s', acts[1..], w, t, b, end);
      } else {
        HeldToTheEnd(s', acts[1..], t, end);
      }
    }
  }

  /** A rescue arrives: however long the others keep moving, a waker committed to
      a sleeper unparks it within a bounded number of its own steps, or hands the
      duty to one that will. A committed waker always has a step to take. */
  lemma SleeperIsUnparked(s: Machine, acts: seq<Action>, t: nat, end: Machine) returns (w: nat, a: Action)
    requires Reachable(s) && SleepsThrough(s, acts, t) && Runs(s, acts, end)
    requires Rescued(s, t, s.threads[t].slot)
    ensures Works(s, w) && a.By(w) && Enabled(s, a)
    ensures OwnSteps(acts, w) <= Rank(s.wakers[w].pc) || Held(end, t)
  {
    ReachableKeepsInv(s);
    if Held(s, t) {
      w :| 0 <= w < |s.wakers| && s.wakers[w].pc.Holds(t);
      a := if s.wakers[w].pc.Rousing? then Rouse(w) else Unpark(w);
      HolderDelivers(s, acts, w, t);
    } else {
      var b := s.threads[t].slot.bit;
      w :| 0 <= w < |s.wakers| && b in s.wakers[w].pc.Hand();
      a := match s.wakers[w].pc
        case Finding(_) => Find(w, b)
        case Claiming(_, _) => Claim(w)
        case _ => Rouse(w);
      TakerDelivers(s, acts, w, t, b, end);
    }
  }

  lemma {:induction false} HeldToTheEnd(s: Machine, acts: seq<Action>, t: nat, end: Machine)
    requires Held(s, t) && SleepsThrough(s, acts, t) && Runs(s, acts, end)
    ensures Held(end, t)
    decreases |acts|
  {
    if acts != [] {
      var w :| 0 <= w < |s.wakers| && s.wakers[w].pc.Holds(t);
      HolderAdvances(s, acts[0], w, t);
      HeldToTheEnd(Apply(s, acts[0]), acts[1..], t, end);
    }
  }
}
