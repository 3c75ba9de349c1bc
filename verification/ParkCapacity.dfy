/** As many deliveries as freed slots are enough: while a producer sleeps, every free
    slot has somebody on the way to it, so that once all is quiet a sleeper means a
    full ring. It takes that no wake passes waiters over and that nobody is told early
    that the side is closed, and no less. */
module ParkCapacity {
  import opened ParkRegistry
  import opened ParkMachine
  import opened ParkTheorems

  /** A thread is told that the side is closed while it is open. */
  predicate Early(s: Machine, a: Action) {
    s.closedBy == 0 && (a.Leave? || (a.Recheck? && a.gone))
  }

  /** What a ring's wakes and questions may do: pass waiters over, which spends a slot on
      nobody, and answer early, so that a thread woken for a slot gives up. */
  datatype Manners = Manners(routed: bool, early: bool)
  {
    /** Neither. */
    predicate Plain() { !routed && !early }
  }

  const PLAIN: Manners := Manners(false, false)

  predicate Minds(how: Manners, s: Machine, a: Action) {
    && (a.PassOver? ==> how.routed)
    && (Early(s, a) ==> how.early)
  }

  /** The handle at `bit` is of a thread that no longer waits there. */
  predicate Stale(s: Machine, bit: nat) {
    bit in s.parkers && !WaitsAt(s, s.parkers[bit], bit)
  }

  /** How many slots a wake has yet to hand out: the one it is rousing a thread for
      is handed out already. */
  function Unhanded(k: Waker): nat {
    if k.pc.Rousing? && k.left > 0 then k.left - 1 else k.left
  }

  /** A waker that has still to see, or to take, what it came for on behalf of the
      slot `x`, and, if `x` is next, has not put its hand on a stale handle. */
  predicate Going(s: Machine, w: nat, x: Ticket)
    requires Works(s, w)
  {
    var k := s.wakers[w];
    && k.number == x.number
    && if k.flush then k.pc.BeforeBits()
       else
         && x.i < Unhanded(k) && !k.pc.Resting?
         && (x == k.NextSlot() ==> forall b :: b in k.pc.Hand() ==> !Stale(s, b))
  }

  /** Deliveries are made one at a time: a wake that is no flush has one bit in hand at
      most, and one delivery at least to make. */
  predicate OneByOne(k: Waker) {
    k.flush || match k.pc
      case Retiring(_) => k.left > 0
      case Finding(bits) => k.left > 0 && forall b, c :: b in bits && c in bits ==> b == c
      case Claiming(_, bits) => k.left > 0 && bits == {}
      case Rousing(_, bits) => k.left > 0 && bits == {}
      case _ => true
  }

  predicate Carries(s: Machine, u: nat, x: Ticket) {
    At(s, u) && s.threads[u].InNeed() && u in s.carry && s.carry[u] == x
  }

  /** Somebody is on the way to the free slot `x`: its waker, or a thread woken for
      it that has still to look. */
  ghost predicate Guarded(s: Machine, x: Ticket) {
    || (exists w :: 0 <= w < |s.wakers| && Going(s, w, x))
    || (exists u :: 0 <= u < |s.threads| && Carries(s, u, x))
  }

  /** Asleep, and nobody is about to wake it. */
  ghost predicate Sleeps(s: Machine, t: nat) {
    At(s, t) && s.threads[t].Parked? && !Rescued(s, t, s.threads[t].slot)
  }

  /** The last wake the thread was given while waiting is for a slot still free. */
  predicate Owed(s: Machine, u: nat) {
    u in s.carry && s.carry[u] in s.free
  }

  /** Tickets are told apart by their release, and each wake hands its own out in turn. */
  predicate Tickets(s: Machine) {
    && (forall x :: x in s.free ==> 0 < x.number <= s.releases)
    && (forall u :: u in s.carry ==> u < |s.threads| && s.carry[u].number <= s.releases)
    && (forall w :: 0 <= w < |s.wakers| ==> OneByOne(s.wakers[w]))
  }

  /** What a thread's own slot shows of it while the side is open. */
  predicate InOrder(s: Machine, u: nat)
    requires At(s, u)
  {
    var pc := s.threads[u];
    && (pc.Disarming? ==> !pc.leaving)
    && (pc.Away? || pc.Seeking? ==> !Owed(s, u))
    && (pc.InCall() && Armed(s, u, pc.slot) ==> !Owed(s, u))
    && ((pc.Committed() || pc.Disarming?) && pc.slot.Leased? && pc.slot.bit in s.parkers ==>
          s.parkers[pc.slot.bit] == u)
    && (pc.Parked? ==> pc.saw <= pc.slept <= s.releases && forall x :: x in s.free ==> pc.slept < x.number)
  }

  /** While a thread is about to arm, no wake for a free slot has its hand on the
      handle it armed last. */
  predicate Unbound(s: Machine, u: nat)
    requires At(s, u)
  {
    (s.threads[u].Seeking? || s.threads[u].Arming?) && s.threads[u].slot.Leased? ==>
      forall w :: 0 <= w < |s.wakers| ==> !Bound(s, w, s.threads[u].slot.bit)
  }

  /** A thread parked on what it is owed is about to be unparked. */
  ghost predicate Prompt(s: Machine, u: nat)
    requires At(s, u)
  {
    s.threads[u].Parked? && Owed(s, u) ==> u in s.tokens || Held(s, u)
  }

  /** A set bit is of a thread that published it and has not cleared it. */
  ghost predicate Shown(s: Machine, bit: nat) {
    exists u :: 0 <= u < |s.threads| && (s.threads[u].Published? || s.threads[u].Rechecked() || s.threads[u].Disarming?)
                && s.threads[u].slot == Leased(bit)
  }

  /** At most one wake for a free slot has its hand on a handle, and none while
      the bit in front of it is set. */
  ghost predicate OneBound(s: Machine) {
    && (forall w, v, b :: 0 <= w < |s.wakers| && 0 <= v < |s.wakers| && Bound(s, w, b) && Bound(s, v, b) ==> w == v)
    && (forall w, b :: 0 <= w < |s.wakers| && b in s.wake ==> !Bound(s, w, b))
  }

  ghost predicate Open(s: Machine) {
    && Tickets(s) && OneBound(s)
    && (forall u :: 0 <= u < |s.threads| ==> InOrder(s, u) && Unbound(s, u) && Prompt(s, u))
    && (forall b :: b in s.wake ==> Shown(s, b))
    && (forall t: nat, x :: Sleeps(s, t) && x in s.free ==> Guarded(s, x))
  }

  ghost predicate Capacity(s: Machine) {
    s.closedBy == 0 ==> Open(s)
  }

  /** A thread that shows itself at a slot leaves no stale handle there. */
  lemma ShownMeansFresh(s: Machine, bit: nat)
    requires Open(s) && Shown(s, bit)
    ensures !Stale(s, bit)
  {
    var u :| 0 <= u < |s.threads| && (s.threads[u].Published? || s.threads[u].Rechecked() || s.threads[u].Disarming?)
             && s.threads[u].slot == Leased(bit);
    assert InOrder(s, u);
  }

  /** A waker's step leaves threads and other wakers alone. */
  lemma WakerReach(s: Machine, a: Action, w: nat)
    requires WakerStep(s, a, w)
    ensures Apply(s, a).threads == s.threads && |Apply(s, a).wakers| == |s.wakers|
    ensures forall v :: 0 <= v < |s.wakers| && v != w ==> Apply(s, a).wakers[v] == s.wakers[v]
  {
  }

  /** It sets no bit and arms no handle, and frees nothing but what it releases. */
  lemma WakerFrees(s: Machine, a: Action, w: nat)
    requires WakerStep(s, a, w)
    ensures var s' := Apply(s, a);
            && s.releases <= s'.releases && s'.wake <= s.wake && s.free <= s'.free
            && (forall b :: b in s'.parkers ==> b in s.parkers && s'.parkers[b] == s.parkers[b])
            && |s'.wakers| == |s.wakers|
            && (!a.Release? ==>
                  && s'.free == s.free && s'.releases == s.releases
                  && s'.wakers[w].number == s.wakers[w].number && s'.wakers[w].flush == s.wakers[w].flush)
  {
  }

  predicate WakerFramed(s: Machine, a: Action, w: nat)
    requires WakerStep(s, a, w)
  {
    var s' := Apply(s, a);
    && s'.threads == s.threads && |s'.wakers| == |s.wakers| && s.releases <= s'.releases
    && (forall v :: 0 <= v < |s.wakers| && v != w ==> s'.wakers[v] == s.wakers[v])
    && s'.wake <= s.wake && s.free <= s'.free
    && (forall b :: b in s'.parkers ==> b in s.parkers && s'.parkers[b] == s.parkers[b])
    && (!a.Release? ==>
          && s'.free == s.free && s'.releases == s.releases
          && s'.wakers[w].number == s.wakers[w].number && s'.wakers[w].flush == s.wakers[w].flush)
  }

  lemma WakerFrame(s: Machine, a: Action, w: nat)
    requires WakerStep(s, a, w)
    ensures WakerFramed(s, a, w)
  {
    WakerReach(s, a, w);
    WakerFrees(s, a, w);
    hide Apply;
  }

  lemma TicketsByWaker(s: Machine, a: Action, w: nat)
    requires WakerStep(s, a, w) && Tickets(s) && Progress(s)
    ensures Tickets(Apply(s, a))
  {
    WakerFrame(s, a, w);
    assert OneByOne(s.wakers[w]) && OnPace(s, s.wakers[w]);
    var s' := Apply(s, a);
    assert OneByOne(s'.wakers[w]);
    forall v | 0 <= v < |s'.wakers| ensures OneByOne(s'.wakers[v]) {
      if v != w { assert OneByOne(s.wakers[v]); }
    }
  }

  lemma OrderByWaker(s: Machine, a: Action, w: nat, u: nat)
    requires WakerStep(s, a, w) && Tickets(s) && At(s, u) && InOrder(s, u) && Unbound(s, u)
    ensures InOrder(Apply(s, a), u)
  {
    WakerFrame(s, a, w);
    var s' := Apply(s, a);
    if Owed(s', u) && !Owed(s, u) {
      var b := s.wakers[w].pc.bit;
      assert a.Claim? && b in s.parkers && s.parkers[b] == u && WaitsAt(s, u, b);
      assert s.threads[u].Seeking? ==> !Bound(s, w, b);
    }
  }

  lemma NotShownByAnother(s: Machine, u: nat, b: nat)
    requires Distinct(s) && At(s, u) && (s.threads[u].Seeking? || s.threads[u].Arming?)
    requires s.threads[u].slot == Leased(b)
    ensures !Shown(s, b)
  {
    assert forall v | 0 <= v < |s.threads| && v != u && s.threads[v].InCall() :: s.threads[v].slot != Leased(b);
  }

  lemma UnboundByWaker(s: Machine, a: Action, w: nat, u: nat)
    requires WakerStep(s, a, w) && Distinct(s) && Progress(s) && Tickets(s) && At(s, u) && Unbound(s, u)
    requires forall b :: b in s.wake ==> Shown(s, b)
    ensures Unbound(Apply(s, a), u)
  {
    WakerFrame(s, a, w);
    var s' := Apply(s, a);
    if (s.threads[u].Seeking? || s.threads[u].Arming?) && s.threads[u].slot.Leased? {
      var b := s.threads[u].slot.bit;
      NotShownByAnother(s, u, b);
      assert b !in s.wake;
      assert !Bound(s, w, b) && OneByOne(s.wakers[w]);
      assert !Bound(s', w, b);
      forall v | 0 <= v < |s.wakers| && v != w ensures !Bound(s', v, b) {
        assert OnPace(s, s.wakers[v]) && !Bound(s, v, b);
      }
    }
  }

  /** A waker puts its hand on a handle only by clearing the bit in front of it. */
  lemma BoundByWaker(s: Machine, a: Action, w: nat)
    requires WakerStep(s, a, w) && Progress(s) && Tickets(s) && OneBound(s)
    ensures OneBound(Apply(s, a))
  {
    WakerFrame(s, a, w);
    assert OneByOne(s.wakers[w]);
    var s' := Apply(s, a);
    forall v, b | 0 <= v < |s.wakers| && Bound(s', v, b)
      ensures Bound(s, v, b) || (a == Retire(w) && v == w && b == s.wakers[w].pc.bit && b in s.wake && b !in s'.wake)
    {
      assert OnPace(s, s.wakers[v]);
    }
  }

  lemma PromptByWaker(s: Machine, a: Action, w: nat, u: nat)
    requires WakerStep(s, a, w) && Tickets(s) && At(s, u) && Prompt(s, u)
    ensures Prompt(Apply(s, a), u)
  {
    WakerFrame(s, a, w);
    var s' := Apply(s, a);
    HeldKept(s, s', w, u);
    if a.Claim? && s.wakers[w].pc.bit in s.parkers && s.parkers[s.wakers[w].pc.bit] == u {
      assert s'.wakers[w].pc.Holds(u);
    }
  }

  /** What a waker's step does to the guard of a slot that was free before it. */
  lemma GuardByWaker(s: Machine, a: Action, w: nat, t: nat, x: Ticket)
    requires WakerStep(s, a, w) && !a.PassOver? && Inv(s) && Open(s)
    requires x in s.free && Sleeps(Apply(s, a), t) && Guarded(s, x)
    ensures Guarded(Apply(s, a), x)
  {
    var s' := Apply(s, a);
    WakerFrame(s, a, w);
    if v :| 0 <= v < |s.wakers| && Going(s, v, x) {
      if v != w {
        assert Going(s', v, x);
      } else {
        OwnGuard(s, a, w, t, x);
      }
    } else {
      var u :| 0 <= u < |s.threads| && Carries(s, u, x);
      assert InOrder(s, u);
      assert Carries(s', u, x);
    }
  }

  /** A waker that finds or leaves the bitmap empty has left nobody asleep who fell
      asleep before its release. */
  lemma NobodySleepsAfterALook(s: Machine, w: nat, bit: nat, t: nat)
    requires Inv(s) && Enabled(s, Look(w, bit)) && (s.wakers[w].flush || (s.wakers[w].left > 0 && s.wake == {}))
    requires At(s, t) && s.threads[t].Parked? && s.threads[t].saw < s.wakers[w].number
    ensures !Sleeps(LookStep(s, w, bit), t)
  {
    InvStep(s, Look(w, bit));
    assert Noticed(LookStep(s, w, bit), t) && OnPace(s, s.wakers[w]);
  }

  /** The waker itself goes on, hands its duty to a waiting thread, or has seen to
      it that nobody sleeps. */
  lemma OwnGuard(s: Machine, a: Action, w: nat, t: nat, x: Ticket)
    requires WakerStep(s, a, w) && !a.PassOver? && Inv(s) && Open(s)
    requires x in s.free && Sleeps(Apply(s, a), t) && Going(s, w, x)
    ensures Guarded(Apply(s, a), x)
  {
    var s', k := Apply(s, a), s.wakers[w];
    WakerFrame(s, a, w);
    assert InOrder(s, t);
    if a.Look? && (k.flush || s.wake == {}) {
      NobodySleepsAfterALook(s, w, a.bit, t);
    } else {
      if a.Retire? && k.pc.bit in s.wake { ShownMeansFresh(s, k.pc.bit); }
      assert forall b :: Stale(s', b) ==> Stale(s, b);
      assert OneByOne(k);
      if a.Claim? && k.pc.bit in s.parkers && x == k.NextSlot() {
        assert k.pc.bit in k.pc.Hand();
        assert Carries(s', s.parkers[k.pc.bit], x);
      } else {
        assert Going(s', w, x);
      }
    }
  }

  lemma CapacityByWaker(s: Machine, a: Action, w: nat)
    requires WakerStep(s, a, w) && !a.PassOver? && Inv(s) && Capacity(s)
    ensures Capacity(Apply(s, a))
  {
    var s' := Apply(s, a);
    WakerFrame(s, a, w);
    if s'.closedBy == 0 {
      TicketsByWaker(s, a, w);
      BoundByWaker(s, a, w);
      forall u | 0 <= u < |s.threads| ensures InOrder(s', u) && Unbound(s', u) && Prompt(s', u) {
        OrderByWaker(s, a, w, u);
        UnboundByWaker(s, a, w, u);
        PromptByWaker(s, a, w, u);
      }
      forall b | b in s'.wake ensures Shown(s', b) {
        assert Shown(s, b);
      }
      forall t: nat, x | Sleeps(s', t) && x in s'.free ensures Guarded(s', x) {
        if x in s.free {
          if Rescued(s, t, s.threads[t].slot) { WakersKeepRescues(s, a, w, t, s.threads[t].slot); }
          assert Sleeps(s, t);
          GuardByWaker(s, a, w, t, x);
        } else {
          assert Going(s', w, x);
        }
      }
    }
  }

  /** A thread's own step touches its own slot, and frees nothing. */
  lemma ThreadFrame(s: Machine, a: Action, u: nat)
    requires ThreadStep(s, a, u)
    ensures var s' := Apply(s, a);
            && |s'.threads| == |s.threads|
            && (forall v :: 0 <= v < |s.threads| && v != u ==> s'.threads[v] == s.threads[v])
            && s'.wakers == s.wakers && s'.carry == s.carry && s'.releases == s.releases && s'.closedBy == s.closedBy
            && s'.free == (if a.Push? then s.free - {a.x} else s.free)
            && s.tokens <= s'.tokens + {u}
            && s'.parkers == (if a.ArmHandle? then s.parkers[s.threads[u].slot.bit := u] else s.parkers)
  {
  }

  lemma OthersInOrder(s: Machine, a: Action, u: nat, v: nat)
    requires ThreadStep(s, a, u) && Distinct(s) && u != v && At(s, v) && InOrder(s, v) && Unbound(s, v) && Prompt(s, v)
    ensures At(Apply(s, a), v) && InOrder(Apply(s, a), v) && Unbound(Apply(s, a), v) && Prompt(Apply(s, a), v)
  {
    ThreadFrame(s, a, u);
    var s' := Apply(s, a);
    assert a.ArmHandle? && s.threads[v].InCall() ==> s.threads[v].slot != s.threads[u].slot;
    assert Held(s, v) ==> Held(s', v);
    if s.threads[v].InCall() && s.threads[v].slot.Leased? {
      var b := s.threads[v].slot.bit;
      assert forall w | 0 <= w < |s.wakers| && Bound(s', w, b) :: Bound(s, w, b);
    }
  }

  lemma SelfInOrder(s: Machine, a: Action, u: nat)
    requires ThreadStep(s, a, u) && s.closedBy == 0 && !Early(s, a) && InOrder(s, u) && Unbound(s, u) && Noticed(s, u)
    ensures At(Apply(s, a), u) && InOrder(Apply(s, a), u) && Unbound(Apply(s, a), u) && Prompt(Apply(s, a), u)
  {
    ThreadFrame(s, a, u);
    var s' := Apply(s, a);
    assert forall w, b | 0 <= w < |s.wakers| && Bound(s', w, b) :: Bound(s, w, b);
  }

  lemma BitsByThread(s: Machine, a: Action, u: nat, b: nat)
    requires ThreadStep(s, a, u) && s.closedBy == 0 && !Early(s, a)
    requires b in Apply(s, a).wake && (b in s.wake ==> Shown(s, b))
    ensures Shown(Apply(s, a), b)
  {
    var s' := Apply(s, a);
    ThreadFrame(s, a, u);
    if b in s.wake {
      var v :| 0 <= v < |s.threads| && (s.threads[v].Published? || s.threads[v].Rechecked() || s.threads[v].Disarming?)
               && s.threads[v].slot == Leased(b);
      assert s'.threads[v].slot == Leased(b);
    } else {
      assert s'.threads[u].Published? && s'.threads[u].slot == Leased(b);
    }
  }

  /** Only a push can leave a handle stale, and then for the wake whose slot it took. */
  lemma GoesOn(s: Machine, a: Action, u: nat, w: nat, x: Ticket)
    requires ThreadStep(s, a, u) && s.closedBy == 0 && !Early(s, a) && Tickets(s) && Distinct(s) && InOrder(s, u)
    requires Works(s, w) && Going(s, w, x) && x in Apply(s, a).free
    ensures Works(Apply(s, a), w) && Going(Apply(s, a), w, x)
  {
    ThreadFrame(s, a, u);
    var s', k := Apply(s, a), s.wakers[w];
    if !k.flush && x == k.NextSlot() {
      forall b | b in k.pc.Hand() ensures !Stale(s', b) {
        assert !Stale(s, b) && Bound(s, w, b);
      }
    }
  }

  lemma GuardByThread(s: Machine, a: Action, u: nat, t: nat, x: Ticket)
    requires ThreadStep(s, a, u) && s.closedBy == 0 && !Early(s, a) && Inv(s) && Open(s)
    requires Sleeps(Apply(s, a), t) && x in Apply(s, a).free
    ensures Guarded(Apply(s, a), x)
  {
    ThreadFrame(s, a, u);
    var s' := Apply(s, a);
    assert t != u;
    var slot := s.threads[t].slot;
    assert Rescued(s, t, slot) ==> Rescued(s', t, slot) by {
      assert Held(s, t) ==> Held(s', t);
      assert slot.Leased? && Taken(s, slot.bit) ==> Taken(s', slot.bit);
      assert a.ArmHandle? ==> s.threads[u].slot != slot;
    }
    assert Sleeps(s, t) && Guarded(s, x) && InOrder(s, u);
    if w :| 0 <= w < |s.wakers| && Going(s, w, x) {
      GoesOn(s, a, u, w, x);
    } else {
      var v :| 0 <= v < |s.threads| && Carries(s, v, x);
      assert Carries(s', v, x);
    }
  }

  lemma BoundByThread(s: Machine, a: Action, u: nat)
    requires ThreadStep(s, a, u) && OneBound(s) && Unbound(s, u)
    ensures OneBound(Apply(s, a))
  {
    ThreadFrame(s, a, u);
    var s' := Apply(s, a);
    assert forall w, b | 0 <= w < |s.wakers| && Bound(s', w, b) :: Bound(s, w, b);
  }

  lemma CapacityByThread(s: Machine, a: Action, u: nat)
    requires ThreadStep(s, a, u) && !Early(s, a) && Inv(s) && Capacity(s)
    ensures Capacity(Apply(s, a))
  {
    var s' := Apply(s, a);
    ThreadFrame(s, a, u);
    if s'.closedBy == 0 {
      assert Unbound(s, u);
      BoundByThread(s, a, u);
      forall v | 0 <= v < |s.threads| ensures InOrder(s', v) && Unbound(s', v) && Prompt(s', v) {
        assert InOrder(s, v) && Unbound(s, v) && Prompt(s, v) && Noticed(s, v);
        if v == u { SelfInOrder(s, a, u); } else { OthersInOrder(s, a, u, v); }
      }
      forall b | b in s'.wake ensures Shown(s', b) {
        BitsByThread(s, a, u, b);
      }
      forall t: nat, x | Sleeps(s', t) && x in s'.free ensures Guarded(s', x) {
        GuardByThread(s, a, u, t, x);
      }
    }
  }

  lemma CapacityByArrival(s: Machine, a: Action)
    requires Enabled(s, a) && (a.NewThread? || a.NewWaker? || a.Steal?) && Inv(s) && Capacity(s)
    ensures Capacity(Apply(s, a))
  {
    var s' := Apply(s, a);
    if s'.closedBy == 0 {
      assert forall v :: 0 <= v < |s.threads| ==> s'.threads[v] == s.threads[v];
      assert forall w :: 0 <= w < |s.wakers| ==> s'.wakers[w] == s.wakers[w];
      assert forall t :: Held(s, t) ==> Held(s', t);
      assert forall b :: Taken(s, b) ==> Taken(s', b);
      ArrivalsInOrder(s, a);
      forall b | b in s'.wake ensures Shown(s', b) {
        var v :| 0 <= v < |s.threads|
                 && (s.threads[v].Published? || s.threads[v].Rechecked() || s.threads[v].Disarming?)
                 && s.threads[v].slot == Leased(b);
        assert s'.threads[v].slot == Leased(b);
      }
      forall t: nat, x | Sleeps(s', t) && x in s'.free ensures Guarded(s', x) {
        var slot := s'.threads[t].slot;
        assert Rescued(s, t, slot) ==> Rescued(s', t, slot);
        assert Sleeps(s, t) && Guarded(s, x);
        ArrivalGuards(s, a, x);
      }
    }
  }

  lemma ArrivalsInOrder(s: Machine, a: Action)
    requires Enabled(s, a) && (a.NewThread? || a.NewWaker? || a.Steal?) && Open(s)
    ensures Tickets(Apply(s, a)) && OneBound(Apply(s, a))
    ensures forall u :: 0 <= u < |Apply(s, a).threads| ==>
              InOrder(Apply(s, a), u) && Unbound(Apply(s, a), u) && Prompt(Apply(s, a), u)
  {
    var s' := Apply(s, a);
    assert forall t :: Held(s, t) ==> Held(s', t) by {
      assert forall w :: 0 <= w < |s.wakers| ==> s'.wakers[w] == s.wakers[w];
    }
    assert forall w, b | 0 <= w < |s'.wakers| && Bound(s', w, b) :: w < |s.wakers| && Bound(s, w, b);
    forall u | 0 <= u < |s'.threads| ensures InOrder(s', u) && Unbound(s', u) && Prompt(s', u) {
      if u < |s.threads| {
        assert InOrder(s, u) && Unbound(s, u) && Prompt(s, u) && s'.threads[u] == s.threads[u];
      }
    }
  }

  lemma ArrivalGuards(s: Machine, a: Action, x: Ticket)
    requires Enabled(s, a) && (a.NewThread? || a.NewWaker? || a.Steal?) && Guarded(s, x)
    ensures Guarded(Apply(s, a), x)
  {
    var s' := Apply(s, a);
    assert forall b :: WaitsAt(s, if b in s.parkers then s.parkers[b] else 0, b) ==>
                         WaitsAt(s', if b in s.parkers then s.parkers[b] else 0, b);
    if w :| 0 <= w < |s.wakers| && Going(s, w, x) {
      assert Going(s', w, x);
    } else {
      var v :| 0 <= v < |s.threads| && Carries(s, v, x);
      assert Carries(s', v, x);
    }
  }

  lemma CapacityStep(s: Machine, a: Action)
    requires Enabled(s, a) && Minds(PLAIN, s, a) && Inv(s) && Capacity(s)
    ensures Capacity(Apply(s, a))
  {
    match a
    case NewThread => CapacityByArrival(s, a);
    case NewWaker => CapacityByArrival(s, a);
    case Steal(_) => CapacityByArrival(s, a);
    case Enter(t, _) => CapacityByThread(s, a, t);
    case Leave(t) => CapacityByThread(s, a, t);
    case Push(t, _) => CapacityByThread(s, a, t);
    case Seek(t) => CapacityByThread(s, a, t);
    case ArmHandle(t) => CapacityByThread(s, a, t);
    case Publish(t) => CapacityByThread(s, a, t);
    case Recheck(t, _) => CapacityByThread(s, a, t);
    case Retry(t) => CapacityByThread(s, a, t);
    case Sleep(t) => CapacityByThread(s, a, t);
    case Return(t) => CapacityByThread(s, a, t);
    case Disarm(t) => CapacityByThread(s, a, t);
    case Release(w, _, _, _, _) => CapacityByWaker(s, a, w);
    case Glance(w) => CapacityByWaker(s, a, w);
    case Take(w) => CapacityByWaker(s, a, w);
    case Unpark(w) => CapacityByWaker(s, a, w);
    case Look(w, _) => CapacityByWaker(s, a, w);
    case Retire(w) => CapacityByWaker(s, a, w);
    case Find(w, _) => CapacityByWaker(s, a, w);
    case Claim(w) => CapacityByWaker(s, a, w);
    case Rouse(w) => CapacityByWaker(s, a, w);
  }

  /** As `Runs`, each step within the manners. */
  predicate RunsSo(how: Manners, s: Machine, acts: seq<Action>, t: Machine)
    decreases |acts|
  {
    if acts == [] then s == t
    else Enabled(s, acts[0]) && Minds(how, s, acts[0]) && RunsSo(how, Apply(s, acts[0]), acts[1..], t)
  }

  ghost predicate Reached(how: Manners, s: Machine) {
    exists acts :: RunsSo(how, INIT, acts, s)
  }

  lemma {:induction false} CapacityRun(s: Machine, acts: seq<Action>, t: Machine)
    requires Inv(s) && Capacity(s) && RunsSo(PLAIN, s, acts, t)
    ensures Inv(t) && Capacity(t)
    decreases |acts|
  {
    if acts != [] {
      InvStep(s, acts[0]);
      CapacityStep(s, acts[0]);
      CapacityRun(Apply(s, acts[0]), acts[1..], t);
    }
  }

  lemma PlainKeepsCapacity(s: Machine)
    requires Reached(PLAIN, s)
    ensures Inv(s) && Capacity(s)
  {
    var acts :| RunsSo(PLAIN, INIT, acts, s);
    InvInit();
    CapacityRun(INIT, acts, s);
  }

  /** No freed slot is wasted on the wrong thread: while a thread sleeps with nobody
      about to wake it, the waker of each free slot is still on its way, or a thread
      it woke has still to look for space. */
  lemma NoFreeSlotIsWasted(s: Machine, t: nat, x: Ticket)
    requires Reached(PLAIN, s) && s.closedBy == 0 && Sleeps(s, t) && x in s.free
    ensures Guarded(s, x)
  {
    PlainKeepsCapacity(s);
  }

  /** All done or asleep. */
  predicate Still(s: Machine) {
    Quiet(s) && forall u :: 0 <= u < |s.threads| && s.threads[u].InCall() ==> s.threads[u].Parked? && u !in s.tokens
  }

  lemma StillGuardsNothing(s: Machine, x: Ticket)
    requires s.closedBy == 0 && Open(s) && Still(s) && x in s.free
    ensures !Guarded(s, x)
  {
    forall u | 0 <= u < |s.threads| ensures !Carries(s, u, x) { assert Prompt(s, u); }
  }

  /** So one delivery per freed slot is enough: with every waker done and every thread
      that is inside a call parked without a token, the ring is full. */
  lemma AsleepMeansFull(s: Machine, t: nat)
    requires Reached(PLAIN, s) && s.closedBy == 0 && Still(s) && At(s, t) && s.threads[t].Parked?
    ensures s.free == {}
  {
    PlainKeepsCapacity(s);
    if x :| x in s.free {
      StillGuardsNothing(s, x);
      NoFreeSlotIsWasted(s, t, x);
    }
  }

  /** Telling the free slots apart takes nothing away: whenever one is free, some
      free slot is due to the thread that looks. */
  lemma SomeSlotIsDue(s: Machine, t: nat) returns (x: Ticket)
    requires Reached(PLAIN, s) && s.closedBy == 0 && At(s, t) && s.threads[t].Trying? && s.free != {}
    ensures Enabled(s, Push(t, x))
  {
    PlainKeepsCapacity(s);
    assert InOrder(s, t);
    if Owed(s, t) {
      x := s.carry[t];
    } else if w :| 0 <= w < |s.wakers| && s.threads[t].slot.Leased? && Bound(s, w, s.threads[t].slot.bit) {
      x := s.wakers[w].NextSlot();
    } else {
      x :| x in s.free;
    }
  }
}
