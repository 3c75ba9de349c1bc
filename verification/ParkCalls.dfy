/** What becomes of the calls and the slots of a side: each call ends in a push or in
    being told of the close, each slot freed is pushed into, stolen or still free, and
    after a close every call ends and nobody falls asleep any more. */
module ParkCalls {
  import opened ParkRegistry
  import opened ParkMachine
  import opened ParkCapacity

  predicate Closes(acts: seq<Action>) {
    exists i :: 0 <= i < |acts| && acts[i].Release? && acts[i].closes
  }

  lemma ClosesFirstOrLater(acts: seq<Action>)
    requires acts != []
    ensures Closes(acts) <==> (acts[0].Release? && acts[0].closes) || Closes(acts[1..])
  {
    if i :| 0 <= i < |acts| && acts[i].Release? && acts[i].closes {
      assert i > 0 ==> acts[1..][i - 1].Release? && acts[1..][i - 1].closes;
    }
    if i :| 0 <= i < |acts[1..]| && acts[1..][i].Release? && acts[1..][i].closes {
      assert acts[i + 1].Release? && acts[i + 1].closes;
    }
  }

  /** A side is closed exactly once somebody has closed it, and for good. */
  lemma {:induction false} ClosedIffSomebodyClosedIt(s: Machine, acts: seq<Action>, t: Machine)
    requires Runs(s, acts, t)
    ensures t.closedBy > 0 <==> s.closedBy > 0 || Closes(acts)
    decreases |acts|
  {
    if acts != [] {
      ClosesFirstOrLater(acts);
      ClosedIffSomebodyClosedIt(Apply(s, acts[0]), acts[1..], t);
      CloseStep(s, acts[0]);
    }
  }

  lemma CloseStep(s: Machine, a: Action)
    requires Enabled(s, a)
    ensures Apply(s, a).closedBy > 0 <==> s.closedBy > 0 || (a.Release? && a.closes)
  {
  }

  /** Nobody comes to a park any more: a thread that had not yet checked for space for the
      last time before it parks. */
  predicate Awake(s: Machine, u: nat) {
    u >= |s.threads| || !s.threads[u].Rechecked()
  }

  /** After a close every question is answered yes, so that a thread which published after
      it, or before it without having asked again, never parks. */
  lemma {:induction false} NobodyParksAfterAClose(s: Machine, acts: seq<Action>, t: Machine, u: nat, gone: bool)
    requires s.closedBy > 0 && Runs(s, acts, t) && Awake(s, u)
    ensures Awake(t, u) && (Enabled(t, Recheck(u, gone)) ==> gone)
    decreases |acts|
  {
    if acts != [] {
      CloseStep(s, acts[0]);
      StaysAwake(s, acts[0], u);
      NobodyParksAfterAClose(Apply(s, acts[0]), acts[1..], t, u, gone);
    }
  }

  lemma StaysAwake(s: Machine, a: Action, u: nat)
    requires s.closedBy > 0 && Enabled(s, a) && Awake(s, u)
    ensures Awake(Apply(s, a), u)
  {
  }

  /** The steps of thread `u`'s own. */
  predicate Own(a: Action, u: nat) {
    match a
    case Enter(t, _) => t == u
    case Leave(t) => t == u
    case Push(t, _) => t == u
    case Seek(t) => t == u
    case ArmHandle(t) => t == u
    case Publish(t) => t == u
    case Recheck(t, _) => t == u
    case Retry(t) => t == u
    case Sleep(t) => t == u
    case Return(t) => t == u
    case Disarm(t) => t == u
    case _ => false
  }

  function ThreadSteps(acts: seq<Action>, u: nat): nat {
    if acts == [] then 0 else (if Own(acts[0], u) then 1 else 0) + ThreadSteps(acts[1..], u)
  }

  /** Other steps leave the thread where it is. */
  lemma OthersMoveMeNot(s: Machine, a: Action, u: nat)
    requires Enabled(s, a) && At(s, u) && !Own(a, u)
    ensures At(Apply(s, a), u) && Apply(s, a).threads[u] == s.threads[u]
  {
  }

  /** Steps of its own a call has left, at most, once the side is closed. */
  function ClosedStepsLeft(pc: Waiting): nat {
    match pc
    case Away => 0
    case Disarming(_, leaving) => if leaving then 1 else 6
    case Published(_) => 2
    case Arming(_) => 3
    case Seeking(_) => 4
    case Trying(_) => 5
    case Parked(_, _, _) => 7
    case Checked(_, _) => 8
  }

  /** At some point of the run the thread is outside a call. */
  predicate Ends(s: Machine, acts: seq<Action>, u: nat)
    decreases |acts|
  {
    && At(s, u)
    && (s.threads[u].Away? || (acts != [] && Enabled(s, acts[0]) && Ends(Apply(s, acts[0]), acts[1..], u)))
  }

  lemma ClosedStep(s: Machine, a: Action, u: nat)
    requires s.closedBy > 0 && Enabled(s, a) && At(s, u) && s.threads[u].InCall() && Own(a, u)
    ensures At(Apply(s, a), u) && ClosedStepsLeft(Apply(s, a).threads[u]) < ClosedStepsLeft(s.threads[u])
  {
  }

  /** Inside a call there is always a step to take. */
  lemma CallHasAStep(s: Machine, u: nat) returns (a: Action)
    requires Reached(PLAIN, s) && At(s, u) && s.threads[u].InCall()
    ensures Own(a, u) && Enabled(s, a)
  {
    match s.threads[u]
    case Trying(_) => a := if s.closedBy > 0 then Leave(u) else Seek(u);
      if s.closedBy == 0 && s.free != {} {
        var x := SomeSlotIsDue(s, u);
        a := Push(u, x);
      }
    case Seeking(slot) => a := if slot.Leased? then ArmHandle(u) else Publish(u);
    case Arming(_) => a := Publish(u);
    case Published(_) => a := Recheck(u, s.closedBy > 0);
    case Checked(_, _) => a := if s.free != {} then Retry(u) else Sleep(u);
    case Parked(_, _, _) => a := Return(u);
    case Disarming(_, _) => a := Disarm(u);
  }

  /** Once the side is closed every call ends within eight steps of its thread's own,
      whatever others do. */
  lemma {:induction false} ClosedCallEnds(s: Machine, acts: seq<Action>, t: Machine, u: nat)
    requires s.closedBy > 0 && At(s, u) && Runs(s, acts, t)
    requires ThreadSteps(acts, u) >= ClosedStepsLeft(s.threads[u])
    ensures Ends(s, acts, u) && ClosedStepsLeft(s.threads[u]) <= 8
    decreases |acts|
  {
    if s.threads[u].InCall() {
      assert ClosedStepsLeft(s.threads[u]) > 0;
      CloseStep(s, acts[0]);
      if Own(acts[0], u) { ClosedStep(s, acts[0], u); } else { OthersMoveMeNot(s, acts[0], u); }
      ClosedCallEnds(Apply(s, acts[0]), acts[1..], t, u);
    }
  }

  /** How often `u` begins a call. */
  function Enters(acts: seq<Action>, u: nat): nat {
    if acts == [] then 0 else (if acts[0].Enter? && acts[0].t == u then 1 else 0) + Enters(acts[1..], u)
  }

  /** How often it pushes. */
  function Pushes(acts: seq<Action>, u: nat): nat {
    if acts == [] then 0 else (if acts[0].Push? && acts[0].t == u then 1 else 0) + Pushes(acts[1..], u)
  }

  predicate Tells(a: Action, u: nat) {
    (a.Leave? && a.t == u) || (a.Recheck? && a.t == u && a.gone)
  }

  /** How often it is told that the side is closed. */
  function Told(acts: seq<Action>, u: nat): nat {
    if acts == [] then 0 else (if Tells(acts[0], u) then 1 else 0) + Told(acts[1..], u)
  }

  function Needs(s: Machine, u: nat): nat {
    if At(s, u) && s.threads[u].InNeed() then 1 else 0
  }

  lemma NeedStep(s: Machine, a: Action, u: nat)
    requires Enabled(s, a)
    ensures Needs(s, u) + (if a.Enter? && a.t == u then 1 else 0)
            == Needs(Apply(s, a), u) + (if a.Push? && a.t == u then 1 else 0) + if Tells(a, u) then 1 else 0
  {
    if At(s, u) && !Own(a, u) { OthersMoveMeNot(s, a, u); }
  }

  /** Every call ends once: in a push, or in being told that the side is closed. */
  lemma {:induction false} CallsEndOnce(s: Machine, acts: seq<Action>, t: Machine, u: nat)
    requires Runs(s, acts, t)
    ensures Needs(s, u) + Enters(acts, u) == Needs(t, u) + Pushes(acts, u) + Told(acts, u)
    decreases |acts|
  {
    if acts != [] {
      NeedStep(s, acts[0], u);
      CallsEndOnce(Apply(s, acts[0]), acts[1..], t, u);
    }
  }

  /** How many slots are freed, and how many taken. */
  function Frees(acts: seq<Action>): nat {
    if acts == [] then 0 else (if acts[0].Release? then acts[0].frees else 0) + Frees(acts[1..])
  }

  function Takes(acts: seq<Action>): nat {
    if acts == [] then 0 else (if acts[0].Push? || acts[0].Steal? then 1 else 0) + Takes(acts[1..])
  }

  predicate Numbered(s: Machine) {
    forall x :: x in s.free ==> x.number <= s.releases
  }

  lemma {:induction false} FreedCount(number: nat, frees: nat)
    ensures |Freed(number, frees)| == frees
  {
    if frees > 0 { FreedCount(number, frees - 1); }
  }

  lemma ReleaseFrees(s: Machine, a: Action)
    requires Enabled(s, a) && a.Release?
    ensures Apply(s, a).free == s.free + Freed(s.releases + 1, a.frees) && Apply(s, a).releases == s.releases + 1
  {
  }

  lemma SlotGoes(s: Machine, a: Action)
    requires Enabled(s, a) && (a.Push? || a.Steal?)
    ensures a.x in s.free && Apply(s, a).free == s.free - {a.x} && Apply(s, a).releases == s.releases
  {
  }

  lemma FreeKept(s: Machine, a: Action)
    requires Enabled(s, a) && !a.Release? && !a.Push? && !a.Steal?
    ensures Apply(s, a).free == s.free && Apply(s, a).releases == s.releases
  {
  }

  lemma CountFreed(free: set<Ticket>, number: nat, frees: nat)
    requires forall x | x in free :: x.number < number
    ensures |free + Freed(number, frees)| == |free| + frees
  {
    FreedCount(number, frees);
    assert free !! Freed(number, frees);
  }

  lemma CountTaken(free: set<Ticket>, x: Ticket)
    requires x in free
    ensures |free - {x}| == |free| - 1
  {
  }

  lemma SlotStep(s: Machine, a: Action)
    requires Enabled(s, a) && Numbered(s)
    ensures Numbered(Apply(s, a))
    ensures |Apply(s, a).free| + (if a.Push? || a.Steal? then 1 else 0) == |s.free| + if a.Release? then a.frees else 0
  {
    hide Apply, Freed, Enabled;
    if a.Release? {
      ReleaseFrees(s, a);
      CountFreed(s.free, s.releases + 1, a.frees);
    } else if a.Push? || a.Steal? {
      SlotGoes(s, a);
      CountTaken(s.free, a.x);
    } else {
      FreeKept(s, a);
    }
  }

  /** Each slot freed is pushed into once, or stolen, or still free. */
  lemma {:induction false} SlotsAreTakenOnce(s: Machine, acts: seq<Action>, t: Machine)
    requires Runs(s, acts, t) && Numbered(s)
    ensures |t.free| + Takes(acts) == |s.free| + Frees(acts)
    decreases |acts|
  {
    if acts != [] {
      SlotStep(s, acts[0]);
      SlotsAreTakenOnce(Apply(s, acts[0]), acts[1..], t);
    }
  }

  /** Steps of its own a call has left while a slot stays free. */
  function StepsToPush(pc: Waiting): nat {
    match pc
    case Away => 0
    case Trying(_) => 1
    case Disarming(_, _) => 2
    case Parked(_, _, _) => 3
    case Checked(_, _) => 3
    case Published(_) => 4
    case Arming(_) => 5
    case Seeking(_) => 6
  }

  /** All along the run the side is open, a slot is free, and `u` is not told otherwise. */
  predicate RoomAlong(s: Machine, acts: seq<Action>, u: nat)
    decreases |acts|
  {
    && s.free != {}
    && (acts != [] ==> Enabled(s, acts[0]) && !Tells(acts[0], u) && RoomAlong(Apply(s, acts[0]), acts[1..], u))
  }

  lemma RoomStep(s: Machine, a: Action, u: nat)
    requires s.free != {} && Enabled(s, a) && Own(a, u) && !Tells(a, u) && At(s, u) && s.threads[u].InNeed()
    ensures At(Apply(s, a), u) && StepsToPush(Apply(s, a).threads[u]) < StepsToPush(s.threads[u])
    ensures Apply(s, a).threads[u].InNeed() || (a.Push? && a.t == u)
  {
  }

  /** Where a slot stays free a call pushes within six steps of its thread's own. */
  lemma {:induction false} RoomIsTaken(s: Machine, acts: seq<Action>, u: nat)
    requires At(s, u) && s.threads[u].InNeed() && RoomAlong(s, acts, u)
    requires ThreadSteps(acts, u) >= StepsToPush(s.threads[u])
    ensures Pushes(acts, u) >= 1 && StepsToPush(s.threads[u]) <= 6
    decreases |acts|
  {
    assert StepsToPush(s.threads[u]) > 0;
    var a, s' := acts[0], Apply(s, acts[0]);
    if Own(a, u) { RoomStep(s, a, u); } else { OthersMoveMeNot(s, a, u); }
    if !(a.Push? && a.t == u) { RoomIsTaken(s', acts[1..], u); }
  }

  lemma RunsFirst(s: Machine, a: Action, acts: seq<Action>, t: Machine)
    requires Enabled(s, a) && Runs(Apply(s, a), acts, t)
    ensures Runs(s, [a] + acts, t)
  {
    assert ([a] + acts)[1..] == acts;
  }

  /** `s` with thread `u` at `pc`. */
  function WithThread(s: Machine, u: nat, pc: Waiting): Machine {
    if At(s, u) then GoTo(s, u, pc) else s
  }

  lemma ThreadAgain(s: Machine, u: nat, pc: Waiting, pc': Waiting)
    requires At(s, u)
    ensures GoTo(WithThread(s, u, pc), u, pc') == WithThread(s, u, pc')
  {
    assert s.threads[u := pc][u := pc'] == s.threads[u := pc'];
  }

  /** What a thread that shows itself on `slot` leaves behind: its handle and the bit, or
      without a slot a node. */
  function Shown(s: Machine, u: nat, slot: ParkSlot): Machine {
    match slot
    case Leased(b) => s.(parkers := s.parkers[b := u], wake := s.wake + {b})
    case Shared => s.(overflow := [u] + s.overflow)
  }

  /** A full ring does block: with nobody else about, a call that finds no space makes
      itself known, looks again, and parks. */
  lemma FullRingBlocks(s: Machine, u: nat, slot: ParkSlot) returns (acts: seq<Action>, t: Machine)
    requires At(s, u) && s.threads[u].Away? && Free(s, slot) && s.free == {} && s.closedBy == 0
    ensures Runs(s, acts, t) && t == WithThread(Shown(s, u, slot), u, Parked(slot, s.releases, s.releases))
  {
    var trying, seeking := WithThread(s, u, Trying(slot)), WithThread(s, u, Seeking(slot));
    ThreadAgain(s, u, Trying(slot), Seeking(slot));
    acts, t := ShowsItselfAndParks(s, u, slot);
    RunsFirst(trying, Seek(u), acts, t);
    acts := [Seek(u)] + acts;
    RunsFirst(s, Enter(u, slot), acts, t);
    acts := [Enter(u, slot)] + acts;
  }

  lemma ShowsItselfAndParks(s: Machine, u: nat, slot: ParkSlot) returns (acts: seq<Action>, t: Machine)
    requires At(s, u) && s.free == {} && s.closedBy == 0
    ensures Runs(WithThread(s, u, Seeking(slot)), acts, t)
    ensures t == WithThread(Shown(s, u, slot), u, Parked(slot, s.releases, s.releases))
  {
    var seeking := WithThread(s, u, Seeking(slot));
    acts, t := LooksAgainAndParks(Shown(s, u, slot), u, slot);
    hide Runs;
    match slot
    case Shared =>
      ThreadAgain(s, u, Seeking(slot), Published(slot));
      assert Apply(seeking, Publish(u)) == WithThread(Shown(s, u, slot), u, Published(slot));
      RunsFirst(seeking, Publish(u), acts, t);
      acts := [Publish(u)] + acts;
    case Leased(b) =>
      var armed := WithThread(s.(parkers := s.parkers[b := u]), u, Arming(slot));
      ThreadAgain(s, u, Seeking(slot), Arming(slot));
      ThreadAgain(s, u, Arming(slot), Published(slot));
      assert Apply(seeking, ArmHandle(u)) == armed;
      assert Apply(armed, Publish(u)) == WithThread(Shown(s, u, slot), u, Published(slot));
      RunsFirst(armed, Publish(u), acts, t);
      acts := [Publish(u)] + acts;
      RunsFirst(seeking, ArmHandle(u), acts, t);
      acts := [ArmHandle(u)] + acts;
  }

  lemma LooksAgainAndParks(s: Machine, u: nat, slot: ParkSlot) returns (acts: seq<Action>, t: Machine)
    requires At(s, u) && s.free == {} && s.closedBy == 0
    ensures Runs(WithThread(s, u, Published(slot)), acts, t)
    ensures t == WithThread(s, u, Parked(slot, s.releases, s.releases))
  {
    var published, checked := WithThread(s, u, Published(slot)), WithThread(s, u, Checked(slot, s.releases));
    ThreadAgain(s, u, Published(slot), Checked(slot, s.releases));
    ThreadAgain(s, u, Checked(slot, s.releases), Parked(slot, s.releases, s.releases));
    t := Apply(checked, Sleep(u));
    RunsFirst(checked, Sleep(u), [], t);
    acts := [Recheck(u, false)] + [Sleep(u)];
    RunsFirst(published, Recheck(u, false), [Sleep(u)], t);
  }
}
