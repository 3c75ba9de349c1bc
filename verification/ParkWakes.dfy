/** What becomes of the wakes of a side: left to itself each one ends, it delivers no more
    than it was asked for, and nobody is unparked that has not made itself known. */
module ParkWakes {
  import opened ParkMachine

  /** Steps a waker has left, at most, if nobody else moves. */
  function WakeStepsLeft(s: Machine, w: nat): nat
    requires Works(s, w)
  {
    var bits := 6 * |s.wake|;
    match s.wakers[w].pc
    case Resting => 0
    case Glancing => bits + |s.overflow| + 4
    case Taking => bits + |s.overflow| + 3
    case Draining(nodes) => bits + |nodes| + 2
    case Looking => bits + 1
    case Retiring(bit) => if bit in s.wake then bits else bits + 2
    case Finding(hand) => bits + 3 * |hand| + 1
    case Claiming(_, hand) => bits + 3 * |hand| + 3
    case Rousing(_, hand) => bits + 3 * |hand| + 2
  }

  lemma OneFewer(xs: set<nat>, x: nat)
    requires x in xs
    ensures |xs - {x}| == |xs| - 1
  {
  }

  lemma StackStepForward(s: Machine, a: Action, w: nat)
    requires Works(s, w) && a.By(w) && Enabled(s, a) && (s.wakers[w].pc.BeforeStack() || s.wakers[w].pc.Draining?)
    ensures Works(Apply(s, a), w) && WakeStepsLeft(Apply(s, a), w) < WakeStepsLeft(s, w)
  {
  }

  lemma LookForward(s: Machine, a: Action, w: nat)
    requires Works(s, w) && a.By(w) && Enabled(s, a) && s.wakers[w].pc.Looking?
    ensures Works(Apply(s, a), w) && WakeStepsLeft(Apply(s, a), w) < WakeStepsLeft(s, w)
  {
  }

  lemma RetireForward(s: Machine, a: Action, w: nat)
    requires Works(s, w) && a.By(w) && Enabled(s, a) && s.wakers[w].pc.Retiring?
    ensures Works(Apply(s, a), w) && WakeStepsLeft(Apply(s, a), w) < WakeStepsLeft(s, w)
  {
    if s.wakers[w].pc.bit in s.wake { OneFewer(s.wake, s.wakers[w].pc.bit); }
  }

  lemma FindForward(s: Machine, a: Action, w: nat)
    requires Works(s, w) && a.By(w) && Enabled(s, a) && s.wakers[w].pc.Finding?
    ensures Works(Apply(s, a), w) && WakeStepsLeft(Apply(s, a), w) < WakeStepsLeft(s, w)
  {
    OneFewer(s.wakers[w].pc.bits, a.bit);
  }

  lemma HandForward(s: Machine, a: Action, w: nat)
    requires Works(s, w) && a.By(w) && Enabled(s, a) && (s.wakers[w].pc.Claiming? || s.wakers[w].pc.Rousing?)
    ensures Works(Apply(s, a), w) && WakeStepsLeft(Apply(s, a), w) < WakeStepsLeft(s, w)
  {
  }

  lemma WakeStepForward(s: Machine, a: Action, w: nat)
    requires Works(s, w) && a.By(w) && Enabled(s, a) && !s.wakers[w].pc.Resting?
    ensures Works(Apply(s, a), w) && WakeStepsLeft(Apply(s, a), w) < WakeStepsLeft(s, w)
  {
    match s.wakers[w].pc
    case Looking => LookForward(s, a, w);
    case Retiring(_) => RetireForward(s, a, w);
    case Finding(_) => FindForward(s, a, w);
    case Claiming(_, _) => HandForward(s, a, w);
    case Rousing(_, _) => HandForward(s, a, w);
    case _ => StackStepForward(s, a, w);
  }

  /** At some point of the run the waker rests. */
  predicate Rests(s: Machine, acts: seq<Action>, w: nat)
    decreases |acts|
  {
    && Works(s, w)
    && (s.wakers[w].pc.Resting? || (acts != [] && Enabled(s, acts[0]) && Rests(Apply(s, acts[0]), acts[1..], w)))
  }

  /** Left to itself a wake ends, within six steps a set bit and one a node. */
  lemma {:induction false} WakeEndsAlone(s: Machine, acts: seq<Action>, t: Machine, w: nat)
    requires Works(s, w) && Runs(s, acts, t) && (forall i | 0 <= i < |acts| :: acts[i].By(w))
    requires |acts| >= WakeStepsLeft(s, w)
    ensures Rests(s, acts, w)
    decreases |acts|
  {
    if !s.wakers[w].pc.Resting? {
      assert WakeStepsLeft(s, w) > 0 by {
        if s.wakers[w].pc.Retiring? && s.wakers[w].pc.bit in s.wake { OneFewer(s.wake, s.wakers[w].pc.bit); }
      }
      WakeStepForward(s, acts[0], w);
      WakeEndsAlone(Apply(s, acts[0]), acts[1..], t, w);
    }
  }

  /** And it always has a step to take. */
  lemma WakeHasAStep(s: Machine, w: nat) returns (a: Action)
    requires Reachable(s) && Works(s, w) && !s.wakers[w].pc.Resting?
    ensures a.By(w) && Enabled(s, a)
  {
    match s.wakers[w].pc
    case Glancing => a := Glance(w);
    case Taking => a := Take(w);
    case Draining(_) => a := Unpark(w);
    case Looking =>
      if s.wake != {} {
        var bit :| bit in s.wake;
        a := Look(w, bit);
      } else {
        a := Look(w, 0);
      }
    case Retiring(_) => a := Retire(w);
    case Finding(hand) =>
      var acts: seq<Action> :| Runs(INIT, acts, s);
      FindersBusyRun(INIT, acts, s);
      var bit :| bit in hand;
      a := Find(w, bit);
    case Claiming(_, _) => a := Claim(w);
    case Rousing(_, _) => a := Rouse(w);
  }

  /** A waker that goes through bits in hand has one. */
  predicate FindersBusy(s: Machine) {
    forall w | 0 <= w < |s.wakers| && s.wakers[w].pc.Finding? :: s.wakers[w].pc.bits != {}
  }

  lemma FindersBusyStep(s: Machine, a: Action)
    requires Enabled(s, a) && FindersBusy(s)
    ensures FindersBusy(Apply(s, a))
  {
  }

  lemma {:induction false} FindersBusyRun(s: Machine, acts: seq<Action>, t: Machine)
    requires Runs(s, acts, t) && FindersBusy(s)
    ensures FindersBusy(t)
    decreases |acts|
  {
    if acts != [] {
      FindersBusyStep(s, acts[0]);
      FindersBusyRun(Apply(s, acts[0]), acts[1..], t);
    }
  }

  /** The step unparks `u`. */
  predicate Unparks(s: Machine, a: Action, u: nat)
    requires Enabled(s, a)
  {
    match a
    case Unpark(w) => s.wakers[w].pc.nodes != [] && s.wakers[w].pc.nodes[0] == u
    case Rouse(w) => s.wakers[w].pc.thread == u
    case _ => false
  }

  /** Nobody unparks `u` along the run. */
  predicate LeftParked(s: Machine, acts: seq<Action>, u: nat)
    decreases |acts|
  {
    acts != [] && Enabled(s, acts[0]) ==> !Unparks(s, acts[0], u) && LeftParked(Apply(s, acts[0]), acts[1..], u)
  }

  lemma TokenStep(s: Machine, a: Action, u: nat)
    requires Enabled(s, a) && !Unparks(s, a, u)
    ensures u in Apply(s, a).tokens ==> u in s.tokens && a != Return(u)
  {
  }

  /** A token lets one park return: after that there is none until somebody unparks the
      thread again. */
  lemma {:induction false} ReturnTakesTheToken(s: Machine, acts: seq<Action>, t: Machine, u: nat)
    requires Runs(s, acts, t) && LeftParked(s, acts, u) && u in t.tokens
    ensures u in s.tokens && Return(u) !in acts
    decreases |acts|
  {
    if acts != [] {
      ReturnTakesTheToken(Apply(s, acts[0]), acts[1..], t, u);
      TokenStep(s, acts[0], u);
    }
  }

  /** Unparks the first `n` wakers have still to give. */
  function InHand(wakers: seq<Waker>, n: nat): nat
    requires n <= |wakers|
  {
    if n == 0 then 0 else InHand(wakers, n - 1) + Owes(wakers[n - 1].pc)
  }

  function Owes(pc: Waking): nat {
    match pc
    case Rousing(_, _) => 1
    case Draining(nodes) => |nodes|
    case _ => 0
  }

  lemma {:induction false} InHandUpdate(wakers: seq<Waker>, n: nat, w: nat, k: Waker)
    requires w < n <= |wakers|
    ensures InHand(wakers[w := k], n) + Owes(wakers[w].pc) == InHand(wakers, n) + Owes(k.pc)
  {
    if w < n - 1 { InHandUpdate(wakers, n - 1, w, k); } else { InHandFrame(wakers, wakers[w := k], w); }
  }

  lemma {:induction false} InHandFrame(wakers: seq<Waker>, wakers': seq<Waker>, n: nat)
    requires n <= |wakers| && n <= |wakers'| && forall i | 0 <= i < n :: wakers'[i] == wakers[i]
    ensures InHand(wakers', n) == InHand(wakers, n)
  {
    if n > 0 { InHandFrame(wakers, wakers', n - 1); }
  }

  /** All the unparks to come: a handle armed, a node on the stack, or one already in some
      waker's hand. */
  function Due(s: Machine): nat {
    |s.parkers| + |s.overflow| + InHand(s.wakers, |s.wakers|)
  }

  /** How many unparks the run gives. */
  function Given(s: Machine, acts: seq<Action>): nat
    decreases |acts|
  {
    if acts == [] || !Enabled(s, acts[0]) then 0
    else (if GivesOne(s, acts[0]) then 1 else 0) + Given(Apply(s, acts[0]), acts[1..])
  }

  predicate GivesOne(s: Machine, a: Action)
    requires Enabled(s, a)
  {
    a.Rouse? || (a.Unpark? && s.wakers[a.w].pc.nodes != [])
  }

  /** How often a thread makes itself known along it, by its handle or by a node. */
  function Shows(s: Machine, acts: seq<Action>): nat
    decreases |acts|
  {
    if acts == [] || !Enabled(s, acts[0]) then 0
    else (if ShowsItself(s, acts[0]) then 1 else 0) + Shows(Apply(s, acts[0]), acts[1..])
  }

  predicate ShowsItself(s: Machine, a: Action)
    requires Enabled(s, a)
  {
    a.ArmHandle? || (a.Publish? && s.threads[a.t].slot.Shared?)
  }

  /** A step of some waker's own. */
  predicate OfAWaker(a: Action) {
    || a.Release? || a.Glance? || a.Take? || a.Unpark? || a.Look?
    || a.PassOver? || a.Retire? || a.Find? || a.Claim? || a.Rouse?
  }

  lemma ThreadsDue(s: Machine, a: Action)
    requires Enabled(s, a) && !OfAWaker(a) && !a.NewWaker?
    ensures Due(Apply(s, a)) <= Due(s) + if ShowsItself(s, a) then 1 else 0
  {
    var s' := Apply(s, a);
    assert s'.wakers == s.wakers;
    if a.ArmHandle? { MapGrows(s.parkers, s.threads[a.t].slot.bit, a.t); }
  }

  lemma MapGrows(m: map<nat, nat>, k: nat, v: nat)
    ensures |m[k := v]| <= |m| + 1
  {
    assert m[k := v].Keys == m.Keys + {k};
  }

  lemma MapShrinks(m: map<nat, nat>, k: nat)
    requires k in m
    ensures |m - {k}| == |m| - 1
  {
    assert (m - {k}).Keys == m.Keys - {k};
  }

  /** A waker moves itself alone. */
  lemma OneWakerMoves(s: Machine, a: Action, w: nat)
    requires Works(s, w) && a.By(w) && Enabled(s, a)
    ensures |Apply(s, a).wakers| == |s.wakers| && Apply(s, a).wakers == s.wakers[w := Apply(s, a).wakers[w]]
  {
  }

  /** What a waker has in hand with what is left to take, and what it has given. */
  predicate HandsOver(s: Machine, s': Machine, w: nat, given: nat) {
    && Works(s, w) && Works(s', w)
    && |s'.parkers| + |s'.overflow| + Owes(s'.wakers[w].pc) + given
       <= |s.parkers| + |s.overflow| + Owes(s.wakers[w].pc)
  }

  lemma ClaimHandsOver(s: Machine, w: nat)
    requires Enabled(s, Claim(w))
    ensures HandsOver(s, ClaimStep(s, w), w, 0)
  {
    if s.wakers[w].pc.bit in s.parkers { MapShrinks(s.parkers, s.wakers[w].pc.bit); }
  }

  lemma UnparkHandsOver(s: Machine, w: nat)
    requires Enabled(s, Unpark(w))
    ensures HandsOver(s, UnparkStep(s, w), w, if s.wakers[w].pc.nodes != [] then 1 else 0)
  {
  }

  lemma TakeHandsOver(s: Machine, w: nat)
    requires Enabled(s, Take(w))
    ensures HandsOver(s, TakeStep(s, w), w, 0)
  {
  }

  lemma OthersHandOver(s: Machine, a: Action)
    requires OfAWaker(a) && Enabled(s, a) && !a.Claim? && !a.Unpark? && !a.Take?
    ensures HandsOver(s, Apply(s, a), a.w, if a.Rouse? then 1 else 0)
  {
  }

  lemma WakersDue(s: Machine, a: Action, w: nat)
    requires Works(s, w) && a.By(w) && Enabled(s, a)
    ensures Due(Apply(s, a)) + (if GivesOne(s, a) then 1 else 0) <= Due(s)
  {
    hide Owes, ClaimStep, UnparkStep, TakeStep;
    OneWakerMoves(s, a, w);
    InHandUpdate(s.wakers, |s.wakers|, w, Apply(s, a).wakers[w]);
    match a
    case Claim(_) => ClaimHandsOver(s, w);
    case Unpark(_) => UnparkHandsOver(s, w);
    case Take(_) => TakeHandsOver(s, w);
    case _ => OthersHandOver(s, a);
  }

  lemma DueStep(s: Machine, a: Action)
    requires Enabled(s, a)
    ensures Due(Apply(s, a)) + (if GivesOne(s, a) then 1 else 0) <= Due(s) + if ShowsItself(s, a) then 1 else 0
  {
    if OfAWaker(a) {
      WakersDue(s, a, a.w);
    } else if a.NewWaker? {
      InHandFrame(s.wakers, Apply(s, a).wakers, |s.wakers|);
    } else {
      ThreadsDue(s, a);
    }
  }

  /** Each time a thread makes itself known is good for one unpark at most, however many
      wakers there are. */
  lemma {:induction false} OneUnparkAShow(s: Machine, acts: seq<Action>, t: Machine)
    requires Runs(s, acts, t)
    ensures Given(s, acts) + Due(t) <= Due(s) + Shows(s, acts)
    decreases |acts|
  {
    if acts != [] {
      DueStep(s, acts[0]);
      OneUnparkAShow(Apply(s, acts[0]), acts[1..], t);
    }
  }

  /** How many unparks waker `w` gives to threads whose bits it took. */
  function Rouses(acts: seq<Action>, w: nat): nat {
    if acts == [] then 0 else (if acts[0] == Rouse(w) then 1 else 0) + Rouses(acts[1..], w)
  }

  /** A wake with a bit in hand has a delivery to make. */
  predicate HasLeft(k: Waker) {
    !k.flush && (k.pc.Retiring? || k.pc.Finding? || k.pc.Claiming? || k.pc.Rousing?) ==> k.left > 0
  }

  predicate AllHaveLeft(s: Machine) {
    forall w | 0 <= w < |s.wakers| :: HasLeft(s.wakers[w])
  }

  predicate OneInHand(k: Waker) {
    !k.flush ==> match k.pc
      case Finding(bits) => forall b, c | b in bits && c in bits :: b == c
      case Claiming(_, bits) => bits == {}
      case Rousing(_, bits) => bits == {}
      case _ => true
  }

  predicate AllOneInHand(s: Machine) {
    forall w | 0 <= w < |s.wakers| :: OneInHand(s.wakers[w])
  }

  lemma StillHasLeft(s: Machine, a: Action, w: nat)
    requires Works(s, w) && a.By(w) && Enabled(s, a) && HasLeft(s.wakers[w]) && OneInHand(s.wakers[w])
    ensures Works(Apply(s, a), w) && HasLeft(Apply(s, a).wakers[w]) && OneInHand(Apply(s, a).wakers[w])
  {
  }

  lemma ThreadsMoveNoWaker(s: Machine, a: Action)
    requires Enabled(s, a) && !OfAWaker(a)
    ensures Apply(s, a).wakers == s.wakers + if a.NewWaker? then [Waker(0, false, 0, Resting)] else []
  {
  }

  lemma HasLeftStep(s: Machine, a: Action)
    requires Enabled(s, a) && AllHaveLeft(s) && AllOneInHand(s)
    ensures AllHaveLeft(Apply(s, a)) && AllOneInHand(Apply(s, a))
  {
    if OfAWaker(a) {
      OneWakerMoves(s, a, a.w);
      StillHasLeft(s, a, a.w);
    } else {
      ThreadsMoveNoWaker(s, a);
    }
    hide Apply;
  }

  lemma LeftStep(s: Machine, a: Action, w: nat)
    requires Enabled(s, a) && Works(s, w) && HasLeft(s.wakers[w]) && !s.wakers[w].flush && !(a.Release? && a.w == w)
    ensures Works(Apply(s, a), w) && !Apply(s, a).wakers[w].flush
    ensures Apply(s, a).wakers[w].left + (if a == Rouse(w) then 1 else 0) <= s.wakers[w].left
    ensures a != PassOver(w) ==>
              Apply(s, a).wakers[w].left + (if a == Rouse(w) then 1 else 0) == s.wakers[w].left
  {
  }

  lemma {:induction false} HasLeftRun(s: Machine, acts: seq<Action>, t: Machine)
    requires Runs(s, acts, t) && AllHaveLeft(s) && AllOneInHand(s)
    ensures AllHaveLeft(t) && AllOneInHand(t)
    decreases |acts|
  {
    if acts != [] {
      HasLeftStep(s, acts[0]);
      HasLeftRun(Apply(s, acts[0]), acts[1..], t);
    }
  }

  /** A wake that was asked for `n` deliveries makes no more, and while it has not passed
      waiters over it still seeks exactly what is left of them. */
  lemma NoMoreThanAsked(s: Machine, w: nat, closes: bool, n: nat, frees: nat, acts: seq<Action>, t: Machine)
    requires Reachable(s) && Enabled(s, Release(w, closes, false, n, frees))
    requires Runs(Apply(s, Release(w, closes, false, n, frees)), acts, t)
    requires forall a | a in acts :: !(a.Release? && a.w == w)
    ensures Works(t, w) && t.wakers[w].left + Rouses(acts, w) <= n
    ensures PassOver(w) !in acts ==> t.wakers[w].left + Rouses(acts, w) == n
  {
    var before: seq<Action> :| Runs(INIT, before, s);
    HasLeftRun(INIT, before, s);
    HasLeftStep(s, Release(w, closes, false, n, frees));
    LeftRunsDown(Apply(s, Release(w, closes, false, n, frees)), acts, t, w);
  }

  lemma {:induction false} LeftRunsDown(s: Machine, acts: seq<Action>, t: Machine, w: nat)
    requires AllHaveLeft(s) && AllOneInHand(s) && Works(s, w) && !s.wakers[w].flush && Runs(s, acts, t)
    requires forall a | a in acts :: !(a.Release? && a.w == w)
    ensures Works(t, w) && t.wakers[w].left + Rouses(acts, w) <= s.wakers[w].left
    ensures PassOver(w) !in acts ==> t.wakers[w].left + Rouses(acts, w) == s.wakers[w].left
    decreases |acts|
  {
    if acts != [] {
      assert acts[0] in acts;
      LeftStep(s, acts[0], w);
      HasLeftStep(s, acts[0]);
      LeftRunsDown(Apply(s, acts[0]), acts[1..], t, w);
    }
  }
}
