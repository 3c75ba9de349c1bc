/** What becomes of the calls of a side with one waiter: each is answered once and in
    order, none outlives the close or what it waits for by more than a few steps of its
    own, and after the close nothing more is pushed. */
module SoleCalls {
  import opened Wrappers
  import opened SoleParking

  /** The calls a run starts, in order. */
  function Started(acts: seq<Action>): seq<Call> {
    if acts == [] then [] else (if acts[0].Start? then [acts[0].call] else []) + Started(acts[1..])
  }

  /** All that its peers supply, in order. */
  function Supplied(acts: seq<Action>): seq<nat> {
    if acts == [] then [] else (if acts[0].Supply? then acts[0].items else []) + Supplied(acts[1..])
  }

  /** How many peers join. */
  function Joined(acts: seq<Action>): nat {
    if acts == [] then 0 else (if acts[0].NewPeer? then 1 else 0) + Joined(acts[1..])
  }

  /** How many steps of its own the waiter takes. */
  function OwnSteps(acts: seq<Action>): nat {
    if acts == [] then 0 else (if acts[0].Wait? then 1 else 0) + OwnSteps(acts[1..])
  }

  predicate Closes(acts: seq<Action>) {
    exists i :: 0 <= i < |acts| && acts[i].Close?
  }

  /** The calls made so far: those answered, then the one in progress. */
  function Made(s: Machine): seq<Call> {
    seq(|s.book.log|, i requires 0 <= i < |s.book.log| => s.book.log[i].0)
    + if s.waiter.Away? then [] else [s.waiter.call]
  }

  lemma MadeStep(s: Machine, a: Action)
    requires Enabled(s, a)
    ensures Made(Apply(s, a)) == Made(s) + if a.Start? then [a.call] else []
    ensures s.book.log <= Apply(s, a).book.log
  {
    if a.Wait? {
      var w, w' := s.waiter, NextWaiter(s.waiter, s.book, a.spin);
      assert Entry(w, s.book).Some? <==> w'.Away?;
      assert !w'.Away? ==> w'.call == w.call;
    }
  }

  /** What a run leaves on the books: every call started is answered once, in order, save
      the one in progress; all that was supplied is there, and all peers that joined; and the side is closed exactly
      if it was, or somebody has closed it. */
  lemma {:induction false} RunIsOnTheBooks(s: Machine, acts: seq<Action>, t: Machine)
    requires Runs(s, acts, t)
    ensures Made(t) == Made(s) + Started(acts) && s.book.log <= t.book.log
    ensures t.book.supplied == s.book.supplied + Supplied(acts)
    ensures t.book.closed <==> s.book.closed || Closes(acts)
    ensures t.pushing == s.pushing && |t.park.peers| == |s.park.peers| + Joined(acts)
    decreases |acts|
  {
    if acts != [] {
      var s' := Apply(s, acts[0]);
      MadeStep(s, acts[0]);
      RunIsOnTheBooks(s', acts[1..], t);
      ClosesFirstOrLater(acts);
      assert s'.book.supplied == s.book.supplied + if acts[0].Supply? then acts[0].items else [];
      assert s'.book.closed <==> s.book.closed || acts[0].Close?;
    }
  }

  lemma ClosesFirstOrLater(acts: seq<Action>)
    requires acts != []
    ensures Closes(acts) <==> acts[0].Close? || Closes(acts[1..])
  {
    if i :| 0 <= i < |acts| && acts[i].Close? { assert i > 0 ==> acts[1..][i - 1].Close?; }
    if i :| 0 <= i < |acts[1..]| && acts[1..][i].Close? { assert acts[i + 1].Close?; }
  }

  /** A push that has asked, and may take a slot without asking again. */
  predicate MayTake(w: Waiter) {
    w.Trying? || w.Retrying?
  }

  /** A push that starts with the side closed gets no further than its question. */
  predicate Turned(w: Waiter) {
    w.Away? || w.Asking?
  }

  lemma ClosedPushStep(s: Machine, a: Action)
    requires Enabled(s, a) && Honest(s.pushing, s.waiter, s.book) && s.pushing && s.book.closed
    ensures !MayTake(s.waiter) ==> !MayTake(Apply(s, a).waiter) && Apply(s, a).book.taken == s.book.taken
    ensures |Apply(s, a).book.taken| <= |s.book.taken| + 1
    ensures MayTake(s.waiter) && Apply(s, a).book.taken != s.book.taken ==> !MayTake(Apply(s, a).waiter)
    ensures Turned(s.waiter) ==>
              && Turned(Apply(s, a).waiter)
              && forall i | |s.book.log| <= i < |Apply(s, a).book.log| :: Apply(s, a).book.log[i].1.Refused?
  {
  }

  /** After the close a slot is taken at most once more, and only by a push that asked
      before it: every push accepted was last told that the side was open while it was. */
  lemma {:induction false} ClosedSideTakesNoMore(s: Machine, acts: seq<Action>, t: Machine)
    requires Inv(s) && s.pushing && s.book.closed && Runs(s, acts, t)
    ensures |t.book.taken| <= |s.book.taken| + if MayTake(s.waiter) then 1 else 0
    ensures |s.book.taken| <= |t.book.taken|
    decreases |acts|
  {
    if acts != [] {
      InvStep(s, acts[0]);
      ClosedPushStep(s, acts[0]);
      hide Inv;
      assert |s.book.taken| <= |Apply(s, acts[0]).book.taken|;
      ClosedSideTakesNoMore(Apply(s, acts[0]), acts[1..], t);
    }
  }

  /** A push that starts once its peers are gone is refused, with its own value, and
      takes no slot, whatever else happens: from a moment with the side closed and nobody
      inside a call, that is the answer to every call started. */
  lemma {:induction false} LatePushIsRefused(s: Machine, acts: seq<Action>, t: Machine)
    requires Inv(s) && s.pushing && s.book.closed && Turned(s.waiter) && Runs(s, acts, t)
    ensures t.book.taken == s.book.taken && Turned(t.waiter) && |s.book.log| <= |t.book.log|
    ensures forall i | |s.book.log| <= i < |t.book.log| ::
              t.book.log[i].0.Push? && t.book.log[i].1 == Refused(t.book.log[i].0.value)
    decreases |acts|
  {
    if acts == [] {
    } else {
      var s' := Apply(s, acts[0]);
      InvStep(s, acts[0]);
      ClosedPushStep(s, acts[0]);
      MadeStep(s, acts[0]);
      RunIsOnTheBooks(s', acts[1..], t);
      LatePushIsRefused(s', acts[1..], t);
      InvRun(s', acts[1..], t);
      forall i | |s.book.log| <= i < |t.book.log|
        ensures t.book.log[i].0.Push? && t.book.log[i].1 == Refused(t.book.log[i].0.value)
      {
        assert Justified(t.book, t.book.log[i].0, t.book.log[i].1);
        if i < |s'.book.log| { assert t.book.log[i] == s'.book.log[i]; }
      }
    }
  }

  /** A pop that starts with its peers gone and all they supplied returned is answered
      with nothing. */
  lemma {:induction false} LatePopFindsNothing(s: Machine, acts: seq<Action>, t: Machine)
    requires Inv(s) && !s.pushing && s.book.closed && s.book.supply == [] && Runs(s, acts, t)
    requires s.waiter.Lowering? ==> !s.waiter.after.Return?
    ensures |s.book.log| <= |t.book.log| && t.book.taken == s.book.taken
    ensures forall i | |s.book.log| <= i < |t.book.log| :: t.book.log[i] == (Pop, Nothing)
    decreases |acts|
  {
    if acts != [] {
      var s' := Apply(s, acts[0]);
      InvStep(s, acts[0]);
      MadeStep(s, acts[0]);
      assert forall i | |s.book.log| <= i < |s'.book.log| :: s'.book.log[i] == (Pop, Nothing);
      LatePopFindsNothing(s', acts[1..], t);
      RunIsOnTheBooks(s', acts[1..], t);
      assert forall i | |s.book.log| <= i < |s'.book.log| :: t.book.log[i] == s'.book.log[i];
    }
  }

  /** Steps of its own the waiter's call has left, at most, once it has something to
      find: the close, or what was supplied. */
  function StepsLeft(w: Waiter, closed: bool): nat
    requires !w.Away?
  {
    if w.call.Push? then
      match w
      case Asking(_) => if closed then 1 else 8
      case Trying(_) => if closed then 5 else 7
      case Finishing(_) => 1
      case Arming(_) => if closed then 4 else 11
      case Raising(_) => if closed then 3 else 10
      case Reasking(_) => if closed then 2 else 9
      case Retrying(_) => if closed then 4 else 8
      case Asleep(_) => if closed then 3 else 10
      case Lowering(_, after) => if after.Return? then (if closed then 1 else 7) else if closed then 2 else 9
    else
      match w
      case Trying(_) => if closed then 3 else 8
      case Asking(_) => if closed then 2 else 12
      case Finishing(_) => 1
      case Arming(_) => if closed then 6 else 11
      case Raising(_) => if closed then 5 else 10
      case Retrying(_) => if closed then 4 else 9
      case Reasking(_) => if closed then 3 else 11
      case Asleep(_) => if closed then 5 else 10
      case Lowering(_, after) =>
        if after.Return? then (if closed then 1 else 8) else if after.LastTry? then 2 else if closed then 4 else 9
  }

  /** The call has something to find, or has found it. */
  predicate HasSomething(s: Machine) {
    s.book.closed || s.book.supply != [] || (s.waiter.Lowering? && s.waiter.after.Return?)
  }

  lemma FewerStepsLeft(s: Machine, a: Action)
    requires Enabled(s, a) && Inv(s) && !s.waiter.Away? && HasSomething(s)
    ensures var s' := Apply(s, a);
            if s'.waiter.Away? then |s'.book.log| > |s.book.log|
            else
              && HasSomething(s')
              && StepsLeft(s'.waiter, s'.book.closed) + (if a.Wait? then 1 else 0)
                 <= StepsLeft(s.waiter, s.book.closed)
  {
  }

  /** A call with something to find ends within a bounded number of its own steps,
      whatever its peers do meanwhile, and it always has a step to take. */
  lemma {:induction false} CallEnds(s: Machine, acts: seq<Action>, t: Machine)
    requires Inv(s) && !s.waiter.Away? && HasSomething(s) && Runs(s, acts, t)
    requires OwnSteps(acts) >= StepsLeft(s.waiter, s.book.closed)
    ensures |t.book.log| > |s.book.log| && Enabled(s, Wait(true)) && StepsLeft(s.waiter, s.book.closed) <= 12
    decreases |acts|
  {
    assert StepsLeft(s.waiter, s.book.closed) > 0;
    var s' := Apply(s, acts[0]);
    FewerStepsLeft(s, acts[0]);
    InvStep(s, acts[0]);
    MadeStep(s, acts[0]);
    if s'.waiter.Away? {
      RunIsOnTheBooks(s', acts[1..], t);
    } else {
      CallEnds(s', acts[1..], t);
    }
  }

  /** How many steps of its wake peer `p` takes. */
  function Serves(acts: seq<Action>, p: nat): nat {
    if acts == [] then 0 else (if acts[0] == Serve(p) then 1 else 0) + Serves(acts[1..], p)
  }

  function ServesLeft(peer: Peer): nat {
    match peer
    case Idle => 0
    case Peeking => 5
    case Clearing => 4
    case Finding => 3
    case Claiming => 2
    case Rousing(_) => 1
  }

  /** At some point of the run peer `p` is idle. */
  predicate Idles(s: Machine, acts: seq<Action>, p: nat)
    decreases |acts|
  {
    && p < |s.park.peers|
    && (s.park.peers[p].Idle? || (acts != [] && Enabled(s, acts[0]) && Idles(Apply(s, acts[0]), acts[1..], p)))
  }

  /** A peer's wake ends within five of its own steps, whatever others do, and it always
      has a step to take. */
  lemma {:induction false} WakeEnds(s: Machine, acts: seq<Action>, p: nat, t: Machine)
    requires p < |s.park.peers| && Runs(s, acts, t) && Serves(acts, p) >= ServesLeft(s.park.peers[p])
    ensures Idles(s, acts, p) && (s.park.peers[p].Idle? || Enabled(s, Serve(p)))
    ensures ServesLeft(s.park.peers[p]) <= 5
    decreases |acts|
  {
    if !s.park.peers[p].Idle? {
      var s' := Apply(s, acts[0]);
      assert ServesLeft(s'.park.peers[p]) + (if acts[0] == Serve(p) then 1 else 0) <= ServesLeft(s.park.peers[p]);
      WakeEnds(s', acts[1..], p, t);
    }
  }

  lemma RunsFirst(s: Machine, a: Action, acts: seq<Action>, t: Machine)
    requires Enabled(s, a) && Runs(Apply(s, a), acts, t)
    ensures Runs(s, [a] + acts, t)
  {
    assert ([a] + acts)[1..] == acts;
  }

  /** From its first access on. */
  lemma TriesAndParks(s: Machine, call: Call) returns (acts: seq<Action>, t: Machine)
    requires s.waiter == First(call) && !s.book.closed && s.book.supply == []
    ensures Runs(s, acts, t) && t.waiter == Asleep(call) && t.book == s.book && t.pushing == s.pushing
    ensures t.park == s.park.(handle := Some(s.park.thread), parked := true)
  {
    var wait := Wait(false);
    var s1 := Apply(s, wait);
    var s2 := Apply(s1, wait);
    var s3 := Apply(s2, wait);
    var s4 := Apply(s3, wait);
    var s5 := Apply(s4, wait);
    t := Apply(s5, wait);
    assert Runs(t, [], t);
    hide Runs;
    RunsFirst(s5, wait, [], t);
    RunsFirst(s4, wait, [wait], t);
    RunsFirst(s3, wait, [wait, wait], t);
    RunsFirst(s2, wait, [wait, wait, wait], t);
    RunsFirst(s1, wait, [wait, wait, wait, wait], t);
    RunsFirst(s, wait, [wait, wait, wait, wait, wait], t);
    acts := [wait] + [wait, wait, wait, wait, wait];
  }

  /** A call with nothing to find does park, once its backoff is exhausted, with its handle
      armed and its flag up. */
  lemma EmptyHandedCallParks(s: Machine, call: Call, thread: nat) returns (acts: seq<Action>, t: Machine)
    requires Enabled(s, Start(call, thread)) && !s.book.closed && s.book.supply == []
    ensures Runs(s, acts, t) && t.waiter == Asleep(call) && t.book == s.book
    ensures t.park == s.park.(thread := thread, handle := Some(thread), parked := true)
  {
    var rest;
    rest, t := TriesAndParks(Apply(s, Start(call, thread)), call);
    RunsFirst(s, Start(call, thread), rest, t);
    acts := [Start(call, thread)] + rest;
  }

  /** Back from a park with nothing to find, the call parks again, and without a token: a
      token lets one park return. */
  lemma ParksAgain(s: Machine) returns (acts: seq<Action>, t: Machine)
    requires s.waiter.Asleep? && !s.book.closed && s.book.supply == []
    ensures Runs(s, acts, t) && t.waiter == s.waiter && t.book == s.book
    ensures t.park == s.park.(tokens := s.park.tokens - {s.park.thread}, handle := Some(s.park.thread), parked := true)
  {
    var wait := Wait(false);
    var s1 := Apply(s, wait);
    var rest;
    rest, t := TriesAndParks(Apply(s1, wait), s.waiter.call);
    RunsFirst(s1, wait, rest, t);
    RunsFirst(s, wait, [wait] + rest, t);
    acts := [wait] + ([wait] + rest);
  }

  /** The flag is up only from a call's raising it to its lowering it again, so that a
      peer looks for the handle only while somebody waits. */
  predicate FlagMeansWaiting(s: Machine) {
    s.park.parked ==> s.waiter.Committed() || s.waiter.Lowering?
  }

  lemma FlagStep(s: Machine, a: Action)
    requires Enabled(s, a) && FlagMeansWaiting(s)
    ensures FlagMeansWaiting(Apply(s, a))
  {
  }

  lemma {:induction false} FlagRun(s: Machine, acts: seq<Action>, t: Machine)
    requires FlagMeansWaiting(s) && Runs(s, acts, t)
    ensures FlagMeansWaiting(t)
    decreases |acts|
  {
    if acts != [] {
      FlagStep(s, acts[0]);
      FlagRun(Apply(s, acts[0]), acts[1..], t);
    }
  }

  lemma FlagIsUpOnlyWhileWaiting(s: Machine)
    requires Reachable(s)
    ensures s.park.parked ==> s.waiter.Committed() || s.waiter.Lowering?
  {
    var acts: seq<Action> :| Runs(Init(s.pushing), acts, s);
    FlagRun(Init(s.pushing), acts, s);
  }

  /** How many of the first `n` peers are about to unpark somebody. */
  function Rousers(peers: seq<Peer>, n: nat): nat
    requires n <= |peers|
  {
    if n == 0 then 0 else Rousers(peers, n - 1) + if peers[n - 1].Rousing? then 1 else 0
  }

  lemma {:induction false} RousersUpdate(peers: seq<Peer>, n: nat, p: nat, pc: Peer)
    requires p < n <= |peers|
    ensures Rousers(peers[p := pc], n) + (if peers[p].Rousing? then 1 else 0)
            == Rousers(peers, n) + if pc.Rousing? then 1 else 0
  {
    if p < n - 1 { RousersUpdate(peers, n - 1, p, pc); } else { RousersFrame(peers, peers[p := pc], p); }
  }

  lemma {:induction false} RousersFrame(peers: seq<Peer>, peers': seq<Peer>, n: nat)
    requires n <= |peers| && n <= |peers'| && forall i | 0 <= i < n :: peers'[i] == peers[i]
    ensures Rousers(peers', n) == Rousers(peers, n)
  {
    if n > 0 { RousersFrame(peers, peers', n - 1); }
  }

  /** Wakes under way: the handle, if armed, and the unparks to come. */
  function Due(park: Park): nat {
    Rousers(park.peers, |park.peers|) + if park.handle.Some? then 1 else 0
  }

  /** How many unparks the peers give along the run. */
  function Unparks(s: Machine, acts: seq<Action>): nat
    decreases |acts|
  {
    if acts == [] || !Enabled(s, acts[0]) then 0
    else
      (if acts[0].Serve? && s.park.peers[acts[0].p].Rousing? then 1 else 0) + Unparks(Apply(s, acts[0]), acts[1..])
  }

  /** How often the waiter arms its handle along it. */
  function Armings(s: Machine, acts: seq<Action>): nat
    decreases |acts|
  {
    if acts == [] || !Enabled(s, acts[0]) then 0
    else (if acts[0].Wait? && s.waiter.Arming? then 1 else 0) + Armings(Apply(s, acts[0]), acts[1..])
  }

  lemma DueStep(s: Machine, a: Action)
    requires Enabled(s, a)
    ensures Due(Apply(s, a).park) + (if a.Serve? && s.park.peers[a.p].Rousing? then 1 else 0)
            <= Due(s.park) + if a.Wait? && s.waiter.Arming? then 1 else 0
  {
    var s' := Apply(s, a);
    match a
    case NewPeer => RousersFrame(s.park.peers, s'.park.peers, |s.park.peers|);
    case Supply(p, _) => RousersUpdate(s.park.peers, |s.park.peers|, p, Peeking);
    case Close(p) => RousersUpdate(s.park.peers, |s.park.peers|, p, Peeking);
    case Serve(p) => RousersUpdate(s.park.peers, |s.park.peers|, p, s'.park.peers[p]);
    case _ =>
  }

  /** Each arming is good for one unpark at most, however many peers wake at once. */
  lemma {:induction false} OneUnparkAnArming(s: Machine, acts: seq<Action>, t: Machine)
    requires Runs(s, acts, t)
    ensures Unparks(s, acts) + Due(t.park) <= Due(s.park) + Armings(s, acts)
    decreases |acts|
  {
    if acts != [] {
      DueStep(s, acts[0]);
      OneUnparkAnArming(Apply(s, acts[0]), acts[1..], t);
    }
  }
}
