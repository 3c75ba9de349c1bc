/** What becomes of the calls on the stack of registrations: every one is on the books
    under the id it was made with, whoever is left alone ends its call, and a call made
    with nobody else about does all it promises. */
module TreiberProgress {
  import opened Wrappers
  import opened TreiberStack
  import opened TreiberCalls

  /** The ids a run registers, in order. */
  function Registered(acts: seq<Action>): seq<nat> {
    if acts == [] then [] else (if acts[0].Begin? then [acts[0].id] else []) + Registered(acts[1..])
  }

  /** How many threads join. */
  function Joined(acts: seq<Action>): nat {
    if acts == [] then 0 else (if acts[0].NewThread? then 1 else 0) + Joined(acts[1..])
  }

  lemma BookStep(s: Machine, a: Action)
    requires Enabled(s, a)
    ensures Apply(s, a).book.ids == s.book.ids + if a.Begin? then [a.id] else []
    ensures |Apply(s, a).threads| == |s.threads| + if a.NewThread? then 1 else 0
  {
  }

  /** Every call that registers is on the books, in order, under its id, and every thread
      that joins is there. */
  lemma {:induction false} RunIsOnTheBooks(s: Machine, acts: seq<Action>, t: Machine)
    requires Runs(s, acts, t)
    ensures t.book.ids == s.book.ids + Registered(acts) && |t.threads| == |s.threads| + Joined(acts)
    decreases |acts|
  {
    if acts != [] {
      BookStep(s, acts[0]);
      RunIsOnTheBooks(Apply(s, acts[0]), acts[1..], t);
    }
  }

  /** A step of thread `i` inside its call, no swap failing for no reason. */
  predicate Own(a: Action, i: nat) {
    match a
    case Check(j) => j == i
    case Swap(j) => j == i
    case Walk(j) => j == i
    case Load(j) => j == i
    case Swing(j, spurious) => j == i && !spurious
    case _ => false
  }

  /** Nobody but thread `i` moves. */
  predicate Alone(acts: seq<Action>, i: nat) {
    forall j | 0 <= j < |acts| :: Own(acts[j], i)
  }

  lemma AloneFirst(a: Action, acts: seq<Action>, i: nat)
    requires Own(a, i) && Alone(acts, i)
    ensures Alone([a] + acts, i)
  {
  }

  /** Steps thread `i` has left, at most, if nobody else moves. */
  function StepsLeft(s: Machine, i: nat): nat
    requires At(s, i)
  {
    var hand := |s.own.pools[i + 1]|;
    match s.threads[i]
    case Idle => 0
    case Checking(_) => 3 * |s.own.pools[0]| + 3
    case Swapping(_) => 3 * |s.own.pools[0]| + 2
    case Walking(_, _) => 3 * hand + 1
    case Loading(_, _, _) => 3 * hand
    case Swinging(_, expected, _, _) => if hand == 0 then 0 else if s.head == expected then 3 * hand - 1 else 3 * hand
  }

  lemma SwapForward(s: Machine, i: nat)
    requires Inv(s) && Enabled(s, Swap(i))
    ensures At(SwapStep(s, i), i) && StepsLeft(SwapStep(s, i), i) < StepsLeft(s, i)
  {
  }

  lemma WalkForward(s: Machine, i: nat)
    requires Inv(s) && Enabled(s, Walk(i))
    ensures At(WalkStep(s, i), i) && StepsLeft(WalkStep(s, i), i) < StepsLeft(s, i)
  {
    assert Holds(s.heap, s.threads[i], s.own.pools[i + 1]);
    hide Counted, Parted, Linked;
  }

  lemma SwingForward(s: Machine, i: nat)
    requires Inv(s) && Enabled(s, Swing(i, false))
    ensures At(SwingStep(s, i, false), i) && StepsLeft(SwingStep(s, i, false), i) < StepsLeft(s, i)
  {
    hide Inv;
  }

  lemma StepForward(s: Machine, a: Action, i: nat)
    requires Inv(s) && At(s, i) && Own(a, i) && Enabled(s, a)
    ensures At(Apply(s, a), i) && StepsLeft(Apply(s, a), i) < StepsLeft(s, i)
  {
    match a
    case Swap(_) => SwapForward(s, i);
    case Walk(_) => WalkForward(s, i);
    case Swing(_, _) => SwingForward(s, i);
    case Check(_) =>
    case Load(_) =>
      assert Holds(s.heap, s.threads[i], s.own.pools[i + 1]);
      hide Inv;
  }

  lemma CallIsUnderWay(s: Machine, i: nat)
    requires Inv(s) && At(s, i) && !s.threads[i].Idle?
    ensures StepsLeft(s, i) > 0
  {
    assert Holds(s.heap, s.threads[i], s.own.pools[i + 1]);
  }

  /** At some point of the run the thread is done. */
  predicate Ends(s: Machine, acts: seq<Action>, i: nat)
    decreases |acts|
  {
    && At(s, i)
    && (s.threads[i].Idle? || (acts != [] && Enabled(s, acts[0]) && Ends(Apply(s, acts[0]), acts[1..], i)))
  }

  /** Left to itself any call ends, wherever it is, within three steps a node. */
  lemma {:induction false} CallEndsAlone(s: Machine, acts: seq<Action>, t: Machine, i: nat)
    requires Inv(s) && At(s, i) && Runs(s, acts, t) && Alone(acts, i)
    requires |acts| >= StepsLeft(s, i)
    ensures Ends(s, acts, i)
    decreases |acts|
  {
    if !s.threads[i].Idle? {
      CallIsUnderWay(s, i);
      hide Inv, StepsLeft;
      StepForward(s, acts[0], i);
      InvStep(s, acts[0]);
      CallEndsAlone(Apply(s, acts[0]), acts[1..], t, i);
    }
  }

  /** And it always has a step to take. */
  lemma CallHasAStep(s: Machine, i: nat) returns (a: Action)
    requires Inv(s) && At(s, i) && !s.threads[i].Idle?
    ensures Own(a, i) && Enabled(s, a)
  {
    assert Holds(s.heap, s.threads[i], s.own.pools[i + 1]);
    match s.threads[i]
    case Checking(_) => a := Check(i);
    case Swapping(_) => a := Swap(i);
    case Walking(_, _) => a := Walk(i);
    case Loading(_, _, _) => a := Load(i);
    case Swinging(_, _, _, _) => a := Swing(i, false);
  }

  /** Left to itself, a call does end. */
  lemma {:induction false} GoesOnAlone(s: Machine, i: nat) returns (acts: seq<Action>, t: Machine)
    requires Inv(s) && At(s, i)
    ensures Runs(s, acts, t) && Inv(t) && At(t, i) && t.threads[i].Idle?
    ensures Alone(acts, i)
    decreases StepsLeft(s, i)
  {
    if s.threads[i].Idle? {
      acts, t := [], s;
      assert Runs(s, [], s) && Alone([], i);
    } else {
      hide Inv, Apply, StepsLeft, Own, Enabled, Alone, Runs;
      var a := CallHasAStep(s, i);
      StepForward(s, a, i);
      InvStep(s, a);
      var rest;
      rest, t := GoesOnAlone(Apply(s, a), i);
      RunsFirst(s, a, rest, t);
      AloneFirst(a, rest, i);
      acts := [a] + rest;
    }
  }

  /** A run begun by a step, and its invariant. */
  lemma RunsFirst(s: Machine, a: Action, acts: seq<Action>, t: Machine)
    requires Enabled(s, a) && Runs(Apply(s, a), acts, t)
    ensures Runs(s, [a] + acts, t)
  {
    assert ([a] + acts)[1..] == acts;
  }

  lemma BeginAndAim(s: Machine, i: nat, a: Address, id: nat)
    requires Inv(s) && Enabled(s, Begin(i, a, id))
    ensures Enabled(Apply(s, Begin(i, a, id)), Load(i))
    ensures var s2 := Apply(Apply(s, Begin(i, a, id)), Load(i));
            && s2.heap == s.heap[a := Node(|s.book.ids|, id, s.head)] && s2.head == s.head
            && s2.own == Gains(s.own, i + 1, a) && At(s, i) && s.own.pools[i + 1] == [] && s.threads[i].Idle?
            && s2.threads == s.threads[i := Swinging(a, s.head, None, Register)] && Enabled(s2, Swing(i, false))
  {
    EmptyHanded(s, i);
    hide Inv;
  }

  /** A registration made with nobody else about ends up on top of the stack, which is
      otherwise as it was. */
  lemma RegistersAlone(s: Machine, i: nat, a: Address, id: nat) returns (acts: seq<Action>, t: Machine)
    requires Inv(s) && Enabled(s, Begin(i, a, id))
    ensures Runs(s, acts, t) && Inv(t) && t.threads == s.threads
    ensures OnStack(t) == [a] + OnStack(s) && t.head == Some(a)
    ensures t.heap == s.heap[a := Node(|s.book.ids|, id, s.head)]
  {
    BeginAndAim(s, i, a, id);
    hide Inv, Apply, Enabled, OnStack, Gains, At;
    var begin, load, swing := Begin(i, a, id), Load(i), Swing(i, false);
    var s1 := Apply(s, begin);
    var s2 := Apply(s1, load);
    t := Apply(s2, swing);
    assert Runs(t, [], t);
    SwingsOnTop(s, s2, i, a);
    InvStep(s, begin);
    InvStep(s1, load);
    InvStep(s2, swing);
    hide Runs;
    RunsFirst(s2, swing, [], t);
    RunsFirst(s1, load, [swing] + [], t);
    acts := [begin] + ([load] + ([swing] + []));
    RunsFirst(s, begin, [load] + ([swing] + []), t);
  }

  lemma SwingsOnTop(s: Machine, s2: Machine, i: nat, a: Address)
    requires At(s, i) && s.own.pools[i + 1] == [] && s2.own == Gains(s.own, i + 1, a) && s2.head == s.head
    requires s.threads[i].Idle?
    requires s2.threads == s.threads[i := Swinging(a, s.head, None, Register)] && Enabled(s2, Swing(i, false))
    ensures var t := Apply(s2, Swing(i, false));
            && OnStack(t) == [a] + OnStack(s) && t.head == Some(a) && t.heap == s2.heap && t.threads == s.threads
  {
  }

  /** A drain or a withdrawal made with nobody else about takes what it wants of the stack
      as it is: a drain fires all of it in order, a withdrawal drops the first of its id. */
  lemma CallAlone(s: Machine, i: nat, job: Task) returns (acts: seq<Action>, t: Machine)
    requires Inv(s) && Enabled(s, Call(i, job))
    ensures Runs(s, acts, t) && Inv(t) && At(t, i) && t.threads[i].Idle?
    ensures Taken(s, acts, i) == Wanted(s.heap, OnStack(s), job)
  {
    var s1 := Apply(s, Call(i, job));
    InvStep(s, Call(i, job));
    var tail;
    tail, t := DecidesAlone(s1, i, job);
    acts := [Call(i, job)] + tail;
    RunsFirst(s, Call(i, job), tail, t);
    hide Inv, Runs, OneCall;
    CallTakesWhatItSees(s1, tail, t, i, job);
    TakesLater(s, acts, t, i);
    assert acts[1..] == tail;
  }

  lemma DecidesAlone(s: Machine, i: nat, job: Task) returns (acts: seq<Action>, t: Machine)
    requires Inv(s) && Deciding(s, i, job) && s.threads[i].Checking?
    ensures Runs(s, acts, t) && Inv(t) && At(t, i) && t.threads[i].Idle? && OneCall(acts, i)
    ensures Decision(s, acts, i).heap == s.heap && OnStack(Decision(s, acts, i)) == OnStack(s)
  {
    assert Enabled(s, Check(i)) && At(Apply(s, Check(i)), i);
    hide Inv, Apply, Enabled, At, Deciding, Runs, OnStack, Decision, OneCall, Own;
    InvStep(s, Check(i));
    var rest;
    rest, t := GoesOnAlone(Apply(s, Check(i)), i);
    acts := [Check(i)] + rest;
    ChecksOnce(rest, i);
    LooksThenSwaps(s, rest, t, i);
    RunsFirst(s, Check(i), rest, t);
  }

  lemma ChecksOnce(rest: seq<Action>, i: nat)
    requires Alone(rest, i)
    ensures OneCall([Check(i)] + rest, i)
  {
  }

  lemma LooksThenSwaps(s: Machine, rest: seq<Action>, t: Machine, i: nat)
    requires Enabled(s, Check(i)) && Runs(Apply(s, Check(i)), rest, t) && At(t, i) && t.threads[i].Idle?
    requires Alone(rest, i)
    ensures var decision := Decision(s, [Check(i)] + rest, i);
            decision.heap == s.heap && OnStack(decision) == OnStack(s)
  {
    var s1 := Apply(s, Check(i));
    assert ([Check(i)] + rest)[1..] == rest;
    if s.head.Some? { SwapComesNext(s1, rest, t, i); }
    hide Runs;
  }

  lemma SwapComesNext(s: Machine, acts: seq<Action>, t: Machine, i: nat)
    requires At(s, i) && s.threads[i].Swapping? && Runs(s, acts, t) && At(t, i) && t.threads[i].Idle?
    requires Alone(acts, i)
    ensures Decision(s, acts, i) == s
  {
    assert acts != [] && Own(acts[0], i);
  }
}
