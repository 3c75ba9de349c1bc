/** Overlapping calls on the stack: a re-arm that leaves two entries of one id, and a
    drain that fires nobody although somebody was registered before it began. */
module TreiberOverlaps {
  import opened Wrappers
  import opened TreiberStack
  import opened TreiberCalls

  lemma RunsNext(before: seq<Action>, s: Machine, a: Action) returns (acts: seq<Action>, t: Machine)
    requires Runs(INIT, before, s) && Enabled(s, a)
    ensures acts == before + [a] && t == Apply(s, a) && Runs(INIT, acts, t)
  {
    acts, t := before + [a], Apply(s, a);
    assert [a][1..] == [];
    assert Runs(t, [], t);
    RunsOn(INIT, before, s, [a], t);
  }

  /** Thread 0 registers `id`; thread 1 withdraws `other`, and has the chain in hand while
      thread 0 re-arms: it withdraws `id`, finds the stack empty, and registers `id`
      again. Then thread 1 pushes back what it took. */
  function RearmRun(id: nat, other: nat): seq<Action> {
    [NewThread, NewThread, Begin(0, 0, id), Load(0), Swing(0, false)]
    + [Call(1, Cancel(other, false)), Check(1), Swap(1)]
    + [Call(0, Cancel(id, false)), Check(0)]
    + [Begin(0, 1, id), Load(0), Swing(0, false)]
    + [Walk(1), Load(1), Swing(1, false), Walk(1)]
  }

  /** One registration of `id`, in the pool `k`. */
  function OneEntry(id: nat, head: Option<Address>, threads: seq<Pc>, k: nat): Machine {
    var pools := if k == 0 then [[0], [], []] else if k == 1 then [[], [0], []] else [[], [], [0]];
    Machine(map[0 := Node(0, id, None)], head, threads,
            Pools(map[0 := k], pools), Ledger(map[0 := 0], [id], multiset{}, multiset{}))
  }

  lemma TwoThreads() returns (acts: seq<Action>, s: Machine)
    ensures Runs(INIT, acts, s) && acts == [NewThread, NewThread]
    ensures s == INIT.(threads := [Idle, Idle], own := Pools(map[], [[], [], []]))
  {
    acts, s := RunsNext([], INIT, NewThread);
    acts, s := RunsNext(acts, s, NewThread);
    assert s.own.pools == [[], [], []] && s.threads == [Idle, Idle];
  }

  /** A hand of one node goes onto the stack. */
  lemma PushesLast(own: Pools, k: nat, a: Address, onto: seq<Address>)
    requires 0 < k < |own.pools| && own.pools[k] == [a] && own.pools[0] == onto
    ensures Pushes(own, k).pools == own.pools[k := []][0 := [a] + onto] && [a] + [] == [a]
  {
    assert [a][1..] == [];
  }

  lemma FirstArm(id: nat) returns (acts: seq<Action>, s: Machine)
    ensures Runs(INIT, acts, s) && s == OneEntry(id, Some(0), [Idle, Idle], 0)
    ensures acts == [NewThread, NewThread, Begin(0, 0, id), Load(0), Swing(0, false)]
  {
    acts, s := TwoThreads();
    acts, s := RunsNext(acts, s, Begin(0, 0, id));
    assert s.own.pools == [[], [0], []] && s.threads == [Loading(0, None, Register), Idle];
    assert s == OneEntry(id, None, [Loading(0, None, Register), Idle], 1);
    acts, s := RunsNext(acts, s, Load(0));
    assert s == OneEntry(id, None, [Swinging(0, None, None, Register), Idle], 1);
    PushesLast(s.own, 1, 0, []);
    acts, s := RunsNext(acts, s, Swing(0, false));
    assert s.own.pools == [[0], [], []];
    assert s == OneEntry(id, Some(0), [Idle, Idle], 0);
  }

  lemma TakesChain(acts0: seq<Action>, id: nat, other: nat) returns (acts: seq<Action>, s: Machine)
    requires Runs(INIT, acts0, OneEntry(id, Some(0), [Idle, Idle], 0))
    ensures Runs(INIT, acts, s) && s == OneEntry(id, None, [Idle, Walking(Some(0), Cancel(other, false))], 2)
    ensures acts == acts0 + [Call(1, Cancel(other, false)), Check(1), Swap(1)]
  {
    s := OneEntry(id, Some(0), [Idle, Idle], 0);
    acts, s := RunsNext(acts0, s, Call(1, Cancel(other, false)));
    acts, s := RunsNext(acts, s, Check(1));
    assert s == OneEntry(id, Some(0), [Idle, Swapping(Cancel(other, false))], 0);
    acts, s := RunsNext(acts, s, Swap(1));
    assert s == OneEntry(id, None, [Idle, Walking(Some(0), Cancel(other, false))], 2);
  }

  /** Two registrations of `id`: ticket 1 on the stack, ticket 0 above it or in thread
      1's hand. */
  function TwoEntries(id: nat, next: Option<Address>, head: Address,
                      pc: Pc, pools: seq<seq<Address>>, k: nat): Machine
  {
    Machine(map[0 := Node(0, id, next), 1 := Node(1, id, None)], Some(head), [Idle, pc],
            Pools(map[0 := k, 1 := 0], pools), Ledger(map[0 := 0, 1 := 1], [id, id], multiset{}, multiset{}))
  }

  lemma MissesItsEntry(acts0: seq<Action>, id: nat, other: nat) returns (acts: seq<Action>, s: Machine)
    requires Runs(INIT, acts0, OneEntry(id, None, [Idle, Walking(Some(0), Cancel(other, false))], 2))
    ensures acts == acts0 + [Call(0, Cancel(id, false)), Check(0)] && Runs(INIT, acts, s)
    ensures s == OneEntry(id, None, [Idle, Walking(Some(0), Cancel(other, false))], 2)
  {
    var walking := Walking(Some(0), Cancel(other, false));
    acts, s := RunsNext(acts0, OneEntry(id, None, [Idle, walking], 2), Call(0, Cancel(id, false)));
    assert s == OneEntry(id, None, [Checking(Cancel(id, false)), walking], 2);
    acts, s := RunsNext(acts, s, Check(0));
    assert s == OneEntry(id, None, [Idle, walking], 2);
  }

  lemma ArmsAgain(acts0: seq<Action>, id: nat, other: nat) returns (acts: seq<Action>, s: Machine)
    requires Runs(INIT, acts0, OneEntry(id, None, [Idle, Walking(Some(0), Cancel(other, false))], 2))
    ensures acts == acts0 + [Begin(0, 1, id), Load(0), Swing(0, false)] && Runs(INIT, acts, s)
    ensures s == TwoEntries(id, None, 1, Walking(Some(0), Cancel(other, false)), [[1], [], [0]], 2)
  {
    var walking := Walking(Some(0), Cancel(other, false));
    hide Runs;
    acts, s := RunsNext(acts0, OneEntry(id, None, [Idle, walking], 2), Begin(0, 1, id));
    assert s.threads == [Loading(1, None, Register), walking] && s.own.pools == [[], [1], [0]];
    acts, s := RunsNext(acts, s, Load(0));
    assert s.heap == map[0 := Node(0, id, None), 1 := Node(1, id, None)];
    assert s.threads == [Swinging(1, None, None, Register), walking];
    PushesLast(s.own, 1, 1, []);
    acts, s := RunsNext(acts, s, Swing(0, false));
    assert s.own.pools == [[1], [], [0]] && s.own.owner == map[0 := 2, 1 := 0];
    assert s.book.ids == [id, id] && s.book.home == map[0 := 0, 1 := 1];
    assert s.threads == [Idle, walking];
  }

  lemma PicksOneUp(acts0: seq<Action>, id: nat, other: nat) returns (acts: seq<Action>, s: Machine)
    requires id != other
    requires Runs(INIT, acts0, TwoEntries(id, None, 1, Walking(Some(0), Cancel(other, false)), [[1], [], [0]], 2))
    ensures acts == acts0 + [Walk(1), Load(1)] && Runs(INIT, acts, s)
    ensures s == TwoEntries(id, Some(1), 1, Swinging(0, Some(1), None, Cancel(other, false)), [[1], [], [0]], 2)
  {
    var task := Cancel(other, false);
    acts, s := RunsNext(acts0, TwoEntries(id, None, 1, Walking(Some(0), task), [[1], [], [0]], 2), Walk(1));
    assert s == TwoEntries(id, None, 1, Loading(0, None, task), [[1], [], [0]], 2);
    acts, s := RunsNext(acts, s, Load(1));
    assert s == TwoEntries(id, Some(1), 1, Swinging(0, Some(1), None, task), [[1], [], [0]], 2);
  }

  lemma PutsOneBack(acts0: seq<Action>, id: nat, other: nat) returns (acts: seq<Action>, s: Machine)
    requires var pc := Swinging(0, Some(1), None, Cancel(other, false));
             Runs(INIT, acts0, TwoEntries(id, Some(1), 1, pc, [[1], [], [0]], 2))
    ensures acts == acts0 + [Swing(1, false), Walk(1)] && Runs(INIT, acts, s)
    ensures s == TwoEntries(id, Some(1), 0, Idle, [[0, 1], [], []], 0)
  {
    var task := Cancel(other, false);
    s := TwoEntries(id, Some(1), 1, Swinging(0, Some(1), None, task), [[1], [], [0]], 2);
    PushesLast(s.own, 2, 0, [1]);
    acts, s := RunsNext(acts0, s, Swing(1, false));
    assert [0] + [1] == [0, 1];
    assert s.own.pools == [[0, 1], [], []] && s.own.owner == map[0 := 0, 1 := 0];
    assert s == TwoEntries(id, Some(1), 0, Walking(None, task), [[0, 1], [], []], 0);
    acts, s := RunsNext(acts, s, Walk(1));
    assert s == TwoEntries(id, Some(1), 0, Idle, [[0, 1], [], []], 0);
  }

  /** "At most one entry per id" fails of overlapping calls: a re-arm that withdraws its
      id first and then registers it leaves two, both on the stack with everybody done,
      when a withdrawal of any other id has the chain in hand meanwhile. */
  lemma RearmCanLeaveTwo(id: nat, other: nat) returns (s: Machine)
    requires id != other
    ensures Runs(INIT, RearmRun(id, other), s) && AtRest(s)
    ensures exists u: nat, v: nat :: u != v && Live(s, u, id) && Live(s, v, id) && !InHand(s, u) && !InHand(s, v)
  {
    var acts;
    acts, s := FirstArm(id);
    acts, s := TakesChain(acts, id, other);
    acts, s := MissesItsEntry(acts, id, other);
    acts, s := ArmsAgain(acts, id, other);
    acts, s := PicksOneUp(acts, id, other);
    acts, s := PutsOneBack(acts, id, other);
    assert acts == RearmRun(id, other);
    assert Live(s, 0, id) && Live(s, 1, id) && !InHand(s, 0) && !InHand(s, 1);
  }

  /** Thread 0 registers `id`; thread 1 withdraws `other`, and has the chain in hand while
      thread 0 drains: it finds the stack empty. Then thread 1 pushes back what it took. */
  function MissedDrainRun(id: nat, other: nat): seq<Action> {
    [NewThread, NewThread, Begin(0, 0, id), Load(0), Swing(0, false)]
    + [Call(1, Cancel(other, false)), Check(1), Swap(1)]
    + [Call(0, Drain), Check(0)]
    + [Walk(1), Load(1), Swing(1, false), Walk(1)]
  }

  lemma DrainsNothing(acts0: seq<Action>, id: nat, other: nat) returns (acts: seq<Action>, s: Machine)
    requires Runs(INIT, acts0, OneEntry(id, None, [Idle, Walking(Some(0), Cancel(other, false))], 2))
    ensures acts == acts0 + [Call(0, Drain), Check(0)] && Runs(INIT, acts, s)
    ensures s == OneEntry(id, None, [Idle, Walking(Some(0), Cancel(other, false))], 2)
  {
    var walking := Walking(Some(0), Cancel(other, false));
    acts, s := RunsNext(acts0, OneEntry(id, None, [Idle, walking], 2), Call(0, Drain));
    assert s == OneEntry(id, None, [Checking(Drain), walking], 2);
    acts, s := RunsNext(acts, s, Check(0));
    assert s == OneEntry(id, None, [Idle, walking], 2);
  }

  lemma PutsTheOneBack(acts0: seq<Action>, id: nat, other: nat) returns (acts: seq<Action>, s: Machine)
    requires id != other
    requires Runs(INIT, acts0, OneEntry(id, None, [Idle, Walking(Some(0), Cancel(other, false))], 2))
    ensures acts == acts0 + [Walk(1), Load(1), Swing(1, false), Walk(1)] && Runs(INIT, acts, s)
    ensures s == OneEntry(id, Some(0), [Idle, Idle], 0)
  {
    var task := Cancel(other, false);
    hide Runs;
    acts, s := RunsNext(acts0, OneEntry(id, None, [Idle, Walking(Some(0), task)], 2), Walk(1));
    assert s == OneEntry(id, None, [Idle, Loading(0, None, task)], 2);
    acts, s := RunsNext(acts, s, Load(1));
    assert s == OneEntry(id, None, [Idle, Swinging(0, None, None, task)], 2);
    PushesLast(s.own, 2, 0, []);
    acts, s := RunsNext(acts, s, Swing(1, false));
    assert s.own.pools == [[0], [], []];
    assert s == OneEntry(id, Some(0), [Idle, Walking(None, task)], 0);
    acts, s := RunsNext(acts, s, Walk(1));
    assert s == OneEntry(id, Some(0), [Idle, Idle], 0);
  }

  /** "Wakes every registered waker" fails of overlapping calls: a drain that begins after
      the registration has returned, and ends, need not fire it; with everybody done it
      is still on the stack. */
  lemma DrainCanMissAWaiter(id: nat, other: nat) returns (s: Machine)
    requires id != other
    ensures Runs(INIT, MissedDrainRun(id, other), s) && AtRest(s)
    ensures Live(s, 0, id) && !InHand(s, 0) && s.book.fired[0] == 0 && s.book.withdrawn[0] == 0
  {
    var acts;
    acts, s := FirstArm(id);
    acts, s := TakesChain(acts, id, other);
    acts, s := DrainsNothing(acts, id, other);
    acts, s := PutsTheOneBack(acts, id, other);
    assert acts == MissedDrainRun(id, other);
  }
}
