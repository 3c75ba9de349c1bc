/** The lock-free stack of registrations, down to the compare-and-swap and the
    address: a head pointer, nodes on a heap whose freed addresses come back, and
    threads that register, drain and withdraw at once. Each registration carries
    a ticket, the number of the call that made it. */
module TreiberStack {
  import opened Wrappers

  type Address = nat

  datatype Node = Node(ticket: nat, id: nat, next: Option<Address>)

  /** What a thread is doing: `Cancel` is a withdrawal, which looks for one
      registration of its id. */
  datatype Task = Register | Drain | Cancel(id: nat, found: bool)

  datatype Pc =
    | Idle
    | Checking(task: Task)                 // about to load the head, to skip an empty stack
    | Swapping(task: Task)                 // about to swap the whole chain out
    | Walking(at: Option<Address>, task: Task)
    | Loading(node: Address, rest: Option<Address>, task: Task)
    | Swinging(node: Address, expected: Option<Address>, rest: Option<Address>, task: Task)

  /** Who has each node, as history: pool 0 is the stack from the top down, pool
      `i + 1` is what thread `i` holds, the node it works on first. */
  datatype Pools = Pools(owner: map<Address, nat>, pools: seq<seq<Address>>)

  /** What became of each registration, as history. */
  datatype Ledger = Ledger(
    home: map<nat, Address>,
    ids: seq<nat>,
    fired: multiset<nat>,
    withdrawn: multiset<nat>)

  datatype Machine = Machine(
    heap: map<Address, Node>,
    head: Option<Address>,
    threads: seq<Pc>,
    own: Pools,
    book: Ledger)

  datatype Action =
    | NewThread
    | Begin(i: nat, a: Address, id: nat)
    | Call(i: nat, task: Task)
    | Check(i: nat)
    | Swap(i: nat)
    | Walk(i: nat)
    | Load(i: nat)
    | Swing(i: nat, spurious: bool)

  const INIT: Machine :=
    Machine(map[], None, [], Pools(map[], [[]]), Ledger(map[], [], multiset{}, multiset{}))

  predicate At(s: Machine, i: nat) {
    i < |s.threads| && |s.own.pools| == |s.threads| + 1
  }

  /** Thread `i` holds a node to work on. */
  predicate HasNode(s: Machine, i: nat) {
    At(s, i) && s.own.pools[i + 1] != []
  }

  /** A step is enabled when the thread is there and every node it reads or writes
      is live. */
  predicate Enabled(s: Machine, a: Action) {
    match a
    case NewThread => true
    case Begin(i, node, _) => At(s, i) && s.threads[i].Idle? && node !in s.heap
    case Call(i, task) => At(s, i) && s.threads[i].Idle? && (task.Drain? || (task.Cancel? && !task.found))
    case Check(i) => At(s, i) && s.threads[i].Checking?
    case Swap(i) => At(s, i) && s.threads[i].Swapping?
    case Walk(i) =>
      && At(s, i) && s.threads[i].Walking?
      && (s.threads[i].at.Some? ==> s.threads[i].at.value in s.heap && HasNode(s, i))
    case Load(i) => At(s, i) && s.threads[i].Loading? && s.threads[i].node in s.heap
    case Swing(i, _) => At(s, i) && s.threads[i].Swinging? && s.threads[i].node in s.heap && HasNode(s, i)
  }

  function GoTo(s: Machine, i: nat, pc: Pc): Machine
    requires At(s, i)
  {
    s.(threads := s.threads[i := pc])
  }

  /** A new node in an empty hand. */
  function Gains(own: Pools, k: nat, a: Address): Pools
    requires k < |own.pools|
  {
    Pools(own.owner[a := k], own.pools[k := [a]])
  }

  /** The node in hand is freed. */
  function Frees(own: Pools, k: nat): Pools
    requires k < |own.pools| && own.pools[k] != []
  {
    Pools(own.owner - {own.pools[k][0]}, own.pools[k := own.pools[k][1..]])
  }

  /** The node in hand goes on top of the stack. */
  function Pushes(own: Pools, k: nat): Pools
    requires 0 < k < |own.pools| && own.pools[k] != []
  {
    var a := own.pools[k][0];
    Pools(own.owner[a := 0], own.pools[k := own.pools[k][1..]][0 := [a] + own.pools[0]])
  }

  /** The whole stack goes into an empty hand. */
  function Detaches(own: Pools, k: nat): Pools
    requires 0 < k < |own.pools|
  {
    Pools(map a | a in own.owner :: if own.owner[a] == 0 then k else own.owner[a],
          own.pools[k := own.pools[0]][0 := []])
  }

  function Registers(book: Ledger, a: Address, id: nat): Ledger {
    book.(home := book.home[|book.ids| := a], ids := book.ids + [id])
  }

  function Fires(book: Ledger, ticket: nat): Ledger {
    book.(home := book.home - {ticket}, fired := book.fired + multiset{ticket})
  }

  function Withdraws(book: Ledger, ticket: nat): Ledger {
    book.(home := book.home - {ticket}, withdrawn := book.withdrawn + multiset{ticket})
  }

  /** Allocates a node at any address that is not live. */
  function BeginStep(s: Machine, i: nat, a: Address, id: nat): Machine
    requires At(s, i)
  {
    Machine(s.heap[a := Node(|s.book.ids|, id, None)], s.head, s.threads[i := Loading(a, None, Register)],
            Gains(s.own, i + 1, a), Registers(s.book, a, id))
  }

  /** Takes the whole chain. */
  function SwapStep(s: Machine, i: nat): Machine
    requires Enabled(s, Swap(i))
  {
    Machine(s.heap, None, s.threads[i := Walking(s.head, s.threads[i].task)], Detaches(s.own, i + 1), s.book)
  }

  /** Writes the head it saw into its own node. */
  function Aim(s: Machine, i: nat, node: Address, rest: Option<Address>, task: Task): Machine
    requires At(s, i) && node in s.heap
  {
    GoTo(s, i, Swinging(node, s.head, rest, task)).(heap := s.heap[node := s.heap[node].(next := s.head)])
  }

  /** The compare-and-swap compares addresses only. */
  function SwingStep(s: Machine, i: nat, spurious: bool): Machine
    requires Enabled(s, Swing(i, spurious))
  {
    var pc := s.threads[i];
    if s.head == pc.expected && !spurious then
      Machine(s.heap, Some(pc.node), s.threads[i := if pc.task.Register? then Idle else Walking(pc.rest, pc.task)],
              Pushes(s.own, i + 1), s.book)
    else
      Aim(s, i, pc.node, pc.rest, pc.task)
  }

  /** One node of a detached chain: a drain fires it, a withdrawal drops the first
      of its id and pushes the others back. */
  function WalkStep(s: Machine, i: nat): Machine
    requires Enabled(s, Walk(i))
  {
    var task := s.threads[i].task;
    match s.threads[i].at
    case None => GoTo(s, i, Idle)
    case Some(a) =>
      var node := s.heap[a];
      if task.Cancel? && (task.found || node.id != task.id) then
        GoTo(s, i, Loading(a, node.next, task))
      else if task.Cancel? then
        Machine(s.heap - {a}, s.head, s.threads[i := Walking(node.next, Cancel(task.id, true))],
                Frees(s.own, i + 1), Withdraws(s.book, node.ticket))
      else
        Machine(s.heap - {a}, s.head, s.threads[i := Walking(node.next, task)],
                Frees(s.own, i + 1), Fires(s.book, node.ticket))
  }

  function Apply(s: Machine, a: Action): Machine
    requires Enabled(s, a)
  {
    match a
    case NewThread => s.(threads := s.threads + [Idle], own := s.own.(pools := s.own.pools + [[]]))
    case Begin(i, node, id) => BeginStep(s, i, node, id)
    case Call(i, task) => GoTo(s, i, Checking(task))
    case Check(i) => GoTo(s, i, if s.head.None? then Idle else Swapping(s.threads[i].task))
    case Swap(i) => SwapStep(s, i)
    case Walk(i) => WalkStep(s, i)
    case Load(i) => Aim(s, i, s.threads[i].node, s.threads[i].rest, s.threads[i].task)
    case Swing(i, spurious) => SwingStep(s, i, spurious)
  }

  predicate Runs(s: Machine, acts: seq<Action>, t: Machine)
    decreases |acts|
  {
    if acts == [] then s == t
    else Enabled(s, acts[0]) && Runs(Apply(s, acts[0]), acts[1..], t)
  }

  ghost predicate Reachable(s: Machine) {
    exists acts: seq<Action> :: Runs(INIT, acts, s)
  }

  /** Following `next` from `at` visits exactly `c` and ends. */
  predicate Path(heap: map<Address, Node>, at: Option<Address>, c: seq<Address>)
    decreases |c|
  {
    if c == [] then at.None?
    else at == Some(c[0]) && c[0] in heap && Path(heap, heap[c[0]].next, c[1..])
  }

  predicate NoDup(c: seq<Address>) {
    forall j, k :: 0 <= j < k < |c| ==> c[j] != c[k]
  }

  /** Every node has one owner, and every owner has just its nodes. */
  ghost predicate Parted(own: Pools) {
    && (forall k :: 0 <= k < |own.pools| ==> NoDup(own.pools[k]))
    && (forall a :: a in own.owner ==> own.owner[a] < |own.pools| && a in own.pools[own.owner[a]])
    && (forall k, a :: 0 <= k < |own.pools| && a in own.pools[k] ==> a in own.owner && own.owner[a] == k)
  }

  /** What a thread holds is what its program counter says. */
  predicate Holds(heap: map<Address, Node>, pc: Pc, hand: seq<Address>) {
    match pc
    case Idle => hand == []
    case Checking(task) => hand == [] && !task.Register?
    case Swapping(task) => hand == [] && !task.Register?
    case Walking(at, task) => Path(heap, at, hand) && !task.Register?
    case Loading(node, rest, task) => Carries(heap, node, rest, task, hand)
    case Swinging(node, expected, rest, task) => Carries(heap, node, rest, task, hand) && heap[node].next == expected
  }

  /** The node to push comes first, and the rest of a walk behind it. */
  predicate Carries(heap: map<Address, Node>, node: Address, rest: Option<Address>, task: Task, hand: seq<Address>) {
    && hand != [] && node == hand[0] && node in heap && Path(heap, rest, hand[1..])
    && !task.Drain? && (task.Register? ==> rest.None?)
  }

  predicate Linked(heap: map<Address, Node>, head: Option<Address>, threads: seq<Pc>, pools: seq<seq<Address>>) {
    && |pools| == |threads| + 1 && Path(heap, head, pools[0])
    && forall i :: 0 <= i < |threads| ==> Holds(heap, threads[i], pools[i + 1])
  }

  /** Each registration is live at one address, fired once, or withdrawn once. */
  ghost predicate Counted(heap: map<Address, Node>, book: Ledger) {
    && (forall a :: a in heap ==> heap[a].ticket in book.home && book.home[heap[a].ticket] == a)
    && (forall t :: t in book.home ==>
          && t < |book.ids| && book.home[t] in heap && heap[book.home[t]].ticket == t
          && heap[book.home[t]].id == book.ids[t])
    && (forall t :: 0 <= t < |book.ids| ==>
          book.fired[t] + book.withdrawn[t] + (if t in book.home then 1 else 0) == 1)
    && (forall t :: t in book.fired || t in book.withdrawn ==> t < |book.ids|)
  }

  ghost predicate Inv(s: Machine) {
    && s.heap.Keys == s.own.owner.Keys && Parted(s.own)
    && Linked(s.heap, s.head, s.threads, s.own.pools)
    && Counted(s.heap, s.book)
  }

  lemma GainsParts(own: Pools, k: nat, a: Address)
    requires Parted(own) && k < |own.pools| && own.pools[k] == [] && a !in own.owner
    ensures Parted(Gains(own, k, a)) && Gains(own, k, a).owner.Keys == own.owner.Keys + {a}
  {
  }

  lemma FreesParts(own: Pools, k: nat)
    requires Parted(own) && k < |own.pools| && own.pools[k] != []
    ensures Parted(Frees(own, k)) && Frees(own, k).owner.Keys == own.owner.Keys - {own.pools[k][0]}
  {
    var own' := Frees(own, k);
    assert own.owner[own.pools[k][0]] == k;
    assert forall b :: b in own.pools[k] <==> b == own.pools[k][0] || b in own'.pools[k];
  }

  lemma PushesParts(own: Pools, k: nat)
    requires Parted(own) && 0 < k < |own.pools| && own.pools[k] != []
    ensures Parted(Pushes(own, k)) && Pushes(own, k).owner.Keys == own.owner.Keys
  {
    var a, own' := own.pools[k][0], Pushes(own, k);
    assert own.owner[a] == k;
    assert forall b :: b in own.pools[k] <==> b == a || b in own'.pools[k];
    assert forall b :: b in own'.pools[0] <==> b == a || b in own.pools[0];
  }

  lemma DetachesParts(own: Pools, k: nat)
    requires Parted(own) && 0 < k < |own.pools| && own.pools[k] == []
    ensures Parted(Detaches(own, k)) && Detaches(own, k).owner.Keys == own.owner.Keys
  {
  }

  lemma RegistersCounts(heap: map<Address, Node>, book: Ledger, a: Address, id: nat)
    requires Counted(heap, book) && a !in heap
    ensures Counted(heap[a := Node(|book.ids|, id, None)], Registers(book, a, id))
  {
  }

  lemma FreesCounts(heap: map<Address, Node>, book: Ledger, a: Address)
    requires Counted(heap, book) && a in heap
    ensures Counted(heap - {a}, Fires(book, heap[a].ticket)) && Counted(heap - {a}, Withdraws(book, heap[a].ticket))
  {
  }

  /** A path is untouched by changes off it. */
  lemma {:induction false} PathKept(heap: map<Address, Node>, heap': map<Address, Node>,
                                    at: Option<Address>, c: seq<Address>)
    requires Path(heap, at, c)
    requires forall a :: a in c && a in heap ==> a in heap' && heap'[a].next == heap[a].next
    ensures Path(heap', at, c)
    decreases |c|
  {
    if c != [] {
      PathKept(heap, heap', heap[c[0]].next, c[1..]);
    }
  }

  lemma HoldsKept(heap: map<Address, Node>, heap': map<Address, Node>, pc: Pc, hand: seq<Address>)
    requires Holds(heap, pc, hand)
    requires forall a :: a in hand && a in heap ==> a in heap' && heap'[a].next == heap[a].next
    ensures Holds(heap', pc, hand)
  {
    match pc
    case Walking(at, _) => PathKept(heap, heap', at, hand);
    case Loading(_, rest, _) => PathKept(heap, heap', rest, hand[1..]);
    case Swinging(_, _, rest, _) => PathKept(heap, heap', rest, hand[1..]);
    case _ =>
  }

  /** A thread that touches only its own nodes leaves the stack and the others as
      they were. */
  lemma OthersKept(s: Machine, heap': map<Address, Node>, i: nat)
    requires Parted(s.own) && Linked(s.heap, s.head, s.threads, s.own.pools) && i < |s.threads|
    requires forall a :: a in s.heap && (a in s.own.owner ==> s.own.owner[a] != i + 1) ==>
               a in heap' && heap'[a].next == s.heap[a].next
    ensures Path(heap', s.head, s.own.pools[0])
    ensures forall j :: 0 <= j < |s.threads| && j != i ==> Holds(heap', s.threads[j], s.own.pools[j + 1])
  {
    PathKept(s.heap, heap', s.head, s.own.pools[0]);
    forall j | 0 <= j < |s.threads| && j != i ensures Holds(heap', s.threads[j], s.own.pools[j + 1]) {
      HoldsKept(s.heap, heap', s.threads[j], s.own.pools[j + 1]);
    }
  }

  lemma LinkedAgain(s: Machine, i: nat, heap': map<Address, Node>, head': Option<Address>,
                    pc': Pc, pools': seq<seq<Address>>)
    requires i < |s.threads| && |s.own.pools| == |s.threads| + 1 == |pools'|
    requires forall j :: 0 <= j < |s.threads| && j != i ==> Holds(heap', s.threads[j], s.own.pools[j + 1])
    requires forall j :: 0 < j < |pools'| && j != i + 1 ==> pools'[j] == s.own.pools[j]
    requires Path(heap', head', pools'[0]) && Holds(heap', pc', pools'[i + 1])
    ensures Linked(heap', head', s.threads[i := pc'], pools')
  {
    hide Holds, Path;
    var threads' := s.threads[i := pc'];
    forall j | 0 <= j < |threads'| ensures Holds(heap', threads'[j], pools'[j + 1]) {
      assert j != i ==> threads'[j] == s.threads[j] && pools'[j + 1] == s.own.pools[j + 1];
    }
  }

  lemma EmptyHanded(s: Machine, i: nat)
    requires Linked(s.heap, s.head, s.threads, s.own.pools) && i < |s.threads|
    ensures s.threads[i].Idle? || s.threads[i].Checking? || s.threads[i].Swapping? ==> s.own.pools[i + 1] == []
    ensures s.threads[i].Checking? || s.threads[i].Swapping? || s.threads[i].Walking? ==> !s.threads[i].task.Register?
  {
    assert Holds(s.heap, s.threads[i], s.own.pools[i + 1]);
  }

  lemma BeginLinks(s: Machine, i: nat, a: Address, node: Node)
    requires Parted(s.own) && Linked(s.heap, s.head, s.threads, s.own.pools) && i < |s.threads| && a !in s.heap
    ensures Linked(s.heap[a := node], s.head, s.threads[i := Loading(a, None, Register)], Gains(s.own, i + 1, a).pools)
  {
    OthersKept(s, s.heap[a := node], i);
    LinkedAgain(s, i, s.heap[a := node], s.head, Loading(a, None, Register), Gains(s.own, i + 1, a).pools);
  }

  lemma BeginKeeps(s: Machine, i: nat, a: Address, id: nat)
    requires Enabled(s, Begin(i, a, id)) && Inv(s)
    ensures Inv(BeginStep(s, i, a, id))
  {
    hide Parted, Linked, Gains, Counted;
    EmptyHanded(s, i);
    BeginLinks(s, i, a, Node(|s.book.ids|, id, None));
    GainsParts(s.own, i + 1, a);
    RegistersCounts(s.heap, s.book, a, id);
  }

  lemma SwapLinks(s: Machine, i: nat)
    requires Parted(s.own) && Linked(s.heap, s.head, s.threads, s.own.pools)
    requires At(s, i) && s.threads[i].Swapping?
    ensures Linked(s.heap, None, s.threads[i := Walking(s.head, s.threads[i].task)], Detaches(s.own, i + 1).pools)
  {
    EmptyHanded(s, i);
    OthersKept(s, s.heap, i);
    LinkedAgain(s, i, s.heap, None, Walking(s.head, s.threads[i].task), Detaches(s.own, i + 1).pools);
  }

  lemma SwapKeeps(s: Machine, i: nat)
    requires Enabled(s, Swap(i)) && Inv(s)
    ensures Inv(SwapStep(s, i))
  {
    hide Parted, Linked, Detaches, Counted;
    EmptyHanded(s, i);
    SwapLinks(s, i);
    DetachesParts(s.own, i + 1);
  }

  /** The node it aims stays in hand, pointing at the head it saw. */
  lemma AimHolds(heap: map<Address, Node>, head: Option<Address>, pc: Pc, hand: seq<Address>)
    requires (pc.Loading? || pc.Swinging?) && Holds(heap, pc, hand) && NoDup(hand)
    ensures pc.node in heap && hand != [] && hand[0] == pc.node
    ensures Holds(heap[pc.node := heap[pc.node].(next := head)], Swinging(pc.node, head, pc.rest, pc.task), hand)
  {
    assert pc.node !in hand[1..];
    PathKept(heap, heap[pc.node := heap[pc.node].(next := head)], pc.rest, hand[1..]);
  }

  lemma AimLinks(s: Machine, i: nat, s': Machine)
    requires Parted(s.own) && Linked(s.heap, s.head, s.threads, s.own.pools)
    requires At(s, i) && (s.threads[i].Loading? || s.threads[i].Swinging?) && s.threads[i].node in s.heap
    requires s' == Aim(s, i, s.threads[i].node, s.threads[i].rest, s.threads[i].task)
    ensures Linked(s'.heap, s.head, s'.threads, s.own.pools)
  {
    AimHolds(s.heap, s.head, s.threads[i], s.own.pools[i + 1]);
    assert s.own.owner[s.threads[i].node] == i + 1;
    OthersKept(s, s'.heap, i);
    hide Holds, Path;
    LinkedAgain(s, i, s'.heap, s.head, s'.threads[i], s.own.pools);
  }

  lemma AimKeeps(s: Machine, i: nat)
    requires At(s, i) && (s.threads[i].Loading? || s.threads[i].Swinging?) && s.threads[i].node in s.heap && Inv(s)
    ensures Inv(Aim(s, i, s.threads[i].node, s.threads[i].rest, s.threads[i].task))
  {
    hide Parted, Linked;
    var s' := Aim(s, i, s.threads[i].node, s.threads[i].rest, s.threads[i].task);
    assert Counted(s'.heap, s'.book);
    hide Counted;
    AimLinks(s, i, s');
  }

  lemma SwingLinks(s: Machine, i: nat)
    requires Parted(s.own) && Linked(s.heap, s.head, s.threads, s.own.pools)
    requires At(s, i) && s.threads[i].Swinging? && s.head == s.threads[i].expected
    ensures s.own.pools[i + 1] != [] && s.own.pools[i + 1][0] == s.threads[i].node
    ensures var pc := s.threads[i];
            var pc' := if pc.task.Register? then Idle else Walking(pc.rest, pc.task);
            Linked(s.heap, Some(pc.node), s.threads[i := pc'], Pushes(s.own, i + 1).pools)
  {
    var pc, hand := s.threads[i], s.own.pools[i + 1];
    var pc' := if pc.task.Register? then Idle else Walking(pc.rest, pc.task);
    assert Holds(s.heap, pc, hand);
    OthersKept(s, s.heap, i);
    var pools' := Pushes(s.own, i + 1).pools;
    assert pools'[0] == [pc.node] + s.own.pools[0] && pools'[0][1..] == s.own.pools[0];
    assert Path(s.heap, Some(pc.node), pools'[0]);
    LinkedAgain(s, i, s.heap, Some(pc.node), pc', pools');
  }

  /** Whatever lap the address is on, a swap that succeeds finds its node already
      linked to the head it replaces. */
  lemma SwingKeeps(s: Machine, i: nat, spurious: bool)
    requires Enabled(s, Swing(i, spurious)) && Inv(s)
    ensures Inv(SwingStep(s, i, spurious))
  {
    hide Parted, Linked, Pushes, Counted;
    if s.head == s.threads[i].expected && !spurious {
      SwingLinks(s, i);
      PushesParts(s.own, i + 1);
    } else {
      AimKeeps(s, i);
    }
  }

  /** A walk that goes on, or starts to push a node back, holds what it held. */
  lemma WalkLinks(s: Machine, i: nat, pc': Pc)
    requires Parted(s.own) && Linked(s.heap, s.head, s.threads, s.own.pools)
    requires At(s, i) && s.threads[i].Walking?
    requires match s.threads[i].at
      case None => pc' == Idle
      case Some(a) => s.threads[i].task.Cancel? && a in s.heap && pc' == Loading(a, s.heap[a].next, s.threads[i].task)
    ensures Linked(s.heap, s.head, s.threads[i := pc'], s.own.pools)
  {
    assert Holds(s.heap, s.threads[i], s.own.pools[i + 1]);
    OthersKept(s, s.heap, i);
    LinkedAgain(s, i, s.heap, s.head, pc', s.own.pools);
  }

  lemma WalkFrees(s: Machine, i: nat, pc': Pc)
    requires Parted(s.own) && Linked(s.heap, s.head, s.threads, s.own.pools)
    requires At(s, i) && s.threads[i].Walking? && s.threads[i].at.Some? && s.threads[i].at.value in s.heap
    requires pc'.Walking? && pc'.at == s.heap[s.threads[i].at.value].next && !pc'.task.Register?
    ensures s.own.pools[i + 1] != [] && s.own.pools[i + 1][0] == s.threads[i].at.value
    ensures Linked(s.heap - {s.threads[i].at.value}, s.head, s.threads[i := pc'], Frees(s.own, i + 1).pools)
  {
    var a, hand := s.threads[i].at.value, s.own.pools[i + 1];
    assert Holds(s.heap, s.threads[i], hand);
    assert s.own.owner[a] == i + 1;
    OthersKept(s, s.heap - {a}, i);
    assert a !in hand[1..] by { assert NoDup(hand); }
    PathKept(s.heap, s.heap - {a}, s.heap[a].next, hand[1..]);
    LinkedAgain(s, i, s.heap - {a}, s.head, pc', Frees(s.own, i + 1).pools);
  }

  lemma WalkKeeps(s: Machine, i: nat)
    requires Enabled(s, Walk(i)) && Inv(s)
    ensures Inv(WalkStep(s, i))
  {
    hide Parted, Linked, Counted, Frees;
    EmptyHanded(s, i);
    var pc, s' := s.threads[i], WalkStep(s, i);
    if pc.at.Some? && (!pc.task.Cancel? || (!pc.task.found && s.heap[pc.at.value].id == pc.task.id)) {
      WalkFrees(s, i, s'.threads[i]);
      FreesParts(s.own, i + 1);
      FreesCounts(s.heap, s.book, pc.at.value);
    } else {
      WalkLinks(s, i, s'.threads[i]);
    }
  }

  /** A thread that loads the head, or is called, holds nothing still. */
  lemma PlainLinks(s: Machine, i: nat, pc': Pc)
    requires Linked(s.heap, s.head, s.threads, s.own.pools) && i < |s.threads|
    requires s.own.pools[i + 1] == [] && Holds(s.heap, pc', [])
    ensures Linked(s.heap, s.head, s.threads[i := pc'], s.own.pools)
  {
    hide Path, Holds;
    LinkedAgain(s, i, s.heap, s.head, pc', s.own.pools);
  }

  lemma CallKeeps(s: Machine, i: nat, task: Task)
    requires Enabled(s, Call(i, task)) && Inv(s)
    ensures Inv(Apply(s, Call(i, task)))
  {
    hide Parted, Counted, Path;
    EmptyHanded(s, i);
    PlainLinks(s, i, Checking(task));
  }

  lemma CheckKeeps(s: Machine, i: nat)
    requires Enabled(s, Check(i)) && Inv(s)
    ensures Inv(Apply(s, Check(i)))
  {
    hide Parted, Counted, Path;
    EmptyHanded(s, i);
    PlainLinks(s, i, if s.head.None? then Idle else Swapping(s.threads[i].task));
  }

  lemma NewThreadParts(own: Pools)
    requires Parted(own)
    ensures Parted(own.(pools := own.pools + [[]]))
  {
  }

  lemma NewThreadLinks(heap: map<Address, Node>, head: Option<Address>, threads: seq<Pc>, pools: seq<seq<Address>>)
    requires Linked(heap, head, threads, pools)
    ensures Linked(heap, head, threads + [Idle], pools + [[]])
  {
    hide Path;
    forall i | 0 <= i < |threads| + 1 ensures Holds(heap, (threads + [Idle])[i], (pools + [[]])[i + 1]) {
      if i < |threads| { assert Holds(heap, threads[i], pools[i + 1]); }
    }
  }

  lemma NewThreadKeeps(s: Machine)
    requires Inv(s)
    ensures Inv(Apply(s, NewThread))
  {
    hide Parted, Counted, Linked;
    NewThreadParts(s.own);
    NewThreadLinks(s.heap, s.head, s.threads, s.own.pools);
  }

  lemma InvStep(s: Machine, a: Action)
    requires Enabled(s, a) && Inv(s)
    ensures Inv(Apply(s, a))
  {
    match a
    case NewThread => NewThreadKeeps(s);
    case Begin(i, node, id) => BeginKeeps(s, i, node, id);
    case Call(i, task) => CallKeeps(s, i, task);
    case Check(i) => CheckKeeps(s, i);
    case Swap(i) => SwapKeeps(s, i);
    case Walk(i) => WalkKeeps(s, i);
    case Load(i) => AimKeeps(s, i);
    case Swing(i, spurious) => SwingKeeps(s, i, spurious);
  }

  lemma {:induction false} InvRun(s: Machine, acts: seq<Action>, t: Machine)
    requires Inv(s) && Runs(s, acts, t)
    ensures Inv(t)
    decreases |acts|
  {
    if acts != [] {
      InvStep(s, acts[0]);
      InvRun(Apply(s, acts[0]), acts[1..], t);
    }
  }

  lemma ReachableKeepsInv(s: Machine)
    requires Reachable(s)
    ensures Inv(s)
  {
    var acts: seq<Action> :| Runs(INIT, acts, s);
    InvRun(INIT, acts, s);
  }

  /** What a thread holds is live and its own. */
  lemma HandIsOwn(s: Machine, i: nat)
    requires Inv(s) && At(s, i)
    ensures forall n :: n in s.own.pools[i + 1] ==> n in s.heap && n in s.own.owner && s.own.owner[n] == i + 1
  {
  }

  /** The node a thread is about to look at, aim or push comes first in its hand. */
  lemma InHandFirst(s: Machine, i: nat)
    requires Inv(s) && At(s, i)
    ensures match s.threads[i]
      case Walking(at, _) => at == if HasNode(s, i) then Some(s.own.pools[i + 1][0]) else None
      case Loading(node, _, _) => HasNode(s, i) && node == s.own.pools[i + 1][0]
      case Swinging(node, _, _, _) => HasNode(s, i) && node == s.own.pools[i + 1][0]
      case _ => true
  {
    assert Holds(s.heap, s.threads[i], s.own.pools[i + 1]);
  }

  /** Every node a thread is about to read, write or free is live and its own. */
  lemma AccessesAreSafe(s: Machine, i: nat)
    requires Reachable(s) && At(s, i)
    ensures match s.threads[i]
      case Walking(at, _) => Enabled(s, Walk(i)) && (at.Some? ==> (at.value, i + 1) in s.own.owner.Items)
      case Loading(node, _, _) => Enabled(s, Load(i)) && (node, i + 1) in s.own.owner.Items
      case Swinging(node, _, _, _) => Enabled(s, Swing(i, false)) && (node, i + 1) in s.own.owner.Items
      case _ => true
  {
    ReachableKeepsInv(s);
    HandIsOwn(s, i);
    InHandFirst(s, i);
    hide Inv, Reachable;
    if HasNode(s, i) { assert s.own.pools[i + 1][0] in s.own.pools[i + 1]; }
  }

  /** Every node is at each moment on the acyclic chain the pointers trace or in
      one thread's hands, and in one such place only. */
  lemma OneOwnerEach(s: Machine, a: Address)
    requires Reachable(s)
    ensures s.own.pools != [] && Path(s.heap, s.head, s.own.pools[0])
    ensures a in s.heap <==> exists k :: 0 <= k < |s.own.pools| && a in s.own.pools[k]
    ensures forall j, k | 0 <= j < k < |s.own.pools| :: a in s.own.pools[j] ==> a !in s.own.pools[k]
    ensures forall k | 0 <= k < |s.own.pools| :: NoDup(s.own.pools[k])
  {
    ReachableKeepsInv(s);
    if a in s.heap { assert a in s.own.pools[s.own.owner[a]]; }
  }

  /** Each registration is still held by exactly one node, or fired exactly once,
      or freed exactly once. */
  lemma EachRegistrationOnce(s: Machine, ticket: nat)
    requires Reachable(s) && ticket < |s.book.ids|
    ensures s.book.fired[ticket] + s.book.withdrawn[ticket] + (if ticket in s.book.home then 1 else 0) == 1
    ensures forall a :: a in s.heap && s.heap[a].ticket == ticket <==> ticket in s.book.home && s.book.home[ticket] == a
  {
    ReachableKeepsInv(s);
  }

  lemma OnlyWalksWithdraw(s: Machine, a: Action, ticket: nat)
    requires Enabled(s, a) && Apply(s, a).book.withdrawn[ticket] != s.book.withdrawn[ticket]
    ensures a.Walk? && s.threads[a.i].at.Some?
    ensures var node := s.heap[s.threads[a.i].at.value];
            node.ticket == ticket && s.threads[a.i].task == Cancel(node.id, false)
    ensures Apply(s, a).book.withdrawn[ticket] == s.book.withdrawn[ticket] + 1
  {
  }

  /** Only a withdrawal of its own id, which has found nothing yet, frees a registration. */
  lemma WithdrawnOnlyByItsOwn(s: Machine, a: Action, ticket: nat)
    requires Inv(s) && Enabled(s, a) && Apply(s, a).book.withdrawn[ticket] != s.book.withdrawn[ticket]
    ensures a.Walk? && ticket < |s.book.ids| && s.threads[a.i].task == Cancel(s.book.ids[ticket], false)
    ensures Apply(s, a).book.withdrawn[ticket] == s.book.withdrawn[ticket] + 1
  {
    OnlyWalksWithdraw(s, a, ticket);
    hide Apply;
  }

  predicate AtRest(s: Machine) {
    forall i :: 0 <= i < |s.threads| ==> s.threads[i].Idle?
  }

  /** With nobody mid-call, everything neither fired nor withdrawn is on the stack. */
  lemma NothingLostAtRest(s: Machine, ticket: nat)
    requires Reachable(s) && AtRest(s) && ticket < |s.book.ids|
    requires s.book.withdrawn[ticket] == 0 && s.book.fired[ticket] == 0
    ensures ticket in s.book.home && s.own.pools != [] && s.book.home[ticket] in s.own.pools[0]
  {
    ReachableKeepsInv(s);
    var k := s.own.owner[s.book.home[ticket]];
    assert k > 0 ==> Holds(s.heap, s.threads[k - 1], s.own.pools[k]);
  }

  /** The thread is inside a withdrawal of `id`. */
  predicate Cancels(pc: Pc, id: nat) {
    !pc.Idle? && pc.task.Cancel? && pc.task.id == id
  }

  predicate NobodyCancels(s: Machine, id: nat) {
    forall i | 0 <= i < |s.threads| :: !Cancels(s.threads[i], id)
  }

  /** No withdrawal of `id` is called. */
  predicate NeverCalls(acts: seq<Action>, id: nat) {
    forall k | 0 <= k < |acts| && acts[k].Call? && acts[k].task.Cancel? :: acts[k].task.id != id
  }

  lemma NobodyCancelsStill(s: Machine, a: Action, id: nat)
    requires Enabled(s, a) && NobodyCancels(s, id) && (a.Call? && a.task.Cancel? ==> a.task.id != id)
    ensures NobodyCancels(Apply(s, a), id)
  {
  }

  lemma IdsKept(s: Machine, a: Action)
    requires Enabled(s, a)
    ensures s.book.ids <= Apply(s, a).book.ids
  {
  }

  lemma {:induction false} UnaskedIsKept(s: Machine, acts: seq<Action>, t: Machine, ticket: nat)
    requires Inv(s) && Runs(s, acts, t) && ticket < |s.book.ids|
    requires NobodyCancels(s, s.book.ids[ticket]) && NeverCalls(acts, s.book.ids[ticket])
    ensures Inv(t) && ticket < |t.book.ids| && t.book.withdrawn[ticket] == s.book.withdrawn[ticket]
    decreases |acts|
  {
    if acts != [] {
      InvStep(s, acts[0]);
      IdsKept(s, acts[0]);
      NobodyCancelsStill(s, acts[0], s.book.ids[ticket]);
      if Apply(s, acts[0]).book.withdrawn[ticket] != s.book.withdrawn[ticket] {
        WithdrawnOnlyByItsOwn(s, acts[0], ticket);
        assert Cancels(s.threads[acts[0].i], s.book.ids[ticket]);
      }
      assert NeverCalls(acts[1..], s.book.ids[ticket]);
      UnaskedIsKept(Apply(s, acts[0]), acts[1..], t, ticket);
    }
  }

  /** No withdrawal loses a peer. Whatever is drained and withdrawn meanwhile, and
      whatever the id was withdrawn for before: a live registration whose own id nobody
      withdraws from here on has, once everybody is done, fired once or is on the
      stack. */
  lemma PeersAreNeverLost(s: Machine, acts: seq<Action>, t: Machine, ticket: nat)
    requires Reachable(s) && Runs(s, acts, t) && AtRest(t) && ticket in s.book.home
    requires ticket < |s.book.ids| && NobodyCancels(s, s.book.ids[ticket]) && NeverCalls(acts, s.book.ids[ticket])
    ensures t.book.withdrawn[ticket] == 0
    ensures if t.book.fired[ticket] == 1 then ticket !in t.book.home
            else ticket in t.book.home && t.own.pools != [] && t.book.home[ticket] in t.own.pools[0]
  {
    ReachableKeepsInv(s);
    UnaskedIsKept(s, acts, t, ticket);
    ReachableOn(s, acts, t);
    EachRegistrationOnce(t, ticket);
    if t.book.fired[ticket] == 0 { NothingLostAtRest(t, ticket); }
  }

  lemma ReachableOn(s: Machine, acts: seq<Action>, t: Machine)
    requires Reachable(s) && Runs(s, acts, t)
    ensures Reachable(t)
  {
    var before: seq<Action> :| Runs(INIT, before, s);
    RunsOn(INIT, before, s, acts, t);
  }

  lemma {:induction false} RunsOn(s: Machine, before: seq<Action>, t: Machine, acts: seq<Action>, u: Machine)
    requires Runs(s, before, t) && Runs(t, acts, u)
    ensures Runs(s, before + acts, u)
    decreases |before|
  {
    if before == [] {
      assert before + acts == acts;
    } else {
      RunsOn(Apply(s, before[0]), before[1..], t, acts, u);
      assert (before + acts)[1..] == before[1..] + acts;
    }
  }

  /** Thread `i` is draining and `ticket` is among what it took. */
  predicate Draining(s: Machine, i: nat, ticket: nat) {
    && At(s, i) && s.threads[i].Walking? && s.threads[i].task.Drain?
    && ticket in s.book.home && s.book.home[ticket] in s.own.pools[i + 1]
  }

  lemma DrainerWalks(s: Machine, i: nat, ticket: nat)
    requires Inv(s) && Enabled(s, Walk(i)) && Draining(s, i, ticket)
    ensures Draining(WalkStep(s, i), i, ticket) || WalkStep(s, i).book.fired[ticket] > 0
  {
    var s', hand := WalkStep(s, i), s.own.pools[i + 1];
    assert Holds(s.heap, s.threads[i], hand);
    if s.book.home[ticket] != hand[0] {
      assert s.book.home[ticket] in s'.own.pools[i + 1];
    }
  }

  /** A thread that is walking keeps its place and its nodes while others move. */
  lemma WalkerKept(s: Machine, a: Action, i: nat)
    requires Enabled(s, a) && At(s, i) && s.threads[i].Walking? && a != Walk(i)
    ensures At(Apply(s, a), i) && Apply(s, a).threads[i] == s.threads[i]
    ensures Apply(s, a).own.pools[i + 1] == s.own.pools[i + 1]
  {
  }

  lemma HomeKept(s: Machine, a: Action, ticket: nat)
    requires Enabled(s, a) && ticket in s.book.home && ticket < |s.book.ids|
    requires a.Walk? && s.threads[a.i].at.Some? ==> s.heap[s.threads[a.i].at.value].ticket != ticket
    ensures ticket in Apply(s, a).book.home && Apply(s, a).book.home[ticket] == s.book.home[ticket]
  {
  }

  lemma OthersLeaveDrainerAlone(s: Machine, a: Action, i: nat, ticket: nat)
    requires Inv(s) && Enabled(s, a) && Draining(s, i, ticket) && a != Walk(i)
    ensures Draining(Apply(s, a), i, ticket)
  {
    assert ticket < |s.book.ids|;
    if a.Walk? && s.threads[a.i].at.Some? { NotMyNode(s, a.i, i, ticket); }
    WalkerKept(s, a, i);
    HomeKept(s, a, ticket);
    hide Inv, Apply, Enabled;
  }

  lemma NotMyNode(s: Machine, j: nat, i: nat, ticket: nat)
    requires Inv(s) && Enabled(s, Walk(j)) && Draining(s, i, ticket) && j != i && s.threads[j].at.Some?
    ensures s.heap[s.threads[j].at.value].ticket != ticket
  {
    var a, node := s.threads[j].at.value, s.book.home[ticket];
    assert s.own.owner[node] == i + 1;
    assert Holds(s.heap, s.threads[j], s.own.pools[j + 1]);
    assert s.own.owner[a] == j + 1;
  }

  lemma FiringIsForGood(s: Machine, a: Action, ticket: nat)
    requires Enabled(s, a)
    ensures s.book.fired[ticket] <= Apply(s, a).book.fired[ticket]
  {
  }

  lemma {:induction false} DrainRun(s: Machine, acts: seq<Action>, t: Machine, i: nat, ticket: nat)
    requires Inv(s) && Runs(s, acts, t) && (Draining(s, i, ticket) || s.book.fired[ticket] > 0)
    ensures Draining(t, i, ticket) || t.book.fired[ticket] > 0
    decreases |acts|
  {
    if acts != [] {
      var s' := Apply(s, acts[0]);
      InvStep(s, acts[0]);
      FiringIsForGood(s, acts[0], ticket);
      if Draining(s, i, ticket) {
        if acts[0] == Walk(i) { DrainerWalks(s, i, ticket); } else { OthersLeaveDrainerAlone(s, acts[0], i, ticket); }
      }
      DrainRun(s', acts[1..], t, i, ticket);
    }
  }

  /** A drain fires everything that was on the stack when it swapped: whatever the
      others do meanwhile, once it is done each such registration has fired. */
  lemma DrainFiresAllItTook(s: Machine, acts: seq<Action>, t: Machine, i: nat, ticket: nat)
    requires Reachable(s) && Enabled(s, Swap(i)) && s.threads[i].task.Drain?
    requires ticket in s.book.home && s.own.pools != [] && s.book.home[ticket] in s.own.pools[0]
    requires Runs(SwapStep(s, i), acts, t) && At(t, i) && t.threads[i].Idle?
    ensures t.book.fired[ticket] == 1
  {
    ReachableKeepsInv(s);
    SwapKeeps(s, i);
    SwapDrains(s, i, ticket);
    var s' := SwapStep(s, i);
    hide Inv, Runs, Draining, SwapStep;
    DrainRun(s', acts, t, i, ticket);
    InvRun(s', acts, t);
    FiredOnce(t, ticket);
  }

  lemma SwapDrains(s: Machine, i: nat, ticket: nat)
    requires Enabled(s, Swap(i)) && s.threads[i].task.Drain?
    requires ticket in s.book.home && s.book.home[ticket] in s.own.pools[0]
    ensures Draining(SwapStep(s, i), i, ticket)
  {
  }

  lemma FiredOnce(s: Machine, ticket: nat)
    requires Inv(s) && s.book.fired[ticket] > 0
    ensures s.book.fired[ticket] == 1
  {
    assert ticket in s.book.fired;
  }
}
