/** What one drain, or one withdrawal, takes off the stack while other threads push,
    drain and withdraw: what it wants of what is on the stack when it takes the head,
    and nothing that another thread has in hand. */
module TreiberCalls {
  import opened Wrappers
  import opened TreiberStack

  /** The step is one of thread `i`'s. */
  predicate By(a: Action, i: nat) {
    !a.NewThread? && a.i == i
  }

  /** Thread `i` is called no more. */
  predicate OneCall(acts: seq<Action>, i: nat) {
    forall k | 0 <= k < |acts| && By(acts[k], i) :: !acts[k].Begin? && !acts[k].Call?
  }

  /** What becomes of a registration a call takes. */
  datatype Fate = Fired(ticket: nat) | Withdrawn(ticket: nat)

  /** What the step `Walk(i)` takes. */
  function TakenNow(s: Machine, i: nat): seq<Fate>
    requires Enabled(s, Walk(i))
  {
    var pc := s.threads[i];
    if pc.at.None? then []
    else if !pc.task.Cancel? then [Fired(s.heap[pc.at.value].ticket)]
    else if !pc.task.found && s.heap[pc.at.value].id == pc.task.id then [Withdrawn(s.heap[pc.at.value].ticket)]
    else []
  }

  /** What thread `i` takes along a run, in order. */
  function Taken(s: Machine, acts: seq<Action>, i: nat): seq<Fate>
    decreases |acts|
  {
    if acts == [] || !Enabled(s, acts[0]) then []
    else (if acts[0] == Walk(i) then TakenNow(s, i) else []) + Taken(Apply(s, acts[0]), acts[1..], i)
  }

  /** The first registration of `id` on a chain, if there is one. */
  function FirstOf(heap: map<Address, Node>, c: seq<Address>, id: nat): seq<Fate> {
    if c == [] then []
    else if c[0] in heap && heap[c[0]].id == id then [Withdrawn(heap[c[0]].ticket)]
    else FirstOf(heap, c[1..], id)
  }

  /** Every registration on a chain. */
  function AllOf(heap: map<Address, Node>, c: seq<Address>): seq<Fate> {
    if c == [] then []
    else (if c[0] in heap then [Fired(heap[c[0]].ticket)] else []) + AllOf(heap, c[1..])
  }

  /** What a call wants of a chain: a drain all of it, a withdrawal the first of its id. */
  function Wanted(heap: map<Address, Node>, c: seq<Address>, job: Task): seq<Fate> {
    match job
    case Cancel(id, _) => FirstOf(heap, c, id)
    case _ => AllOf(heap, c)
  }

  /** There is one exactly when some node of the chain has the id. */
  lemma {:induction false} FirstOfIsThere(heap: map<Address, Node>, c: seq<Address>, id: nat)
    ensures FirstOf(heap, c, id) == [] <==> forall a :: a in c && a in heap ==> heap[a].id != id
    ensures FirstOf(heap, c, id) != [] ==>
              exists a :: a in c && a in heap && heap[a].id == id && FirstOf(heap, c, id) == [Withdrawn(heap[a].ticket)]
  {
    if c != [] {
      FirstOfIsThere(heap, c[1..], id);
      if c[0] in heap && heap[c[0]].id == id { assert c[0] in c; }
    }
  }

  lemma {:induction false} AllOfIsThere(heap: map<Address, Node>, c: seq<Address>, u: nat)
    ensures Fired(u) in AllOf(heap, c) <==> exists a :: a in c && a in heap && heap[a].ticket == u
  {
    if c != [] {
      AllOfIsThere(heap, c[1..], u);
      assert forall a :: a in c <==> a == c[0] || a in c[1..];
    }
  }

  /** The nodes of `c` live on under the names they had. */
  predicate SameNames(heap: map<Address, Node>, heap': map<Address, Node>, c: seq<Address>) {
    forall a :: a in c ==> a in heap && a in heap' && heap'[a].id == heap[a].id && heap'[a].ticket == heap[a].ticket
  }

  lemma {:induction false} WantedKept(heap: map<Address, Node>, heap': map<Address, Node>, c: seq<Address>, job: Task)
    requires SameNames(heap, heap', c)
    ensures Wanted(heap, c, job) == Wanted(heap', c, job)
  {
    if c != [] {
      assert c[0] in c && forall a :: a in c[1..] ==> a in c;
      WantedKept(heap, heap', c[1..], job);
    }
  }

  /** What a thread can be called to take. */
  predicate IsJob(job: Task) {
    job.Drain? || (job.Cancel? && !job.found)
  }

  predicate SameJob(task: Task, job: Task) {
    (task.Drain? && job.Drain?) || (task.Cancel? && job.Cancel? && task.id == job.id)
  }

  /** Thread `i` has the chain in hand on this job, or is done. */
  predicate Sorting(s: Machine, i: nat, job: Task) {
    && At(s, i)
    && (s.threads[i].Idle? || ((s.threads[i].Walking? || s.threads[i].Loading? || s.threads[i].Swinging?)
                               && SameJob(s.threads[i].task, job)))
  }

  /** The nodes it has not looked at yet. */
  function Unseen(s: Machine, i: nat): seq<Address>
    requires At(s, i)
  {
    if s.threads[i].Walking? then s.own.pools[i + 1]
    else if HasNode(s, i) then s.own.pools[i + 1][1..]
    else []
  }

  /** What it has still to take. */
  function Ahead(s: Machine, i: nat, job: Task): seq<Fate>
    requires Sorting(s, i, job)
  {
    if s.threads[i].Idle? || (s.threads[i].task.Cancel? && s.threads[i].task.found) then []
    else Wanted(s.heap, Unseen(s, i), job)
  }

  /** Only a node that is freed loses its name. */
  lemma NamesKept(s: Machine, a: Action, n: Address)
    requires Enabled(s, a) && n in s.heap && (a.Walk? ==> s.threads[a.i].at != Some(n))
    ensures n in Apply(s, a).heap
    ensures Apply(s, a).heap[n].id == s.heap[n].id && Apply(s, a).heap[n].ticket == s.heap[n].ticket
  {
  }

  lemma PlaceKept(s: Machine, a: Action, i: nat)
    requires Enabled(s, a) && At(s, i) && !By(a, i)
    ensures At(Apply(s, a), i) && Apply(s, a).threads[i] == s.threads[i]
    ensures Apply(s, a).own.pools[i + 1] == s.own.pools[i + 1]
  {
  }

  lemma NamesKeptIn(s: Machine, a: Action, c: seq<Address>)
    requires Enabled(s, a) && forall n :: n in c ==> n in s.heap && (a.Walk? ==> s.threads[a.i].at != Some(n))
    ensures SameNames(s.heap, Apply(s, a).heap, c)
  {
    forall n | n in c
      ensures n in s.heap && n in Apply(s, a).heap
      ensures Apply(s, a).heap[n].id == s.heap[n].id && Apply(s, a).heap[n].ticket == s.heap[n].ticket
    {
      NamesKept(s, a, n);
    }
    hide Apply;
  }

  /** A step of another thread leaves the nodes in a hand, and their names, alone. */
  lemma HandKept(s: Machine, a: Action, i: nat)
    requires Inv(s) && Enabled(s, a) && At(s, i) && !By(a, i)
    ensures At(Apply(s, a), i) && Apply(s, a).threads[i] == s.threads[i]
    ensures Apply(s, a).own.pools[i + 1] == s.own.pools[i + 1]
    ensures SameNames(s.heap, Apply(s, a).heap, s.own.pools[i + 1])
  {
    PlaceKept(s, a, i);
    HandIsOwn(s, i);
    if a.Walk? {
      HandIsOwn(s, a.i);
      InHandFirst(s, a.i);
    }
    hide Apply, Inv, SameNames;
    NamesKeptIn(s, a, s.own.pools[i + 1]);
  }

  lemma SameAhead(s: Machine, s': Machine, i: nat, job: Task)
    requires Sorting(s, i, job) && At(s', i) && s'.threads[i] == s.threads[i]
    requires s'.own.pools[i + 1] == s.own.pools[i + 1] && SameNames(s.heap, s'.heap, s.own.pools[i + 1])
    ensures Sorting(s', i, job) && Ahead(s', i, job) == Ahead(s, i, job)
  {
    assert forall n :: n in Unseen(s, i) ==> n in s.own.pools[i + 1];
    hide Wanted;
    WantedKept(s.heap, s'.heap, Unseen(s, i), job);
  }

  lemma AheadKept(s: Machine, a: Action, i: nat, job: Task)
    requires Inv(s) && Enabled(s, a) && Sorting(s, i, job) && !By(a, i)
    ensures Sorting(Apply(s, a), i, job) && Ahead(Apply(s, a), i, job) == Ahead(s, i, job)
  {
    HandKept(s, a, i);
    hide Apply, Inv, SameNames, Ahead, Wanted;
    SameAhead(s, Apply(s, a), i, job);
  }

  /** A node off the chain makes no difference to what is wanted of it. */
  lemma FreedIsUnseen(heap: map<Address, Node>, hand: seq<Address>, job: Task)
    requires hand != [] && NoDup(hand) && forall n :: n in hand ==> n in heap
    ensures Wanted(heap - {hand[0]}, hand[1..], job) == Wanted(heap, hand[1..], job)
  {
    assert forall n :: n in hand[1..] ==> n in hand && n != hand[0];
    hide Wanted;
    WantedKept(heap, heap - {hand[0]}, hand[1..], job);
  }

  /** One node of a walk: what is taken, and what is left to take. */
  lemma WalkTakesHere(s: Machine, i: nat, job: Task)
    requires Enabled(s, Walk(i)) && Sorting(s, i, job) && s.threads[i].at.Some? && HasNode(s, i)
    requires s.threads[i].at.value == s.own.pools[i + 1][0]
    requires Wanted(s.heap - {s.own.pools[i + 1][0]}, s.own.pools[i + 1][1..], job)
          == Wanted(s.heap, s.own.pools[i + 1][1..], job)
    ensures Sorting(WalkStep(s, i), i, job)
    ensures Ahead(s, i, job) == TakenNow(s, i) + Ahead(WalkStep(s, i), i, job)
  {
  }

  lemma WalkTakes(s: Machine, i: nat, job: Task)
    requires Inv(s) && Enabled(s, Walk(i)) && Sorting(s, i, job)
    ensures Sorting(WalkStep(s, i), i, job)
    ensures Ahead(s, i, job) == TakenNow(s, i) + Ahead(WalkStep(s, i), i, job)
  {
    HandIsOwn(s, i);
    InHandFirst(s, i);
    assert NoDup(s.own.pools[i + 1]);
    hide Inv;
    if HasNode(s, i) {
      FreedIsUnseen(s.heap, s.own.pools[i + 1], job);
      WalkTakesHere(s, i, job);
    }
  }

  /** Pushing a node back leaves the rest of the hand to see. */
  lemma PushesOn(s: Machine, a: Action, i: nat, job: Task)
    requires Enabled(s, a) && Sorting(s, i, job) && HasNode(s, i) && (a == Load(i) || (a.Swing? && a.i == i))
    ensures Sorting(Apply(s, a), i, job) && Unseen(Apply(s, a), i) == Unseen(s, i)
    ensures Apply(s, a).threads[i].task == s.threads[i].task
  {
  }

  lemma PushesBack(s: Machine, a: Action, i: nat, job: Task)
    requires Inv(s) && Enabled(s, a) && Sorting(s, i, job) && (a == Load(i) || (a.Swing? && a.i == i))
    ensures Sorting(Apply(s, a), i, job) && Ahead(Apply(s, a), i, job) == Ahead(s, i, job)
  {
    HandIsOwn(s, i);
    InHandFirst(s, i);
    hide Inv;
    PushesOn(s, a, i, job);
    assert forall n :: n in Unseen(s, i) ==> n in s.own.pools[i + 1];
    hide Apply, SameNames;
    NamesKeptIn(s, a, Unseen(s, i));
    WantedKept(s.heap, Apply(s, a).heap, Unseen(s, i), job);
  }

  lemma SortingStep(s: Machine, a: Action, i: nat, job: Task)
    requires Inv(s) && Enabled(s, a) && Sorting(s, i, job) && (By(a, i) ==> !a.Begin? && !a.Call?)
    ensures Sorting(Apply(s, a), i, job)
    ensures (if a == Walk(i) then TakenNow(s, i) else []) + Ahead(Apply(s, a), i, job) == Ahead(s, i, job)
  {
    if !By(a, i) {
      hide Apply, Inv;
      AheadKept(s, a, i, job);
    } else if a == Walk(i) {
      WalkTakes(s, i, job);
    } else {
      hide Apply, Inv;
      PushesBack(s, a, i, job);
    }
  }

  /** What a call takes along a run is what it wants of what it had still to see. */
  lemma {:induction false} SortingRun(s: Machine, acts: seq<Action>, t: Machine, i: nat, job: Task)
    requires Inv(s) && Runs(s, acts, t) && Sorting(s, i, job) && OneCall(acts, i)
    ensures Sorting(t, i, job) && Taken(s, acts, i) + Ahead(t, i, job) == Ahead(s, i, job)
    decreases |acts|
  {
    hide Inv, Apply, Ahead, Sorting, TakenNow;
    if acts != [] {
      InvStep(s, acts[0]);
      SortingStep(s, acts[0], i, job);
      assert OneCall(acts[1..], i);
      SortingRun(Apply(s, acts[0]), acts[1..], t, i, job);
    }
  }

  /** Thread `i` is about to load the head, or to swap it, on this job. */
  predicate Deciding(s: Machine, i: nat, job: Task) {
    && At(s, i) && (s.threads[i].Checking? || s.threads[i].Swapping?)
    && s.threads[i].task == job && IsJob(job)
  }

  /** The state in which a call's fate is decided: it swaps the head out, or finds
      it null. */
  function Decision(s: Machine, acts: seq<Action>, i: nat): Machine
    decreases |acts|
  {
    if acts == [] || !Enabled(s, acts[0]) || acts[0] == Swap(i) || (acts[0] == Check(i) && s.head.None?) then s
    else Decision(Apply(s, acts[0]), acts[1..], i)
  }

  /** A load of the head ends a call exactly when the stack is empty. */
  lemma CheckEndsIff(s: Machine, i: nat)
    requires Inv(s) && Enabled(s, Check(i))
    ensures Apply(s, Check(i)).threads[i].Idle? <==> s.own.pools[0] == []
  {
    assert Path(s.heap, s.head, s.own.pools[0]);
  }

  /** The chain the head points at. */
  function OnStack(s: Machine): seq<Address> {
    if s.own.pools == [] then [] else s.own.pools[0]
  }

  lemma SwapSees(s: Machine, i: nat, job: Task)
    requires Enabled(s, Swap(i)) && Deciding(s, i, job)
    ensures Sorting(SwapStep(s, i), i, job) && Ahead(SwapStep(s, i), i, job) == Wanted(s.heap, OnStack(s), job)
  {
  }

  /** Until its fate is decided a call waits. */
  lemma StillDeciding(s: Machine, a: Action, i: nat, job: Task)
    requires Inv(s) && Enabled(s, a) && Deciding(s, i, job) && (By(a, i) ==> !a.Begin? && !a.Call?)
    requires a != Swap(i) && !(a == Check(i) && s.head.None?)
    ensures Deciding(Apply(s, a), i, job)
  {
    if !By(a, i) {
      hide Inv, Apply;
      PlaceKept(s, a, i);
    }
  }

  lemma CheckGivesUp(s: Machine, i: nat, job: Task)
    requires Inv(s) && Enabled(s, Check(i)) && Deciding(s, i, job) && s.head.None?
    ensures Sorting(Apply(s, Check(i)), i, job) && Ahead(Apply(s, Check(i)), i, job) == []
    ensures Wanted(s.heap, OnStack(s), job) == []
  {
    CheckEndsIff(s, i);
  }

  /** The first step of a run, when it is not one that takes or decides. */
  lemma TakesLater(s: Machine, acts: seq<Action>, t: Machine, i: nat)
    requires Runs(s, acts, t) && acts != []
    ensures Enabled(s, acts[0]) && Runs(Apply(s, acts[0]), acts[1..], t)
    ensures acts[0] != Walk(i) ==> Taken(s, acts, i) == Taken(Apply(s, acts[0]), acts[1..], i)
    ensures Decision(s, acts, i)
         == if acts[0] == Swap(i) || (acts[0] == Check(i) && s.head.None?) then s
            else Decision(Apply(s, acts[0]), acts[1..], i)
  {
  }

  lemma TakesFromTheSwapOn(s: Machine, acts: seq<Action>, t: Machine, i: nat, job: Task)
    requires Inv(s) && Runs(s, acts, t) && Deciding(s, i, job) && acts != [] && acts[0] == Swap(i)
    requires OneCall(acts[1..], i) && At(t, i) && t.threads[i].Idle?
    ensures Taken(s, acts, i) == Wanted(s.heap, OnStack(s), job)
  {
    TakesLater(s, acts, t, i);
    SwapKeeps(s, i);
    SwapSees(s, i, job);
    assert Apply(s, Swap(i)) == SwapStep(s, i);
    hide Inv, Deciding, OnStack, Wanted, SwapStep, Taken, Runs, OneCall, Apply, Enabled;
    SortingRun(SwapStep(s, i), acts[1..], t, i, job);
  }

  lemma TakesNothingFromNull(s: Machine, acts: seq<Action>, t: Machine, i: nat, job: Task)
    requires Inv(s) && Runs(s, acts, t) && Deciding(s, i, job) && acts != [] && acts[0] == Check(i) && s.head.None?
    requires OneCall(acts[1..], i) && At(t, i) && t.threads[i].Idle?
    ensures Taken(s, acts, i) == Wanted(s.heap, OnStack(s), job)
  {
    TakesLater(s, acts, t, i);
    CheckGivesUp(s, i, job);
    InvStep(s, acts[0]);
    hide Inv, Deciding, OnStack, Wanted, Taken, Runs, OneCall, Apply, Enabled;
    SortingRun(Apply(s, acts[0]), acts[1..], t, i, job);
  }

  /** A call takes exactly what it wants of what is on the stack when its fate is
      decided, in order, whatever the others do meanwhile. */
  lemma {:induction false} CallTakesWhatItSees(s: Machine, acts: seq<Action>, t: Machine, i: nat, job: Task)
    requires Inv(s) && Runs(s, acts, t) && Deciding(s, i, job) && OneCall(acts, i)
    requires At(t, i) && t.threads[i].Idle?
    ensures Inv(Decision(s, acts, i)) && Deciding(Decision(s, acts, i), i, job)
    ensures Taken(s, acts, i) == Wanted(Decision(s, acts, i).heap, OnStack(Decision(s, acts, i)), job)
    decreases |acts|
  {
    assert acts != [] && acts[0] != Walk(i);
    assert OneCall(acts[1..], i) && (By(acts[0], i) ==> !acts[0].Begin? && !acts[0].Call?);
    hide Apply, Wanted, OnStack, Inv, Enabled, Deciding, OneCall, Taken, Decision, Runs;
    TakesLater(s, acts, t, i);
    if acts[0] == Swap(i) {
      TakesFromTheSwapOn(s, acts, t, i, job);
    } else if acts[0] == Check(i) && s.head.None? {
      TakesNothingFromNull(s, acts, t, i, job);
    } else {
      StillDeciding(s, acts[0], i, job);
      InvStep(s, acts[0]);
      CallTakesWhatItSees(Apply(s, acts[0]), acts[1..], t, i, job);
    }
  }

  /** What has been fired, or withdrawn, stays so. */
  lemma FatesStay(s: Machine, a: Action, u: nat)
    requires Enabled(s, a)
    ensures s.book.fired[u] <= Apply(s, a).book.fired[u] && s.book.withdrawn[u] <= Apply(s, a).book.withdrawn[u]
    ensures a.Walk? && Fired(u) in TakenNow(s, a.i) && s.threads[a.i].task.Drain? ==> Apply(s, a).book.fired[u] > 0
    ensures a.Walk? && Withdrawn(u) in TakenNow(s, a.i) ==> Apply(s, a).book.withdrawn[u] > 0
  {
  }

  lemma WalkersHaveJobs(s: Machine, i: nat)
    requires Inv(s) && Enabled(s, Walk(i))
    ensures !s.threads[i].task.Register?
  {
    EmptyHanded(s, i);
  }

  lemma FiresNow(s: Machine, a: Action, u: nat)
    requires Inv(s) && Enabled(s, a)
    ensures s.book.fired[u] <= Apply(s, a).book.fired[u]
    ensures a.Walk? && Fired(u) in TakenNow(s, a.i) ==> Apply(s, a).book.fired[u] > 0
  {
    if a.Walk? { WalkersHaveJobs(s, a.i); }
    FatesStay(s, a, u);
    hide Inv, Apply;
  }

  lemma {:induction false} TakenIsFired(s: Machine, acts: seq<Action>, t: Machine, i: nat, u: nat)
    requires Inv(s) && Runs(s, acts, t) && (Fired(u) in Taken(s, acts, i) || s.book.fired[u] > 0)
    ensures t.book.fired[u] > 0
    decreases |acts|
  {
    if acts != [] {
      hide Inv, Apply, Enabled, TakenNow;
      InvStep(s, acts[0]);
      FiresNow(s, acts[0], u);
      TakenIsFired(Apply(s, acts[0]), acts[1..], t, i, u);
    }
  }

  lemma {:induction false} TakenIsWithdrawn(s: Machine, acts: seq<Action>, t: Machine, i: nat, u: nat)
    requires Runs(s, acts, t) && (Withdrawn(u) in Taken(s, acts, i) || s.book.withdrawn[u] > 0)
    ensures t.book.withdrawn[u] > 0
    decreases |acts|
  {
    if acts != [] {
      FatesStay(s, acts[0], u);
      hide Apply, Enabled, TakenNow;
      TakenIsWithdrawn(Apply(s, acts[0]), acts[1..], t, i, u);
    }
  }

  lemma OneFate(s: Machine, u: nat)
    requires Inv(s) && (s.book.fired[u] > 0 || s.book.withdrawn[u] > 0)
    ensures s.book.fired[u] + s.book.withdrawn[u] == 1 && u !in s.book.home
  {
    assert u in s.book.fired || u in s.book.withdrawn;
  }

  /** A live registration of `id`. */
  predicate Live(s: Machine, u: nat, id: nat) {
    u in s.book.home && u < |s.book.ids| && s.book.ids[u] == id
  }

  /** Who has the node of a live registration: 0 for the stack, else a thread's number
      plus one. */
  function Holder(s: Machine, u: nat): nat {
    if u in s.book.home && s.book.home[u] in s.own.owner then s.own.owner[s.book.home[u]] else 0
  }

  /** Some thread has the registration's node in hand. */
  predicate InHand(s: Machine, u: nat) {
    Holder(s, u) != 0
  }

  /** A node on the stack carries a live registration that nobody has in hand. */
  lemma StackIsLive(s: Machine, a: Address)
    requires Inv(s) && a in OnStack(s)
    ensures a in s.heap && Live(s, s.heap[a].ticket, s.heap[a].id) && !InHand(s, s.heap[a].ticket)
  {
    assert s.own.owner[a] == 0;
  }

  /** A live registration that nobody has in hand has its node on the stack. */
  lemma LiveIsOnStack(s: Machine, u: nat, id: nat)
    requires Inv(s) && Live(s, u, id) && !InHand(s, u)
    ensures s.book.home[u] in OnStack(s) && s.book.home[u] in s.heap
    ensures s.heap[s.book.home[u]].id == id && s.heap[s.book.home[u]].ticket == u
  {
  }

  /** The stack has a registration of `id` exactly when one is live outside all hands. */
  lemma LiveNodes(s: Machine, id: nat)
    requires Inv(s)
    ensures FirstOf(s.heap, OnStack(s), id) == [] <==> forall u: nat :: Live(s, u, id) ==> InHand(s, u)
    ensures forall e :: e in FirstOf(s.heap, OnStack(s), id) ==>
              e.Withdrawn? && Live(s, e.ticket, id) && !InHand(s, e.ticket)
    ensures |FirstOf(s.heap, OnStack(s), id)| <= 1
  {
    FirstOfIsThere(s.heap, OnStack(s), id);
    forall a | a in OnStack(s)
      ensures a in s.heap && Live(s, s.heap[a].ticket, s.heap[a].id) && !InHand(s, s.heap[a].ticket)
    {
      StackIsLive(s, a);
    }
    forall u: nat | Live(s, u, id) && !InHand(s, u)
      ensures s.book.home[u] in OnStack(s) && s.book.home[u] in s.heap && s.heap[s.book.home[u]].id == id
    {
      LiveIsOnStack(s, u, id);
    }
    hide Inv, OnStack, InHand;
  }

  /** A withdrawal finds nothing exactly when, as its fate is decided, every live
      registration of its id is in some thread's hands. What it finds is withdrawn. */
  lemma WithdrawalMissesIff(s: Machine, acts: seq<Action>, t: Machine, i: nat, id: nat)
    requires Reachable(s) && Runs(s, acts, t) && Deciding(s, i, Cancel(id, false)) && OneCall(acts, i)
    requires At(t, i) && t.threads[i].Idle?
    ensures var d := Decision(s, acts, i);
            Taken(s, acts, i) == [] <==> forall u: nat :: Live(d, u, id) ==> InHand(d, u)
    ensures |Taken(s, acts, i)| <= 1
    ensures forall e :: e in Taken(s, acts, i) ==>
              e.Withdrawn? && Live(Decision(s, acts, i), e.ticket, id)
              && t.book.withdrawn[e.ticket] == 1 && t.book.fired[e.ticket] == 0 && e.ticket !in t.book.home
  {
    ReachableKeepsInv(s);
    CallTakesWhatItSees(s, acts, t, i, Cancel(id, false));
    LiveNodes(Decision(s, acts, i), id);
    InvRun(s, acts, t);
    forall e | e in Taken(s, acts, i)
      ensures t.book.withdrawn[e.ticket] == 1 && t.book.fired[e.ticket] == 0 && e.ticket !in t.book.home
    {
      TakenIsWithdrawn(s, acts, t, i, e.ticket);
      OneFate(t, e.ticket);
    }
  }

  lemma NeverInItsOwnHand(d: Machine, i: nat, job: Task, u: nat)
    requires Inv(d) && Deciding(d, i, job)
    ensures Holder(d, u) != i + 1
  {
    EmptyHanded(d, i);
  }

  /** So a withdrawal whose one live registration is `u` withdraws it exactly when `u` is
      on the stack as its fate is decided, and misses it exactly when another thread has
      it in hand. */
  lemma OwnEntryMissedIff(s: Machine, acts: seq<Action>, t: Machine, i: nat, id: nat, u: nat)
    requires Reachable(s) && Runs(s, acts, t) && Deciding(s, i, Cancel(id, false)) && OneCall(acts, i)
    requires At(t, i) && t.threads[i].Idle?
    requires Live(Decision(s, acts, i), u, id)
    requires forall v: nat :: Live(Decision(s, acts, i), v, id) ==> v == u
    ensures var d := Decision(s, acts, i); Taken(s, acts, i) == if InHand(d, u) then [] else [Withdrawn(u)]
    ensures !InHand(Decision(s, acts, i), u) ==> t.book.withdrawn[u] == 1
    ensures Holder(Decision(s, acts, i), u) != i + 1
  {
    hide Inv, Deciding, Decision, Taken, Runs, OneCall, Live, InHand, Holder, Wanted, OnStack;
    ReachableKeepsInv(s);
    CallTakesWhatItSees(s, acts, t, i, Cancel(id, false));
    WithdrawalMissesIff(s, acts, t, i, id);
    NeverInItsOwnHand(Decision(s, acts, i), i, Cancel(id, false), u);
    if Taken(s, acts, i) != [] { assert Taken(s, acts, i)[0] in Taken(s, acts, i); }
  }

  /** A drain fires a live registration exactly when nobody has it in hand as the
      drain's fate is decided; those it fires have fired once. */
  lemma DrainMissesIff(s: Machine, acts: seq<Action>, t: Machine, i: nat, id: nat, u: nat)
    requires Reachable(s) && Runs(s, acts, t) && Deciding(s, i, Drain) && OneCall(acts, i)
    requires At(t, i) && t.threads[i].Idle?
    requires Live(Decision(s, acts, i), u, id)
    ensures Fired(u) in Taken(s, acts, i) <==> !InHand(Decision(s, acts, i), u)
    ensures Fired(u) in Taken(s, acts, i) ==> t.book.fired[u] == 1 && t.book.withdrawn[u] == 0
    ensures Holder(Decision(s, acts, i), u) != i + 1
  {
    ReachableKeepsInv(s);
    CallTakesWhatItSees(s, acts, t, i, Drain);
    NeverInItsOwnHand(Decision(s, acts, i), i, Drain, u);
    StackFires(Decision(s, acts, i), u, id);
    if Fired(u) in Taken(s, acts, i) {
      TakenIsFired(s, acts, t, i, u);
      InvRun(s, acts, t);
      OneFate(t, u);
    }
  }

  lemma StackFires(d: Machine, u: nat, id: nat)
    requires Inv(d) && Live(d, u, id)
    ensures Fired(u) in AllOf(d.heap, OnStack(d)) <==> !InHand(d, u)
  {
    AllOfIsThere(d.heap, OnStack(d), u);
    if a :| a in OnStack(d) && a in d.heap && d.heap[a].ticket == u { StackIsLive(d, a); }
    if !InHand(d, u) { LiveIsOnStack(d, u, id); }
  }
}
