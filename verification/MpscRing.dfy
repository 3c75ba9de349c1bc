/** The many-producer, one-consumer ring as a transition system.

    Producers load the tail, test it against a private cache of the head with
    wrapping arithmetic, refresh the cache, and compare-and-swap the tail; then
    write and publish, or abandon. The consumer reads the word at its position,
    takes the value or skips the marker, frees the slot for the next lap, and
    publishes its head, after every value (`pop`) or after several (`drain`). */
module MpscRing {
  import opened SlotState
  import opened PositionLog

  const WORD: nat := 0x1_0000_0000_0000_0000

  /** Positions and capacities stay below 2^62, so that no word of a position
      wraps or equals the marker. */
  const LIMIT: nat := 0x3FFF_FFFF_FFFF_FFFF

  const TOMBSTONE: nat := 0xFFFF_FFFF_FFFF_FFFF

  function FreeWord(pos: nat): nat {
    pos * 2
  }

  /** `wrapping_sub` on positions. */
  function Lead(t: nat, head: nat): (d: nat)
    requires t <= LIMIT && head <= LIMIT
    ensures d < WORD
  {
    if head <= t then t - head else t + WORD - head
  }

  datatype PPc =
    | Idle
    | Testing(t: nat)        // about to test the private cache
    | Refreshing(t: nat)     // about to load the head
    | Swinging(t: nat)       // about to compare-and-swap the tail
    | Holding(pos: nat)      // owns an empty slot
    | Filled(pos: nat, ticket: nat)
  {
    predicate Owns() { Holding? || Filled? }
  }

  datatype Producer = Producer(cached: nat, pc: PPc)

  datatype CPc = Resting | Taking | Skipping | Freeing

  /** `at` is the consumer's own position, `head` the last one it published. */
  datatype Consumer = Consumer(at: nat, pc: CPc, seen: seq<nat>)

  datatype Machine = Machine(
    cap: nat,
    head: nat,
    tail: nat,
    words: seq<nat>,
    data: seq<nat>,
    producers: seq<Producer>,
    consumer: Consumer,
    log: seq<Entry>,
    born: nat)

  datatype Action =
    | NewProducer
    | Begin(p: nat)
    | Test(p: nat)
    | Refresh(p: nat)
    | Swing(p: nat, spurious: bool)
    | Fill(p: nat)
    | Publish(p: nat)
    | Abandon(p: nat)
    | Look
    | Take
    | Free
    | PublishHead

  function Init(cap: nat): Machine
    requires 0 < cap <= LIMIT
  {
    Machine(cap, 0, 0, seq(cap, i requires 0 <= i < cap => FreeWord(i)), seq(cap, _ => 0), [],
            Consumer(0, Resting, []), [], 0)
  }

  predicate Shape(s: Machine) {
    && 0 < s.cap <= LIMIT && |s.words| == s.cap && |s.data| == s.cap && |s.log| == s.tail <= LIMIT
    && s.head <= s.consumer.at <= s.tail
    && forall p :: 0 <= p < |s.producers| ==> s.producers[p].cached <= s.head
  }

  predicate Enabled(s: Machine, a: Action) {
    match a
    case NewProducer => true
    case Begin(p) => p < |s.producers| && s.producers[p].pc.Idle?
    case Test(p) => p < |s.producers| && s.producers[p].pc.Testing? && s.producers[p].pc.t <= LIMIT
    case Refresh(p) => p < |s.producers| && s.producers[p].pc.Refreshing? && s.producers[p].pc.t <= LIMIT
    case Swing(p, _) => p < |s.producers| && s.producers[p].pc.Swinging? && s.tail < LIMIT
    case Fill(p) => p < |s.producers| && s.producers[p].pc.Holding?
    case Publish(p) => p < |s.producers| && s.producers[p].pc.Filled? && s.producers[p].pc.pos < s.tail
    case Abandon(p) => p < |s.producers| && s.producers[p].pc.Owns() && s.producers[p].pc.pos < s.tail
    case Look => s.consumer.pc.Resting?
    case Take => s.consumer.pc.Taking?
    case Free => s.consumer.pc.Skipping? || s.consumer.pc.Freeing?
    case PublishHead => s.consumer.pc.Resting? && s.head < s.consumer.at
  }

  function WithPc(s: Machine, p: nat, pc: PPc): Machine
    requires p < |s.producers|
  {
    s.(producers := s.producers[p := s.producers[p].(pc := pc)])
  }

  function TestStep(s: Machine, p: nat): Machine
    requires Shape(s) && Enabled(s, Test(p))
  {
    var t := s.producers[p].pc.t;
    WithPc(s, p, if Lead(t, s.producers[p].cached) >= s.cap then Refreshing(t) else Swinging(t))
  }

  function RefreshStep(s: Machine, p: nat): Machine
    requires Shape(s) && Enabled(s, Refresh(p))
  {
    var t := s.producers[p].pc.t;
    s.(producers := s.producers[p := Producer(s.head, if Lead(t, s.head) >= s.cap then Idle else Swinging(t))])
  }

  function SwingStep(s: Machine, p: nat, spurious: bool): Machine
    requires Enabled(s, Swing(p, spurious))
  {
    var t := s.producers[p].pc.t;
    if s.tail == t && !spurious then
      WithPc(s, p, Holding(t)).(tail := t + 1, log := s.log + [Unresolved(p)])
    else
      WithPc(s, p, Testing(s.tail))
  }

  /** Stores a word over a claimed slot and ends the reservation. */
  function Resolve(s: Machine, p: nat, pos: nat, word: nat, e: Entry): Machine
    requires Shape(s) && p < |s.producers| && pos < s.tail
  {
    WithPc(s, p, Idle).(words := s.words[SlotOf(s.cap, pos) := word], log := s.log[pos := e])
  }

  function LookStep(s: Machine): Machine
    requires Shape(s)
  {
    var c := s.consumer;
    var word := s.words[SlotOf(s.cap, c.at)];
    s.(consumer := c.(pc := if word == TOMBSTONE then Skipping
                            else if word == PublishedWord(c.at) then Taking else Resting))
  }

  function TakeStep(s: Machine): Machine
    requires Shape(s)
  {
    var c := s.consumer;
    s.(consumer := c.(pc := Freeing, seen := c.seen + [s.data[SlotOf(s.cap, c.at)]]))
  }

  /** Frees the slot for the position one lap on. */
  function FreeStep(s: Machine): Machine
    requires Shape(s)
  {
    var at := s.consumer.at;
    s.(words := s.words[SlotOf(s.cap, at) := FreeWord(at + s.cap)],
       consumer := s.consumer.(pc := Resting, at := at + 1))
  }

  function Apply(s: Machine, a: Action): Machine
    requires Shape(s) && Enabled(s, a)
  {
    match a
    case NewProducer => s.(producers := s.producers + [Producer(0, Idle)])
    case Begin(p) => WithPc(s, p, Testing(s.tail))
    case Test(p) => TestStep(s, p)
    case Refresh(p) => RefreshStep(s, p)
    case Swing(p, spurious) => SwingStep(s, p, spurious)
    case Fill(p) =>
      var pos := s.producers[p].pc.pos;
      WithPc(s, p, Filled(pos, s.born)).(data := s.data[SlotOf(s.cap, pos) := s.born], born := s.born + 1)
    case Publish(p) =>
      var pc := s.producers[p].pc;
      Resolve(s, p, pc.pos, PublishedWord(pc.pos), Holds(pc.ticket))
    case Abandon(p) => Resolve(s, p, s.producers[p].pc.pos, TOMBSTONE, Empty)
    case Look => LookStep(s)
    case Take => TakeStep(s)
    case Free => FreeStep(s)
    case PublishHead => s.(head := s.consumer.at)
  }

  predicate Runs(s: Machine, acts: seq<Action>, t: Machine)
    decreases |acts|
  {
    if acts == [] then s == t
    else Shape(s) && Enabled(s, acts[0]) && Runs(Apply(s, acts[0]), acts[1..], t)
  }

  ghost predicate Reachable(s: Machine) {
    0 < s.cap <= LIMIT && exists acts: seq<Action> :: Runs(Init(s.cap), acts, s)
  }

  /** The word of `q`'s slot while `q` is in the consumer's window. */
  function Expected(log: seq<Entry>, q: nat): nat {
    if q >= |log| then FreeWord(q)
    else match log[q]
      case Unresolved(_) => FreeWord(q)
      case Holds(_) => PublishedWord(q)
      case Empty => TOMBSTONE
  }

  /** Each slot's word speaks for the one position of the window it backs. */
  ghost predicate Words(cap: nat, words: seq<nat>, log: seq<Entry>, at: nat)
    requires 0 < cap == |words|
  {
    forall q: nat :: at <= q < at + cap ==> words[SlotOf(cap, q)] == Expected(log, q)
  }

  ghost predicate Data(cap: nat, data: seq<nat>, log: seq<Entry>, at: nat)
    requires 0 < cap == |data|
  {
    forall q: nat :: at <= q < |log| && log[q].Holds? ==> data[SlotOf(cap, q)] == log[q].ticket
  }

  /** Unresolved positions lie ahead of the consumer, each with its owner. */
  ghost predicate Claims(s: Machine)
    requires Shape(s)
  {
    && (forall q :: 0 <= q < s.consumer.at ==> !s.log[q].Unresolved?)
    && (forall p :: 0 <= p < |s.producers| && s.producers[p].pc.Owns() ==>
          s.producers[p].pc.pos < s.tail && s.log[s.producers[p].pc.pos] == Unresolved(p))
    && (forall p :: 0 <= p < |s.producers| && s.producers[p].pc.Filled? ==>
          s.data[SlotOf(s.cap, s.producers[p].pc.pos)] == s.producers[p].pc.ticket)
  }

  predicate Probes(s: Machine) {
    && s.tail <= s.head + s.cap
    && (forall p :: 0 <= p < |s.producers| && (s.producers[p].pc.Testing? || s.producers[p].pc.Refreshing?) ==>
          s.producers[p].pc.t <= s.tail)
    && (forall p :: 0 <= p < |s.producers| && s.producers[p].pc.Swinging? ==>
          s.producers[p].cached <= s.producers[p].pc.t < s.producers[p].cached + s.cap
          && s.producers[p].pc.t <= s.tail)
  }

  /** What the consumer has been given, and what its next step relies on. */
  predicate Reads(c: Consumer, log: seq<Entry>)
    requires c.at <= |log|
  {
    && (c.pc.Taking? || c.pc.Freeing? ==> c.at < |log| && log[c.at].Holds?)
    && (c.pc.Skipping? ==> c.at < |log| && log[c.at].Empty?)
    && c.seen == Values(log, 0, if c.pc.Freeing? then c.at + 1 else c.at)
  }

  ghost predicate Inv(s: Machine) {
    && Shape(s) && Probes(s) && Claims(s) && Reads(s.consumer, s.log)
    && Words(s.cap, s.words, s.log, s.consumer.at) && Data(s.cap, s.data, s.log, s.consumer.at)
  }

  lemma InvInit(cap: nat)
    requires 0 < cap <= LIMIT
    ensures Inv(Init(cap))
  {
  }

  /** Two positions of the window never share a slot. */
  lemma Apart(cap: nat, at: nat, p: nat, q: nat)
    requires cap > 0 && at <= p < at + cap && at <= q < at + cap && p != q
    ensures SlotOf(cap, p) != SlotOf(cap, q)
  {
    if p < q { SlotsApart(cap, p, q); } else { SlotsApart(cap, q, p); }
  }

  /** Steps that touch one producer's program counter and cache. */
  lemma ProbeKeeps(s: Machine, s': Machine, p: nat)
    requires Inv(s) && p < |s.producers| == |s'.producers|
    requires s' == s.(producers := s'.producers) && s'.producers == s.producers[p := s'.producers[p]]
    requires s'.producers[p].cached <= s.head && !s'.producers[p].pc.Owns()
    requires match s'.producers[p].pc
      case Testing(t) => t <= s.tail
      case Refreshing(t) => t <= s.tail
      case Swinging(t) => s'.producers[p].cached <= t < s'.producers[p].cached + s.cap && t <= s.tail
      case _ => true
    ensures Inv(s')
  {
  }

  /** The swap that wins: the tail moves on and the position is the winner's. */
  lemma ClaimKeeps(s: Machine, s': Machine, p: nat)
    requires Inv(s) && p < |s.producers| && s.producers[p].pc == Swinging(s.tail) && s.tail < LIMIT
    requires s' == WithPc(s, p, Holding(s.tail)).(tail := s.tail + 1, log := s.log + [Unresolved(p)])
    ensures Inv(s')
  {
    ValuesFrame(s.log, s'.log, 0, if s.consumer.pc.Freeing? then s.consumer.at + 1 else s.consumer.at);
    assert forall q :: 0 <= q < s.tail ==> s'.log[q] == s.log[q];
    forall q: nat | s.consumer.at <= q < s.consumer.at + s.cap
      ensures s'.words[SlotOf(s.cap, q)] == Expected(s'.log, q)
    {
      assert s.words[SlotOf(s.cap, q)] == Expected(s.log, q);
    }
    assert Probes(s') && Reads(s'.consumer, s'.log);
  }

  lemma SwingKeeps(s: Machine, p: nat, spurious: bool)
    requires Inv(s) && Enabled(s, Swing(p, spurious))
    ensures Inv(SwingStep(s, p, spurious))
  {
    if s.tail == s.producers[p].pc.t && !spurious {
      ClaimKeeps(s, SwingStep(s, p, spurious), p);
    } else {
      ProbeKeeps(s, SwingStep(s, p, spurious), p);
    }
  }

  lemma OwnerIsAhead(s: Machine, p: nat)
    requires Inv(s) && p < |s.producers| && s.producers[p].pc.Owns()
    ensures s.consumer.at <= s.producers[p].pc.pos < s.tail <= s.consumer.at + s.cap
    ensures s.log[s.producers[p].pc.pos] == Unresolved(p)
    ensures s.consumer.pc != Resting ==> s.producers[p].pc.pos != s.consumer.at
  {
  }

  lemma FillKeeps(s: Machine, p: nat)
    requires Inv(s) && Enabled(s, Fill(p))
    ensures Inv(Apply(s, Fill(p)))
  {
    var s' := Apply(s, Fill(p));
    var pos := s.producers[p].pc.pos;
    OwnerIsAhead(s, p);
    forall q: nat | s.consumer.at <= q < s.tail && q != pos ensures SlotOf(s.cap, q) != SlotOf(s.cap, pos) {
      Apart(s.cap, s.consumer.at, q, pos);
    }
    forall u | 0 <= u < |s.producers| && s.producers[u].pc.Owns() ensures s.consumer.at <= s.producers[u].pc.pos {
      OwnerIsAhead(s, u);
    }
    assert Data(s'.cap, s'.data, s'.log, s'.consumer.at);
    assert Claims(s');
  }

  lemma ResolveKeeps(s: Machine, p: nat, word: nat, e: Entry)
    requires Inv(s) && p < |s.producers| && s.producers[p].pc.Owns() && !e.Unresolved?
    requires e.Holds? ==> s.producers[p].pc.Filled? && e.ticket == s.producers[p].pc.ticket
    requires word == if e.Holds? then PublishedWord(s.producers[p].pc.pos) else TOMBSTONE
    ensures s.producers[p].pc.pos < s.tail && Inv(Resolve(s, p, s.producers[p].pc.pos, word, e))
  {
    OwnerIsAhead(s, p);
    var pos := s.producers[p].pc.pos;
    var s' := Resolve(s, p, pos, word, e);
    ValuesFrame(s.log, s'.log, 0, if s.consumer.pc.Freeing? then s.consumer.at + 1 else s.consumer.at);
    forall q: nat | s.consumer.at <= q < s.consumer.at + s.cap
      ensures s'.words[SlotOf(s.cap, q)] == Expected(s'.log, q)
    {
      if q != pos { Apart(s.cap, s.consumer.at, q, pos); }
      assert s.words[SlotOf(s.cap, q)] == Expected(s.log, q);
    }
    assert Claims(s');
  }

  lemma LookKeeps(s: Machine)
    requires Inv(s) && s.consumer.pc.Resting?
    ensures Inv(LookStep(s))
  {
    assert s.words[SlotOf(s.cap, s.consumer.at)] == Expected(s.log, s.consumer.at);
  }

  lemma FreeKeeps(s: Machine)
    requires Inv(s) && Enabled(s, Free)
    ensures Inv(FreeStep(s))
  {
    var s', at := FreeStep(s), s.consumer.at;
    assert SlotOf(s.cap, at + s.cap) == SlotOf(s.cap, at);
    forall q: nat | at + 1 <= q < at + 1 + s.cap
      ensures s'.words[SlotOf(s.cap, q)] == Expected(s'.log, q)
    {
      if q < at + s.cap {
        Apart(s.cap, at, at, q);
        assert s.words[SlotOf(s.cap, q)] == Expected(s.log, q);
      }
    }
  }

  lemma PlainKeeps(s: Machine, a: Action)
    requires Inv(s) && Enabled(s, a) && (a.NewProducer? || a.Take? || a.PublishHead?)
    ensures Inv(Apply(s, a))
  {
  }

  lemma InvStep(s: Machine, a: Action)
    requires Inv(s) && Enabled(s, a)
    ensures Inv(Apply(s, a))
  {
    if a.NewProducer? || a.Take? || a.PublishHead? {
      PlainKeeps(s, a);
    } else if a.Begin? || a.Test? || a.Refresh? {
      ProbeKeeps(s, Apply(s, a), a.p);
    } else {
      hide Words, Data, Probes, Reads;
      match a
      case Swing(p, spurious) => SwingKeeps(s, p, spurious);
      case Fill(p) => FillKeeps(s, p);
      case Publish(p) => ResolveKeeps(s, p, PublishedWord(s.producers[p].pc.pos), Holds(s.producers[p].pc.ticket));
      case Abandon(p) => ResolveKeeps(s, p, TOMBSTONE, Empty);
      case Look => LookKeeps(s);
      case Free => FreeKeeps(s);
    }
  }

  lemma {:induction false} InvRun(s: Machine, acts: seq<Action>, t: Machine)
    requires Inv(s) && Runs(s, acts, t)
    ensures Inv(t)
    decreases |acts|
  {
    if acts != [] {
      InvStep(s, acts[0]);
      InvRun(Apply(s, acts[0]), acts[1..], t);
    }
  }

  lemma ReachableKeepsInv(s: Machine)
    requires Reachable(s)
    ensures Inv(s)
  {
    var acts: seq<Action> :| Runs(Init(s.cap), acts, s);
    InvInit(s.cap);
    InvRun(Init(s.cap), acts, s);
  }

  /** A claim finds its slot's word saying exactly that it is free for the position
      claimed, whatever the age of the cached head that let it through, and no more
      than a capacity's worth of positions are ever claimed and unreleased. */
  lemma ClaimFindsItsSlotFree(s: Machine, p: nat)
    requires Reachable(s) && Enabled(s, Swing(p, false)) && s.producers[p].pc.t == s.tail
    ensures Shape(s) && s.words[SlotOf(s.cap, s.tail)] == FreeWord(s.tail)
    ensures s.tail + 1 <= s.head + s.cap
    ensures forall u | 0 <= u < |s.producers| && s.producers[u].pc.Owns() ::
              SlotOf(s.cap, s.producers[u].pc.pos) != SlotOf(s.cap, s.tail)
    ensures s.consumer.pc != Resting ==> SlotOf(s.cap, s.consumer.at) != SlotOf(s.cap, s.tail)
  {
    ReachableKeepsInv(s);
    assert s.words[SlotOf(s.cap, s.tail)] == Expected(s.log, s.tail);
    forall u | 0 <= u < |s.producers| && s.producers[u].pc.Owns()
      ensures SlotOf(s.cap, s.producers[u].pc.pos) != SlotOf(s.cap, s.tail)
    {
      OwnerIsAhead(s, u);
      Apart(s.cap, s.consumer.at, s.producers[u].pc.pos, s.tail);
    }
    if s.consumer.pc != Resting { Apart(s.cap, s.consumer.at, s.consumer.at, s.tail); }
  }

  lemma NeverOverfull(s: Machine)
    requires Reachable(s)
    ensures s.head <= s.consumer.at <= s.tail <= s.head + s.cap
  {
    ReachableKeepsInv(s);
  }

  /** The consumer is given the values published at the positions it has passed,
      in position order, with abandoned positions skipped. */
  lemma PopsInPositionOrder(s: Machine)
    requires Reachable(s)
    ensures |s.log| == s.tail && s.consumer.at <= s.tail
    ensures s.consumer.pc.Freeing? ==> s.consumer.at < s.tail
    ensures s.consumer.seen == Values(s.log, 0, if s.consumer.pc.Freeing? then s.consumer.at + 1 else s.consumer.at)
  {
    ReachableKeepsInv(s);
  }

  /** A pop finds nothing exactly when the next position is unclaimed, or claimed
      and not yet resolved. */
  lemma EmptyHandedIff(s: Machine)
    requires Reachable(s) && s.consumer.pc.Resting?
    ensures Shape(s)
    ensures LookStep(s).consumer.pc.Resting? <==>
              s.consumer.at == s.tail || (s.consumer.at < s.tail && s.log[s.consumer.at].Unresolved?)
    ensures LookStep(s).consumer.pc.Skipping? <==> s.consumer.at < s.tail && s.log[s.consumer.at].Empty?
  {
    ReachableKeepsInv(s);
    assert s.words[SlotOf(s.cap, s.consumer.at)] == Expected(s.log, s.consumer.at);
  }

  /** A push is refused exactly when the tail it loaded is a whole lap ahead of the
      head, or the head has meanwhile passed that tail. */
  lemma RefusedIff(s: Machine, p: nat)
    requires Reachable(s) && Enabled(s, Refresh(p))
    ensures Shape(s)
    ensures RefreshStep(s, p).producers[p].pc.Idle? <==>
              s.producers[p].pc.t >= s.head + s.cap || s.head > s.producers[p].pc.t
    ensures s.producers[p].pc.t == s.tail ==>
              (RefreshStep(s, p).producers[p].pc.Idle? <==> s.tail == s.head + s.cap)
  {
    ReachableKeepsInv(s);
  }

  lemma {:induction false} RunsOn(s: Machine, acts: seq<Action>, t: Machine, a: Action)
    requires Runs(s, acts, t) && Shape(t) && Enabled(t, a)
    ensures Runs(s, acts + [a], Apply(t, a))
    decreases |acts|
  {
    if acts != [] {
      RunsOn(Apply(s, acts[0]), acts[1..], t, a);
      assert (acts + [a])[0] == acts[0] && (acts + [a])[1..] == acts[1..] + [a];
    } else {
      assert ([a])[1..] == [];
    }
  }

  lemma ReachesOn(s: Machine, a: Action)
    requires Reachable(s) && Shape(s) && Enabled(s, a)
    ensures Reachable(Apply(s, a)) && Shape(Apply(s, a))
  {
    var acts: seq<Action> :| Runs(Init(s.cap), acts, s);
    RunsOn(Init(s.cap), acts, s, a);
    ReachableKeepsInv(Apply(s, a));
  }

  /** The ring is empty, with nobody but producer 0 mid-call. */
  predicate Drained(s: Machine) {
    && Shape(s) && s.head == s.consumer.at == s.tail < LIMIT && s.consumer.pc.Resting?
    && |s.producers| == 2 && s.producers[1].pc.Idle?
  }

  /** Producer 1 gets as far as the swap: an empty ring lets it through. */
  lemma EmptyRingLetsThrough(s: Machine) returns (t: Machine)
    requires Reachable(s) && Drained(s)
    ensures Reachable(t) && Shape(t) && |t.producers| == 2 && t == s.(producers := t.producers)
    ensures t.producers[0] == s.producers[0] && t.producers[1].pc == Swinging(s.tail)
  {
    ReachesOn(s, Begin(1));
    t := Apply(s, Begin(1));
    ReachesOn(t, Test(1));
    t := Apply(t, Test(1));
    if t.producers[1].pc.Refreshing? {
      ReachesOn(t, Refresh(1));
      t := Apply(t, Refresh(1));
    }
  }

  /** Producer 1 pushes a value and the consumer pops it. */
  lemma OnePushOnePop(s: Machine) returns (t: Machine)
    requires Reachable(s) && Drained(s) && s.tail + 1 < LIMIT
    ensures Reachable(t) && Drained(t) && t.cap == s.cap && t.tail == s.tail + 1 && t.producers[0] == s.producers[0]
  {
    t := EmptyRingLetsThrough(s);
    ReachesOn(t, Swing(1, false));
    t := Apply(t, Swing(1, false));
    ReachesOn(t, Fill(1));
    t := Apply(t, Fill(1));
    ReachesOn(t, Publish(1));
    t := Apply(t, Publish(1));
    t := PopIt(t);
  }

  lemma PopIt(s: Machine) returns (t: Machine)
    requires Reachable(s) && Shape(s) && s.head == s.consumer.at == s.tail - 1 && s.consumer.pc.Resting?
    requires s.words[SlotOf(s.cap, s.consumer.at)] == PublishedWord(s.consumer.at)
    ensures Reachable(t) && Shape(t) && t.head == t.consumer.at == t.tail == s.tail && t.consumer.pc.Resting?
    ensures t.cap == s.cap && t.producers == s.producers
  {
    ReachesOn(s, Look);
    t := Apply(s, Look);
    ReachesOn(t, Take);
    t := Apply(t, Take);
    ReachesOn(t, Free);
    t := Apply(t, Free);
    ReachesOn(t, PublishHead);
    t := Apply(t, PublishHead);
  }

  lemma {:induction false} ManyPushesAndPops(s: Machine, n: nat) returns (t: Machine)
    requires Reachable(s) && Drained(s) && s.tail + n < LIMIT
    ensures Reachable(t) && Drained(t) && t.cap == s.cap && t.tail == s.tail + n && t.producers[0] == s.producers[0]
    decreases n
  {
    t := s;
    if n > 0 {
      t := OnePushOnePop(s);
      t := ManyPushesAndPops(t, n - 1);
    }
  }

  /** A refusal does not mean a full ring: at every capacity a push that was slow
      between its tail load and its head load is refused by an empty one. */
  lemma StaleTailIsRefusedByAnEmptyRing(cap: nat) returns (s: Machine)
    requires 0 < cap < LIMIT - 1
    ensures Reachable(s) && Enabled(s, Refresh(0)) && Shape(s)
    ensures s.cap == cap && s.head == s.tail && RefreshStep(s, 0).producers[0].pc.Idle?
  {
    s := Init(cap);
    assert Runs(s, [], s);
    ReachesOn(s, NewProducer);
    s := Apply(s, NewProducer);
    ReachesOn(s, NewProducer);
    s := Apply(s, NewProducer);
    s := ManyPushesAndPops(s, cap);
    ReachesOn(s, Begin(0));
    s := Apply(s, Begin(0));
    ReachesOn(s, Test(0));
    s := Apply(s, Test(0));
    s := OnePushOnePop(s);
  }

  /** The queue a reader of the claims would see: what is claimed and not yet freed. */
  function Queue(s: Machine): seq<Entry>
    requires s.consumer.at <= |s.log|
  {
    s.log[s.consumer.at..]
  }

  /** One step of a bounded queue of reservations: nothing, a claim at the back while
      there is room, a claim resolved in place, or the front taken once resolved. */
  predicate QueueStep(cap: nat, q: seq<Entry>, seen: seq<nat>, q': seq<Entry>, seen': seq<nat>) {
    || (q' == q && seen' == seen)
    || (|q| < cap && |q'| == |q| + 1 && q'[..|q|] == q && q'[|q|].Unresolved? && seen' == seen)
    || (seen' == seen && exists i :: 0 <= i < |q| && q[i].Unresolved? && i < |q'| && !q'[i].Unresolved?
                                     && q' == q[i := q'[i]])
    || (|q| > 0 && q' == q[1..] && !q[0].Unresolved? && seen' == seen + if q[0].Holds? then [q[0].ticket] else [])
  }

  /** What has been delivered for positions already freed. */
  function Delivered(s: Machine): seq<nat>
    requires s.consumer.at <= |s.log|
  {
    Values(s.log, 0, s.consumer.at)
  }

  lemma ClaimAppends(s: Machine, p: nat, spurious: bool)
    requires Inv(s) && Enabled(s, Swing(p, spurious))
    ensures var s' := SwingStep(s, p, spurious);
            |s'.log| == s'.tail && QueueStep(s.cap, Queue(s), Delivered(s), Queue(s'), Delivered(s'))
  {
    var s' := SwingStep(s, p, spurious);
    if |s'.log| > |s.log| { ValuesFrame(s.log, s'.log, 0, s.consumer.at); }
  }

  lemma ResolveResolves(s: Machine, p: nat, word: nat, e: Entry)
    requires Inv(s) && p < |s.producers| && s.producers[p].pc.Owns() && !e.Unresolved?
    ensures s.producers[p].pc.pos < s.tail
    ensures var s' := Resolve(s, p, s.producers[p].pc.pos, word, e);
            QueueStep(s.cap, Queue(s), Delivered(s), Queue(s'), Delivered(s'))
  {
    OwnerIsAhead(s, p);
    var s' := Resolve(s, p, s.producers[p].pc.pos, word, e);
    ValuesFrame(s.log, s'.log, 0, s.consumer.at);
    var i := s.producers[p].pc.pos - s.consumer.at;
    assert Queue(s)[i].Unresolved? && Queue(s') == Queue(s)[i := Queue(s')[i]];
  }

  lemma FreeTakesTheFront(s: Machine)
    requires Inv(s) && Enabled(s, Free)
    ensures var s' := FreeStep(s);
            s'.consumer.at <= |s'.log| && QueueStep(s.cap, Queue(s), Delivered(s), Queue(s'), Delivered(s'))
  {
    assert Queue(FreeStep(s)) == Queue(s)[1..];
  }

  lemma StandingStill(cap: nat, q: seq<Entry>, seen: seq<nat>)
    ensures QueueStep(cap, q, seen, q, seen)
  {
  }

  /** The ring refines that queue: each step of any thread is one step of it. */
  lemma RefinesBoundedQueue(s: Machine, a: Action)
    requires Reachable(s) && Enabled(s, a)
    ensures Shape(s) && Shape(Apply(s, a))
    ensures |Queue(s)| <= s.cap
    ensures QueueStep(s.cap, Queue(s), Delivered(s), Queue(Apply(s, a)), Delivered(Apply(s, a)))
  {
    ReachableKeepsInv(s);
    InvStep(s, a);
    assert |Queue(s)| <= s.cap;
    hide QueueStep, Words, Data, Claims, Probes, Reads, Values;
    match a
    case Swing(p, spurious) => ClaimAppends(s, p, spurious);
    case Publish(p) => ResolveResolves(s, p, PublishedWord(s.producers[p].pc.pos), Holds(s.producers[p].pc.ticket));
    case Abandon(p) => ResolveResolves(s, p, TOMBSTONE, Empty);
    case Free => FreeTakesTheFront(s);
    case _ =>
      assert Queue(Apply(s, a)) == Queue(s) && Delivered(Apply(s, a)) == Delivered(s);
      StandingStill(s.cap, Queue(s), Delivered(s));
  }

  /** With nobody mid-call, the values left for the ring's own drop are those of
      the positions from the head on, each in a slot of its own. */
  lemma DropFindsTheRest(s: Machine, pos: nat)
    requires Reachable(s) && s.consumer == Consumer(s.head, Resting, s.consumer.seen) && s.head <= pos < s.tail
    ensures Shape(s)
    ensures s.words[SlotOf(s.cap, pos)] == PublishedWord(pos) <==> s.log[pos].Holds?
    ensures s.log[pos].Holds? ==> s.data[SlotOf(s.cap, pos)] == s.log[pos].ticket
    ensures forall other | s.head <= other < s.tail && other != pos :: SlotOf(s.cap, other) != SlotOf(s.cap, pos)
  {
    ReachableKeepsInv(s);
    assert s.words[SlotOf(s.cap, pos)] == Expected(s.log, pos);
    forall other | s.head <= other < s.tail && other != pos ensures SlotOf(s.cap, other) != SlotOf(s.cap, pos) {
      Apart(s.cap, s.head, other, pos);
    }
  }
}
