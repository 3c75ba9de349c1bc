/** The broadcast ring's calls, as their code, run amid other threads. Each
    access is one step of the machine, and before it any number of steps of the
    other threads may happen: `schedule` says which. `flukes` says which of the weak
    compare-and-swaps fail for no reason. */
module BroadcastRing {
  import opened Wrappers
  import opened SlotState
  import opened ConsumerFloor
  import opened PositionLog
  import opened BroadcastMachine
  import opened BroadcastBasics
  import opened BroadcastBounds
  import opened BroadcastMarks
  import opened BroadcastInvariant
  import opened BroadcastTheorems
  import opened BroadcastConservation
  import opened BroadcastRefusals

  /** One of the ring's threads of control. */
  datatype Thread = ProducerThread(p: nat) | ConsumerThread(k: nat) | CloneThread(c: nat)

  /** Whether `a` is a step `me` alone may take. A consumer inside `pop` holds an
      exclusive borrow, so nobody can start cloning it either. */
  predicate Mine(me: Thread, a: Action) {
    match me
    case ProducerThread(p) =>
      && (a.Begin? || a.Quit? || a.Probe? || a.Swing? || a.Spurious? || a.Mark? || a.Clear? || a.Fill?
          || a.Publish? || a.Discard? || a.Abandon?)
      && a.p == p
    case ConsumerThread(k) => (a.Look? || a.Show? || a.Advance? || a.Leave? || a.StartClone?) && a.k == k
    case CloneThread(c) => a == CloneStep(c)
  }

  /** A thread whose record other threads cannot touch. */
  predicate Present(s: Machine, me: Thread) {
    match me
    case ProducerThread(p) => p < |s.producers|
    case ConsumerThread(k) => k < |s.seats| && s.seats[k].Settled() && !Pinned(s, k)
    case CloneThread(c) => c < |s.cloners|
  }

  /** What any step lets grow. */
  predicate Grown(s: Machine, s': Machine) {
    && Shape(s) && Shape(s') && s'.cap == s.cap && |s'.seats| == |s.seats| && s'.needsDrop == s.needsDrop
    && s.tail <= s'.tail && s.born <= s'.born && s.destroyed <= s'.destroyed
    && (forall pos | 0 <= pos < s.tail && !s.log[pos].Unresolved? :: s'.log[pos] == s.log[pos])
  }

  /** What other threads' steps leave as it was. */
  predicate LeftAlone(s: Machine, s': Machine, me: Thread) {
    && Grown(s, s') && Present(s', me)
    && match me
       case ProducerThread(p) =>
         && p < |s.producers| && s'.producers[p] == s.producers[p]
         && (forall pos | 0 <= pos < s.tail && s.log[pos] == Unresolved(p) :: s'.log[pos] == s.log[pos])
       case ConsumerThread(k) => k < |s.seats| && s'.seats[k] == s.seats[k]
       case CloneThread(c) => c < |s.cloners| && s'.cloners[c] == s.cloners[c]
  }

  lemma AskingCountsNothing(s: Machine, a: Action)
    requires Shape(s) && Enabled(s, a) && a.Asks()
    ensures Apply(s, a).born == s.born && Apply(s, a).destroyed == s.destroyed
  {
  }

  lemma CountsOnlyGrow(s: Machine, a: Action)
    requires Shape(s) && Enabled(s, a)
    ensures s.born <= Apply(s, a).born && s.destroyed <= Apply(s, a).destroyed
  {
    if a.Asks() { AskingCountsNothing(s, a); }
  }

  lemma StepsOnlyGrow(s: Machine, a: Action)
    requires Basics(s) && Enabled(s, a)
    ensures Grown(s, Apply(s, a))
  {
    CountsOnlyGrow(s, a);
    SizesStay(s, a);
    HistoryStep(s, a);
  }

  /** `p` has the record and the claims it had. */
  predicate KeepsClaims(s: Machine, s': Machine, p: nat) {
    && p < |s.producers| && p < |s'.producers| && s'.producers[p] == s.producers[p]
    && s.tail == |s.log| && s.tail <= |s'.log|
    && forall pos | 0 <= pos < s.tail && s.log[pos] == Unresolved(p) :: s'.log[pos] == s.log[pos]
  }

  lemma AskersKeepMyClaims(s: Machine, a: Action, p: nat)
    requires Shape(s) && Enabled(s, a) && a.Asks() && !Mine(ProducerThread(p), a) && p < |s.producers|
    ensures KeepsClaims(s, Apply(s, a), p)
  {
  }

  lemma HandlersKeepMyClaims(s: Machine, a: Action, p: nat)
    requires Basics(s) && Enabled(s, a) && a.Handles() && !Mine(ProducerThread(p), a) && p < |s.producers|
    ensures KeepsClaims(s, Apply(s, a), p)
  {
    if a.Publish? || a.Abandon? { assert ClaimOk(s, a.p); }
  }

  lemma OthersKeepMyClaims(s: Machine, a: Action, p: nat)
    requires Basics(s) && Enabled(s, a) && !Mine(ProducerThread(p), a) && p < |s.producers|
    ensures KeepsClaims(s, Apply(s, a), p)
  {
    if a.Asks() { AskersKeepMyClaims(s, a, p); } else if a.Handles() { HandlersKeepMyClaims(s, a, p); }
  }

  lemma OthersKeepMySeat(s: Machine, a: Action, k: nat)
    requires Basics(s) && Enabled(s, a) && !Mine(ConsumerThread(k), a) && Present(s, ConsumerThread(k))
    ensures |Apply(s, a).seats| == |s.seats| && Apply(s, a).seats[k] == s.seats[k]
    ensures Present(Apply(s, a), ConsumerThread(k))
  {
    var s' := Apply(s, a);
    if a.Asks() { AskersMoveNoSeat(s, a); } else if a.Handles() { HandlersMoveNoSeat(s, a); } else {
      if a.CloneStep? { assert ClonerOk(s, a.c); }
      forall c | 0 <= c < |s'.cloners| && !s'.cloners[c].pc.Finished? ensures s'.cloners[c].source != k {
        if c < |s.cloners| { assert s'.cloners[c].source == s.cloners[c].source; }
      }
    }
  }

  lemma OthersKeepMyClone(s: Machine, a: Action, c: nat)
    requires Shape(s) && Enabled(s, a) && a != CloneStep(c) && c < |s.cloners|
    ensures c < |Apply(s, a).cloners| && Apply(s, a).cloners[c] == s.cloners[c]
  {
    if a.Asks() { AskersMoveNoSeat(s, a); } else if a.Handles() { HandlersMoveNoSeat(s, a); }
  }

  lemma OthersLeaveMeAlone(s: Machine, a: Action, me: Thread)
    requires Basics(s) && Enabled(s, a) && !Mine(me, a) && Present(s, me)
    ensures LeftAlone(s, Apply(s, a), me)
  {
    StepsOnlyGrow(s, a);
    match me
    case ProducerThread(p) => OthersKeepMyClaims(s, a, p);
    case ConsumerThread(k) => OthersKeepMySeat(s, a, k);
    case CloneThread(c) => OthersKeepMyClone(s, a, c);
  }

  /** What the ring keeps: the joint invariant, and the count of its values if they
      need dropping. */
  ghost predicate Good(s: Machine) {
    Inv(s) && (s.needsDrop ==> TicketsOk(s))
  }

  lemma GoodMeansBasics(s: Machine)
    requires Good(s)
    ensures Basics(s)
  {
  }

  lemma GoodStep(s: Machine, a: Action)
    requires Good(s) && Enabled(s, a) && Disciplined(s, a)
    ensures Good(Apply(s, a))
  {
    InvStep(s, a);
    SizesStay(s, a);
    if s.needsDrop { TicketsStep(s, a); }
  }

  /** No thread but producer `p` has moved. */
  predicate OthersStill(s: Machine, s': Machine, p: nat) {
    && s'.seats == s.seats && s'.cloners == s.cloners && |s'.producers| == |s.producers|
    && forall w | 0 <= w < |s.producers| && w != p :: s'.producers[w] == s.producers[w]
  }

  /** What part of a call of producer `p` leaves, with what the schedule was and is: the
      rest has only grown, and with no schedule no other thread has moved. */
  predicate Proceeds(s: Machine, before: seq<seq<Action>>, s': Machine, after: seq<seq<Action>>, p: nat) {
    && Grown(s, s') && SameSizes(s, s') && p < |s'.producers| && |after| <= |before|
    && (before == [] ==> OthersStill(s, s', p))
  }

  lemma ProceedsOn(s: Machine, before: seq<seq<Action>>, t: Machine, mid: seq<seq<Action>>,
                   u: Machine, after: seq<seq<Action>>, p: nat)
    requires Proceeds(s, before, t, mid, p) && Proceeds(t, mid, u, after, p)
    ensures Proceeds(s, before, u, after, p)
  {
  }

  /** In the state `at`, between `s` and `s'`, producer `p` met with a refusal. */
  ghost predicate RefusedAt(s: Machine, at: Machine, s': Machine, p: nat) {
    && Grown(s, at) && Inv(at) && Enabled(at, Probe(p)) && Refuses(at, p)
    && Grown(at, s') && p < |s'.producers| && s'.producers[p].pc.Idle?
  }

  /** In the state `at`, between `s` and `s'`, producer `p` wrote the value `ticket` into
      the slot of `pos`, which it had claimed. */
  ghost predicate WroteAt(s: Machine, at: Machine, s': Machine, p: nat, pos: nat, ticket: nat) {
    && Grown(s, at) && Inv(at) && Enabled(at, Fill(p)) && at.producers[p].pc == Holding(pos)
    && ticket == at.born < s'.born && Grown(at, s')
  }

  lemma RefusedSince(s0: Machine, s: Machine, at: Machine, s': Machine, p: nat)
    requires Grown(s0, s) && RefusedAt(s, at, s', p)
    ensures RefusedAt(s0, at, s', p)
  {
    hide Inv, Refuses;
  }

  lemma AskingMovesMeAlone(s: Machine, a: Action, p: nat)
    requires Shape(s) && Enabled(s, a) && a.Asks() && Mine(ProducerThread(p), a)
    ensures OthersStill(s, Apply(s, a), p)
  {
  }

  lemma HandlingMovesMeAlone(s: Machine, a: Action, p: nat)
    requires Shape(s) && Enabled(s, a) && a.Handles() && Mine(ProducerThread(p), a)
    ensures OthersStill(s, Apply(s, a), p)
  {
  }

  /** Others' steps, then one of producer `p`'s own, are part of its call. */
  lemma TurnProceeds(s: Machine, at: Machine, a: Action, p: nat)
    requires Basics(at) && LeftAlone(s, at, ProducerThread(p))
    requires Mine(ProducerThread(p), a) && Enabled(at, a) && Grown(at, Apply(at, a))
    ensures Grown(s, Apply(at, a)) && SameSizes(s, Apply(at, a)) && p < |Apply(at, a).producers|
    ensures OthersStill(at, Apply(at, a), p)
  {
    if a.Asks() { AskingMovesMeAlone(at, a, p); } else { HandlingMovesMeAlone(at, a, p); }
    hide Apply;
  }

  /** What a producer may do next it may still do once others have moved. */
  lemma StillEnabled(s: Machine, s': Machine, a: Action, p: nat)
    requires LeftAlone(s, s', ProducerThread(p)) && Mine(ProducerThread(p), a) && Enabled(s, a)
    ensures Enabled(s', a) && Disciplined(s', a)
  {
  }

  class Ring {
    var m: Machine
    var schedule: seq<seq<Action>>
    /** Which of the weak compare-and-swaps to come fail for no reason. */
    var flukes: seq<bool>

    constructor (cap: nat, seats: nat, needsDrop: bool, schedule: seq<seq<Action>>, flukes: seq<bool>)
      requires cap > 0 && seats > 0
      ensures m == Init(cap, seats, needsDrop) && Good(m) && this.schedule == schedule && this.flukes == flukes
    {
      m := Init(cap, seats, needsDrop);
      this.schedule, this.flukes := schedule, flukes;
      InvInit(cap, seats, needsDrop);
    }

    /** `Producer::clone`: one producer more, with a cache of its own that knows nothing. */
    method CloneProducer() returns (p: nat)
      requires Good(m)
      modifies this`m
      ensures Good(m) && p == |old(m.producers)|
      ensures m == old(m).(producers := old(m.producers) + [Producer(0, Idle)])
    {
      p := |m.producers|;
      Act(NewProducer);
    }

    /** Lets the other threads take the steps the schedule has for this moment;
        a step that is not theirs to take is passed over. */
    method Yield(me: Thread)
      requires Basics(m) && Present(m, me)
      modifies this`m, this`schedule
      ensures Basics(m) && LeftAlone(old(m), m, me) && (old(Good(m)) ==> Good(m))
      ensures old(schedule) == [] ==> schedule == [] && m == old(m)
      ensures old(schedule) != [] ==> schedule == old(schedule)[1..]
    {
      NothingMoved(m, me);
      if schedule == [] { return; }
      hide Good, Basics, LeftAlone;
      var burst := schedule[0];
      schedule := schedule[1..];
      for i := 0 to |burst|
        invariant Basics(m) && LeftAlone(old(m), m, me) && Present(m, me) && (old(Good(m)) ==> Good(m))
        invariant schedule == old(schedule)[1..]
      {
        var a := burst[i];
        BasicsMeanShape(m);
        if Enabled(m, a) && Disciplined(m, a) && !Mine(me, a) {
          BasicsStep(m, a);
          if old(Good(m)) { GoodStep(m, a); }
          OthersLeaveMeAlone(m, a, me);
          LeftAloneIsTransitive(old(m), m, Apply(m, a), me);
          m := Apply(m, a);
        }
      }
    }

    /** One step of this thread's own. */
    method Act(a: Action)
      requires Good(m) && Enabled(m, a) && Disciplined(m, a)
      modifies this`m
      ensures Good(m) && m == Apply(old(m), a) && Grown(old(m), m)
    {
      hide TicketsOk;
      GoodStep(m, a);
      StepsOnlyGrow(m, a);
      m := Apply(m, a);
    }

    /** Lets the others run, then takes one step of producer `p`'s own, from the state
        `at`. */
    method Turn(p: nat, a: Action) returns (ghost at: Machine)
      requires Good(m) && Mine(ProducerThread(p), a) && Enabled(m, a)
      modifies this`m, this`schedule
      ensures Good(m) && Proceeds(old(m), old(schedule), m, schedule, p)
      ensures Good(at) && LeftAlone(old(m), at, ProducerThread(p))
      ensures Enabled(at, a) && m == Apply(at, a) && Grown(at, m)
      ensures old(schedule) == [] ==> at == old(m)
      ensures old(schedule) != [] ==> |schedule| < |old(schedule)|
    {
      GoodMeansBasics(m);
      hide Good;
      Yield(ProducerThread(p));
      at := m;
      StillEnabled(old(m), m, a, p);
      hide LeftAlone, Enabled;
      Act(a);
      TurnProceeds(old(m), at, a, p);
    }

    /** `Consumer::drop`: gives seat `k` up, in the state `at`, and changes nothing else. The
        floor is then that of the others, and with no others there is none. */
    method DropConsumer(k: nat) returns (ghost at: Machine)
      requires Good(m) && AtRest(m, k) && !Pinned(m, k)
      modifies this`m, this`schedule
      ensures Good(m) && Grown(old(m), at) && Grown(at, m) && AtRest(at, k) && at.seats[k] == old(m.seats[k])
      ensures |m.seats| == |at.seats| && !m.seats[k].active
      ensures m == at.(seats := at.seats[k := m.seats[k]])
      ensures IsFloorWithout(at.seats, k, FloorUpTo(m.seats, |m.seats|))
      ensures old(schedule) == [] ==> schedule == [] && at == old(m)
    {
      hide TicketsOk;
      Yield(ConsumerThread(k));
      at := m;
      Act(Leave(k));
      assert m.seats == at.seats[k := m.seats[k]];
      FloorOfTheOthers(at.seats, m.seats, k);
    }

    /** Lets the others run, then classifies the slot at seat `k`'s head. */
    method Glance(k: nat) returns (seen: Snapshot)
      requires Good(m) && AtRest(m, k) && !Pinned(m, k)
      modifies this`m, this`schedule
      ensures Good(m) && Grown(old(m), m) && k < |m.seats| && !Pinned(m, k) && m.seats[k].head <= m.tail
      ensures old(schedule) == [] ==> schedule == [] && OnlySeat(old(m), m, k)
      ensures old(schedule) != [] ==> |schedule| < |old(schedule)|
      ensures var rpc := if seen.Ready? then Lent else if seen.Tombstoned? then Skipping else RPc.Resting;
              m.seats[k] == old(m.seats[k]).(rpc := rpc)
      ensures seen.NotReady? ==> AtOpenEnd(m, m.seats[k].head)
      ensures !seen.NotReady? ==> m.seats[k].head < m.tail
      ensures seen.Tombstoned? ==> m.log[m.seats[k].head].Empty?
    {
      hide TicketsOk;
      Yield(ConsumerThread(k));
      HeadSlotSpeaksTruth(m, k);
      seen := Classify(m.words[SlotOf(m.cap, m.seats[k].head)], m.seats[k].head);
      Act(Look(k));
      assert SeatOk(m, k);
    }

    /** Lets the others run, then reads the value lent to seat `k`. */
    method Read(k: nat) returns (v: nat)
      requires Good(m) && Enabled(m, Show(k)) && !Pinned(m, k)
      modifies this`m, this`schedule
      ensures Good(m) && Grown(old(m), m) && k < |m.seats| && !Pinned(m, k) && |schedule| <= |old(schedule)|
      ensures old(schedule) == [] ==> OnlySeat(old(m), m, k)
      ensures m.seats[k] == old(m.seats[k]).(rpc := Leaving, seen := old(m.seats[k].seen) + [v])
      ensures Carries(m, m.seats[k].head, v)
    {
      hide TicketsOk;
      Yield(ConsumerThread(k));
      HeadSlotSpeaksTruth(m, k);
      assert SeatOk(m, k);
      v := m.data[SlotOf(m.cap, m.seats[k].head)].value;
      Act(Show(k));
    }

    /** Lets the others run, then publishes seat `k`'s head past its position. */
    method MoveOn(k: nat)
      requires Good(m) && Enabled(m, Advance(k)) && !Pinned(m, k)
      modifies this`m, this`schedule
      ensures Good(m) && Grown(old(m), m) && k < |m.seats| && !Pinned(m, k) && |schedule| <= |old(schedule)|
      ensures old(schedule) == [] ==> OnlySeat(old(m), m, k)
      ensures m.seats[k] == old(m.seats[k]).(rpc := RPc.Resting, head := old(m.seats[k].head) + 1)
      ensures m.seats[k].head <= m.tail
    {
      hide TicketsOk;
      Yield(ConsumerThread(k));
      Act(Advance(k));
      assert SeatOk(m, k);
    }

    /** Reads the value lent to seat `k`, then moves past it. */
    method Deliver(k: nat) returns (v: nat)
      requires Good(m) && Enabled(m, Show(k)) && !Pinned(m, k)
      modifies this`m, this`schedule
      ensures Good(m) && Grown(old(m), m) && k < |m.seats| && !Pinned(m, k) && m.seats[k].head <= m.tail
      ensures |schedule| <= |old(schedule)| && (old(schedule) == [] ==> OnlySeat(old(m), m, k))
      ensures m.seats[k] == old(m.seats[k]).(rpc := RPc.Resting, head := old(m.seats[k].head) + 1,
                                             seen := old(m.seats[k].seen) + [v])
      ensures Carries(m, old(m.seats[k].head), v)
    {
      hide Good, Pinned;
      v := Read(k);
      MoveOn(k);
    }

    /** One lap of `pop`'s loop: an empty answer, a position skipped, or a value. */
    method PopOnce(k: nat) returns (seen: Snapshot, v: nat)
      requires Good(m) && AtRest(m, k) && !Pinned(m, k)
      modifies this`m, this`schedule
      ensures Good(m) && AtRest(m, k) && !Pinned(m, k) && Grown(old(m), m) && m.seats[k].head <= m.tail
      ensures |schedule| <= |old(schedule)| && (old(schedule) == [] ==> OnlySeat(old(m), m, k))
      ensures seen.Tombstoned? && old(schedule) == [] ==> m.tail == old(m.tail)
      ensures seen.Tombstoned? && old(schedule) != [] ==> |schedule| < |old(schedule)|
      ensures seen.NotReady? ==> m.seats[k] == old(m.seats[k]) && AtOpenEnd(m, m.seats[k].head)
      ensures seen.Tombstoned? ==>
                && m.seats[k] == old(m.seats[k]).(head := old(m.seats[k].head) + 1)
                && m.tail == |m.log| && m.log[old(m.seats[k].head)].Empty?
      ensures seen.Ready? ==>
                && m.seats[k] == old(m.seats[k]).(head := old(m.seats[k].head) + 1, seen := old(m.seats[k].seen) + [v])
                && Carries(m, old(m.seats[k].head), v)
    {
      hide Good, Pinned;
      v := 0;
      seen := Glance(k);
      match seen
      case Tombstoned => MoveOn(k);
      case NotReady =>
      case Ready => v := Deliver(k);
    }

    /** `Consumer::pop`. Whatever the other threads do meanwhile, it skips exactly
        the abandoned positions, hands out the next published value, and reports
        an empty ring only when its head is the tail or an open claim. */
    method Pop(k: nat) returns (r: Option<nat>)
      requires Good(m) && AtRest(m, k) && !Pinned(m, k)
      modifies this`m, this`schedule
      ensures Good(m) && AtRest(m, k) && !Pinned(m, k) && m.seats[k].start == old(m.seats[k].start)
      ensures |schedule| <= |old(schedule)| && (old(schedule) == [] ==> OnlySeat(old(m), m, k))
      ensures r.None? ==>
                && Passed(old(m), m, k, m.seats[k].head)
                && m.seats[k].seen == old(m.seats[k].seen)
                && AtOpenEnd(m, m.seats[k].head)
      ensures r.Some? ==>
                && m.seats[k].head > 0 && Passed(old(m), m, k, m.seats[k].head - 1)
                && m.seats[k].seen == old(m.seats[k].seen) + [r.value]
                && Carries(m, m.seats[k].head - 1, r.value)
    {
      PassedNothing(m, k);
      hide Good, Pinned, Passed, Carries, AtOpenEnd, Grown;
      while true
        invariant Good(m) && AtRest(m, k) && !Pinned(m, k) && Passed(old(m), m, k, m.seats[k].head)
        invariant m.seats[k].start == old(m.seats[k].start) && m.seats[k].seen == old(m.seats[k].seen)
        invariant |schedule| <= |old(schedule)| && (old(schedule) == [] ==> OnlySeat(old(m), m, k))
        decreases |schedule|, m.tail - m.seats[k].head
      {
        ghost var before := m;
        var seen, v := PopOnce(k);
        PassedStill(old(m), before, m, k, before.seats[k].head);
        if seen.NotReady? { return None; }
        if seen.Ready? { return Some(v); }
        PassedOneMore(old(m), m, k, m.seats[k].head);
      }
    }

    /** Lets the others run, then makes producer `p`'s next access; if that refuses it,
        `at` is the state in which it did. */
    method Access(p: nat) returns (ghost at: Machine)
      requires Good(m) && Enabled(m, Probe(p))
      modifies this`m, this`schedule
      ensures Good(m) && Proceeds(old(m), old(schedule), m, schedule, p)
      ensures Follows(old(m.producers[p].pc), m.producers[p].pc, |m.seats|, m.cap)
      ensures m.producers[p].pc.Idle? ==> RefusedAt(old(m), at, m, p)
      ensures old(schedule) == [] ==> m == ProbeStep(old(m), p) && m.tail == old(m.tail)
      ensures old(schedule) != [] ==> |schedule| < |old(schedule)|
    {
      hide TicketsOk;
      at := Turn(p, Probe(p));
      ProbeFollows(at, p);
      RefusesIff(at, p);
      hide Inv, Refuses;
    }

    /** `any_subscribed`: loads the seats' flags in order until one is set. Alone, it
        answers whether somebody is subscribed. */
    method AnySubscribed(p: nat) returns (yes: bool)
      requires Good(m) && p < |m.producers| && m.producers[p].pc.Asking? && m.producers[p].pc.i == 0
      modifies this`m, this`schedule
      ensures Good(m) && Proceeds(old(m), old(schedule), m, schedule, p)
      ensures var t := old(m.producers[p].pc.t);
              m.producers[p].pc == if yes then Trying(t) else Scanning(t, 0, NoConsumers)
      ensures old(schedule) == [] ==> m == WithPc(old(m), p, m.producers[p].pc) && (yes <==> SomebodySubscribed(old(m)))
      ensures old(schedule) != [] ==> |schedule| < |old(schedule)|
    {
      hide Good, Grown, OthersStill;
      var t := m.producers[p].pc.t;
      var _ := Access(p);
      for i := 1 to |m.seats| + 1
        invariant Good(m) && Proceeds(old(m), old(schedule), m, schedule, p)
        invariant (i <= |m.seats| && m.producers[p].pc == Asking(t, i)) || m.producers[p].pc == Trying(t)
                  || (i == |m.seats| + 1 && m.producers[p].pc == Scanning(t, 0, NoConsumers))
        invariant old(schedule) == [] ==> m == WithPc(old(m), p, m.producers[p].pc)
        invariant old(schedule) == [] ==>
                    if m.producers[p].pc.Trying? then SomebodySubscribed(m)
                    else forall k | 0 <= k < i && k < |m.seats| :: !m.seats[k].active
        invariant old(schedule) != [] ==> |schedule| < |old(schedule)|
      {
        if m.producers[p].pc.Trying? { break; }
        ghost var before, mid := m, schedule;
        var _ := Access(p);
        ProceedsOn(old(m), old(schedule), before, mid, m, schedule, p);
        WithPcAgain(old(m), p, Asking(t, i), m.producers[p].pc);
      }
      yes := m.producers[p].pc.Trying?;
    }

    /** One seat of the floor scan: its flag, and its head if the flag is set. */
    method VisitSeat(p: nat)
      requires Good(m) && p < |m.producers| && m.producers[p].pc.Scanning? && m.producers[p].pc.i < |m.seats|
      modifies this`m, this`schedule
      ensures Good(m) && Proceeds(old(m), old(schedule), m, schedule, p)
      ensures m.producers[p].pc.Scanning? && m.producers[p].pc.t == old(m.producers[p].pc.t)
      ensures m.producers[p].pc.i == old(m.producers[p].pc.i) + 1
      ensures old(schedule) == [] ==>
                var pc := old(m.producers[p].pc);
                var seat := m.seats[pc.i];
                m == WithPc(old(m), p, Scanning(pc.t, pc.i + 1, if seat.active then pc.m.Meet(seat.head) else pc.m))
    {
      hide Good;
      var _ := Access(p);
      if m.producers[p].pc.Peeking? {
        var pc := m.producers[p].pc;
        WithPcAgain(old(m), p, pc, Scanning(pc.t, pc.i + 1, pc.m.Meet(m.seats[pc.i].head)));
        var _ := Access(p);
      }
    }

    /** The scan's loop: every seat in order. */
    method VisitSeats(p: nat)
      requires Good(m) && p < |m.producers| && m.producers[p].pc.Scanning?
      requires m.producers[p].pc.i == 0 && m.producers[p].pc.m.NoConsumers?
      modifies this`m, this`schedule
      ensures Good(m) && Proceeds(old(m), old(schedule), m, schedule, p)
      ensures m.producers[p].pc.Scanning? && m.producers[p].pc.t == old(m.producers[p].pc.t)
      ensures m.producers[p].pc.i == |m.seats|
      ensures old(schedule) == [] ==>
                m == WithPc(old(m), p, Scanning(m.producers[p].pc.t, |m.seats|, FloorUpTo(m.seats, |m.seats|)))
    {
      ghost var t := m.producers[p].pc.t;
      SameAgain(m, p);
      hide Good, Grown, OthersStill;
      for i := 0 to |m.seats|
        invariant Good(m) && Proceeds(old(m), old(schedule), m, schedule, p)
        invariant m.producers[p].pc.Scanning? && m.producers[p].pc.t == t && m.producers[p].pc.i == i
        invariant old(schedule) == [] ==> m == WithPc(old(m), p, Scanning(t, i, FloorUpTo(m.seats, i)))
      {
        ghost var before, mid := m, schedule;
        WithPcAgain(old(m), p, m.producers[p].pc, Scanning(t, i + 1, FloorUpTo(m.seats, i + 1)));
        VisitSeat(p);
        ProceedsOn(old(m), old(schedule), before, mid, m, schedule, p);
      }
    }

    /** `ConsumerRegistry::floor`: visits every seat, keeping the least subscribed
        head. Alone, it finds the floor of the seats as they are. */
    method ScanFloor(p: nat) returns (floor: Floor, ghost at: Machine)
      requires Good(m) && p < |m.producers| && m.producers[p].pc.Scanning?
      requires m.producers[p].pc.i == 0 && m.producers[p].pc.m.NoConsumers?
      modifies this`m, this`schedule
      ensures Good(m) && Proceeds(old(m), old(schedule), m, schedule, p)
      ensures m.producers[p].pc == if floor.At? then Raising(old(m.producers[p].pc.t), floor.head) else Idle
      ensures floor.NoConsumers? ==> RefusedAt(old(m), at, m, p)
      ensures old(schedule) == [] ==>
                m == WithPc(old(m), p, m.producers[p].pc) && floor == FloorUpTo(m.seats, |m.seats|)
    {
      hide Good, RefusedAt, FloorUpTo;
      VisitSeats(p);
      ghost var before := m;
      var pc := m.producers[p].pc;
      floor := pc.m;
      WithPcAgain(old(m), p, pc, if floor.At? then Raising(pc.t, floor.head) else Idle);
      at := Access(p);
      if floor.NoConsumers? { RefusedSince(old(m), before, at, m, p); }
    }

    /** `FloorCache::refresh`: scans, and raises both caches to what it found. */
    method Refresh(p: nat) returns (ok: bool, ghost at: Machine)
      requires Good(m) && p < |m.producers|
      requires m.producers[p].pc.Scanning? && m.producers[p].pc.i == 0 && m.producers[p].pc.m.NoConsumers?
      modifies this`m, this`schedule
      ensures Good(m) && Proceeds(old(m), old(schedule), m, schedule, p)
      ensures m.producers[p].pc == if ok then Inspecting(old(m.producers[p].pc.t)) else Idle
      ensures !ok ==> RefusedAt(old(m), at, m, p)
      ensures old(schedule) == [] ==>
                && OnlyCaches(old(m), m)
                && (ok <==> FloorUpTo(m.seats, |m.seats|).Permits(old(m.producers[p].pc.t), m.cap))
      ensures old(schedule) == [] ==>
                match FloorUpTo(m.seats, |m.seats|)
                case NoConsumers => m.producers[p].private == old(m.producers[p].private) && m.shared == old(m.shared)
                case At(head) =>
                  && m.producers[p].private == head <= m.shared && old(m.shared) <= m.shared
                  && (m.shared == head || m.shared == old(m.shared))
    {
      hide Good, RefusedAt, FloorUpTo;
      var floor;
      floor, at := ScanFloor(p);
      if floor.At? {
        ghost var before := m;
        at := Access(p);
        if m.producers[p].pc.Idle? { RefusedSince(old(m), before, at, m, p); }
      }
      ok := m.producers[p].pc.Inspecting?;
    }

    /** The two cache levels: the private cell, then the shared cache read into it. */
    method AskCaches(p: nat) returns (ok: bool)
      requires Good(m) && p < |m.producers| && m.producers[p].pc.Trying?
      modifies this`m, this`schedule
      ensures Good(m) && Proceeds(old(m), old(schedule), m, schedule, p)
      ensures var t := old(m.producers[p].pc.t);
              m.producers[p].pc == if ok then Inspecting(t) else Scanning(t, 0, NoConsumers)
      ensures old(schedule) == [] ==>
                && OnlyCaches(old(m), m)
                && (ok <==> At(old(m.producers[p].private)).Permits(old(m.producers[p].pc.t), m.cap)
                            || At(old(m.shared)).Permits(old(m.producers[p].pc.t), m.cap))
                && m.shared == old(m.shared)
                && m.producers[p].private
                   == if At(old(m.producers[p].private)).Permits(old(m.producers[p].pc.t), m.cap)
                      then old(m.producers[p].private) else m.shared
    {
      hide Good;
      var _ := Access(p);
      if m.producers[p].pc.Inspecting? { return true; }
      var _ := Access(p);
      ok := m.producers[p].pc.Inspecting?;
    }

    /** `FloorCache::permits`: private cell, shared cache, then the scan, stopping
        at the first yes. Alone, whichever level answers, the answer is the scan's:
        yes exactly when the slowest subscribed consumer leaves room. */
    method Permits(p: nat) returns (ok: bool, ghost at: Machine)
      requires Good(m) && p < |m.producers| && m.producers[p].pc.Asking? && m.producers[p].pc.i == 0
      modifies this`m, this`schedule
      ensures Good(m) && Proceeds(old(m), old(schedule), m, schedule, p)
      ensures m.producers[p].pc == if ok then Inspecting(old(m.producers[p].pc.t)) else Idle
      ensures !ok ==> RefusedAt(old(m), at, m, p)
      ensures old(schedule) == [] ==> OnlyCaches(old(m), m)
      ensures old(schedule) == [] && AllSettled(old(m)) ==>
                (ok <==> FloorUpTo(m.seats, |m.seats|).Permits(old(m.producers[p].pc.t), m.cap))
      ensures old(schedule) != [] ==> |schedule| < |old(schedule)|
    {
      CacheYesIsScanYesHere(m, p);
      hide Good, AllSettled, SomebodySubscribed, FloorUpTo, RefusedAt, Grown, OthersStill;
      var anySubscribed := AnySubscribed(p);
      if anySubscribed {
        ghost var before, mid := m, schedule;
        ok := AskCaches(p);
        ProceedsOn(old(m), old(schedule), before, mid, m, schedule, p);
        if ok {
          at := m;
          return;
        }
      }
      ghost var before, mid := m, schedule;
      ok, at := Refresh(p);
      ProceedsOn(old(m), old(schedule), before, mid, m, schedule, p);
      if !ok { RefusedSince(old(m), before, at, m, p); }
    }

    /** The weak compare-and-swap on the tail: it fails if the tail has moved, or by a
        fluke. */
    method Compete(p: nat) returns (won: bool)
      requires Good(m) && p < |m.producers| && m.producers[p].pc.Swinging?
      modifies this
      ensures Good(m) && Proceeds(old(m), old(schedule), m, schedule, p)
      ensures won ==> m.producers[p].pc == Claimed(old(m.producers[p].pc.t)) && Owns(m, p, old(m.producers[p].pc.t))
      ensures !won ==> m.producers[p].pc == Asking(m.tail, 0)
      ensures |flukes| <= |old(flukes)|
      ensures old(schedule) == [] && old(m.producers[p].pc.t == m.tail) ==> won || |flukes| < |old(flukes)|
      ensures old(schedule) == [] ==> if won then OnlyClaims(old(m), m, p) else OnlyCaches(old(m), m)
    {
      hide TicketsOk, Inv;
      var fluke := flukes != [] && flukes[0];
      if flukes != [] { flukes := flukes[1..]; }
      var _ := Turn(p, if fluke then Spurious(p) else Swing(p));
      won := m.producers[p].pc.Claimed?;
      if won { ClaimsAreOwned(m, p); }
    }

    /** The winner's swap of the word, and the destruction of the value it displaced. */
    method TakeSlot(p: nat)
      requires Good(m) && p < |m.producers| && m.producers[p].pc.Claimed?
      modifies this`m, this`schedule
      ensures Good(m) && Proceeds(old(m), old(schedule), m, schedule, p)
      ensures m.producers[p].pc == Holding(old(m.producers[p].pc.pos)) && Owns(m, p, old(m.producers[p].pc.pos))
      ensures old(schedule) == [] ==> OnlyEmpties(old(m), m, old(m.producers[p].pc.pos))
    {
      hide TicketsOk, Inv, OnlyEmpties, Destroy, Grown;
      MarkSlot(p);
      if m.producers[p].pc.Clearing? {
        ghost var before, mid := m, schedule;
        ClearSlot(p);
        ProceedsOn(old(m), old(schedule), before, mid, m, schedule, p);
        if old(schedule) == [] {
          var pos := old(m.producers[p].pc.pos);
          EmptiesStill(old(m), Destroy(before, SlotOf(before.cap, pos)), m.producers, pos);
        }
      }
      ClaimsAreOwned(m, p);
    }

    /** Its swap of the word. */
    method MarkSlot(p: nat)
      requires Good(m) && p < |m.producers| && m.producers[p].pc.Claimed?
      modifies this`m, this`schedule
      ensures Good(m) && Proceeds(old(m), old(schedule), m, schedule, p)
      ensures var pos := old(m.producers[p].pc.pos);
              && (m.producers[p].pc == Clearing(pos) || m.producers[p].pc == Holding(pos))
              && SlotOf(m.cap, pos) < |m.data|
              && (old(schedule) == [] ==>
                    var marked := if m.producers[p].pc.Clearing? then Destroy(m, SlotOf(m.cap, pos)) else m;
                    OnlyEmpties(old(m), marked, pos))
    {
      MarkEmpties(m, p);
      hide TicketsOk, Inv, OnlyEmpties, Destroy, Grown, MarkStep;
      ghost var at := Turn(p, Mark(p));
      MarkHolds(at, p);
      GoodMeansBasics(m);
    }

    method ClearSlot(p: nat)
      requires Good(m) && p < |m.producers| && m.producers[p].pc.Clearing?
      modifies this`m, this`schedule
      ensures Good(m) && Proceeds(old(m), old(schedule), m, schedule, p)
      ensures m.producers[p].pc == Holding(old(m.producers[p].pc.pos))
      ensures old(schedule) == [] ==>
                m == Destroy(old(m), SlotOf(m.cap, old(m.producers[p].pc.pos))).(producers := m.producers)
    {
      hide Good;
      var _ := Turn(p, Clear(p));
    }

    /** Loads the tail. */
    method LoadTail(p: nat)
      requires Good(m) && p < |m.producers| && m.producers[p].pc.Idle?
      modifies this`m, this`schedule
      ensures Good(m) && Proceeds(old(m), old(schedule), m, schedule, p)
      ensures m.producers[p].pc == Asking(m.tail, 0)
      ensures old(schedule) == [] ==> m == WithPc(old(m), p, Asking(m.tail, 0))
    {
      hide Good;
      var _ := Turn(p, Begin(p));
    }

    /** `Producer::has_space`. Alone, it answers whether the slowest consumer leaves room
        at the tail. */
    method HasSpace(p: nat) returns (yes: bool, ghost at: Machine)
      requires Good(m) && p < |m.producers| && m.producers[p].pc.Idle?
      modifies this`m, this`schedule
      ensures Good(m) && Proceeds(old(m), old(schedule), m, schedule, p) && m.producers[p].pc.Idle?
      ensures !yes ==> RefusedAt(old(m), at, m, p)
      ensures old(schedule) == [] ==> OnlyCaches(old(m), m)
      ensures old(schedule) == [] && AllSettled(old(m)) ==>
                (yes <==> FloorUpTo(old(m.seats), |old(m.seats)|).Permits(old(m.tail), m.cap))
    {
      hide Good, FloorUpTo, RefusedAt;
      LoadTail(p);
      ghost var before := m;
      yes, at := Permits(p);
      if yes {
        var _ := Turn(p, Quit(p));
      } else {
        RefusedSince(old(m), before, at, m, p);
      }
    }

    /** One lap of `claim_slot`'s loop: the floor, the slot's previous occupant, and
        the swap. A loser is left at the tail it observed. Alone and at the tail, it
        is refused exactly unless the slowest consumer leaves room and that occupant has
        resolved, and without a refusal only a fluke keeps it from winning. */
    method Contend(p: nat) returns (refused: bool, won: bool, ghost at: Machine)
      requires Good(m) && p < |m.producers| && m.producers[p].pc.Asking? && m.producers[p].pc.i == 0
      modifies this
      ensures Good(m) && Proceeds(old(m), old(schedule), m, schedule, p) && !(refused && won)
      ensures refused ==> RefusedAt(old(m), at, m, p)
      ensures won ==> m.producers[p].pc == Claimed(old(m.producers[p].pc.t)) && Owns(m, p, old(m.producers[p].pc.t))
      ensures !refused && !won ==> m.producers[p].pc == Asking(m.tail, 0)
      ensures old(schedule) != [] ==> |schedule| < |old(schedule)|
      ensures |flukes| <= |old(flukes)|
      ensures old(schedule) == [] ==> if won then OnlyClaims(old(m), m, p) else OnlyCaches(old(m), m)
      ensures old(schedule) == [] && !refused && !won ==>
                old(m.producers[p].pc.t) != m.tail || |flukes| < |old(flukes)|
      ensures old(schedule) == [] && AllSettled(old(m)) && old(m.producers[p].pc.t == m.tail) ==>
                (refused <==> !RoomAtTail(old(m)))
    {
      hide Good, AllSettled, FloorUpTo, RefusedAt;
      won := false;
      var permitted;
      permitted, at := Permits(p);
      if !permitted { return true, false, at; }
      ghost var before := m;
      at := Access(p);
      if m.producers[p].pc.Idle? {
        RefusedSince(old(m), before, at, m, p);
        return true, false, at;
      }
      refused := false;
      won := Compete(p);
    }

    /** `Producer::claim_slot`. The loser of a swap starts over at the tail it
        observed; a winner marks its slot and destroys what it held. The position
        it returns is new, and its slot is nobody else's; without one, some access
        met with a refusal. Alone, it is refused exactly when there is no room at the
        tail; then nothing but caches has changed, and otherwise nothing else but the one
        claim and its slot. */
    method ClaimSlot(p: nat) returns (pos: Option<nat>, ghost at: Machine)
      requires Good(m) && p < |m.producers| && m.producers[p].pc.Idle?
      modifies this
      ensures Good(m) && Proceeds(old(m), old(schedule), m, schedule, p)
      ensures pos.None? ==> RefusedAt(old(m), at, m, p)
      ensures pos.Some? ==> m.producers[p].pc == Holding(pos.value) && old(m.tail) <= pos.value && Owns(m, p, pos.value)
      ensures old(schedule) == [] && AllSettled(old(m)) ==>
                && (pos.Some? <==> RoomAtTail(old(m)))
                && (pos.Some? ==> pos.value == old(m.tail))
      ensures old(schedule) == [] ==> if pos.Some? then OnlyClaimsAndEmpties(old(m), m, p) else OnlyCaches(old(m), m)
    {
      hide Good, RefusedAt;
      LoadTail(p);
      while true
        invariant Good(m) && Proceeds(old(m), old(schedule), m, schedule, p)
        invariant m.producers[p].pc.Asking? && m.producers[p].pc.i == 0
        invariant old(m.tail) <= m.producers[p].pc.t
        invariant old(schedule) == [] ==>
                    && m.producers[p].pc.t == m.tail && OnlyCaches(old(m), m)
        decreases |schedule|, |flukes|, if m.producers[p].pc.Asking? && m.producers[p].pc.t == m.tail then 0 else 1
      {
        pos := Some(m.producers[p].pc.t);
        ghost var before := m;
        var refused, won;
        refused, won, at := Contend(p);
        if refused {
          RefusedSince(old(m), before, at, m, p);
          return None, at;
        }
        if won { break; }
      }
      TakeSlot(p);
    }

    /** `SlotWriter::write`: moves a new value into the claimed slot. */
    method Write(p: nat) returns (ghost ticket: nat, ghost at: Machine)
      requires Good(m) && p < |m.producers| && m.producers[p].pc.Holding?
      modifies this`m, this`schedule
      ensures Good(m) && Proceeds(old(m), old(schedule), m, schedule, p)
      ensures var pos := old(m.producers[p].pc.pos);
              && WroteAt(old(m), at, m, p, pos, ticket) && Owns(m, p, pos)
              && m.producers[p].pc == Filled(pos, ticket) && m.data[SlotOf(m.cap, pos)] == Some(ticket)
      ensures old(schedule) == [] ==>
                && ticket == old(m.born)
                && m == old(m).(producers := m.producers, born := ticket + 1,
                                data := old(m.data)[SlotOf(m.cap, m.producers[p].pc.pos) := Some(ticket)])
    {
      hide TicketsOk, Inv;
      at := Turn(p, Fill(p));
      ticket := at.born;
      ClaimsAreOwned(m, p);
    }

    /** `WrittenSlot::commit`. */
    method Commit(p: nat)
      requires Good(m) && p < |m.producers| && m.producers[p].pc.Filled?
      modifies this`m, this`schedule
      ensures Good(m) && Proceeds(old(m), old(schedule), m, schedule, p) && m.producers[p].pc.Idle?
      ensures Carries(m, old(m.producers[p].pc.pos), old(m.producers[p].pc.ticket))
      ensures old(schedule) == [] ==>
                var pc := old(m.producers[p].pc);
                && pc.pos < old(m.tail)
                && m == Resolve(old(m), p, pc.pos, PublishedWord(pc.pos), Holds(pc.ticket))
    {
      ClaimsAreOwned(m, p);
      hide Good;
      var _ := Turn(p, Publish(p));
    }

    /** `UncommittedSlot::drop_if_uncommitted`: destroys the value written. */
    method DropValue(p: nat)
      requires Good(m) && p < |m.producers| && m.producers[p].pc.Filled?
      modifies this`m, this`schedule
      ensures Good(m) && Proceeds(old(m), old(schedule), m, schedule, p)
      ensures m.producers[p].pc == Discarding(old(m.producers[p].pc.pos))
      ensures old(m.producers[p].pc.ticket) in m.destroyed
      ensures old(schedule) == [] ==>
                && m == old(m).(producers := m.producers, destroyed := m.destroyed,
                                data := old(m.data)[SlotOf(m.cap, old(m.producers[p].pc.pos)) := None])
                && m.destroyed == old(m.destroyed) + multiset{old(m.producers[p].pc.ticket)}
    {
      hide TicketsOk, Inv;
      var at := Turn(p, Discard(p));
      FilledSlotHoldsTheValue(at, p);
    }

    /** Dropping a reservation before its commit: a value already written is
        destroyed, and the position ends up abandoned either way. */
    method DropReservation(p: nat)
      requires Good(m) && p < |m.producers| && (m.producers[p].pc.Holding? || m.producers[p].pc.Filled?)
      modifies this`m, this`schedule
      ensures Good(m) && Proceeds(old(m), old(schedule), m, schedule, p) && m.producers[p].pc.Idle?
      ensures old(m.producers[p].pc.pos) < m.tail == |m.log| && m.log[old(m.producers[p].pc.pos)].Empty?
      ensures old(m.producers[p].pc.Filled?) ==> old(m.producers[p].pc.ticket) in m.destroyed
      ensures old(schedule) == [] ==>
                var pc := old(m.producers[p].pc);
                var q := SlotOf(m.cap, pc.pos);
                && pc.pos < |old(m.log)|
                && m == old(m).(producers := m.producers, log := old(m.log)[pc.pos := Empty], data := m.data,
                                words := old(m.words)[q := AbandonedWord(pc.pos)], destroyed := m.destroyed)
                && m.data == (if pc.Filled? then old(m.data)[q := None] else old(m.data))
                && m.destroyed == old(m.destroyed) + if pc.Filled? then multiset{pc.ticket} else multiset{}
    {
      hide TicketsOk, Inv;
      if m.producers[p].pc.Filled? { DropValue(p); }
      ClaimsAreOwned(m, p);
      var _ := Turn(p, Abandon(p));
    }

    /** `Producer::push`. On success the position this call claimed carries the value
        it wrote there; without a position some access met with a refusal. Alone, it
        succeeds exactly when there is room at the tail, and then publishes one value there
        and changes nothing else; refused, it changes nothing but caches. */
    method Push(p: nat) returns (pushed: Option<nat>, ghost ticket: nat, ghost at: Machine)
      requires Good(m) && p < |m.producers| && m.producers[p].pc.Idle?
      modifies this
      ensures Good(m) && Proceeds(old(m), old(schedule), m, schedule, p) && m.producers[p].pc.Idle?
      ensures pushed.None? ==> RefusedAt(old(m), at, m, p)
      ensures pushed.Some? ==>
                && old(m.tail) <= pushed.value
                && WroteAt(old(m), at, m, p, pushed.value, ticket) && Carries(m, pushed.value, ticket)
      ensures old(schedule) == [] && AllSettled(old(m)) ==>
                && (pushed.Some? <==> RoomAtTail(old(m)))
                && (pushed.Some? ==> pushed.value == old(m.tail))
      ensures old(schedule) == [] ==>
                if pushed.Some? then OnlyPushes(old(m), m) && ticket == old(m.born) else OnlyCaches(old(m), m)
    {
      hide Good, AllSettled, RoomAtTail, Inv, Refuses;
      pushed, at := ClaimSlot(p);
      ticket := m.born;
      if pushed.Some? {
        ticket, at := Write(p);
        Commit(p);
      }
    }

    /** Visits the last lap of positions and destroys what their words say is live. */
    method VisitLastLap()
      requires Shape(m)
      modifies this`m
      ensures m == TornDown(old(m))
    {
      var start := LastLap(m);
      for pos := start to m.tail
        invariant OnlyEmptied(old(m), m) && m == VisitAll(old(m), start, pos)
      {
        ghost var next := Visit(m, pos);
        assert next == VisitAll(old(m), start, pos + 1);
        if Decode(m.words[SlotOf(m.cap, pos)]).HoldsValue() {
          m := Destroy(m, SlotOf(m.cap, pos));
        }
      }
    }

    /** The ring's `Drop`, once no producer is inside a call. Afterwards every value
        ever written has been destroyed exactly once. */
    method Teardown()
      requires Good(m) && Quiet(m)
      modifies this`m
      ensures m == TornDown(old(m))
      ensures m.needsDrop ==> forall v: nat | v < m.born :: m.destroyed[v] == 1
      ensures m.needsDrop ==> forall v: nat | v >= m.born :: m.destroyed[v] == 0
      ensures m.needsDrop ==> forall q | 0 <= q < |m.data| :: m.data[q].None?
    {
      if m.needsDrop { TeardownDestroysTheRest(m); }
      VisitLastLap();
    }

    /** Lets the others run, then makes clone `c`'s next access, from the state `at`. The
        ring stays good if the access does not race a scan or an unmarked claim. */
    method CloneTurn(c: nat) returns (ghost at: Machine)
      requires Basics(m) && c < |m.cloners| && !m.cloners[c].pc.Finished?
      modifies this`m, this`schedule
      ensures Basics(m) && Grown(old(m), at) && Grown(at, m) && Grown(old(m), m)
      ensures c < |at.cloners| && at.cloners[c] == old(m.cloners[c]) && Enabled(at, CloneStep(c))
      ensures m == CloneAccess(at, c) && |m.cloners| == |at.cloners|
      ensures |at.seats| == |m.seats| == |old(m.seats)| && old(m.tail) <= at.tail == m.tail
      ensures old(schedule) == [] ==> schedule == [] && at == old(m)
      ensures old(Good(m)) && (TakesSeat(at, CloneStep(c)) ==> Unexposed(at)) ==> Good(m)
    {
      Yield(CloneThread(c));
      at := m;
      assert ClonerOk(m, c);
      StepsOnlyGrow(m, CloneStep(c));
      BasicsStep(m, CloneStep(c));
      hide Good, Basics;
      if Good(m) && (TakesSeat(m, CloneStep(c)) ==> Unexposed(m)) { GoodStep(m, CloneStep(c)); }
      m := Apply(m, CloneStep(c));
    }

    /** Registers a clone of the consumer in seat `k`, which loads the tail. */
    method CloneBegins(k: nat)
      requires Basics(m) && AtRest(m, k)
      modifies this`m, this`schedule
      ensures Basics(m) && Grown(old(m), m) && (old(Good(m)) ==> Good(m)) && old(m.tail) <= m.tail
      ensures |old(m.cloners)| < |m.cloners| && m.cloners[|old(m.cloners)|] == Cloner(k, Seeking(m.tail, 0))
      ensures old(schedule) == [] ==>
                schedule == [] && m == old(m).(cloners := old(m.cloners) + [Cloner(k, Seeking(m.tail, 0))])
    {
      StepsOnlyGrow(m, StartClone(k));
      BasicsStep(m, StartClone(k));
      hide Good, Basics;
      if Good(m) { GoodStep(m, StartClone(k)); }
      m := Apply(m, StartClone(k));
      var _ := CloneTurn(|m.cloners| - 1);
    }

    /** Lets the others run, then tries the next seat, from the state `at`: a free one is
        taken, a taken one is passed over. */
    method TrySeat(c: nat) returns (took: bool, ghost at: Machine)
      requires Basics(m) && c < |m.cloners| && m.cloners[c].pc.Seeking? && m.cloners[c].pc.j < |m.seats|
      modifies this`m, this`schedule
      ensures Basics(m) && Grown(old(m), at) && Grown(at, m)
      ensures c < |m.cloners| && |m.seats| == |at.seats| == |old(m.seats)| && old(m.tail) <= m.tail
      ensures var pc, seats := old(m.cloners[c].pc), at.seats;
              && took == !seats[pc.j].active
              && m == at.(cloners := m.cloners, seats := m.seats)
              && m.seats == (if took then seats[pc.j := seats[pc.j].(active := true, rpc := Absent)] else seats)
              && m.cloners[c] == Cloner(old(m.cloners[c].source),
                                        if took then Seated(pc.t, pc.j) else Seeking(pc.t, pc.j + 1))
      ensures old(Good(m)) && (took ==> Unexposed(at)) ==> Good(m)
      ensures old(schedule) == [] ==> schedule == [] && at == old(m)
    {
      hide Good, Basics, Grown, Unexposed;
      at := CloneTurn(c);
      took := m.cloners[c].pc.Seated?;
    }

    /** `subscribe_at`'s search: tries the seats in order and takes the first it finds free.
        Each seat it passed was taken in a state of its own. */
    method SeekSeat(c: nat) returns (seat: Option<nat>, ghost found: seq<Machine>)
      requires Basics(m) && c < |m.cloners| && m.cloners[c].pc.Seeking? && m.cloners[c].pc.j == 0
      modifies this`m, this`schedule
      ensures Basics(m) && Grown(old(m), m) && |m.seats| == |old(m.seats)| && old(m.tail) <= m.tail
      ensures c < |m.cloners| && m.cloners[c].source == old(m.cloners[c].source)
      ensures FoundBetween(old(m), found, m) && FoundTaken(found[..SeatsPassed(seat, found)])
      ensures seat.None? ==> |found| == |m.seats| && m.cloners[c].pc == Seeking(old(m.cloners[c].pc.t), |found|)
      ensures seat.Some? ==>
                && m.cloners[c].pc == Seated(old(m.cloners[c].pc.t), seat.value)
                && seat.value < |m.seats| && |found| == seat.value + 1 && FoundFree(found, seat.value)
      ensures old(Good(m)) && (seat.Some? ==> Unexposed(found[seat.value])) ==> Good(m)
      ensures old(schedule) == [] ==>
                && schedule == [] && (forall i | 0 <= i < |found| :: found[i].producers == old(m.producers))
                && (forall i | 0 <= i < SeatsPassed(seat, found) :: old(m.seats)[i].active)
                && m == old(m).(cloners := m.cloners, seats := m.seats)
                && (seat.None? ==> m.seats == old(m.seats))
                && (seat.Some? ==>
                      m.seats == old(m.seats)[seat.value := old(m.seats)[seat.value].(active := true, rpc := Absent)])
    {
      var j, n := 0, |m.seats|;
      ghost var t := m.cloners[c].pc.t;
      NothingGrown(m);
      hide Good, Basics, Grown, Unexposed, FoundBetween;
      NoneFoundYet(m);
      found := [];
      while j < n
        invariant Basics(m) && Grown(old(m), m) && (old(Good(m)) ==> Good(m)) && |m.seats| == n && old(m.tail) <= m.tail
        invariant c < |m.cloners| && m.cloners[c] == Cloner(old(m.cloners[c].source), Seeking(t, j))
        invariant j == |found| <= n && FoundTaken(found) && FoundBetween(old(m), found, m)
        invariant old(schedule) == [] ==>
                    && schedule == [] && m == old(m).(cloners := m.cloners)
                    && (forall i | 0 <= i < |found| :: found[i].producers == old(m.producers))
                    && forall i | 0 <= i < j :: m.seats[i].active
      {
        ghost var before := m;
        var took;
        ghost var at;
        took, at := TrySeat(c);
        FoundOneMore(old(m), found, before, at, m);
        assert (found + [at])[..|found|] == found;
        found := found + [at];
        if took { return Some(j), found; }
        j := j + 1;
      }
      assert found[..|found|] == found;
      return None, found;
    }

    /** `Consumer::clone`. Whatever the other threads do meanwhile, it takes the first seat
        it finds free, having found those before it taken, each in a state of its own; the
        new consumer starts where it loaded the tail. Or it finds every seat taken, and the
        call panics. The ring stays good unless a step of the clone `raced` a scan or an
        unmarked claim. */
    method Clone(k: nat) returns (seat: Option<nat>, ghost found: seq<Machine>, ghost raced: bool)
      requires Basics(m) && AtRest(m, k)
      modifies this`m, this`schedule
      ensures Basics(m) && Grown(old(m), m) && (old(Good(m)) && !raced ==> Good(m))
      ensures FoundBetween(old(m), found, m) && FoundTaken(found[..SeatsPassed(seat, found)])
      ensures |old(m.cloners)| < |m.cloners| && m.cloners[|old(m.cloners)|] == Cloner(k, Finished)
      ensures seat.None? ==> |found| == |m.seats|
      ensures seat.Some? ==>
                && seat.value < |m.seats| && |found| == seat.value + 1 && FoundFree(found, seat.value)
                && AtRest(m, seat.value) && m.seats[seat.value].seen == []
                && old(m.tail) <= m.seats[seat.value].start == m.seats[seat.value].head <= m.tail
      ensures old(schedule) == [] ==>
                && m == old(m).(cloners := m.cloners, seats := m.seats)
                && (Unexposed(old(m)) ==> !raced)
                && (forall i | 0 <= i < SeatsPassed(seat, found) :: old(m.seats)[i].active)
                && (seat.None? ==> m.seats == old(m.seats))
                && (seat.Some? ==>
                      m.seats == old(m.seats)[seat.value := Seat(true, m.tail, m.tail, [], RPc.Resting)])
    {
      var c := |m.cloners|;
      hide Good, Basics, Grown, FoundBetween, FoundTaken, FoundFree;
      CloneBegins(k);
      ghost var begun := m;
      seat, found := SeekSeat(c);
      FoundSince(old(m), begun, found, m);
      ghost var before := m;
      GrownOn(old(m), begun, before);
      if seat.Some? {
        ghost var at := CloneSettles(c);
        raced := !Unexposed(found[seat.value]) || !Unexposed(at);
      } else {
        var _ := CloneTurn(c);
        raced := false;
      }
      FoundStill(old(m), found, before, m);
      GrownOn(old(m), before, m);
    }

    /** Stores the new consumer's first head in the seat the clone has taken. */
    method CloneSettles(c: nat) returns (ghost at: Machine)
      requires Basics(m) && c < |m.cloners| && m.cloners[c].pc.Seated?
      modifies this`m, this`schedule
      ensures Basics(m) && Grown(old(m), at) && Grown(at, m) && Grown(old(m), m)
      ensures old(Good(m)) && Unexposed(at) ==> Good(m)
      ensures var pc := old(m.cloners[c].pc);
              && pc.j < |at.seats| == |m.seats| && m.seats == at.seats[pc.j := Seat(true, pc.t, pc.t, [], RPc.Resting)]
              && pc.t <= m.tail
      ensures m == at.(cloners := m.cloners, seats := m.seats)
      ensures c < |m.cloners| && m.cloners[c] == Cloner(old(m.cloners[c].source), Finished)
      ensures old(schedule) == [] ==> schedule == [] && at == old(m)
    {
      assert ClonerOk(m, c);
      hide Good, Basics;
      at := CloneTurn(c);
    }
  }

  /** How many seats a search has passed over: all but the one it took. */
  function SeatsPassed(seat: Option<nat>, found: seq<Machine>): (n: nat)
    ensures n <= |found|
  {
    if seat.Some? && seat.value <= |found| then seat.value else |found|
  }

  /** Seat `i` was taken in the state `found[i]`. */
  predicate FoundTaken(found: seq<Machine>) {
    forall i | 0 <= i < |found| :: i < |found[i].seats| && found[i].seats[i].active
  }

  /** Seat `i` was free in the state `found[i]`. */
  predicate FoundFree(found: seq<Machine>, i: nat) {
    i < |found| && i < |found[i].seats| && !found[i].seats[i].active
  }

  /** The states lie between `s` and `s'`. */
  predicate FoundBetween(s: Machine, found: seq<Machine>, s': Machine) {
    forall i | 0 <= i < |found| :: Grown(s, found[i]) && Grown(found[i], s')
  }

  lemma NothingGrown(s: Machine)
    requires Basics(s)
    ensures Grown(s, s)
  {
  }

  lemma GrownOn(s: Machine, t: Machine, u: Machine)
    requires Grown(s, t) && Grown(t, u)
    ensures Grown(s, u)
  {
  }

  lemma NoneFoundYet(s: Machine)
    ensures FoundBetween(s, [], s)
  {
  }

  lemma FoundStill(s: Machine, found: seq<Machine>, t: Machine, u: Machine)
    requires FoundBetween(s, found, t) && Grown(t, u)
    ensures FoundBetween(s, found, u)
  {
    hide Grown;
    forall i | 0 <= i < |found| ensures Grown(s, found[i]) && Grown(found[i], u) { GrownOn(found[i], t, u); }
  }

  lemma FoundSince(s: Machine, t: Machine, found: seq<Machine>, u: Machine)
    requires Grown(s, t) && FoundBetween(t, found, u)
    ensures FoundBetween(s, found, u)
  {
    hide Grown;
    forall i | 0 <= i < |found| ensures Grown(s, found[i]) && Grown(found[i], u) { GrownOn(s, t, found[i]); }
  }

  lemma FoundOneMore(s: Machine, found: seq<Machine>, t: Machine, at: Machine, u: Machine)
    requires FoundBetween(s, found, t) && Grown(s, t) && Grown(t, at) && Grown(at, u)
    ensures FoundBetween(s, found + [at], u) && Grown(s, u)
  {
    hide Grown;
    GrownOn(s, t, at);
    GrownOn(s, at, u);
    GrownOn(t, at, u);
    FoundStill(s, found, t, u);
  }

  /** No producer scans for the floor or has a claim it has not marked. */
  predicate Unexposed(s: Machine) {
    forall p | 0 <= p < |s.producers| :: !s.producers[p].pc.Exposed()
  }

  /** A ring used by one producer and one consumer, then dropped. Whatever was pushed
      and read, each value written has been destroyed exactly once. */
  method UseAndDrop(cap: nat, seats: nat, orders: seq<bool>, flukes: seq<bool>)
    returns (written: nat, destroyed: multiset<nat>)
    requires cap > 0 && seats > 0
    ensures forall v: nat :: destroyed[v] == if v < written then 1 else 0
  {
    var ring := new Ring(cap, seats, true, [], flukes);
    hide Good, Proceeds;
    for i := 0 to |orders|
      invariant Good(ring.m) && ring.schedule == [] && ring.m.needsDrop
      invariant |ring.m.producers| == 1 && ring.m.producers[0].pc.Idle? && AtRest(ring.m, 0) && !Pinned(ring.m, 0)
    {
      if orders[i] {
        var _, _, _ := ring.Push(0);
      } else {
        var _ := ring.Pop(0);
      }
    }
    ring.Teardown();
    written, destroyed := ring.m.born, ring.m.destroyed;
  }

  /** A consumer leaves, and a producer with nobody else about asks whether anyone is
      subscribed and then pushes. It is told no exactly if the one that left was the last,
      and its push goes through exactly if all who are left have room for it. */
  method LeaveAndPush(ring: Ring, k: nat, p: nat) returns (subscribed: bool, pushed: Option<nat>)
    requires Good(ring.m) && ring.schedule == [] && AllSettled(ring.m) && AtRest(ring.m, k) && !Pinned(ring.m, k)
    requires p < |ring.m.producers| && ring.m.producers[p].pc.Idle?
    modifies ring
    ensures Good(ring.m)
    ensures subscribed <==> OthersSubscribed(old(ring.m), k)
    ensures Shape(old(ring.m)) && (pushed.Some? <==> subscribed && OthersLeaveRoom(old(ring.m), k))
  {
    GoodMeansBasics(ring.m);
    ghost var at := ring.DropConsumer(k);
    ghost var left := ring.m;
    OthersAreSubscribed(at, left, k);
    OthersMakeRoom(at, left, k);
    assert AllSettled(left);
    hide Good, AllSettled, RefusedAt, FloorUpTo, SomebodySubscribed, RoomAtTail, OthersLeaveRoom, OthersSubscribed;
    subscribed := AskWhoIsThere(ring, p);
    SettledAnyway(left, ring.m);
    ghost var ticket, refusal;
    ghost var before := ring.m;
    assert AllSettled(before) && (RoomAtTail(before) <==> subscribed && OthersLeaveRoom(at, k));
    pushed, ticket, refusal := ring.Push(p);
    assert pushed.Some? <==> RoomAtTail(before);
  }

  /** A producer with nobody else about asks whether anyone is subscribed, then goes away. */
  method AskWhoIsThere(ring: Ring, p: nat) returns (subscribed: bool)
    requires Good(ring.m) && ring.schedule == [] && p < |ring.m.producers| && ring.m.producers[p].pc.Idle?
    modifies ring
    ensures Good(ring.m) && ring.schedule == [] && OnlyCaches(old(ring.m), ring.m)
    ensures p < |ring.m.producers| && ring.m.producers[p].pc.Idle?
    ensures subscribed <==> SomebodySubscribed(old(ring.m))
  {
    hide Good, RefusedAt, FloorUpTo;
    ring.LoadTail(p);
    subscribed := ring.AnySubscribed(p);
    if subscribed {
      var _ := ring.Turn(p, Quit(p));
    } else {
      FloorIsTheLeastHead(ring.m.seats, |ring.m.seats|);
      var _, _ := ring.Refresh(p);
    }
  }

  /** Somebody but seat `k`'s consumer is subscribed. */
  predicate OthersSubscribed(s: Machine, k: nat) {
    exists j :: 0 <= j < |s.seats| && j != k && s.seats[j].active
  }

  /** All subscribed but seat `k`'s consumer have room for a claim at the tail, and the
      previous occupant of its slot has resolved. */
  predicate OthersLeaveRoom(s: Machine, k: nat)
    requires Shape(s)
  {
    && PriorOccupantResolved(s.cap, s.tail, s.words[SlotOf(s.cap, s.tail)])
    && forall j | 0 <= j < |s.seats| && j != k && s.seats[j].active :: s.tail < s.seats[j].head + s.cap
  }

  lemma OthersMakeRoom(s: Machine, s': Machine, k: nat)
    requires Shape(s) && k < |s.seats| && s' == s.(seats := s'.seats)
    requires IsFloorWithout(s.seats, k, FloorUpTo(s'.seats, |s'.seats|))
    ensures RoomAtTail(s') <==> OthersSubscribed(s, k) && OthersLeaveRoom(s, k)
  {
    hide FloorUpTo;
  }

  lemma OthersAreSubscribed(s: Machine, s': Machine, k: nat)
    requires k < |s.seats| == |s'.seats| && s'.seats == s.seats[k := s'.seats[k]] && !s'.seats[k].active
    ensures SomebodySubscribed(s') <==> OthersSubscribed(s, k)
  {
    if SomebodySubscribed(s') {
      var j :| 0 <= j < |s'.seats| && s'.seats[j].active;
      assert s.seats[j].active && j != k;
    }
    if j :| 0 <= j < |s.seats| && j != k && s.seats[j].active { assert s'.seats[j].active; }
  }

  lemma FloorOfTheOthers(seats: seq<Seat>, seats': seq<Seat>, k: nat)
    requires k < |seats| == |seats'| && seats' == seats[k := seats'[k]] && !seats'[k].active
    ensures IsFloorWithout(seats, k, FloorUpTo(seats', |seats'|))
  {
    FloorIsTheLeastHead(seats', |seats'|);
    forall j | 0 <= j < |seats| && j != k ensures seats[j] == seats'[j] {}
  }

  lemma SettledAnyway(s: Machine, s': Machine)
    requires AllSettled(s) && OnlyCaches(s, s') && Shape(s)
    ensures AllSettled(s') && Shape(s') && (RoomAtTail(s') <==> RoomAtTail(s))
  {
  }

  /** The floor is the least head of the taken seats but seat `k`'s; with none there is no
      floor. */
  predicate IsFloorWithout(seats: seq<Seat>, k: nat, floor: Floor) {
    match floor
    case NoConsumers => forall j | 0 <= j < |seats| && j != k :: !seats[j].active
    case At(head) =>
      && (exists j :: 0 <= j < |seats| && j != k && seats[j].active && seats[j].head == head)
      && forall j | 0 <= j < |seats| && j != k && seats[j].active :: head <= seats[j].head
  }

  lemma WithPcAgain(s: Machine, p: nat, pc: PPc, pc': PPc)
    requires p < |s.producers|
    ensures WithPc(WithPc(s, p, pc), p, pc') == WithPc(s, p, pc')
  {
    assert s.producers[p := s.producers[p].(pc := pc)][p := s.producers[p].(pc := pc')]
        == s.producers[p := s.producers[p].(pc := pc')];
  }

  lemma SameAgain(s: Machine, p: nat)
    requires Basics(s) && p < |s.producers|
    ensures Shape(s) && Grown(s, s) && WithPc(s, p, s.producers[p].pc) == s
  {
    assert s.producers[p := s.producers[p]] == s.producers;
  }

  /** `s'` differs from `s` only in what producers have cached and where they are. */
  predicate OnlyCaches(s: Machine, s': Machine) {
    s' == s.(producers := s'.producers, shared := s'.shared)
  }

  /** It differs besides in one more claim, `p`'s. */
  predicate OnlyClaims(s: Machine, s': Machine, p: nat) {
    s' == s.(producers := s'.producers, shared := s'.shared, tail := s.tail + 1, log := s.log + [Unresolved(p)])
  }

  /** What lay in the cell, if values need dropping. */
  function Displaced(s: Machine, q: nat): multiset<nat>
    requires q < |s.data|
  {
    if s.needsDrop && s.data[q].Some? then multiset{s.data[q].value} else multiset{}
  }

  /** Apart from producers, the slot of `pos` has been marked and emptied. */
  predicate OnlyEmpties(s: Machine, s': Machine, pos: nat) {
    && Shape(s)
    && var q := SlotOf(s.cap, pos);
       s' == s.(producers := s'.producers, words := s.words[q := VACANT], data := s.data[q := None],
                destroyed := s.destroyed + Displaced(s, q))
  }

  /** Apart from caches and producers, the tail has been claimed and its slot emptied. */
  predicate OnlyClaimsAndEmpties(s: Machine, s': Machine, p: nat) {
    && Shape(s)
    && var q := SlotOf(s.cap, s.tail);
       s' == s.(producers := s'.producers, shared := s'.shared, tail := s.tail + 1, log := s.log + [Unresolved(p)],
                words := s.words[q := VACANT], data := s.data[q := None], destroyed := s.destroyed + Displaced(s, q))
  }

  /** Apart from caches and producers, a new value has been published at the tail, and
      what it displaced destroyed. */
  predicate OnlyPushes(s: Machine, s': Machine) {
    && Shape(s)
    && var q := SlotOf(s.cap, s.tail);
       s' == s.(producers := s'.producers, shared := s'.shared, tail := s.tail + 1, log := s.log + [Holds(s.born)],
                words := s.words[q := PublishedWord(s.tail)], data := s.data[q := Some(s.born)], born := s.born + 1,
                destroyed := s.destroyed + Displaced(s, q))
  }

  lemma EmptiesStill(s: Machine, s': Machine, producers: seq<Producer>, pos: nat)
    requires OnlyEmpties(s, s', pos)
    ensures OnlyEmpties(s, s'.(producers := producers), pos)
  {
  }

  lemma MarkHolds(s: Machine, p: nat)
    requires Shape(s) && Enabled(s, Mark(p))
    ensures |MarkStep(s, p).producers| == |s.producers|
    ensures var pos := s.producers[p].pc.pos;
            MarkStep(s, p).producers[p].pc == Clearing(pos) || MarkStep(s, p).producers[p].pc == Holding(pos)
  {
  }

  /** The mark, with the destruction of what it displaced, empties the slot. */
  lemma MarkEmpties(s: Machine, p: nat)
    requires Inv(s) && p < |s.producers| && s.producers[p].pc.Claimed?
    ensures var marked, pos := MarkStep(s, p), s.producers[p].pc.pos;
            if marked.producers[p].pc.Clearing? then
              SlotOf(s.cap, pos) < |marked.data| && OnlyEmpties(s, Destroy(marked, SlotOf(s.cap, pos)), pos)
            else OnlyEmpties(s, marked, pos)
  {
    assert ClaimOk(s, p) && LatestOk(s, p) && SlotOk(s, s.producers[p].pc.pos);
  }

  lemma CacheYesIsScanYesHere(s: Machine, p: nat)
    requires Inv(s) && p < |s.producers| && s.producers[p].pc.Asking?
    ensures var t := s.producers[p].pc.t;
            AllSettled(s) && SomebodySubscribed(s)
            && (At(s.producers[p].private).Permits(t, s.cap) || At(s.shared).Permits(t, s.cap)) ==>
              FloorUpTo(s.seats, |s.seats|).Permits(t, s.cap)
  {
    var t := s.producers[p].pc.t;
    if AllSettled(s) && SomebodySubscribed(s)
       && (At(s.producers[p].private).Permits(t, s.cap) || At(s.shared).Permits(t, s.cap))
    {
      CacheYesIsScanYes(s, p, t);
    }
  }

  /** `p` has the claim on `pos`, the latest position of its slot. */
  predicate Owns(s: Machine, p: nat, pos: nat) {
    pos < s.tail <= pos + s.cap && s.tail == |s.log| && s.log[pos] == Unresolved(p)
  }

  lemma ProbeFollows(s: Machine, p: nat)
    requires Basics(s) && Enabled(s, Probe(p))
    ensures
      var s' := Apply(s, Probe(p));
      && s'.tail == s.tail && |s'.producers| == |s.producers|
      && Follows(s.producers[p].pc, s'.producers[p].pc, |s.seats|, s.cap)
  {
  }

  lemma ClaimsAreOwned(s: Machine, p: nat)
    requires Inv(s) && p < |s.producers| && s.producers[p].pc.Claim().Some?
    ensures Owns(s, p, s.producers[p].pc.Claim().value)
  {
    assert ClaimOk(s, p) && LatestOk(s, p);
  }

  lemma FilledSlotHoldsTheValue(s: Machine, p: nat)
    requires Inv(s) && p < |s.producers| && s.producers[p].pc.Filled?
    ensures |s.data| == s.cap > 0 && s.data[SlotOf(s.cap, s.producers[p].pc.pos)] == Some(s.producers[p].pc.ticket)
  {
    assert ClaimOk(s, p) && LatestOk(s, p) && SlotOk(s, s.producers[p].pc.pos);
  }

  /** Which accesses follow which on the way to a claim. */
  predicate Follows(pc: PPc, pc': PPc, seats: nat, cap: nat) {
    match pc
    case Asking(t, i) =>
      if i == seats then pc' == Scanning(t, 0, NoConsumers) else pc' == Trying(t) || pc' == Asking(t, i + 1)
    case Trying(t) => pc' == Inspecting(t) || pc' == Sharing(t)
    case Sharing(t) => pc' == Inspecting(t) || pc' == Scanning(t, 0, NoConsumers)
    case Scanning(t, i, m) =>
      if i < seats then pc' == Peeking(t, i, m) || pc' == Scanning(t, i + 1, m)
      else if m.At? then pc' == Raising(t, m.head) else pc' == Idle
    case Peeking(t, i, m) => pc'.Scanning? && pc'.t == t && pc'.i == i + 1 && pc'.m.At?
    case Raising(t, head) => pc' == if At(head).Permits(t, cap) then Inspecting(t) else Idle
    case Inspecting(t) => pc' == Swinging(t) || pc' == Idle
    case _ => false
  }

  /** `pos` is the tail, or a claim nobody has resolved. */
  predicate AtOpenEnd(s: Machine, pos: nat) {
    pos == s.tail || (pos < |s.log| && s.log[pos].Unresolved?)
  }

  /** The value published at `pos` is `v`. */
  predicate Carries(s: Machine, pos: nat, v: nat) {
    pos < |s.log| && s.log[pos] == Holds(v)
  }

  /** Between `s0` and `s` the consumer in seat `k` passed nothing but abandoned
      positions on its way to `head`. */
  predicate Passed(s0: Machine, s: Machine, k: nat, head: nat) {
    && Grown(s0, s) && k < |s0.seats|
    && s0.seats[k].head <= head <= s.tail
    && Skipped(s.log, s0.seats[k].head, head)
  }

  /** Nothing has moved but the consumer in seat `k`. */
  predicate OnlySeat(s: Machine, s': Machine, k: nat) {
    k < |s.seats| == |s'.seats| && s' == s.(seats := s.seats[k := s'.seats[k]])
  }

  lemma PassedNothing(s: Machine, k: nat)
    requires Basics(s) && k < |s.seats|
    ensures Passed(s, s, k, s.seats[k].head)
  {
    assert SeatOk(s, k);
  }

  lemma PassedStill(s0: Machine, s: Machine, s': Machine, k: nat, head: nat)
    requires Passed(s0, s, k, head) && Grown(s, s')
    ensures Passed(s0, s', k, head)
  {
  }

  lemma PassedOneMore(s0: Machine, s: Machine, k: nat, head: nat)
    requires head > 0 && Passed(s0, s, k, head - 1) && head <= s.tail && s.log[head - 1].Empty?
    ensures Passed(s0, s, k, head)
  {
  }

  /** Every position in `[lo, hi)` was abandoned. */
  predicate Skipped(log: seq<Entry>, lo: nat, hi: nat) {
    hi <= |log| && forall pos | lo <= pos < hi :: log[pos].Empty?
  }

  lemma NothingMoved(s: Machine, me: Thread)
    requires Basics(s) && Present(s, me)
    ensures LeftAlone(s, s, me)
  {
  }

  lemma BasicsMeanShape(s: Machine)
    requires Basics(s)
    ensures Shape(s)
  {
  }

  lemma LeftAloneIsTransitive(s: Machine, t: Machine, u: Machine, me: Thread)
    requires LeftAlone(s, t, me) && LeftAlone(t, u, me)
    ensures LeftAlone(s, u, me)
  {
  }
}
