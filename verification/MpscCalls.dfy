/** What becomes of the calls on the many-producer, one-consumer ring: every open claim is
    in some producer's hands, no value is delivered twice, and a call that nobody
    interrupts does exactly what it promises. */
module MpscCalls {
  import opened Wrappers
  import opened SlotState
  import opened PositionLog
  import opened MpscRing

  /** An open claim is in its producer's hands. */
  ghost predicate Owned(s: Machine)
    requires Shape(s)
  {
    forall q | 0 <= q < s.tail && s.log[q].Unresolved? ::
      && s.log[q].owner < |s.producers|
      && s.producers[s.log[q].owner].pc.Owns() && s.producers[s.log[q].owner].pc.pos == q
  }

  /** No ticket has two places: in the log, or in a producer's hands. */
  ghost predicate Unique(s: Machine)
    requires Shape(s)
  {
    && (forall q | 0 <= q < s.tail && s.log[q].Holds? :: s.log[q].ticket < s.born)
    && (forall p | 0 <= p < |s.producers| && s.producers[p].pc.Filled? :: s.producers[p].pc.ticket < s.born)
    && (forall q, r | 0 <= q < r < s.tail && s.log[q].Holds? && s.log[r].Holds? :: s.log[q].ticket != s.log[r].ticket)
    && (forall p, u | 0 <= p < u < |s.producers| && s.producers[p].pc.Filled? && s.producers[u].pc.Filled? ::
          s.producers[p].pc.ticket != s.producers[u].pc.ticket)
    && (forall p, q | 0 <= p < |s.producers| && s.producers[p].pc.Filled? && 0 <= q < s.tail && s.log[q].Holds? ::
          s.producers[p].pc.ticket != s.log[q].ticket)
  }

  lemma ResolvingStaysOwned(s: Machine, p: nat, word: nat, e: Entry)
    requires Inv(s) && Owned(s) && p < |s.producers| && s.producers[p].pc.Owns() && !e.Unresolved?
    ensures s.producers[p].pc.pos < s.tail
    ensures Shape(Resolve(s, p, s.producers[p].pc.pos, word, e)) && Owned(Resolve(s, p, s.producers[p].pc.pos, word, e))
  {
    OwnerIsAhead(s, p);
    hide Inv;
  }

  /** Steps of a producer that resolve nothing. */
  lemma ProducerStaysOwner(s: Machine, a: Action)
    requires Shape(s) && Enabled(s, a) && Owned(s) && Shape(Apply(s, a))
    requires a.Begin? || a.Test? || a.Refresh? || a.Swing? || a.Fill?
    ensures Owned(Apply(s, a))
  {
  }

  lemma OwnedStep(s: Machine, a: Action)
    requires Inv(s) && Enabled(s, a) && Owned(s)
    ensures Shape(Apply(s, a)) && Owned(Apply(s, a))
  {
    InvStep(s, a);
    match a
    case Publish(p) => ResolvingStaysOwned(s, p, PublishedWord(s.producers[p].pc.pos), Holds(s.producers[p].pc.ticket));
    case Abandon(p) => ResolvingStaysOwned(s, p, TOMBSTONE, Empty);
    case NewProducer => hide Inv;
    case Look => hide Inv;
    case Take => hide Inv;
    case Free => hide Inv;
    case PublishHead => hide Inv;
    case _ =>
      hide Inv, Owned;
      ProducerStaysOwner(s, a);
  }

  lemma FillIsUnique(s: Machine, p: nat)
    requires Shape(s) && Enabled(s, Fill(p)) && Unique(s)
    ensures Unique(Apply(s, Fill(p)))
  {
  }

  lemma ResolvingIsUnique(s: Machine, p: nat, word: nat, e: Entry)
    requires Shape(s) && p < |s.producers| && s.producers[p].pc.Owns() && s.producers[p].pc.pos < s.tail && Unique(s)
    requires e == Empty || (s.producers[p].pc.Filled? && e == Holds(s.producers[p].pc.ticket))
    ensures Unique(Resolve(s, p, s.producers[p].pc.pos, word, e))
  {
  }

  lemma SwingIsUnique(s: Machine, p: nat, spurious: bool)
    requires Shape(s) && Enabled(s, Swing(p, spurious)) && Unique(s)
    ensures Shape(SwingStep(s, p, spurious)) && Unique(SwingStep(s, p, spurious))
  {
  }

  /** Steps that put nothing anywhere. */
  lemma PlainIsUnique(s: Machine, a: Action)
    requires Shape(s) && Enabled(s, a) && Unique(s) && Shape(Apply(s, a))
    requires !a.Fill? && !a.Publish? && !a.Abandon? && !a.Swing?
    ensures Unique(Apply(s, a))
  {
  }

  lemma UniqueStep(s: Machine, a: Action)
    requires Inv(s) && Enabled(s, a) && Unique(s)
    ensures Shape(Apply(s, a)) && Unique(Apply(s, a))
  {
    InvStep(s, a);
    hide Unique;
    match a
    case Fill(p) => FillIsUnique(s, p);
    case Publish(p) => ResolvingIsUnique(s, p, PublishedWord(s.producers[p].pc.pos), Holds(s.producers[p].pc.ticket));
    case Abandon(p) => ResolvingIsUnique(s, p, TOMBSTONE, Empty);
    case Swing(p, spurious) => SwingIsUnique(s, p, spurious);
    case _ => PlainIsUnique(s, a);
  }

  lemma {:induction false} KeptAlong(s: Machine, acts: seq<Action>, t: Machine)
    requires Inv(s) && Owned(s) && Unique(s) && Runs(s, acts, t)
    ensures Inv(t) && Owned(t) && Unique(t)
    decreases |acts|
  {
    if acts != [] {
      InvStep(s, acts[0]);
      OwnedStep(s, acts[0]);
      UniqueStep(s, acts[0]);
      KeptAlong(Apply(s, acts[0]), acts[1..], t);
    }
  }

  lemma ReachedKeeps(s: Machine)
    requires Reachable(s)
    ensures Inv(s) && Owned(s) && Unique(s)
  {
    var acts: seq<Action> :| Runs(Init(s.cap), acts, s);
    InvInit(s.cap);
    KeptAlong(Init(s.cap), acts, s);
  }

  /** A position stays open only while the producer that claimed it has it in hand: with
      nobody inside a call or holding a reservation, every position is published or
      abandoned. */
  lemma OpenClaimsAreInHand(s: Machine, q: nat)
    requires Reachable(s) && q < s.tail
    ensures q < |s.log|
    ensures s.log[q].Unresolved? <==>
              exists p :: 0 <= p < |s.producers| && s.producers[p].pc.Owns() && s.producers[p].pc.pos == q
  {
    ReachedKeeps(s);
  }

  lemma {:induction false} ValuesComeFromTheLog(log: seq<Entry>, lo: nat, hi: nat, v: nat)
    requires lo <= hi <= |log| && v in Values(log, lo, hi)
    ensures exists q :: lo <= q < hi && log[q] == Holds(v)
  {
    if lo < hi {
      if v in Values(log, lo, hi - 1) {
        ValuesComeFromTheLog(log, lo, hi - 1, v);
      } else {
        assert log[hi - 1] == Holds(v);
      }
    }
  }

  lemma {:induction false} ValuesAreDistinct(log: seq<Entry>, lo: nat, hi: nat)
    requires lo <= hi <= |log|
    requires forall q, r | 0 <= q < r < hi && log[q].Holds? && log[r].Holds? :: log[q].ticket != log[r].ticket
    ensures forall i, j | 0 <= i < j < |Values(log, lo, hi)| :: Values(log, lo, hi)[i] != Values(log, lo, hi)[j]
  {
    if lo < hi {
      ValuesAreDistinct(log, lo, hi - 1);
      if log[hi - 1].Holds? && log[hi - 1].ticket in Values(log, lo, hi - 1) {
        ValuesComeFromTheLog(log, lo, hi - 1, log[hi - 1].ticket);
      }
    }
  }

  /** The consumer is given no write twice. */
  lemma NothingIsReceivedTwice(s: Machine, i: nat, j: nat)
    requires Reachable(s) && i < j < |s.consumer.seen|
    ensures s.consumer.seen[i] != s.consumer.seen[j]
  {
    ReachedKeeps(s);
    ValuesAreDistinct(s.log, 0, if s.consumer.pc.Freeing? then s.consumer.at + 1 else s.consumer.at);
  }

  /** How many producers join, and how many values they write. */
  function Joined(acts: seq<Action>): nat {
    if acts == [] then 0 else (if acts[0].NewProducer? then 1 else 0) + Joined(acts[1..])
  }

  function Written(acts: seq<Action>): nat {
    if acts == [] then 0 else (if acts[0].Fill? then 1 else 0) + Written(acts[1..])
  }

  lemma BookStep(s: Machine, a: Action)
    requires Shape(s) && Enabled(s, a)
    ensures |Apply(s, a).producers| == |s.producers| + if a.NewProducer? then 1 else 0
    ensures Apply(s, a).born == s.born + (if a.Fill? then 1 else 0) && Apply(s, a).cap == s.cap
  {
  }

  /** Every producer that joins is there, and every value written has its ticket. */
  lemma {:induction false} RunIsOnTheBooks(s: Machine, acts: seq<Action>, t: Machine)
    requires Runs(s, acts, t)
    ensures |t.producers| == |s.producers| + Joined(acts) && t.born == s.born + Written(acts) && t.cap == s.cap
    decreases |acts|
  {
    if acts != [] {
      BookStep(s, acts[0]);
      RunIsOnTheBooks(Apply(s, acts[0]), acts[1..], t);
    }
  }

  lemma {:induction false} RunsThen(s: Machine, acts: seq<Action>, t: Machine, more: seq<Action>, u: Machine)
    requires Runs(s, acts, t) && Runs(t, more, u)
    ensures Runs(s, acts + more, u)
    decreases |acts|
  {
    if acts == [] {
      assert acts + more == more;
    } else {
      RunsThen(Apply(s, acts[0]), acts[1..], t, more, u);
      assert (acts + more)[0] == acts[0] && (acts + more)[1..] == acts[1..] + more;
    }
  }

  lemma OneStep(s: Machine, acts: seq<Action>, t: Machine, a: Action)
    requires Reachable(s) && Reachable(t) && Shape(t) && Runs(s, acts, t) && Enabled(t, a)
    ensures Runs(s, acts + [a], Apply(t, a)) && Reachable(Apply(t, a)) && Shape(Apply(t, a))
  {
    RunsOn(s, acts, t, a);
    ReachesOn(t, a);
  }

  /** On the way to a claim. */
  predicate Claiming(pc: PPc) {
    pc.Testing? || pc.Refreshing? || pc.Swinging?
  }

  /** A step of producer `p`'s own on that way, no swap failing for no reason. */
  predicate ClaimStep(a: Action, p: nat) {
    match a
    case Test(u) => u == p
    case Refresh(u) => u == p
    case Swing(u, spurious) => u == p && !spurious
    case _ => false
  }

  /** A claim is given up only on a fresh look at the head, and then exactly if the tail it
      is for is a lap ahead of the head or behind it; a lost swap gives nothing up. */
  lemma ClaimIsGivenUpIff(s: Machine, a: Action, p: nat)
    requires Reachable(s) && Shape(s) && Enabled(s, a) && p < |s.producers| && Claiming(s.producers[p].pc)
    ensures p < |Apply(s, a).producers|
    ensures Apply(s, a).producers[p].pc.Idle? <==>
              a == Refresh(p) && (s.producers[p].pc.t >= s.head + s.cap || s.head > s.producers[p].pc.t)
  {
    ReachableKeepsInv(s);
    if a == Refresh(p) { RefusedIff(s, p); }
  }

  /** Steps a claim has left, at most, if nobody else moves. */
  function ClaimStepsLeft(s: Machine, p: nat): nat
    requires p < |s.producers|
  {
    match s.producers[p].pc
    case Swinging(t) => if t == s.tail then 1 else 4
    case Refreshing(t) => if t == s.tail then 2 else 5
    case Testing(t) => if t == s.tail then 3 else 6
    case _ => 0
  }

  /** At some point of the run the claim is decided. */
  predicate Decides(s: Machine, acts: seq<Action>, p: nat)
    decreases |acts|
  {
    && p < |s.producers|
    && (!Claiming(s.producers[p].pc)
        || (acts != [] && Shape(s) && Enabled(s, acts[0]) && Decides(Apply(s, acts[0]), acts[1..], p)))
  }

  /** Left to itself a claim is decided within six steps, however stale the tail it began
      with. */
  lemma {:induction false} ClaimEndsAlone(s: Machine, acts: seq<Action>, t: Machine, p: nat)
    requires p < |s.producers| && Runs(s, acts, t) && (forall i | 0 <= i < |acts| :: ClaimStep(acts[i], p))
    requires |acts| >= ClaimStepsLeft(s, p)
    ensures Decides(s, acts, p) && ClaimStepsLeft(s, p) <= 6
    decreases |acts|
  {
    if Claiming(s.producers[p].pc) {
      ClaimEndsAlone(Apply(s, acts[0]), acts[1..], t, p);
    }
  }

  /** A producer left to itself gets a position exactly if less than a capacity is
      claimed and unreleased; refused, it has changed nothing but its cached head. */
  lemma ReserveAlone(s: Machine, p: nat) returns (acts: seq<Action>, t: Machine)
    requires Reachable(s) && Shape(s) && p < |s.producers| && s.producers[p].pc.Idle? && s.tail < LIMIT
    ensures Runs(s, acts, t) && Reachable(t) && Shape(t) && p < |t.producers|
    ensures t.producers == s.producers[p := t.producers[p]]
    ensures if s.tail < s.head + s.cap then
              && t == s.(tail := s.tail + 1, log := s.log + [Unresolved(p)], producers := t.producers)
              && t.producers[p].pc == Holding(s.tail)
            else t == s.(producers := t.producers) && t.producers[p] == Producer(s.head, Idle)
  {
    ReachableKeepsInv(s);
    assert Runs(s, [], s);
    acts, t := [Begin(p)], Apply(s, Begin(p));
    OneStep(s, [], s, Begin(p));
    OneStep(s, acts, t, Test(p));
    acts, t := acts + [Test(p)], Apply(t, Test(p));
    hide Inv, Reachable;
    if t.producers[p].pc.Refreshing? {
      OneStep(s, acts, t, Refresh(p));
      acts, t := acts + [Refresh(p)], Apply(t, Refresh(p));
    }
    if t.producers[p].pc.Swinging? {
      OneStep(s, acts, t, Swing(p, false));
      acts, t := acts + [Swing(p, false)], Apply(t, Swing(p, false));
    }
  }

  /** A push left to itself publishes one new value at the tail and changes nothing else,
      or is refused as `ReserveAlone` says. */
  lemma PushAlone(s: Machine, p: nat) returns (acts: seq<Action>, t: Machine)
    requires Reachable(s) && Shape(s) && p < |s.producers| && s.producers[p].pc.Idle? && s.tail < LIMIT
    ensures Runs(s, acts, t) && Reachable(t) && Shape(t) && p < |t.producers|
    ensures t.producers == s.producers[p := t.producers[p]] && t.producers[p].pc.Idle?
    ensures if s.tail < s.head + s.cap then
              var q := SlotOf(s.cap, s.tail);
              t == s.(tail := s.tail + 1, log := s.log + [Holds(s.born)], born := s.born + 1, producers := t.producers,
                      words := s.words[q := PublishedWord(s.tail)], data := s.data[q := s.born])
            else t == s.(producers := t.producers)
  {
    acts, t := ReserveAlone(s, p);
    if t.producers[p].pc.Holding? {
      OneStep(s, acts, t, Fill(p));
      acts, t := acts + [Fill(p)], Apply(t, Fill(p));
      OneStep(s, acts, t, Publish(p));
      acts, t := acts + [Publish(p)], Apply(t, Publish(p));
      assert t.log == s.log + [Holds(s.born)];
    }
  }

  /** A reservation made and dropped leaves its position abandoned, and nothing else. */
  lemma DropAlone(s: Machine, p: nat) returns (acts: seq<Action>, t: Machine)
    requires Reachable(s) && Shape(s) && p < |s.producers| && s.producers[p].pc.Idle? && s.tail < LIMIT
    requires s.tail < s.head + s.cap
    ensures Runs(s, acts, t) && Reachable(t) && Shape(t) && p < |t.producers|
    ensures t.producers == s.producers[p := t.producers[p]] && t.producers[p].pc.Idle?
    ensures t == s.(tail := s.tail + 1, log := s.log + [Empty], producers := t.producers,
                    words := s.words[SlotOf(s.cap, s.tail) := TOMBSTONE])
  {
    acts, t := ReserveAlone(s, p);
    OneStep(s, acts, t, Abandon(p));
    acts, t := acts + [Abandon(p)], Apply(t, Abandon(p));
    assert t.log == s.log + [Empty];
  }

  /** A pop left to itself skips the abandoned positions and returns the value of the first
      published one; it comes back with nothing only at the tail or at an open claim. What
      it has passed it releases, and producers, values and history stay as they were. */
  lemma PopAlone(s: Machine) returns (acts: seq<Action>, t: Machine, n: nat, r: Option<nat>)
    requires Reachable(s) && Shape(s) && s.consumer.pc.Resting?
    ensures Runs(s, acts, t) && Reachable(t) && Shape(t) && t.consumer.pc.Resting?
    ensures t == s.(words := t.words, consumer := t.consumer, head := t.head) && t.head == t.consumer.at
    ensures s.consumer.at <= n <= s.tail && forall q | s.consumer.at <= q < n :: s.log[q].Empty?
    ensures match r
      case None =>
        && (n == s.tail || s.log[n].Unresolved?)
        && t.consumer == Consumer(n, Resting, s.consumer.seen)
      case Some(v) =>
        && n < s.tail && s.log[n] == Holds(v)
        && t.consumer == Consumer(n + 1, Resting, s.consumer.seen + [v])
  {
    acts, t, n, r := PopUnreleased(s);
    if t.head < t.consumer.at {
      OneStep(s, acts, t, PublishHead);
      acts, t := acts + [PublishHead], Apply(t, PublishHead);
    }
  }

  /** The consumer has found its position published: it takes the value and frees the slot. */
  lemma TakesIt(s: Machine) returns (acts: seq<Action>, t: Machine, v: nat)
    requires Reachable(s) && Shape(s) && s.consumer.pc.Taking?
    ensures Runs(s, acts, t) && Reachable(t) && Shape(t) && t == s.(words := t.words, consumer := t.consumer)
    ensures s.consumer.at < s.tail && s.log[s.consumer.at] == Holds(v)
    ensures t.consumer == Consumer(s.consumer.at + 1, Resting, s.consumer.seen + [v])
  {
    ReachableKeepsInv(s);
    v := s.data[SlotOf(s.cap, s.consumer.at)];
    assert Runs(s, [], s);
    OneStep(s, [], s, Take);
    acts, t := [Take], Apply(s, Take);
    OneStep(s, acts, t, Free);
    acts, t := acts + [Free], Apply(t, Free);
  }

  lemma {:induction false} PopUnreleased(s: Machine) returns (acts: seq<Action>, t: Machine, n: nat, r: Option<nat>)
    requires Reachable(s) && Shape(s) && s.consumer.pc.Resting?
    ensures Runs(s, acts, t) && Reachable(t) && Shape(t) && t.consumer.pc.Resting?
    ensures t == s.(words := t.words, consumer := t.consumer)
    ensures s.consumer.at <= n <= s.tail && forall q | s.consumer.at <= q < n :: s.log[q].Empty?
    ensures match r
      case None =>
        && (n == s.tail || s.log[n].Unresolved?)
        && t.consumer == Consumer(n, Resting, s.consumer.seen)
      case Some(v) =>
        && n < s.tail && s.log[n] == Holds(v)
        && t.consumer == Consumer(n + 1, Resting, s.consumer.seen + [v])
    decreases s.tail - s.consumer.at
  {
    hide Reachable, LookStep, Runs, SlotOf;
    EmptyHandedIff(s);
    n, r := s.consumer.at, None;
    LooksAtIt(s);
    acts, t := [Look], LookStep(s);
    if t.consumer.pc.Skipping? {
      var more, u := SkipsIt(t);
      RunsThen(s, acts, t, more, u);
      acts, t := acts + more, u;
      more, u, n, r := PopUnreleased(t);
      RunsThen(s, acts, t, more, u);
      acts, t := acts + more, u;
    } else if t.consumer.pc.Taking? {
      var more, u, v := TakesIt(t);
      RunsThen(s, acts, t, more, u);
      acts, t, r := acts + more, u, Some(v);
    }
  }

  lemma LooksAtIt(s: Machine)
    requires Reachable(s) && Shape(s) && s.consumer.pc.Resting?
    ensures Runs(s, [Look], LookStep(s)) && Reachable(LookStep(s)) && Shape(LookStep(s))
    ensures LookStep(s) == s.(consumer := s.consumer.(pc := LookStep(s).consumer.pc))
    ensures !LookStep(s).consumer.pc.Freeing?
  {
    assert Runs(s, [], s);
    OneStep(s, [], s, Look);
  }

  lemma SkipsIt(s: Machine) returns (acts: seq<Action>, t: Machine)
    requires Reachable(s) && Shape(s) && s.consumer.pc.Skipping?
    ensures Runs(s, acts, t) && Reachable(t) && Shape(t) && t == s.(words := t.words, consumer := t.consumer)
    ensures t.consumer == Consumer(s.consumer.at + 1, Resting, s.consumer.seen)
  {
    assert Runs(s, [], s);
    OneStep(s, [], s, Free);
    acts, t := [Free], Apply(s, Free);
  }
}
