/** The broadcast ring as a transition system.

    Every shared access of the program is one step: the load of the tail, each
    seat flag and each head a scan reads, the cache reads, the word check, the
    compare-and-swap, the swap that marks the slot vacant, the write, the
    publication, and on the other side each load and store of `pop`, `clone` and
    `drop`. Any number of producers, consumers and clones in progress interleave
    freely. A value is represented by its ticket, the number of the write that
    moved it into a slot, so equal payloads stay distinguishable. */
module BroadcastMachine {
  import opened Wrappers
  import opened SlotState
  import opened ConsumerFloor
  import opened PositionLog

  /** Where a producer is inside `claim_slot`, `push` or a reservation. */
  datatype PPc =
    | Idle
    | Asking(t: nat, i: nat)              // any_subscribed is about to load seat i's flag
    | Trying(t: nat)                      // about to test the private cache
    | Sharing(t: nat)                     // about to load the shared cache
    | Scanning(t: nat, i: nat, m: Floor)  // the floor scan is about to load seat i's flag
    | Peeking(t: nat, i: nat, m: Floor)   // seat i's flag read true, its head is next
    | Raising(t: nat, head: nat)          // about to fetch_max the shared cache
    | Inspecting(t: nat)                  // permitted, about to load the slot's word
    | Swinging(t: nat)                    // about to compare-and-swap the tail
    | Claimed(pos: nat)                   // the swap won, the word still tells of the last lap
    | Clearing(pos: nat)                  // slot marked, the previous value is still to be dropped
    | Holding(pos: nat)                   // owns an empty slot
    | Filled(pos: nat, ticket: nat)       // the slot holds a value nobody can see
    | Discarding(pos: nat)                // value dropped, the abandonment marker is owed
  {
    /** The position this producer has claimed and not yet resolved. */
    function Claim(): Option<nat> {
      match this
      case Claimed(pos) => Some(pos)
      case Clearing(pos) => Some(pos)
      case Holding(pos) => Some(pos)
      case Filled(pos, _) => Some(pos)
      case Discarding(pos) => Some(pos)
      case _ => None
    }

    /** Before the compare-and-swap, with an access of `claim_slot` to make. */
    predicate Probing() {
      Asking? || Trying? || Sharing? || Scanning? || Peeking? || Raising? || Inspecting?
    }

    /** Whether this producer is walking the registry for the floor, or has won
        a position whose slot it has not yet marked. */
    predicate Exposed() {
      Scanning? || Peeking? || Claimed?
    }
  }

  datatype Producer = Producer(private: nat, pc: PPc)

  /** Where a consumer is inside `pop` or `pop_ref`. */
  datatype RPc = Absent | Resting | Skipping | Lent | Leaving

  /** A registry seat and its occupant. `start` and `seen` record where the
      occupant began and the values it was shown. */
  datatype Seat = Seat(active: bool, head: nat, start: nat, seen: seq<nat>, rpc: RPc)
  {
    /** Occupied by a consumer handle, past the store of its first head. */
    predicate Settled() {
      active && !rpc.Absent?
    }
  }

  /** Where a call to `Consumer::clone` is. */
  datatype CPc =
    | Loading
    | Seeking(t: nat, j: nat)
    | Seated(t: nat, j: nat)
    | Finished

  datatype Cloner = Cloner(source: nat, pc: CPc)

  datatype Machine = Machine(
    cap: nat,
    needsDrop: bool,
    tail: nat,
    words: seq<nat>,
    data: seq<Option<nat>>,
    seats: seq<Seat>,
    shared: nat,
    producers: seq<Producer>,
    cloners: seq<Cloner>,
    log: seq<Entry>,
    born: nat,
    destroyed: multiset<nat>)

  datatype Action =
    | NewProducer
    | Begin(p: nat)
    | Quit(p: nat)
    | Probe(p: nat)
    | Swing(p: nat)
    | Spurious(p: nat)
    | Mark(p: nat)
    | Clear(p: nat)
    | Fill(p: nat)
    | Publish(p: nat)
    | Discard(p: nat)
    | Abandon(p: nat)
    | Look(k: nat)
    | Show(k: nat)
    | Advance(k: nat)
    | Leave(k: nat)
    | StartClone(k: nat)
    | CloneStep(c: nat)
  {
    /** A producer's access before it has a claim. */
    predicate Asks() {
      NewProducer? || Begin? || Quit? || Probe? || Swing? || Spurious?
    }

    /** A producer's access to the slot it has claimed. */
    predicate Handles() {
      Mark? || Clear? || Fill? || Publish? || Discard? || Abandon?
    }
  }

  const VACANCY: Seat := Seat(false, 0, 0, [], Absent)
  const FIRST_SEAT: Seat := Seat(true, 0, 0, [], Resting)

  /** The ring after `split`: one producer, one consumer in seat zero. */
  function Init(cap: nat, seats: nat, needsDrop: bool): Machine
    requires cap > 0 && seats > 0
  {
    Machine(cap, needsDrop, 0,
            seq(cap, _ => VACANT), seq(cap, _ => None),
            seq(seats, i => if i == 0 then FIRST_SEAT else VACANCY), 0,
            [Producer(0, Idle)], [], [], 0, multiset{})
  }

  /** A clone borrows its source for the whole call. */
  predicate Pinned(s: Machine, k: nat) {
    exists c :: 0 <= c < |s.cloners| && s.cloners[c].source == k && !s.cloners[c].pc.Finished?
  }

  /** The buffer has one word and one cell per slot, and the log an entry per
      claimed position. */
  predicate Shape(s: Machine) {
    s.cap > 0 && |s.words| == s.cap && |s.data| == s.cap && |s.log| == s.tail
  }

  /** A question of the caller's own has its answer: `any_subscribed`, by a flag read
      true or by every flag read false, or `has_space`, by a permission. */
  predicate Answered(s: Machine, pc: PPc) {
    pc.Trying? || pc.Inspecting? || (pc.Asking? && pc.i == |s.seats|)
  }

  predicate Enabled(s: Machine, a: Action) {
    match a
    case NewProducer => true
    case Begin(p) => p < |s.producers| && s.producers[p].pc.Idle?
    case Quit(p) => p < |s.producers| && Answered(s, s.producers[p].pc)
    case Probe(p) =>
      && p < |s.producers| && s.producers[p].pc.Probing()
      && (s.producers[p].pc.Scanning? || s.producers[p].pc.Asking? ==> s.producers[p].pc.i <= |s.seats|)
      && (s.producers[p].pc.Peeking? ==> s.producers[p].pc.i < |s.seats|)
    case Swing(p) => p < |s.producers| && s.producers[p].pc.Swinging?
    case Spurious(p) => p < |s.producers| && s.producers[p].pc.Swinging?
    case Mark(p) => p < |s.producers| && s.producers[p].pc.Claimed?
    case Clear(p) => p < |s.producers| && s.producers[p].pc.Clearing?
    case Fill(p) => p < |s.producers| && s.producers[p].pc.Holding?
    case Publish(p) => p < |s.producers| && s.producers[p].pc.Filled? && s.producers[p].pc.pos < s.tail
    case Discard(p) => p < |s.producers| && s.producers[p].pc.Filled?
    case Abandon(p) =>
      && p < |s.producers| && (s.producers[p].pc.Holding? || s.producers[p].pc.Discarding?)
      && s.producers[p].pc.pos < s.tail
    case Look(k) => AtRest(s, k) && !Pinned(s, k)
    case Show(k) => k < |s.seats| && s.seats[k].Settled() && s.seats[k].rpc.Lent?
    case Advance(k) =>
      k < |s.seats| && s.seats[k].Settled() && (s.seats[k].rpc.Skipping? || s.seats[k].rpc.Leaving?)
    case Leave(k) => AtRest(s, k) && !Pinned(s, k)
    case StartClone(k) => AtRest(s, k)
    case CloneStep(c) =>
      && c < |s.cloners| && !s.cloners[c].pc.Finished?
      && (s.cloners[c].pc.Seated? ==> s.cloners[c].pc.j < |s.seats|)
  }

  /** Seat `k` holds a consumer that is between calls, or inside `clone`. */
  predicate AtRest(s: Machine, k: nat) {
    k < |s.seats| && s.seats[k].Settled() && s.seats[k].rpc.Resting?
  }

  function WithPc(s: Machine, p: nat, pc: PPc): Machine
    requires p < |s.producers|
  {
    s.(producers := s.producers[p := s.producers[p].(pc := pc)])
  }

  /** One access of `claim_slot` up to the compare-and-swap. */
  function ProbeStep(s: Machine, p: nat): Machine
    requires Shape(s) && Enabled(s, Probe(p))
  {
    var me := s.producers[p];
    match me.pc
    case Asking(t, i) =>
      if i == |s.seats| then WithPc(s, p, Scanning(t, 0, NoConsumers))
      else if s.seats[i].active then WithPc(s, p, Trying(t))
      else WithPc(s, p, Asking(t, i + 1))
    case Trying(t) =>
      WithPc(s, p, if At(me.private).Permits(t, s.cap) then Inspecting(t) else Sharing(t))
    case Sharing(t) =>
      var pc := if At(s.shared).Permits(t, s.cap) then Inspecting(t) else Scanning(t, 0, NoConsumers);
      s.(producers := s.producers[p := Producer(s.shared, pc)])
    case Scanning(t, i, m) =>
      if i < |s.seats| then
        WithPc(s, p, if s.seats[i].active then Peeking(t, i, m) else Scanning(t, i + 1, m))
      else (
        match m
        case NoConsumers => WithPc(s, p, Idle)
        case At(head) => WithPc(s, p, Raising(t, head)))
    case Peeking(t, i, m) =>
      WithPc(s, p, Scanning(t, i + 1, m.Meet(s.seats[i].head)))
    case Raising(t, head) =>
      var pc := if At(head).Permits(t, s.cap) then Inspecting(t) else Idle;
      s.(producers := s.producers[p := Producer(head, pc)],
         shared := if head > s.shared then head else s.shared)
    case Inspecting(t) =>
      WithPc(s, p, if PriorOccupantResolved(s.cap, t, s.words[SlotOf(s.cap, t)]) then Swinging(t) else Idle)
  }

  /** The compare-and-swap: the winner owns the position, a loser tries again
      at the tail it observed. */
  function SwingStep(s: Machine, p: nat): Machine
    requires Enabled(s, Swing(p))
  {
    var t := s.producers[p].pc.t;
    if s.tail == t then
      WithPc(s, p, Claimed(t)).(tail := t + 1, log := s.log + [Unresolved(p)])
    else
      WithPc(s, p, Asking(s.tail, 0))
  }

  /** Marks the claimed slot vacant, learning what it held. */
  function MarkStep(s: Machine, p: nat): Machine
    requires Shape(s) && Enabled(s, Mark(p))
  {
    var pos := s.producers[p].pc.pos;
    var q := SlotOf(s.cap, pos);
    var marked := s.(words := s.words[q := VACANT]);
    if s.needsDrop && Decode(s.words[q]).HoldsValue() then
      WithPc(marked, p, Clearing(pos))
    else
      WithPc(marked.(data := s.data[q := None]), p, Holding(pos))
  }

  /** Destroys whatever value a slot holds. */
  function Destroy(s: Machine, q: nat): Machine
    requires q < |s.data|
  {
    s.(data := s.data[q := None],
       destroyed := s.destroyed + (if s.data[q].Some? then multiset{s.data[q].value} else multiset{}))
  }

  /** Stores the abandonment marker and ends the reservation. */
  function Resolve(s: Machine, p: nat, pos: nat, word: nat, e: Entry): Machine
    requires Shape(s) && p < |s.producers| && pos < s.tail
  {
    WithPc(s, p, Idle).(words := s.words[SlotOf(s.cap, pos) := word], log := s.log[pos := e])
  }

  function Apply(s: Machine, a: Action): Machine
    requires Shape(s) && Enabled(s, a)
  {
    match a
    case NewProducer => s.(producers := s.producers + [Producer(0, Idle)])
    case Begin(p) => WithPc(s, p, Asking(s.tail, 0))
    case Quit(p) => WithPc(s, p, Idle)
    case Probe(p) => ProbeStep(s, p)
    case Swing(p) => SwingStep(s, p)
    case Mark(p) => MarkStep(s, p)
    case Clear(p) =>
      var pos := s.producers[p].pc.pos;
      Destroy(WithPc(s, p, Holding(pos)), SlotOf(s.cap, pos))
    case Spurious(p) => WithPc(s, p, Asking(s.tail, 0))
    case Fill(p) =>
      var pos := s.producers[p].pc.pos;
      WithPc(s, p, Filled(pos, s.born)).(data := s.data[SlotOf(s.cap, pos) := Some(s.born)], born := s.born + 1)
    case Publish(p) =>
      var pc := s.producers[p].pc;
      Resolve(s, p, pc.pos, PublishedWord(pc.pos), Holds(pc.ticket))
    case Discard(p) =>
      var pos := s.producers[p].pc.pos;
      Destroy(WithPc(s, p, Discarding(pos)), SlotOf(s.cap, pos))
    case Abandon(p) =>
      var pos := s.producers[p].pc.pos;
      Resolve(s, p, pos, AbandonedWord(pos), Empty)
    case Look(k) =>
      var seat := s.seats[k];
      (match Classify(s.words[SlotOf(s.cap, seat.head)], seat.head)
       case Ready => s.(seats := s.seats[k := seat.(rpc := Lent)])
       case Tombstoned => s.(seats := s.seats[k := seat.(rpc := Skipping)])
       case NotReady => s)
    case Show(k) =>
      var seat := s.seats[k];
      var read := match s.data[SlotOf(s.cap, seat.head)] case Some(v) => [v] case None => [];
      s.(seats := s.seats[k := seat.(rpc := Leaving, seen := seat.seen + read)])
    case Advance(k) =>
      var seat := s.seats[k];
      s.(seats := s.seats[k := seat.(rpc := Resting, head := seat.head + 1)])
    case Leave(k) => s.(seats := s.seats[k := s.seats[k].(active := false, rpc := Absent)])
    case StartClone(k) => s.(cloners := s.cloners + [Cloner(k, Loading)])
    case CloneStep(c) => CloneAccess(s, c)
  }

  function WithCpc(s: Machine, c: nat, pc: CPc): Machine
    requires c < |s.cloners|
  {
    s.(cloners := s.cloners[c := s.cloners[c].(pc := pc)])
  }

  /** One access of `clone`: load the tail, try the seats in order, then store
      the new consumer's first head. Running out of seats ends in a panic. */
  function CloneAccess(s: Machine, c: nat): Machine
    requires Enabled(s, CloneStep(c))
  {
    match s.cloners[c].pc
    case Loading => WithCpc(s, c, Seeking(s.tail, 0))
    case Seeking(t, j) =>
      if j >= |s.seats| then WithCpc(s, c, Finished)
      else if s.seats[j].active then WithCpc(s, c, Seeking(t, j + 1))
      else WithCpc(s, c, Seated(t, j)).(seats := s.seats[j := s.seats[j].(active := true, rpc := Absent)])
    case Seated(t, j) =>
      WithCpc(s, c, Finished).(seats := s.seats[j := Seat(true, t, t, [], Resting)])
    case Finished => s
  }

  /** Whether `a` changes which seats are taken on behalf of a clone. */
  predicate TakesSeat(s: Machine, a: Action) {
    && a.CloneStep? && Enabled(s, a)
    && match s.cloners[a.c].pc
       case Seeking(_, j) => j < |s.seats| && !s.seats[j].active
       case Seated(_, _) => true
       case _ => false
  }

  /** No clone takes its seat, or stores its head there, while a producer scans the
      registry for the floor. */
  predicate ScansUnraced(s: Machine, a: Action) {
    TakesSeat(s, a) ==>
      forall p | 0 <= p < |s.producers| :: !s.producers[p].pc.Scanning? && !s.producers[p].pc.Peeking?
  }

  /** Nor while a producer has yet to mark a position it has won. */
  predicate MarksUnraced(s: Machine, a: Action) {
    TakesSeat(s, a) ==> forall p | 0 <= p < |s.producers| :: !s.producers[p].pc.Claimed?
  }

  predicate Disciplined(s: Machine, a: Action) {
    ScansUnraced(s, a) && MarksUnraced(s, a)
  }

  /** `acts` leads from `s` to `t`. */
  predicate Runs(s: Machine, acts: seq<Action>, t: Machine)
    decreases |acts|
  {
    if acts == [] then s == t
    else Shape(s) && Enabled(s, acts[0]) && Runs(Apply(s, acts[0]), acts[1..], t)
  }
}
