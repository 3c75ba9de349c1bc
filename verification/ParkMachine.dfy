/** Parking and waking on one side of a ring, access by access.

    Any number of threads run blocking calls: each arms a handle and publishes a
    wake bit, or pushes a node on the overflow stack when it holds no slot, checks
    again, and parks on its token. Any number of wakers release something, or
    close the side, and then drain the stack and claim bits and handles. A slot
    outlives the thread that used it, so a bit or a handle may be left over from
    an earlier call or an earlier owner. Releases are numbered in the order they
    take effect, and a waiter's check records how many it came after. A release may
    free as many slots as it asks for deliveries, or with a flush any number of them;
    each push takes one.

    A question whether the side is closed is answered yes if it was closed when the
    question began. Where the answer is read off a registry seat by seat it may come out
    yes early, too, with the side open; where it is read off a flag it does not. */
module ParkMachine {
  import opened ParkRegistry

  /** Where a thread is inside a blocking call. */
  datatype Waiting =
    | Away
    | Trying(slot: ParkSlot)                        // about to look for space
    | Seeking(slot: ParkSlot)                       // found none, about to arm
    | Arming(slot: ParkSlot)                        // handle armed, the bit is next
    | Published(slot: ParkSlot)                     // reachable, about to check for a close again
    | Checked(slot: ParkSlot, saw: nat)             // not closed, about to check for space again
    | Parked(slot: ParkSlot, saw: nat, slept: nat)  // inside park
    | Disarming(slot: ParkSlot, leaving: bool)      // about to clear the bit
  {
    predicate InCall() { !Away? }

    /** Past arming, and not yet back from the park it leads to. */
    predicate Committed() { Arming? || Published? || Checked? || Parked? }

    /** Past the first check after arming. */
    predicate Rechecked() { Checked? || Parked? }

    /** Will look for space before its call ends, unless the side is closed. */
    predicate InNeed() { InCall() && (Disarming? ==> !leaving) }
  }

  /** Where a waker is. */
  datatype Waking =
    | Resting
    | Glancing                                // about to load the overflow head
    | Taking                                  // about to swap the overflow head out
    | Draining(nodes: seq<nat>)               // unparking the nodes it took
    | Looking                                 // about to load the bitmap, or to swap it out
    | Retiring(bit: nat)                      // about to clear the bit it picked
    | Finding(bits: set<nat>)                 // about to load the handle of a bit it took
    | Claiming(bit: nat, bits: set<nat>)      // about to swap that handle out
    | Rousing(thread: nat, bits: set<nat>)    // about to unpark the thread it claimed
  {
    /** Bits taken whose handles are still to be claimed. */
    function Hand(): set<nat> {
      match this
      case Finding(bits) => bits
      case Claiming(bit, bits) => bits + {bit}
      case Rousing(_, bits) => bits
      case _ => {}
    }

    /** Owns a handle or node of `t`, with the unpark still to come. */
    predicate Holds(t: nat) {
      (Rousing? && thread == t) || (Draining? && t in nodes)
    }

    /** The overflow stack has not been seen empty or taken yet. */
    predicate BeforeStack() { Glancing? || Taking? }

    /** Neither has the bitmap. */
    predicate BeforeBits() { BeforeStack() || Draining? || Looking? }
  }

  /** A waker, the number of its release, whether it flushes, and how many
      deliveries its call still seeks. A routed wake that finds bits set, none of
      them of use, passes over them and seeks no more. */
  datatype Waker = Waker(number: nat, flush: bool, left: nat, pc: Waking)
  {
    /** The freed slot the next delivery is for: a wake hands its slots out from the
        last to the first. */
    function NextSlot(): Ticket {
      Ticket(number, if left == 0 then 0 else left - 1)
    }
  }

  /** A freed slot: the release that freed it, and which of its slots. */
  datatype Ticket = Ticket(number: nat, i: nat)

  /** `carry` records, for a thread, the release of the last wake it was given
      while it was waiting. */
  datatype Machine = Machine(
    wake: set<nat>,
    parkers: map<nat, nat>,
    overflow: seq<nat>,
    tokens: set<nat>,
    free: set<Ticket>,
    carry: map<nat, Ticket>,
    threads: seq<Waiting>,
    wakers: seq<Waker>,
    releases: nat,        // how many releases have taken effect
    closedBy: nat,        // the number of the release that closed the side, or 0
    drained: nat,         // the latest release after which the stack was found empty or taken
    cleared: nat)         // the latest release after which the bitmap was

  datatype Action =
    | NewThread
    | NewWaker
    | Enter(t: nat, slot: ParkSlot)
    | Leave(t: nat)
    | Push(t: nat, x: Ticket)
    | Steal(x: Ticket)
    | Seek(t: nat)
    | ArmHandle(t: nat)
    | Publish(t: nat)
    | Recheck(t: nat, gone: bool)
    | Retry(t: nat)
    | Sleep(t: nat)
    | Return(t: nat)
    | Disarm(t: nat)
    | Release(w: nat, closes: bool, flush: bool, n: nat, frees: nat)
    | Glance(w: nat)
    | Take(w: nat)
    | Unpark(w: nat)
    | Look(w: nat, bit: nat)
    | PassOver(w: nat)
    | Retire(w: nat)
    | Find(w: nat, bit: nat)
    | Claim(w: nat)
    | Rouse(w: nat)
  {
    /** A step of waker `k`'s own. */
    predicate By(k: nat) {
      match this
      case Release(w, _, _, _, _) => w == k
      case Glance(w) => w == k
      case Take(w) => w == k
      case Unpark(w) => w == k
      case Look(w, _) => w == k
      case PassOver(w) => w == k
      case Retire(w) => w == k
      case Find(w, _) => w == k
      case Claim(w) => w == k
      case Rouse(w) => w == k
      case _ => false
    }
  }

  const INIT: Machine := Machine({}, map[], [], {}, {}, map[], [], [], 0, 0, 0, 0)

  predicate At(s: Machine, t: nat) { t < |s.threads| }

  predicate Works(s: Machine, w: nat) { w < |s.wakers| }

  /** No thread is inside a call on this leased slot. */
  predicate Free(s: Machine, slot: ParkSlot) {
    slot.Leased? ==> forall u :: 0 <= u < |s.threads| && s.threads[u].InCall() ==> s.threads[u].slot != slot
  }

  /** A wake whose next slot is still free holds `bit` and has yet to claim the handle
      behind it. */
  predicate Bound(s: Machine, w: nat, bit: nat)
    requires Works(s, w)
  {
    var k := s.wakers[w];
    !k.flush && k.NextSlot() in s.free && bit in k.pc.Hand()
  }

  /** Which of the free slots a push is said to take, so that the history can tell
      them apart: the one the thread was woken for, else the one whose wake is
      about to find its handle, else any. */
  predicate Due(s: Machine, t: nat, x: Ticket)
    requires At(s, t) && s.threads[t].InCall()
  {
    var slot := s.threads[t].slot;
    && (t in s.carry && s.carry[t] in s.free ==> x == s.carry[t])
    && (slot.Leased? && slot.bit in s.parkers && s.parkers[slot.bit] == t ==>
          forall w :: 0 <= w < |s.wakers| && Bound(s, w, slot.bit) ==> x == s.wakers[w].NextSlot())
  }

  predicate Enabled(s: Machine, a: Action) {
    match a
    case NewThread => true
    case NewWaker => true
    case Enter(t, slot) => At(s, t) && s.threads[t].Away? && Free(s, slot)
    case Leave(t) => At(s, t) && s.threads[t].Trying?
    case Push(t, x) => At(s, t) && s.threads[t].Trying? && x in s.free && Due(s, t, x)
    case Steal(x) => x in s.free
    case Seek(t) => At(s, t) && s.threads[t].Trying? && s.free == {}
    case ArmHandle(t) => At(s, t) && s.threads[t].Seeking? && s.threads[t].slot.Leased?
    case Publish(t) => At(s, t) && (s.threads[t].Arming? || (s.threads[t].Seeking? && s.threads[t].slot.Shared?))
    case Recheck(t, gone) => At(s, t) && s.threads[t].Published? && (s.closedBy > 0 ==> gone)
    case Retry(t) => At(s, t) && s.threads[t].Checked? && s.free != {}
    case Sleep(t) => At(s, t) && s.threads[t].Checked? && s.free == {}
    case Return(t) => At(s, t) && s.threads[t].Parked?
    case Disarm(t) => At(s, t) && s.threads[t].Disarming?
    case Release(w, closes, flush, n, frees) =>
      && Works(s, w) && s.wakers[w].pc.Resting? && (closes ==> flush)
      && (!flush ==> frees <= n)
    case Glance(w) => Works(s, w) && s.wakers[w].pc.Glancing?
    case Take(w) => Works(s, w) && s.wakers[w].pc.Taking?
    case Unpark(w) => Works(s, w) && s.wakers[w].pc.Draining?
    case Look(w, bit) =>
      && Works(s, w) && s.wakers[w].pc.Looking?
      && (!s.wakers[w].flush && s.wakers[w].left > 0 && s.wake != {} ==> bit in s.wake)
    case PassOver(w) => Works(s, w) && s.wakers[w].pc.Looking? && !s.wakers[w].flush
    case Retire(w) => Works(s, w) && s.wakers[w].pc.Retiring?
    case Find(w, bit) => Works(s, w) && s.wakers[w].pc.Finding? && bit in s.wakers[w].pc.bits
    case Claim(w) => Works(s, w) && s.wakers[w].pc.Claiming?
    case Rouse(w) => Works(s, w) && s.wakers[w].pc.Rousing?
  }

  function GoTo(s: Machine, t: nat, pc: Waiting): Machine
    requires At(s, t)
  {
    s.(threads := s.threads[t := pc])
  }

  function Turn(s: Machine, w: nat, k: Waker): Machine
    requires Works(s, w)
  {
    s.(wakers := s.wakers[w := k])
  }

  function Later(a: nat, b: nat): nat {
    if a < b then b else a
  }

  /** Back to the bits in hand, or to the bitmap, or done. */
  function Next(k: Waker, bits: set<nat>): Waker {
    k.(pc := if bits != {} then Finding(bits) else if k.flush || k.left == 0 then Resting else Looking)
  }

  function Emptied(k: Waker, nodes: seq<nat>): Waker {
    k.(pc := if nodes == [] then Looking else Draining(nodes))
  }

  /** Handle first, then the bit; without a slot, one push. */
  function PublishStep(s: Machine, t: nat): Machine
    requires Enabled(s, Publish(t))
  {
    var slot := s.threads[t].slot;
    match slot
    case Leased(b) => GoTo(s, t, Published(slot)).(wake := s.wake + {b})
    case Shared => GoTo(s, t, Published(slot)).(overflow := [t] + s.overflow)
  }

  function RecheckStep(s: Machine, t: nat, gone: bool): Machine
    requires Enabled(s, Recheck(t, gone))
  {
    var slot := s.threads[t].slot;
    GoTo(s, t, if gone then Disarming(slot, true) else Checked(slot, s.releases))
  }

  function DisarmStep(s: Machine, t: nat): Machine
    requires Enabled(s, Disarm(t))
  {
    var pc := s.threads[t];
    var gone := GoTo(s, t, if pc.leaving then Away else Trying(pc.slot));
    match pc.slot
    case Leased(b) => gone.(wake := s.wake - {b})
    case Shared => gone
  }

  /** The slots one release frees. */
  function Freed(number: nat, frees: nat): (xs: set<Ticket>)
    ensures forall x :: x in xs <==> x.number == number && x.i < frees
  {
    if frees == 0 then {} else Freed(number, frees - 1) + {Ticket(number, frees - 1)}
  }

  function ReleaseStep(s: Machine, w: nat, closes: bool, flush: bool, n: nat, frees: nat): Machine
    requires Works(s, w)
  {
    Turn(s, w, Waker(s.releases + 1, flush, n, Glancing)).(
      releases := s.releases + 1,
      free := s.free + Freed(s.releases + 1, frees),
      closedBy := if closes && s.closedBy == 0 then s.releases + 1 else s.closedBy)
  }

  function GlanceStep(s: Machine, w: nat): Machine
    requires Works(s, w)
  {
    var k := s.wakers[w];
    if s.overflow == [] then Turn(s, w, k.(pc := Looking)).(drained := Later(s.drained, k.number))
    else Turn(s, w, k.(pc := Taking))
  }

  function TakeStep(s: Machine, w: nat): Machine
    requires Works(s, w)
  {
    var k := s.wakers[w];
    Turn(s, w, Emptied(k, s.overflow)).(overflow := [], drained := Later(s.drained, k.number))
  }

  function UnparkStep(s: Machine, w: nat): Machine
    requires Enabled(s, Unpark(w))
  {
    var k := s.wakers[w];
    if k.pc.nodes == [] then Turn(s, w, k.(pc := Looking))
    else Turn(s, w, Emptied(k, k.pc.nodes[1..])).(tokens := s.tokens + {k.pc.nodes[0]})
  }

  /** A flush swaps the bitmap out; the others load it and pick a set bit. */
  function LookStep(s: Machine, w: nat, bit: nat): Machine
    requires Works(s, w)
  {
    var k := s.wakers[w];
    if k.flush then
      Turn(s, w, Next(k, s.wake)).(wake := {}, cleared := Later(s.cleared, k.number))
    else if k.left == 0 then
      Turn(s, w, k.(pc := Resting))
    else if s.wake == {} then
      Turn(s, w, k.(pc := Resting)).(cleared := Later(s.cleared, k.number))
    else
      Turn(s, w, k.(pc := Retiring(bit)))
  }

  function RetireStep(s: Machine, w: nat): Machine
    requires Enabled(s, Retire(w))
  {
    var k := s.wakers[w];
    if k.pc.bit in s.wake then
      Turn(s, w, k.(pc := Finding({k.pc.bit}))).(wake := s.wake - {k.pc.bit})
    else
      Turn(s, w, k.(pc := Looking))
  }

  function FindStep(s: Machine, w: nat, bit: nat): Machine
    requires Enabled(s, Find(w, bit))
  {
    var k := s.wakers[w];
    var rest := k.pc.bits - {bit};
    Turn(s, w, if bit in s.parkers then k.(pc := Claiming(bit, rest)) else Next(k, rest))
  }

  /** The thread is in need, on this very slot. */
  predicate WaitsAt(s: Machine, t: nat, bit: nat) {
    At(s, t) && s.threads[t].InNeed() && s.threads[t].slot == Leased(bit)
  }

  function ClaimStep(s: Machine, w: nat): Machine
    requires Enabled(s, Claim(w))
  {
    var k := s.wakers[w];
    if k.pc.bit in s.parkers then
      Turn(s, w, k.(pc := Rousing(s.parkers[k.pc.bit], k.pc.bits))).(
        parkers := s.parkers - {k.pc.bit},
        carry := if WaitsAt(s, s.parkers[k.pc.bit], k.pc.bit) && !k.flush then
                   s.carry[s.parkers[k.pc.bit] := k.NextSlot()]
                 else s.carry)
    else
      Turn(s, w, Next(k, k.pc.bits))
  }

  function RouseStep(s: Machine, w: nat): Machine
    requires Enabled(s, Rouse(w))
  {
    var k := s.wakers[w];
    Turn(s, w, Next(k.(left := if k.left == 0 then 0 else k.left - 1), k.pc.bits)).(tokens := s.tokens + {k.pc.thread})
  }

  function Apply(s: Machine, a: Action): Machine
    requires Enabled(s, a)
  {
    match a
    case NewThread => s.(threads := s.threads + [Away])
    case NewWaker => s.(wakers := s.wakers + [Waker(0, false, 0, Resting)])
    case Enter(t, slot) => GoTo(s, t, Trying(slot))
    case Leave(t) => GoTo(s, t, Away)
    case Push(t, x) => GoTo(s, t, Away).(free := s.free - {x})
    case Steal(x) => s.(free := s.free - {x})
    case Seek(t) => GoTo(s, t, Seeking(s.threads[t].slot))
    case ArmHandle(t) =>
      GoTo(s, t, Arming(s.threads[t].slot)).(parkers := s.parkers[s.threads[t].slot.bit := t])
    case Publish(t) => PublishStep(s, t)
    case Recheck(t, gone) => RecheckStep(s, t, gone)
    case Retry(t) => GoTo(s, t, Disarming(s.threads[t].slot, false))
    case Sleep(t) => GoTo(s, t, Parked(s.threads[t].slot, s.threads[t].saw, s.releases))
    case Return(t) => GoTo(s, t, Disarming(s.threads[t].slot, false)).(tokens := s.tokens - {t})
    case Disarm(t) => DisarmStep(s, t)
    case Release(w, closes, flush, n, frees) => ReleaseStep(s, w, closes, flush, n, frees)
    case Glance(w) => GlanceStep(s, w)
    case Take(w) => TakeStep(s, w)
    case Unpark(w) => UnparkStep(s, w)
    case Look(w, bit) => LookStep(s, w, bit)
    case PassOver(w) => Turn(s, w, s.wakers[w].(pc := Resting, left := 0))
    case Retire(w) => RetireStep(s, w)
    case Find(w, bit) => FindStep(s, w, bit)
    case Claim(w) => ClaimStep(s, w)
    case Rouse(w) => RouseStep(s, w)
  }

  /** `acts` leads from `s` to `t`. */
  predicate Runs(s: Machine, acts: seq<Action>, t: Machine)
    decreases |acts|
  {
    if acts == [] then s == t
    else Enabled(s, acts[0]) && Runs(Apply(s, acts[0]), acts[1..], t)
  }

  ghost predicate Reachable(s: Machine) {
    exists acts: seq<Action> :: Runs(INIT, acts, s)
  }
}
