/** The blocking loops of a side that has one waiter, access by access.

    The waiter pops (or pushes) until it succeeds or its peers are gone: it tries,
    arms its handle, raises the parked flag, tries and asks again, and parks. Any
    number of peers supply it, with items or with free slots, or close, and then
    wake it: load the flag, clear it, claim the handle, unpark. Each call may run
    on another thread, and handles and flags outlive calls. */
module SoleParking {
  import opened Wrappers

  datatype Call = Pop | Push(value: nat)

  datatype Answer = Got(item: nat) | Nothing | Accepted | Refused(value: nat)

  /** What follows once the flag is lowered. */
  datatype After = Again | LastTry | Return(answer: Answer)

  datatype Waiter =
    | Away
    | Asking(call: Call)                    // are the peers gone?
    | Trying(call: Call)                    // one attempt
    | Finishing(call: Call)                 // the peers are gone: one last pop
    | Arming(call: Call)                    // about to swap the handle in
    | Raising(call: Call)                   // about to raise the flag
    | Reasking(call: Call)
    | Retrying(call: Call)
    | Asleep(call: Call)                    // inside park
    | Lowering(call: Call, after: After)    // about to lower the flag
  {
    predicate Committed() { Reasking? || Retrying? || Asleep? }
  }

  datatype Peer =
    | Idle
    | Peeking                 // about to load the flag
    | Clearing                // about to lower it
    | Finding                 // about to load the handle
    | Claiming                // about to swap it out
    | Rousing(thread: nat)    // about to unpark the thread it claimed
  {
    /** Has seen the flag up and has still to claim the handle. */
    predicate Hunting() { Clearing? || Finding? || Claiming? }
  }

  /** The parker: the handle, the flag, every thread's token, and the peers. */
  datatype Park = Park(thread: nat, handle: Option<nat>, parked: bool, tokens: set<nat>, peers: seq<Peer>)

  /** What the peers supply, and what became of it. */
  datatype Book = Book(closed: bool, supply: seq<nat>, supplied: seq<nat>, taken: seq<nat>, log: seq<(Call, Answer)>)

  datatype Machine = Machine(pushing: bool, waiter: Waiter, park: Park, book: Book)

  datatype Action =
    | Start(call: Call, thread: nat)
    | Wait(spin: bool)
    | NewPeer
    | Supply(p: nat, items: seq<nat>)
    | Close(p: nat)
    | Serve(p: nat)

  function Init(pushing: bool): Machine {
    Machine(pushing, Away, Park(0, None, false, {}, []), Book(false, [], [], [], []))
  }

  predicate Enabled(s: Machine, a: Action) {
    match a
    case Start(call, _) => s.waiter.Away? && call.Push? == s.pushing
    case Wait(_) => !s.waiter.Away?
    case NewPeer => true
    case Supply(p, _) => p < |s.park.peers| && s.park.peers[p].Idle? && !s.book.closed
    case Close(p) => p < |s.park.peers| && s.park.peers[p].Idle?
    case Serve(p) => p < |s.park.peers| && !s.park.peers[p].Idle?
  }

  /** A push asks whether its peers are gone before each attempt, a pop after. */
  function First(call: Call): Waiter {
    if call.Push? then Asking(call) else Trying(call)
  }

  function Success(supply: seq<nat>, call: Call): Answer
    requires supply != []
  {
    if call.Push? then Accepted else Got(supply[0])
  }

  /** Where one step takes the waiter. `spin` says that the backoff is not
      exhausted. */
  function NextWaiter(w: Waiter, book: Book, spin: bool): Waiter
    requires !w.Away?
  {
    match w
    case Asking(call) =>
      if book.closed then (if call.Push? then Away else Finishing(call))
      else if call.Push? || spin then Trying(call) else Arming(call)
    case Trying(call) =>
      if book.supply != [] then Away
      else if call.Pop? || spin then Asking(call) else Arming(call)
    case Finishing(_) => Away
    case Arming(call) => Raising(call)
    case Raising(call) => if call.Push? then Reasking(call) else Retrying(call)
    case Reasking(call) =>
      if book.closed then Lowering(call, if call.Push? then Return(Refused(call.value)) else LastTry)
      else if call.Push? then Retrying(call) else Asleep(call)
    case Retrying(call) =>
      if book.supply != [] then Lowering(call, Return(Success(book.supply, call)))
      else if call.Push? then Asleep(call) else Reasking(call)
    case Asleep(call) => Lowering(call, Again)
    case Lowering(call, after) =>
      (match after
       case Again => First(call)
       case LastTry => Finishing(call)
       case Return(_) => Away)
  }

  /** What that step does to the parker. */
  function WaitPark(w: Waiter, park: Park): Park {
    match w
    case Arming(_) => park.(handle := Some(park.thread))
    case Raising(_) => park.(parked := true)
    case Asleep(_) => park.(tokens := park.tokens - {park.thread})
    case Lowering(_, _) => park.(parked := false)
    case _ => park
  }

  /** The answer the step gives, if the call ends there. */
  function Entry(w: Waiter, book: Book): Option<Answer> {
    match w
    case Asking(call) => if book.closed && call.Push? then Some(Refused(call.value)) else None
    case Trying(call) => if book.supply != [] then Some(Success(book.supply, call)) else None
    case Finishing(_) => Some(if book.supply != [] then Got(book.supply[0]) else Nothing)
    case Lowering(_, after) => if after.Return? then Some(after.answer) else None
    case _ => None
  }

  /** What it does to the supply and the log: every attempt takes the first of the
      supply, if there is any. */
  function WaitBook(w: Waiter, book: Book): Book
    requires !w.Away?
  {
    var logged := if Entry(w, book).Some? then book.(log := book.log + [(w.call, Entry(w, book).value)]) else book;
    if (w.Trying? || w.Finishing? || w.Retrying?) && book.supply != [] then
      logged.(supply := book.supply[1..], taken := book.taken + [book.supply[0]])
    else
      logged
  }

  function WaitStep(s: Machine, spin: bool): Machine
    requires !s.waiter.Away?
  {
    Machine(s.pushing, NextWaiter(s.waiter, s.book, spin), WaitPark(s.waiter, s.park), WaitBook(s.waiter, s.book))
  }

  function With(park: Park, p: nat, pc: Peer): Park
    requires p < |park.peers|
  {
    park.(peers := park.peers[p := pc])
  }

  /** One step of `wake_published` and the claim inside it. */
  function ServeStep(park: Park, p: nat): Park
    requires p < |park.peers| && !park.peers[p].Idle?
  {
    match park.peers[p]
    case Peeking => With(park, p, if park.parked then Clearing else Idle)
    case Clearing => With(park, p, Finding).(parked := false)
    case Finding => With(park, p, if park.handle.Some? then Claiming else Idle)
    case Claiming =>
      if park.handle.Some? then With(park, p, Rousing(park.handle.value)).(handle := None) else With(park, p, Idle)
    case Rousing(thread) => With(park, p, Idle).(tokens := park.tokens + {thread})
  }

  function Apply(s: Machine, a: Action): Machine
    requires Enabled(s, a)
  {
    match a
    case Start(call, thread) => s.(waiter := First(call), park := s.park.(thread := thread))
    case Wait(spin) => WaitStep(s, spin)
    case NewPeer => s.(park := s.park.(peers := s.park.peers + [Idle]))
    case Supply(p, items) =>
      s.(park := With(s.park, p, Peeking),
         book := s.book.(supply := s.book.supply + items, supplied := s.book.supplied + items))
    case Close(p) => s.(park := With(s.park, p, Peeking), book := s.book.(closed := true))
    case Serve(p) => s.(park := ServeStep(s.park, p))
  }

  predicate Runs(s: Machine, acts: seq<Action>, t: Machine)
    decreases |acts|
  {
    if acts == [] then s == t
    else Enabled(s, acts[0]) && Runs(Apply(s, acts[0]), acts[1..], t)
  }

  ghost predicate Reachable(s: Machine) {
    exists acts: seq<Action> :: Runs(Init(s.pushing), acts, s)
  }

  ghost predicate SomeRousing(park: Park) {
    exists p :: 0 <= p < |park.peers| && park.peers[p] == Rousing(park.thread)
  }

  ghost predicate SomeHunting(park: Park) {
    exists p :: 0 <= p < |park.peers| && park.peers[p].Hunting()
  }

  ghost predicate SomePeeking(park: Park) {
    exists p :: 0 <= p < |park.peers| && park.peers[p].Peeking?
  }

  /** The waiter has a token, or a peer is about to give it one. */
  ghost predicate Rescued(park: Park) {
    || park.thread in park.tokens || SomeRousing(park)
    || (park.handle == Some(park.thread) && SomeHunting(park))
  }

  /** From arming on the waiter can be found. */
  ghost predicate Findable(w: Waiter, park: Park) {
    && (w.Raising? ==> Rescued(park) || park.handle == Some(park.thread))
    && (w.Committed() ==> Rescued(park) || (park.handle == Some(park.thread) && park.parked))
  }

  /** What came after the waiter's own look is on some peer's mind. */
  ghost predicate Noticed(s: Machine) {
    && (s.book.supply != [] && (s.waiter.Asleep? || (s.waiter.Reasking? && !s.pushing)) ==>
          Rescued(s.park) || SomePeeking(s.park))
    && (s.book.closed && (s.waiter.Asleep? || (s.waiter.Retrying? && s.pushing)) ==>
          Rescued(s.park) || SomePeeking(s.park))
  }

  /** What each answer says of the peers and the supply. */
  predicate Justified(book: Book, call: Call, answer: Answer) {
    match answer
    case Got(_) => call.Pop?
    case Nothing => call.Pop? && book.closed && book.supply == []
    case Accepted => call.Push?
    case Refused(v) => call == Push(v) && book.closed
  }

  predicate Honest(pushing: bool, w: Waiter, book: Book) {
    && (!w.Away? ==> w.call.Push? == pushing)
    && (w.Finishing? || (w.Lowering? && w.after.LastTry?) ==> book.closed && w.call.Pop?)
    && (w.Lowering? && w.after.Return? ==> Justified(book, w.call, w.after.answer))
    && forall i :: 0 <= i < |book.log| ==>
         Justified(book, book.log[i].0, book.log[i].1) && book.log[i].0.Push? == pushing
  }

  /** The items the calls so far returned, in order. */
  function Items(log: seq<(Call, Answer)>): seq<nat> {
    if log == [] then []
    else
      var last := log[|log| - 1];
      Items(log[..|log| - 1]) + (if last.1.Got? then [last.1.item] else [])
  }

  /** How many pushes the calls so far had accepted. */
  function Acceptances(log: seq<(Call, Answer)>): nat {
    if log == [] then 0
    else Acceptances(log[..|log| - 1]) + if log[|log| - 1].1.Accepted? then 1 else 0
  }

  /** What the call in progress has taken and not yet answered with. */
  function InFlight(w: Waiter): seq<(Call, Answer)> {
    if w.Lowering? && w.after.Return? then [(w.call, w.after.answer)] else []
  }

  predicate Balanced(pushing: bool, taken: seq<nat>, log: seq<(Call, Answer)>) {
    if pushing then |taken| == Acceptances(log) else taken == Items(log)
  }

  /** Nothing is lost, made up or reordered between supply and answers. */
  predicate Accounted(pushing: bool, w: Waiter, book: Book) {
    book.supplied == book.taken + book.supply && Balanced(pushing, book.taken, book.log + InFlight(w))
  }

  ghost predicate Inv(s: Machine) {
    && Findable(s.waiter, s.park) && Noticed(s)
    && Honest(s.pushing, s.waiter, s.book) && Accounted(s.pushing, s.waiter, s.book)
  }

  /** One more answer: a success accounts for one thing taken, any other for none. */
  lemma BalanceGrows(pushing: bool, taken: seq<nat>, log: seq<(Call, Answer)>,
                     call: Call, answer: Answer, more: seq<nat>)
    requires Balanced(pushing, taken, log)
    requires match answer
      case Got(x) => !pushing && more == [x]
      case Accepted => pushing && |more| == 1
      case _ => more == []
    ensures Balanced(pushing, taken + more, log + [(call, answer)])
  {
    assert (log + [(call, answer)])[..|log|] == log;
  }

  lemma ServingKeepsRescue(park: Park, p: nat)
    requires p < |park.peers| && !park.peers[p].Idle?
    ensures Rescued(park) ==> Rescued(ServeStep(park, p))
    ensures park.handle == Some(park.thread) && park.parked ==>
              Rescued(ServeStep(park, p))
              || (ServeStep(park, p).handle == park.handle && ServeStep(park, p).parked)
    ensures park.handle == Some(park.thread) ==> Rescued(ServeStep(park, p)) || ServeStep(park, p).handle == park.handle
  {
    var park' := ServeStep(park, p);
    if SomeRousing(park) {
      var q :| 0 <= q < |park.peers| && park.peers[q] == Rousing(park.thread);
      assert q != p ==> park'.peers[q] == Rousing(park'.thread);
    }
    if park.handle == Some(park.thread) {
      if park.peers[p].Hunting() {
        assert park'.peers[p] == Rousing(park'.thread) || park'.peers[p].Hunting();
      } else if SomeHunting(park) {
        var q :| 0 <= q < |park.peers| && park.peers[q].Hunting();
        assert q != p && park'.peers[q].Hunting();
      }
    }
  }

  lemma FindableServe(s: Machine, p: nat)
    requires Enabled(s, Serve(p)) && Findable(s.waiter, s.park) && Noticed(s)
    ensures Findable(s.waiter, ServeStep(s.park, p)) && Noticed(Apply(s, Serve(p)))
  {
    var park' := ServeStep(s.park, p);
    ServingKeepsRescue(s.park, p);
    if SomePeeking(s.park) {
      var q :| 0 <= q < |s.park.peers| && s.park.peers[q].Peeking?;
      if q != p {
        assert park'.peers[q].Peeking?;
      } else if s.park.parked && s.park.handle == Some(s.park.thread) {
        assert park'.peers[p].Hunting();
      }
    }
  }

  /** A peer that starts takes nothing off the waiter. */
  lemma StartingKeepsRescue(park: Park, park': Park, p: nat)
    requires p < |park.peers| ==> park.peers[p].Idle?
    requires p <= |park.peers| && |park'.peers| >= |park.peers|
    requires forall q :: 0 <= q < |park.peers| && q != p ==> park'.peers[q] == park.peers[q]
    requires park' == park.(peers := park'.peers)
    ensures Rescued(park) ==> Rescued(park')
    ensures SomePeeking(park) ==> SomePeeking(park')
  {
    assert SomeRousing(park) ==> SomeRousing(park');
    assert SomeHunting(park) ==> SomeHunting(park');
  }

  lemma FindableSupply(s: Machine, a: Action)
    requires Enabled(s, a) && (a.Supply? || a.Close?) && Findable(s.waiter, s.park) && Noticed(s)
    ensures Findable(s.waiter, Apply(s, a).park) && Noticed(Apply(s, a))
  {
    StartingKeepsRescue(s.park, With(s.park, a.p, Peeking), a.p);
    assert With(s.park, a.p, Peeking).peers[a.p].Peeking?;
  }

  /** The waiter's steps leave what peers have in hand alone. */
  lemma WaitKeepsRescue(w: Waiter, park: Park)
    requires !w.Asleep?
    ensures Rescued(park) ==> Rescued(WaitPark(w, park))
    ensures SomePeeking(park) ==> SomePeeking(WaitPark(w, park))
  {
    var park' := WaitPark(w, park);
    assert SomeRousing(park) ==> SomeRousing(park');
    assert SomeHunting(park) ==> SomeHunting(park');
  }

  lemma FindableWait(s: Machine, spin: bool)
    requires Enabled(s, Wait(spin)) && Findable(s.waiter, s.park) && Noticed(s)
    requires s.waiter.call.Push? == s.pushing
    ensures Findable(WaitStep(s, spin).waiter, WaitStep(s, spin).park) && Noticed(WaitStep(s, spin))
  {
    if s.waiter.Raising? || s.waiter.Reasking? || s.waiter.Retrying? {
      WaitKeepsRescue(s.waiter, s.park);
      hide Rescued, SomePeeking;
      assert Noticed(WaitStep(s, spin));
    }
  }

  /** An answer stays justified: a close is for good, and after it nothing comes. */
  lemma StaysJustified(pushing: bool, w: Waiter, book: Book, book': Book)
    requires Honest(pushing, w, book)
    requires book.closed ==> book'.closed && (book.supply == [] ==> book'.supply == [])
    ensures forall i | 0 <= i < |book.log| ::
              Justified(book', book.log[i].0, book.log[i].1) && book.log[i].0.Push? == pushing
    ensures w.Lowering? && w.after.Return? ==> Justified(book', w.call, w.after.answer)
  {
  }

  lemma HonestWait(s: Machine, spin: bool)
    requires Enabled(s, Wait(spin)) && Honest(s.pushing, s.waiter, s.book)
    ensures Honest(s.pushing, NextWaiter(s.waiter, s.book, spin), WaitBook(s.waiter, s.book))
  {
    var w', book' := NextWaiter(s.waiter, s.book, spin), WaitBook(s.waiter, s.book);
    StaysJustified(s.pushing, s.waiter, s.book, book');
    assert Entry(s.waiter, s.book).Some? ==> Justified(book', s.waiter.call, Entry(s.waiter, s.book).value);
    forall i | 0 <= i < |book'.log|
      ensures Justified(book', book'.log[i].0, book'.log[i].1) && book'.log[i].0.Push? == s.pushing
    {
      assert i < |s.book.log| ==> book'.log[i] == s.book.log[i];
    }
  }

  lemma HonestStep(s: Machine, a: Action)
    requires Enabled(s, a) && Honest(s.pushing, s.waiter, s.book)
    ensures Honest(s.pushing, Apply(s, a).waiter, Apply(s, a).book)
  {
    if a.Wait? {
      HonestWait(s, a.spin);
    } else {
      StaysJustified(s.pushing, s.waiter, s.book, Apply(s, a).book);
    }
  }

  lemma AccountedWait(s: Machine, spin: bool)
    requires Enabled(s, Wait(spin)) && Accounted(s.pushing, s.waiter, s.book) && s.waiter.call.Push? == s.pushing
    requires s.waiter.Finishing? ==> s.waiter.call.Pop?
    ensures Accounted(s.pushing, NextWaiter(s.waiter, s.book, spin), WaitBook(s.waiter, s.book))
  {
    hide Balanced, Items, Acceptances;
    var w, book := s.waiter, s.book;
    var w', book' := NextWaiter(w, book, spin), WaitBook(w, book);
    var before, now := book.log + InFlight(w), book'.log + InFlight(w');
    assert book.log + [] == book.log && book'.log + [] == book'.log && book.taken + [] == book.taken;
    if w.Retrying? && book.supply != [] {
      BalanceGrows(s.pushing, book.taken, before, w.call, Success(book.supply, w.call), [book.supply[0]]);
    } else if w.Reasking? && book.closed && w.call.Push? {
      BalanceGrows(s.pushing, book.taken, before, w.call, Refused(w.call.value), []);
    } else if Entry(w, book).Some? && !w.Lowering? {
      var more := if (w.Trying? || w.Finishing?) && book.supply != [] then [book.supply[0]] else [];
      BalanceGrows(s.pushing, book.taken, before, w.call, Entry(w, book).value, more);
    } else {
      assert now == before;
    }
  }

  lemma AccountedStep(s: Machine, a: Action)
    requires Enabled(s, a) && Honest(s.pushing, s.waiter, s.book) && Accounted(s.pushing, s.waiter, s.book)
    ensures Accounted(s.pushing, Apply(s, a).waiter, Apply(s, a).book)
  {
    if a.Wait? {
      AccountedWait(s, a.spin);
    } else {
      hide Balanced;
      assert InFlight(Apply(s, a).waiter) == InFlight(s.waiter) && Apply(s, a).book.log == s.book.log;
    }
  }

  lemma InvStep(s: Machine, a: Action)
    requires Enabled(s, a) && Inv(s)
    ensures Inv(Apply(s, a))
  {
    HonestStep(s, a);
    AccountedStep(s, a);
    assert a.Wait? ==> s.waiter.call.Push? == s.pushing;
    hide Honest, Accounted, Rescued, SomePeeking;
    match a
    case Start(_, _) =>
    case Wait(spin) =>
      FindableWait(s, spin);
    case NewPeer => StartingKeepsRescue(s.park, Apply(s, a).park, |s.park.peers|);
    case Supply(_, _) => FindableSupply(s, a);
    case Close(_) => FindableSupply(s, a);
    case Serve(p) => FindableServe(s, p);
  }

  lemma {:induction false} InvRun(s: Machine, acts: seq<Action>, t: Machine)
    requires Inv(s) && Runs(s, acts, t)
    ensures Inv(t)
    decreases |acts|
  {
    if acts != [] {
      InvStep(s, acts[0]);
      InvRun(Apply(s, acts[0]), acts[1..], t);
    }
  }

  lemma ReachableKeepsInv(s: Machine)
    requires Reachable(s)
    ensures Inv(s)
  {
    var acts: seq<Action> :| Runs(Init(s.pushing), acts, s);
    InvRun(Init(s.pushing), acts, s);
  }

  /** The waiter is never parked without a token while something it waits for is
      visible, unless a peer is still mid-wake: about to load the flag, or already
      bound for its handle. */
  lemma NeverAsleepUnnoticed(s: Machine)
    requires Reachable(s) && s.waiter.Asleep? && s.park.thread !in s.park.tokens
    ensures SomeRousing(s.park) || (s.park.handle == Some(s.park.thread) && (s.park.parked || SomeHunting(s.park)))
    ensures s.book.supply != [] || s.book.closed ==>
              || SomeRousing(s.park) || SomePeeking(s.park)
              || (s.park.handle == Some(s.park.thread) && SomeHunting(s.park))
  {
    ReachableKeepsInv(s);
  }

  lemma QuietMeansAwake(s: Machine)
    requires Reachable(s) && s.waiter.Asleep? && (s.book.supply != [] || s.book.closed)
    requires forall p :: 0 <= p < |s.park.peers| ==> s.park.peers[p].Idle?
    ensures s.park.thread in s.park.tokens
  {
    ReachableKeepsInv(s);
  }

  /** `pop_block` answers `None` only once its peers are gone and everything they
      supplied has been returned, in order; `push_block` answers `Err` only once
      they are gone, and with the caller's own value. */
  lemma AnswersAreHonest(s: Machine, i: nat)
    requires Reachable(s) && i < |s.book.log|
    ensures s.book.log[i].1.Got? || s.book.log[i].1.Nothing? <==> s.book.log[i].0.Pop?
    ensures s.book.log[i].1.Nothing? ==> s.book.closed && Items(s.book.log + InFlight(s.waiter)) == s.book.supplied
    ensures s.book.log[i].1.Refused? ==> s.book.closed && s.book.log[i].0 == Push(s.book.log[i].1.value)
  {
    ReachableKeepsInv(s);
  }

  /** At every moment the items popped so far are the first of those supplied, and
      a push is accepted for each free slot taken and for nothing else. */
  lemma NothingIsLostOrMadeUp(s: Machine)
    requires Reachable(s)
    ensures !s.pushing ==> Items(s.book.log + InFlight(s.waiter)) + s.book.supply == s.book.supplied
    ensures s.pushing ==> Acceptances(s.book.log + InFlight(s.waiter)) + |s.book.supply| == |s.book.supplied|
  {
    ReachableKeepsInv(s);
  }
}
