/** The async waiters of one side, call by call: a table of registrations by park
    slot, an overflow stack for the slotless and the displaced, and a flag that
    lets a wake skip an empty set. A waker that fires is recorded in `fired`. */
module WakerSet {
  import opened Wrappers
  import opened WakeBitmap
  import opened ParkRegistry

  datatype Registration = Registration(id: nat, waker: nat)

  /** What a withdrawal found in a slot. */
  datatype Withdrawn = Own | Peer(peer: Registration) | Vacant

  type Slots = rs: seq<Option<Registration>> | |rs| == SLOTS witness seq(SLOTS, _ => None)

  /** `r` is in a slot or on the overflow. */
  predicate Present(slots: Slots, overflow: seq<Registration>, r: Registration) {
    Some(r) in slots || r in overflow
  }

  predicate DistinctIds(rs: seq<Registration>) {
    forall i, j :: 0 <= i < j < |rs| ==> rs[i].id != rs[j].id
  }

  /** No id has two entries, whether in slots, on the overflow, or one in each. */
  predicate OneEntryEach(slots: Slots, overflow: seq<Registration>) {
    && DistinctIds(overflow)
    && (forall i, j :: 0 <= i < j < SLOTS && slots[i].Some? && slots[j].Some? ==>
          slots[i].value.id != slots[j].value.id)
    && (forall i, j :: 0 <= i < SLOTS && slots[i].Some? && 0 <= j < |overflow| ==> slots[i].value.id != overflow[j].id)
  }

  /** The chain without the first entry of this id. */
  function DropFirst(chain: seq<Registration>, id: nat): seq<Registration> {
    if chain == [] then []
    else if chain[0].id == id then chain[1..]
    else [chain[0]] + DropFirst(chain[1..], id)
  }

  function Reverse(chain: seq<Registration>): seq<Registration> {
    if chain == [] then [] else Reverse(chain[1..]) + [chain[0]]
  }

  /** The registrations a scan of the first `n` slots fires, in order. */
  function InSlots(slots: Slots, n: nat): seq<Registration>
    requires n <= SLOTS
  {
    if n == 0 then []
    else InSlots(slots, n - 1) + if slots[n - 1].Some? then [slots[n - 1].value] else []
  }

  lemma {:induction false} ReverseKeeps(chain: seq<Registration>)
    requires DistinctIds(chain)
    ensures DistinctIds(Reverse(chain)) && forall r :: r in Reverse(chain) <==> r in chain
  {
    if chain != [] {
      ReverseKeeps(chain[1..]);
      forall r ensures r in Reverse(chain) <==> r in chain {
        assert r in chain <==> r == chain[0] || r in chain[1..];
      }
      forall i, j | 0 <= i < j < |Reverse(chain)| ensures Reverse(chain)[i].id != Reverse(chain)[j].id {
        assert Reverse(chain)[i] in chain[1..];
      }
    }
  }

  /** With one entry an id, dropping the first drops that id and nothing else. */
  lemma {:induction false} DropFirstDropsTheId(chain: seq<Registration>, id: nat)
    requires DistinctIds(chain)
    ensures DistinctIds(DropFirst(chain, id))
    ensures forall r :: r in DropFirst(chain, id) <==> r in chain && r.id != id
  {
    if chain != [] {
      DropFirstDropsTheId(chain[1..], id);
      assert forall r :: r in chain <==> r == chain[0] || r in chain[1..];
      if chain[0].id != id {
        var rest := DropFirst(chain[1..], id);
        assert forall i | 0 <= i < |rest| :: rest[i] in chain[1..];
      }
    }
  }

  lemma {:induction false} InSlotsIsWhatIsThere(slots: Slots, overflow: seq<Registration>, n: nat)
    requires n <= SLOTS && OneEntryEach(slots, overflow)
    ensures DistinctIds(InSlots(slots, n))
    ensures forall r :: r in InSlots(slots, n) <==> exists k :: 0 <= k < n && slots[k] == Some(r)
  {
    if n > 0 {
      InSlotsIsWhatIsThere(slots, overflow, n - 1);
      var before := InSlots(slots, n - 1);
      forall j | 0 <= j < |before| && slots[n - 1].Some? ensures before[j].id != slots[n - 1].value.id {
        assert before[j] in before;
      }
    }
  }

  /** What a full scan fires: every entry, each once. */
  lemma ScanFiresEachOnce(slots: Slots, overflow: seq<Registration>)
    requires OneEntryEach(slots, overflow)
    ensures DistinctIds(InSlots(slots, SLOTS) + overflow)
    ensures forall r :: r in InSlots(slots, SLOTS) + overflow <==> Present(slots, overflow, r)
  {
    InSlotsIsWhatIsThere(slots, overflow, SLOTS);
    var all := InSlots(slots, SLOTS) + overflow;
    forall i, j | 0 <= i < j < |all| ensures all[i].id != all[j].id {
      if i < |InSlots(slots, SLOTS)| <= j {
        assert all[i] in InSlots(slots, SLOTS) && all[j] == overflow[j - |InSlots(slots, SLOTS)|];
      }
    }
  }

  /** The set after a registration is swapped into slot `k` and what it displaced,
      unless it was its own, is pushed: its id has that one entry, and every other
      entry is still there. */
  lemma StoreReplaces(slots: Slots, overflow: seq<Registration>, k: nat, r: Registration)
    requires k < SLOTS && OneEntryEach(slots, overflow)
    requires forall q | q in overflow :: q.id != r.id
    requires forall i | 0 <= i < SLOTS && slots[i].Some? && slots[i].value.id == r.id :: i == k
    ensures var displaced := slots[k].Some? && slots[k].value.id != r.id;
            var overflow' := if displaced then [slots[k].value] + overflow else overflow;
            && OneEntryEach(slots[k := Some(r)], overflow')
            && forall q :: Present(slots[k := Some(r)], overflow', q)
                           <==> if q.id == r.id then q == r else Present(slots, overflow, q)
  {
    var displaced := slots[k].Some? && slots[k].value.id != r.id;
    var overflow' := if displaced then [slots[k].value] + overflow else overflow;
    var slots' := slots[k := Some(r)];
    forall q ensures Present(slots', overflow', q) <==> if q.id == r.id then q == r else Present(slots, overflow, q) {
      assert slots'[k] == Some(r);
      assert slots[k].Some? ==> Some(slots[k].value) in slots;
      if Some(q) in slots && q.id != r.id {
        var i :| 0 <= i < SLOTS && slots[i] == Some(q);
        assert i != k ==> slots'[i] == Some(q);
      }
    }
  }

  /** A swap takes out of the slots what was in its slot, and nothing else. */
  lemma SwapLosesOne(slots: Slots, k: nat, r: Registration)
    requires k < SLOTS
    ensures Some(r) in slots[k := Some(r)]
    ensures forall q: Registration | q.id != r.id ::
              Some(q) in slots <==> Some(q) in slots[k := Some(r)] || slots[k] == Some(q)
  {
    assert slots[k := Some(r)][k] == Some(r);
    forall q: Registration | q.id != r.id && Some(q) in slots
      ensures Some(q) in slots[k := Some(r)] || slots[k] == Some(q)
    {
      var i :| 0 <= i < SLOTS && slots[i] == Some(q);
      assert i != k ==> slots[k := Some(r)][i] == Some(q);
    }
  }

  /** Whatever the overflow holds, such a swap loses nobody, and of its own id it takes
      away the entry it replaces and no other. */
  lemma StoreLosesNobody(slots: Slots, overflow: seq<Registration>, k: nat, r: Registration)
    requires k < SLOTS
    requires forall i | 0 <= i < SLOTS && slots[i].Some? && slots[i].value.id == r.id :: i == k
    ensures var displaced := slots[k].Some? && slots[k].value.id != r.id;
            var overflow' := if displaced then [slots[k].value] + overflow else overflow;
            forall q :: Present(slots[k := Some(r)], overflow', q)
                        <==> q == r || (Present(slots, overflow, q) && (q.id == r.id ==> q in overflow))
  {
    var displaced := slots[k].Some? && slots[k].value.id != r.id;
    var overflow' := if displaced then [slots[k].value] + overflow else overflow;
    var slots' := slots[k := Some(r)];
    assert slots'[k] == Some(r);
    assert slots[k].Some? ==> Some(slots[k].value) in slots;
    forall q | Some(q) in slots && q.id != r.id ensures Present(slots', overflow', q) {
      var i :| 0 <= i < SLOTS && slots[i] == Some(q);
      assert i != k ==> slots'[i] == Some(q);
    }
    forall q | Some(q) in slots' && q != r ensures Some(q) in slots && q.id != r.id {
      var i :| 0 <= i < SLOTS && slots'[i] == Some(q);
      assert slots[i] == Some(q);
    }
  }

  /** Likewise after a slot is emptied and a peer found there is pushed. */
  lemma EmptyingMoves(slots: Slots, overflow: seq<Registration>, k: nat, id: nat)
    requires k < SLOTS && OneEntryEach(slots, overflow)
    ensures var peer := slots[k].Some? && slots[k].value.id != id;
            var overflow' := if peer then [slots[k].value] + overflow else overflow;
            && OneEntryEach(slots[k := None], overflow')
            && (forall q: Registration | q.id != id ::
                  Present(slots[k := None], overflow', q) <==> Present(slots, overflow, q))
            && (slots[k].Some? && slots[k].value.id == id ==>
                  forall q: Registration | q.id == id :: !Present(slots[k := None], overflow', q))
            && (forall q: Registration | q.id == id && Some(q) in slots[k := None] :: Some(q) in slots)
  {
    var peer := slots[k].Some? && slots[k].value.id != id;
    var overflow' := if peer then [slots[k].value] + overflow else overflow;
    var slots' := slots[k := None];
    forall q: Registration | q.id != id ensures Present(slots', overflow', q) <==> Present(slots, overflow, q) {
      assert slots[k].Some? ==> Some(slots[k].value) in slots;
      if Some(q) in slots {
        var i :| 0 <= i < SLOTS && slots[i] == Some(q);
        assert i != k ==> slots'[i] == Some(q);
      }
    }
  }

  /** A sweep of the overflow removes the id and moves nobody else off it. */
  lemma SweepClears(slots: Slots, overflow: seq<Registration>, id: nat)
    requires OneEntryEach(slots, overflow)
    ensures OneEntryEach(slots, Reverse(DropFirst(overflow, id)))
    ensures forall r :: r in Reverse(DropFirst(overflow, id)) <==> r in overflow && r.id != id
  {
    DropFirstDropsTheId(overflow, id);
    ReverseKeeps(DropFirst(overflow, id));
    var overflow' := Reverse(DropFirst(overflow, id));
    forall i, j | 0 <= i < SLOTS && slots[i].Some? && 0 <= j < |overflow'|
      ensures slots[i].value.id != overflow'[j].id
    {
      assert overflow'[j] in overflow;
    }
  }

  /** Only the slot an id was minted for can hold it. */
  predicate InPlace(slots: Slots, seat: map<nat, ParkSlot>) {
    forall i :: 0 <= i < SLOTS && slots[i].Some? ==>
      slots[i].value.id in seat && seat[slots[i].value.id] == Leased(i)
  }

  /** The slots and the overflow after a withdrawal. */
  function AfterWithdraw(slots: Slots, overflow: seq<Registration>, slot: ParkSlot, id: nat): (Slots, seq<Registration>)
    requires slot.Fits()
  {
    match slot
    case Shared => (slots, Reverse(DropFirst(overflow, id)))
    case Leased(k) =>
      var emptied: Slots := slots[k := None];
      match slots[k]
      case None => (emptied, Reverse(DropFirst(overflow, id)))
      case Some(r) =>
        if r.id == id then (emptied, overflow)
        else (emptied, Reverse(DropFirst([r] + overflow, id)))
  }

  lemma WithdrawLeavesPeers(slots: Slots, overflow: seq<Registration>, seat: map<nat, ParkSlot>,
                            slot: ParkSlot, id: nat)
    requires slot.Fits() && OneEntryEach(slots, overflow) && InPlace(slots, seat) && id in seat && seat[id] == slot
    ensures var (slots', overflow') := AfterWithdraw(slots, overflow, slot, id);
            && OneEntryEach(slots', overflow') && InPlace(slots', seat)
            && (forall r | r in overflow' :: Present(slots, overflow, r))
            && forall r :: Present(slots', overflow', r) <==> r.id != id && Present(slots, overflow, r)
  {
    match slot
    case Shared =>
      SweepClears(slots, overflow, id);
    case Leased(k) =>
      EmptyingMoves(slots, overflow, k, id);
      var slots' := slots[k := None];
      assert forall i | 0 <= i < SLOTS && slots'[i].Some? :: slots'[i] == slots[i] && slots[i].value.id != id;
      if slots[k].None? {
        SweepClears(slots', overflow, id);
      } else if slots[k].value.id != id {
        SweepClears(slots', [slots[k].value] + overflow, id);
        assert slots[k] in slots;
      }
  }

  predicate HasId(chain: seq<Registration>, id: nat) {
    exists i :: 0 <= i < |chain| && chain[i].id == id
  }

  /** One node of a detached chain goes back on the stack. */
  lemma PutBack(chain: seq<Registration>, overflow: seq<Registration>)
    requires chain != []
    ensures Reverse(chain) + overflow == Reverse(chain[1..]) + ([chain[0]] + overflow)
  {
  }

  /** Of the chain less its first entry of this id, the node is put back or left out. */
  lemma PutBackOrDrop(chain: seq<Registration>, id: nat, overflow: seq<Registration>)
    requires chain != []
    ensures chain[0].id == id ==> DropFirst(chain, id) == chain[1..]
    ensures chain[0].id != id ==>
              Reverse(DropFirst(chain, id)) + overflow == Reverse(DropFirst(chain[1..], id)) + ([chain[0]] + overflow)
  {
    if chain[0].id != id {
      var rest := DropFirst(chain[1..], id);
      assert DropFirst(chain, id) == [chain[0]] + rest && ([chain[0]] + rest)[1..] == rest;
      PutBack([chain[0]] + rest, overflow);
    }
  }

  lemma HasIdOrRest(chain: seq<Registration>, id: nat)
    requires chain != []
    ensures HasId(chain, id) <==> chain[0].id == id || HasId(chain[1..], id)
  {
    if HasId(chain[1..], id) {
      var i :| 0 <= i < |chain[1..]| && chain[1..][i].id == id;
      assert chain[i + 1].id == id;
    }
    if HasId(chain, id) && chain[0].id != id {
      var i :| 0 <= i < |chain| && chain[i].id == id;
      assert chain[1..][i - 1].id == id;
    }
  }

  class WakerSet {
    var pending: bool
    var slots: Slots
    var overflow: seq<Registration>
    var next: nat
    var fired: seq<Registration>
    /** The park slot each id was minted for. */
    ghost var seat: map<nat, ParkSlot>

    ghost predicate Valid()
      reads this
    {
      && OneEntryEach(slots, overflow)
      && (forall id: nat :: id in seat <==> id < next)
      && InPlace(slots, seat) && (forall r :: r in overflow ==> r.id in seat)
      && (!pending ==> overflow == [] && forall i :: 0 <= i < SLOTS ==> slots[i].None?)
    }

    ghost predicate Has(r: Registration)
      reads this
    {
      Present(slots, overflow, r)
    }

    constructor ()
      ensures Valid() && fired == [] && seat == map[] && forall r :: !Has(r)
    {
      pending := false;
      slots := seq(SLOTS, _ => None);
      overflow := [];
      next := 0;
      fired := [];
      seat := map[];
    }

    /** An id nobody has been given. */
    method Mint(slot: ParkSlot) returns (id: nat)
      requires Valid()
      modifies this`next, this`seat
      ensures Valid() && id !in old(seat) && seat == old(seat)[id := slot]
    {
      id := next;
      next := next + 1;
      seat := seat[id := slot];
    }

    /** `WakerOverflow::withdraw`: detaches the chain, drops the first node of this
        id, and pushes the others back one by one. */
    method WithdrawOverflow(id: nat) returns (found: bool)
      modifies this`overflow
      ensures overflow == Reverse(DropFirst(old(overflow), id))
      ensures found <==> HasId(old(overflow), id)
    {
      var chain := overflow;
      overflow := [];
      found := false;
      while chain != []
        invariant Reverse(if found then chain else DropFirst(chain, id)) + overflow
                  == Reverse(DropFirst(old(overflow), id))
        invariant HasId(old(overflow), id) <==> found || HasId(chain, id)
        decreases |chain|
      {
        hide HasId, DropFirst, Reverse;
        PutBack(chain, overflow);
        PutBackOrDrop(chain, id, overflow);
        HasIdOrRest(chain, id);
        var node := chain[0];
        chain := chain[1..];
        if !found && node.id == id {
          found := true;
        } else {
          overflow := [node] + overflow;
        }
      }
    }

    /** `WakerSlot::store`: swaps the registration in and hands back what it
        displaced, unless that was its own: whoever else was in a slot is in one still
        or is handed back. */
    method Store(k: nat, r: Registration) returns (displaced: Option<Registration>)
      requires k < SLOTS
      modifies this`slots
      ensures slots == old(slots)[k := Some(r)]
      ensures displaced == if old(slots)[k].Some? && old(slots)[k].value.id != r.id then old(slots)[k] else None
      ensures Some(r) in slots
      ensures forall q: Registration | q.id != r.id ::
                Some(q) in old(slots) <==> Some(q) in slots || displaced == Some(q)
    {
      SwapLosesOne(slots, k, r);
      var prev := slots[k];
      slots := slots[k := Some(r)];
      displaced := if prev.Some? && prev.value.id == r.id then None else prev;
    }

    /** `register_as`: the id has this entry now, besides any the overflow held for
        it, and every other registration is still reachable. With none on the overflow
        the id has exactly this entry. */
    method RegisterAs(id: nat, slot: ParkSlot, waker: nat)
      requires Valid() && id in seat && seat[id] == slot && slot.Fits()
      modifies this`slots, this`overflow, this`pending
      ensures pending
      ensures match slot
        case Leased(k) =>
          && slots == old(slots)[k := Some(Registration(id, waker))]
          && overflow == (match old(slots)[k]
                          case Some(r) => if r.id == id then old(overflow) else [r] + old(overflow)
                          case None => old(overflow))
        case Shared => slots == old(slots) && overflow == [Registration(id, waker)] + old(overflow)
      ensures forall r :: Has(r) <==>
                r == Registration(id, waker) || (old(Has(r)) && (r.id == id ==> r in old(overflow)))
      ensures (forall r | r in old(overflow) :: r.id != id) ==> Valid()
    {
      var registration := Registration(id, waker);
      match slot
      case Leased(k) =>
        StoreLosesNobody(slots, overflow, k, registration);
        if forall r | r in overflow :: r.id != id { StoreReplaces(slots, overflow, k, registration); }
        var displaced := Store(k, registration);
        if displaced.Some? { overflow := [displaced.value] + overflow; }
        pending := true;
      case Shared =>
        overflow := [registration] + overflow;
        pending := true;
    }

    /** `WakerSlot::withdraw`: the slot is empty now, and the answer says whether it was
        before, held this id's entry, or held a peer's, which is handed back. */
    method WithdrawSlot(k: nat, id: nat) returns (withdrawn: Withdrawn)
      requires k < SLOTS
      modifies this`slots
      ensures slots == old(slots)[k := None]
      ensures withdrawn.Vacant? <==> old(slots)[k].None?
      ensures withdrawn.Own? <==> old(slots)[k].Some? && old(slots)[k].value.id == id
      ensures withdrawn.Peer? ==> old(slots)[k] == Some(withdrawn.peer)
    {
      var claimed := slots[k];
      slots := slots[k := None];
      match claimed
      case None => return Vacant;
      case Some(r) => return if r.id == id then Own else Peer(r);
    }

    /** `withdraw`: the id has no entry left, wherever it was, and every other
        registration is still reachable. */
    method Withdraw(id: nat, slot: ParkSlot)
      requires Valid() && id in seat && seat[id] == slot && slot.Fits()
      modifies this`slots, this`overflow
      ensures Valid()
      ensures (slots, overflow) == AfterWithdraw(old(slots), old(overflow), slot, id)
      ensures forall r :: Has(r) <==> r.id != id && old(Has(r))
    {
      WithdrawLeavesPeers(slots, overflow, seat, slot, id);
      hide OneEntryEach, InPlace, DropFirst, Reverse, HasId;
      if slot.Leased? {
        var withdrawn := WithdrawSlot(slot.bit, id);
        match withdrawn
        case Own => return;
        case Peer(peer) => overflow := [peer] + overflow;
        case Vacant =>
      }
      var found := WithdrawOverflow(id);
    }

    /** Fires what every slot and then the overflow holds. */
    method Scan()
      requires Valid()
      modifies this`slots, this`overflow, this`fired
      ensures Valid() && forall r :: !Has(r)
      ensures fired == old(fired) + InSlots(old(slots), SLOTS) + old(overflow)
    {
      var k := 0;
      while k < SLOTS
        invariant 0 <= k <= SLOTS && overflow == old(overflow)
        invariant forall i :: 0 <= i < SLOTS ==> slots[i] == if i < k then None else old(slots)[i]
        invariant fired == old(fired) + InSlots(old(slots), k)
      {
        if slots[k].Some? {
          fired := fired + [slots[k].value];
          slots := slots[k := None];
        }
        k := k + 1;
      }
      while overflow != []
        invariant fired + overflow == old(fired) + InSlots(old(slots), SLOTS) + old(overflow)
        invariant forall i :: 0 <= i < SLOTS ==> slots[i].None?
        decreases |overflow|
      {
        fired := fired + [overflow[0]];
        overflow := overflow[1..];
      }
    }

    /** `wake_all`: fires every registration present, each exactly once, and leaves
        none. The flag may say so without a scan, and stays up after one. */
    method WakeAll()
      requires Valid()
      modifies this`slots, this`overflow, this`fired
      ensures Valid() && forall r :: !Has(r)
      ensures old(fired) <= fired && DistinctIds(fired[|old(fired)|..])
      ensures forall r :: r in fired[|old(fired)|..] <==> old(Has(r))
    {
      ScanFiresEachOnce(slots, overflow);
      if !pending { return; }
      Scan();
      assert fired[|old(fired)|..] == InSlots(old(slots), SLOTS) + old(overflow);
    }

    /** `flush`: as `wake_all`, without asking the flag. */
    method Flush()
      requires Valid()
      modifies this`slots, this`overflow, this`fired
      ensures Valid() && forall r :: !Has(r)
      ensures old(fired) <= fired && DistinctIds(fired[|old(fired)|..])
      ensures forall r :: r in fired[|old(fired)|..] <==> old(Has(r))
    {
      ScanFiresEachOnce(slots, overflow);
      Scan();
      assert fired[|old(fired)|..] == InSlots(old(slots), SLOTS) + old(overflow);
    }
  }

  /** The record a future keeps of the registration it made. */
  class ExclusiveRegistration {
    const slot: ParkSlot
    var armed: Option<nat>

    /** The id it kept, if any, was minted by `set` for its own slot. */
    ghost predicate BelongsTo(set_: WakerSet)
      reads this, set_
    {
      && slot.Fits()
      && (armed.Some? ==> armed.value in set_.seat && set_.seat[armed.value] == slot)
    }

    constructor (slot: ParkSlot)
      ensures this.slot == slot && armed == None
    {
      this.slot := slot;
      armed := None;
    }

    /** `arm`: this record has exactly one entry, under the id it already had if it
        had one; every other id keeps what it had. */
    method Arm(set_: WakerSet, waker: nat)
      requires set_.Valid() && BelongsTo(set_)
      modifies this, set_
      ensures set_.Valid() && BelongsTo(set_)
      ensures armed.Some? && (if old(armed).Some? then armed == old(armed) else armed.value !in old(set_.seat))
      ensures forall r :: set_.Has(r) <==>
                if r.id == armed.value then r == Registration(armed.value, waker) else old(set_.Has(r))
      ensures set_.fired == old(set_.fired)
      ensures forall id :: id in old(set_.seat) ==> id in set_.seat && set_.seat[id] == old(set_.seat)[id]
    {
      var id;
      if armed.Some? {
        id := armed.value;
        SweepClears(set_.slots, set_.overflow, id);
        var found := set_.WithdrawOverflow(id);
      } else {
        id := set_.Mint(slot);
      }
      set_.RegisterAs(id, slot, waker);
      armed := Some(id);
    }

    /** `withdraw`, which is also what dropping the future does: nothing of this
        record is left, and nobody else's entry is lost. */
    method Withdraw(set_: WakerSet)
      requires set_.Valid() && BelongsTo(set_)
      modifies this, set_
      ensures set_.Valid() && BelongsTo(set_) && armed == None
      ensures forall r :: set_.Has(r) <==> (old(armed) != Some(r.id)) && old(set_.Has(r))
      ensures set_.fired == old(set_.fired) && set_.seat == old(set_.seat)
    {
      if armed.None? { return; }
      var id := armed.value;
      armed := None;
      set_.Withdraw(id, slot);
    }
  }
}
