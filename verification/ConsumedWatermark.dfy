/** The shared count of consumed positions and each consumer's private tally of
    the pops it has not yet published, in wrapping 64-bit arithmetic. */
module ConsumedWatermark {
  import opened Wrappers

  const WORD: nat := 0x1_0000_0000_0000_0000

  function Sum(pending: seq<nat>): nat {
    if pending == [] then 0 else Sum(pending[..|pending| - 1]) + pending[|pending| - 1]
  }

  lemma {:induction false} SumWith(pending: seq<nat>, i: nat, n: nat)
    requires i < |pending|
    ensures Sum(pending[i := n]) == Sum(pending) - pending[i] + n
  {
    var last := |pending| - 1;
    if i < last {
      SumWith(pending[..last], i, n);
      assert pending[i := n][..last] == pending[..last][i := n];
    } else {
      assert pending[i := n][..last] == pending[..last];
    }
  }

  /** One pop or one departure of consumer `i`. */
  datatype Event = Pop(i: nat) | Depart(i: nat)

  /** The watermark, every consumer's pending pops, and how many pops there have
      really been. */
  datatype Tallies = Tallies(word: nat, pending: seq<nat>, pops: nat)

  function Recorded(word: nat, pending: nat, flushAt: nat): (nat, nat) {
    if pending + 1 >= flushAt then ((word + pending + 1) % WORD, 0) else (word, pending + 1)
  }

  function Flushed(word: nat, pending: nat): (nat, nat) {
    if pending > 0 then ((word + pending) % WORD, 0) else (word, pending)
  }

  function Step(t: Tallies, e: Event, flushAt: nat): Tallies
    requires e.i < |t.pending|
  {
    match e
    case Pop(i) =>
      var (word, pending) := Recorded(t.word, t.pending[i], flushAt);
      Tallies(word, t.pending[i := pending], t.pops + 1)
    case Depart(i) =>
      var (word, pending) := Flushed(t.word, t.pending[i]);
      Tallies(word, t.pending[i := pending], t.pops)
  }

  function Run(t: Tallies, events: seq<Event>, flushAt: nat): Tallies
    requires forall e | e in events :: e.i < |t.pending|
    decreases |events|
  {
    if events == [] then t
    else Run(Step(t, events[0], flushAt), events[1..], flushAt)
  }

  function Pops(events: seq<Event>): nat {
    if events == [] then 0 else (if events[0].Pop? then 1 else 0) + Pops(events[1..])
  }

  /** The watermark is the pops less what is still pending, wrapped. */
  predicate Balanced(t: Tallies) {
    Sum(t.pending) <= t.pops && t.word == (t.pops - Sum(t.pending)) % WORD
  }

  lemma AddWraps(a: nat, b: nat)
    ensures (a % WORD + b) % WORD == (a + b) % WORD
  {
    assert a + b == (a % WORD + b) + WORD * (a / WORD);
  }

  lemma StepBalances(t: Tallies, e: Event, flushAt: nat)
    requires e.i < |t.pending| && Balanced(t)
    ensures Balanced(Step(t, e, flushAt))
  {
    var t' := Step(t, e, flushAt);
    SumWith(t.pending, e.i, t'.pending[e.i]);
    SumWith(t.pending, e.i, 0);
    AddWraps(t.pops - Sum(t.pending), t.pending[e.i] + if e.Pop? then 1 else 0);
  }

  /** Nothing is lost between the tallies and the watermark: after any pops and
      departures of any consumers, the two together count every pop. */
  lemma {:induction false} EveryPopIsCounted(t: Tallies, events: seq<Event>, flushAt: nat)
    requires Balanced(t) && forall e | e in events :: e.i < |t.pending|
    ensures Balanced(Run(t, events, flushAt))
    ensures Run(t, events, flushAt).pops == t.pops + Pops(events)
    decreases |events|
  {
    if events != [] {
      StepBalances(t, events[0], flushAt);
      EveryPopIsCounted(Step(t, events[0], flushAt), events[1..], flushAt);
    }
  }

  /** No consumer ever sits on a whole batch of pops. */
  predicate Prompt(t: Tallies, flushAt: nat) {
    forall i | 0 <= i < |t.pending| :: t.pending[i] == 0 || t.pending[i] < flushAt
  }

  /** Consumer `i` has departed, and has popped nothing since. */
  predicate Gone(events: seq<Event>, i: nat) {
    && events != []
    && var last := events[|events| - 1];
       last == Depart(i) || (last != Pop(i) && Gone(events[..|events| - 1], i))
  }

  lemma {:induction false} RunSplit(t: Tallies, events: seq<Event>, last: Event, flushAt: nat)
    requires forall e | e in events + [last] :: e.i < |t.pending|
    ensures forall e | e in events :: e.i < |t.pending|
    ensures |Run(t, events, flushAt).pending| == |t.pending|
    ensures Run(t, events + [last], flushAt) == Step(Run(t, events, flushAt), last, flushAt)
    decreases |events|
  {
    assert last in events + [last];
    forall e | e in events ensures e.i < |t.pending| { assert e in events + [last]; }
    if events == [] {
      assert ([] + [last])[1..] == [];
    } else {
      assert (events + [last])[1..] == events[1..] + [last];
      assert (events + [last])[0] == events[0];
      assert forall e | e in events[1..] + [last] :: e in events + [last];
      RunSplit(Step(t, events[0], flushAt), events[1..], last, flushAt);
    }
  }

  /** Pops are published promptly: nobody's tally reaches the flush point, and a consumer
      that has departed owes nothing. */
  lemma {:induction false} PopsArePublished(t: Tallies, events: seq<Event>, flushAt: nat)
    requires Prompt(t, flushAt) && forall e | e in events :: e.i < |t.pending|
    ensures Prompt(Run(t, events, flushAt), flushAt) && |Run(t, events, flushAt).pending| == |t.pending|
    ensures forall i | 0 <= i < |t.pending| && Gone(events, i) :: Run(t, events, flushAt).pending[i] == 0
    decreases |events|
  {
    if events != [] {
      var rest, last := events[..|events| - 1], events[|events| - 1];
      assert events == rest + [last];
      RunSplit(t, rest, last, flushAt);
      PopsArePublished(t, rest, flushAt);
    }
  }

  /** Once every consumer has departed the watermark is the number of pops, wrapped. */
  lemma AllGoneMeansExact(t: Tallies, events: seq<Event>, flushAt: nat)
    requires Balanced(t) && Prompt(t, flushAt) && forall e | e in events :: e.i < |t.pending|
    requires forall i | 0 <= i < |t.pending| :: Gone(events, i)
    ensures Run(t, events, flushAt).word == (t.pops + Pops(events)) % WORD
  {
    EveryPopIsCounted(t, events, flushAt);
    PopsArePublished(t, events, flushAt);
    NothingSumsToNothing(Run(t, events, flushAt).pending);
  }

  lemma {:induction false} NothingSumsToNothing(pending: seq<nat>)
    requires forall i | 0 <= i < |pending| :: pending[i] == 0
    ensures Sum(pending) == 0
  {
    if pending != [] { NothingSumsToNothing(pending[..|pending| - 1]); }
  }

  /** Positions a producer may reserve, judged by the watermark alone. */
  function FreeBy(word: nat, claim: nat, cap: nat): Option<nat>
    requires word < WORD && claim < WORD
  {
    var inFlight := if word <= claim then claim - word else claim + WORD - word;
    if inFlight < cap then Some(cap - inFlight) else None
  }

  /** However often the counters have wrapped, `free` is exactly what the capacity
      leaves once the positions in flight and the pops still pending are taken off:
      never more than is really free, and short of it by the pending pops. */
  lemma FreeIsExact(t: Tallies, claimed: nat, cap: nat)
    requires Balanced(t) && t.pops <= claimed && claimed - t.pops + Sum(t.pending) < WORD
    ensures var lag := claimed - t.pops + Sum(t.pending);
            FreeBy(t.word, claimed % WORD, cap) == if lag < cap then Some(cap - lag) else None
    ensures FreeBy(t.word, claimed % WORD, cap).Some? ==>
              FreeBy(t.word, claimed % WORD, cap).value <= cap - (claimed - t.pops)
  {
    var base := t.pops - Sum(t.pending);
    AddWraps(base, claimed - base);
  }

  class ConsumedWatermark {
    var word: nat

    constructor ()
      ensures word == 0
    {
      word := 0;
    }

    method Add(count: nat)
      modifies this
      ensures word == (old(word) + count) % WORD
    {
      word := (word + count) % WORD;
    }

    method Free(claim: nat, cap: nat) returns (free: Option<nat>)
      requires word < WORD && claim < WORD
      ensures free == FreeBy(word, claim, cap)
      ensures free.Some? ==> 0 < free.value <= cap
    {
      var inFlight := (claim + WORD - word) % WORD;
      free := if inFlight < cap then Some(cap - inFlight) else None;
    }
  }

  class ConsumedTally {
    var pending: nat

    constructor ()
      ensures pending == 0
    {
      pending := 0;
    }

    /** `record`: watermark and tally together count one pop more. */
    method Record(watermark: ConsumedWatermark, flushAt: nat)
      modifies this, watermark
      ensures (watermark.word + pending) % WORD == (old(watermark.word) + old(pending) + 1) % WORD
      ensures (watermark.word, pending) == Recorded(old(watermark.word), old(pending), flushAt)
      ensures pending == 0 || pending < flushAt
    {
      var counted := pending + 1;
      if counted >= flushAt {
        watermark.Add(counted);
        pending := 0;
      } else {
        pending := counted;
      }
    }

    /** `flush`: together they count what they did, and all of it is in the watermark. */
    method Flush(watermark: ConsumedWatermark)
      modifies this, watermark
      ensures watermark.word % WORD == (old(watermark.word) + old(pending)) % WORD
      ensures (watermark.word, pending) == Flushed(old(watermark.word), old(pending))
      ensures pending == 0
    {
      if pending > 0 {
        watermark.Add(pending);
        pending := 0;
      }
    }
  }
}
