/** What holds of the broadcast ring in every run, whatever clones do: counters only
    run ahead, every claim has its owner, and every word tells the truth about the
    position it names. */
module BroadcastBasics {
  import opened Wrappers
  import opened SlotState
  import opened PositionLog
  import opened BroadcastMachine

  /** Every position in `[lo, hi)` has resolved. */
  predicate Resolved(log: seq<Entry>, lo: nat, hi: nat)
    requires hi <= |log|
  {
    forall p | lo <= p < hi :: !log[p].Unresolved?
  }

  /** A settled consumer has passed resolved positions only, and is looking at one
      when its program counter says so. */
  predicate SeatOk(s: Machine, k: nat)
    requires Shape(s) && k < |s.seats|
  {
    var seat := s.seats[k];
    && seat.head <= s.tail
    && (seat.Settled() ==>
          && seat.start <= seat.head
          && Resolved(s.log, seat.start, seat.head)
          && (!seat.rpc.Resting? ==> seat.head < s.tail)
          && (seat.rpc.Skipping? ==> s.log[seat.head].Empty?)
          && (seat.rpc.Lent? || seat.rpc.Leaving? ==> s.log[seat.head].Holds?))
  }

  predicate SeatsOk(s: Machine)
    requires Shape(s)
  {
    forall k | 0 <= k < |s.seats| :: SeatOk(s, k)
  }

  /** What a producer has gathered is behind the tail. */
  predicate ProbeOk(s: Machine, p: nat)
    requires Shape(s) && p < |s.producers|
  {
    var me := s.producers[p];
    && me.private <= s.tail
    && match me.pc
       case Asking(t, i) => t <= s.tail && i <= |s.seats|
       case Trying(t) => t <= s.tail
       case Sharing(t) => t <= s.tail
       case Scanning(t, i, m) => t <= s.tail && i <= |s.seats| && (m.At? ==> m.head <= s.tail)
       case Peeking(t, i, m) => t <= s.tail && i < |s.seats| && (m.At? ==> m.head <= s.tail)
       case Raising(t, head) => t <= s.tail && head <= s.tail
       case Inspecting(t) => t <= s.tail
       case Swinging(t) => t <= s.tail
       case _ => true
  }

  /** A claim in progress is its producer's own, and not resolved. */
  predicate ClaimOk(s: Machine, w: nat)
    requires Shape(s) && w < |s.producers|
  {
    match s.producers[w].pc.Claim()
    case None => true
    case Some(pos) => pos < s.tail && s.log[pos] == Unresolved(w)
  }

  predicate ProducersOk(s: Machine)
    requires Shape(s)
  {
    forall w | 0 <= w < |s.producers| :: ProbeOk(s, w) && ClaimOk(s, w)
  }

  /** Every unresolved position has the owner the log names. */
  predicate OwnersOk(s: Machine)
    requires Shape(s)
  {
    forall pos | 0 <= pos < s.tail && s.log[pos].Unresolved? ::
      && s.log[pos].owner < |s.producers|
      && s.producers[s.log[pos].owner].pc.Claim() == Some(pos)
  }

  /** A word speaks of a position of its own slot, and says what became of it. */
  predicate WordOk(s: Machine, q: nat)
    requires Shape(s) && q < s.cap
  {
    match Decode(s.words[q])
    case Vacant => true
    case Published(pos) => pos < s.tail && SlotOf(s.cap, pos) == q && s.log[pos].Holds?
    case Abandoned(pos) => pos < s.tail && SlotOf(s.cap, pos) == q && s.log[pos].Empty?
  }

  predicate WordsOk(s: Machine)
    requires Shape(s)
  {
    forall q | 0 <= q < s.cap :: WordOk(s, q)
  }

  /** A clone in progress has its source pinned at or before the tail it loaded. */
  predicate ClonerOk(s: Machine, c: nat)
    requires c < |s.cloners|
  {
    var me := s.cloners[c];
    !me.pc.Finished? ==>
      && AtRest(s, me.source)
      && (me.pc.Seeking? ==> s.seats[me.source].head <= me.pc.t <= s.tail)
      && (me.pc.Seated? ==>
            && s.seats[me.source].head <= me.pc.t <= s.tail
            && me.pc.j < |s.seats|
            && s.seats[me.pc.j].active && s.seats[me.pc.j].rpc.Absent?)
  }

  /** Two clones in progress never share a seat. */
  predicate ClonersOk(s: Machine) {
    && (forall c | 0 <= c < |s.cloners| :: ClonerOk(s, c))
    && (forall c, d | 0 <= c < |s.cloners| && 0 <= d < |s.cloners| && c != d
                      && s.cloners[c].pc.Seated? && s.cloners[d].pc.Seated? ::
          s.cloners[c].pc.j != s.cloners[d].pc.j)
  }

  predicate Basics(s: Machine) {
    && Shape(s) && s.shared <= s.tail
    && SeatsOk(s) && ProducersOk(s) && OwnersOk(s) && WordsOk(s) && ClonersOk(s)
  }

  lemma BasicsInit(cap: nat, seats: nat, needsDrop: bool)
    requires cap > 0 && seats > 0
    ensures Basics(Init(cap, seats, needsDrop))
  {
  }

  /** `s'` differs from `s` only in the caches and in producers without a claim. */
  predicate OnlyProbed(s: Machine, s': Machine) {
    && s' == s.(shared := s'.shared, producers := s'.producers)
    && |s.producers| <= |s'.producers|
    && (forall w | 0 <= w < |s.producers| ::
          s.producers[w].pc.Claim() == s'.producers[w].pc.Claim()
          && (s.producers[w].pc.Claim().Some? ==> s'.producers[w].pc == s.producers[w].pc))
  }

  lemma ProbedFrame(s: Machine, s': Machine)
    requires Basics(s) && OnlyProbed(s, s')
    ensures Shape(s') && SeatsOk(s') && OwnersOk(s') && WordsOk(s') && ClonersOk(s')
    ensures forall w | 0 <= w < |s.producers| :: ClaimOk(s', w)
  {
    forall k | 0 <= k < |s.seats| ensures SeatOk(s', k) { assert SeatOk(s, k); }
    forall c | 0 <= c < |s.cloners| ensures ClonerOk(s', c) { assert ClonerOk(s, c); }
    forall q | 0 <= q < s.cap ensures WordOk(s', q) { assert WordOk(s, q); }
    forall w | 0 <= w < |s.producers| ensures ClaimOk(s', w) { assert ClaimOk(s, w); }
  }

  lemma ProbeOnlyProbes(s: Machine, p: nat)
    requires Basics(s) && Enabled(s, Probe(p))
    ensures
      var s' := ProbeStep(s, p);
      && OnlyProbed(s, s') && |s'.producers| == |s.producers| && s'.producers[p].pc.Claim().None?
      && s'.shared <= s.tail
      && forall w | 0 <= w < |s.producers| && w != p :: s'.producers[w] == s.producers[w]
  {
    assert ProbeOk(s, p);
  }

  lemma ProbeStaysBehind(s: Machine, p: nat)
    requires Basics(s) && Enabled(s, Probe(p))
    ensures ProbeOk(ProbeStep(s, p), p)
  {
    assert ProbeOk(s, p);
    if s.producers[p].pc.Peeking? { assert SeatOk(s, s.producers[p].pc.i); }
  }

  lemma ProbeKeepsBasics(s: Machine, p: nat)
    requires Basics(s) && Enabled(s, Probe(p))
    ensures Basics(ProbeStep(s, p))
  {
    var s' := ProbeStep(s, p);
    ProbeOnlyProbes(s, p);
    ProbeStaysBehind(s, p);
    ProbedFrame(s, s');
    hide ProbeStep;
    forall w | 0 <= w < |s.producers| ensures ProbeOk(s', w) { assert ProbeOk(s, w); }
  }

  lemma BeginKeepsBasics(s: Machine, a: Action)
    requires Basics(s) && Enabled(s, a) && (a.NewProducer? || a.Begin? || a.Quit? || a.Spurious?)
    ensures Basics(Apply(s, a))
  {
    var s' := Apply(s, a);
    ProbedFrame(s, s');
    forall w | 0 <= w < |s'.producers| ensures ProbeOk(s', w) && ClaimOk(s', w) {
      if w < |s.producers| { assert ProbeOk(s, w); }
    }
  }

  /** A seat nobody touched stays sound while the log keeps what its occupant
      has passed, or is looking at. */
  lemma SeatFrame(s: Machine, s': Machine, k: nat)
    requires Shape(s) && Shape(s') && k < |s.seats| && k < |s'.seats| && s'.seats[k] == s.seats[k]
    requires SeatOk(s, k) && s.tail <= s'.tail
    requires forall pos | 0 <= pos < s.tail && !s.log[pos].Unresolved? :: s'.log[pos] == s.log[pos]
    ensures SeatOk(s', k)
  {
  }

  lemma LoseKeepsBasics(s: Machine, p: nat)
    requires Basics(s) && Enabled(s, Swing(p)) && s.producers[p].pc.t != s.tail
    ensures Basics(SwingStep(s, p))
  {
    var s' := SwingStep(s, p);
    ProbedFrame(s, s');
    forall w | 0 <= w < |s.producers| ensures ProbeOk(s', w) { assert ProbeOk(s, w); }
  }

  lemma WinKeepsProducers(s: Machine, p: nat)
    requires Basics(s) && Enabled(s, Swing(p)) && s.producers[p].pc.t == s.tail
    ensures ProducersOk(SwingStep(s, p)) && OwnersOk(SwingStep(s, p))
  {
    var s' := SwingStep(s, p);
    assert s.producers[p].pc.Claim().None?;
    forall w | 0 <= w < |s.producers| ensures ProbeOk(s', w) && ClaimOk(s', w) {
      assert ProbeOk(s, w) && ClaimOk(s, w);
    }
  }

  lemma WinKeepsBasics(s: Machine, p: nat)
    requires Basics(s) && Enabled(s, Swing(p)) && s.producers[p].pc.t == s.tail
    ensures Basics(SwingStep(s, p))
  {
    var s' := SwingStep(s, p);
    WinKeepsProducers(s, p);
    forall k | 0 <= k < |s.seats| ensures SeatOk(s', k) { SeatFrame(s, s', k); }
    forall c | 0 <= c < |s.cloners| ensures ClonerOk(s', c) { assert ClonerOk(s, c); }
    forall q | 0 <= q < s.cap ensures WordOk(s', q) { assert WordOk(s, q); }
  }

  /** `s'` differs from `s` in the slot and the progress of the claim `p` has at
      `pos`, and in which tickets exist. */
  predicate OnlyHandled(s: Machine, s': Machine, p: nat, pos: nat)
    requires Shape(s) && p < |s.producers|
  {
    var q := SlotOf(s.cap, pos);
    && s' == s.(words := s'.words, data := s'.data, producers := s'.producers,
                born := s'.born, destroyed := s'.destroyed, log := s'.log)
    && Shape(s')
    && |s'.producers| == |s.producers| && s'.producers[p].private == s.producers[p].private
    && (forall w | 0 <= w < |s.producers| && w != p :: s'.producers[w] == s.producers[w])
    && (forall r | 0 <= r < s.cap && r != q :: s'.words[r] == s.words[r] && s'.data[r] == s.data[r])
    && (forall i | 0 <= i < s.tail && i != pos :: s'.log[i] == s.log[i])
    && !s'.producers[p].pc.Probing() && !s'.producers[p].pc.Swinging? && !s'.producers[p].pc.Claimed?
  }

  /** The claim is as it was, and its slot's word is too, or vacant; or the claim is
      resolved, and its slot's word and its entry agree on how. */
  predicate Furthers(s: Machine, s': Machine, p: nat, pos: nat)
    requires Shape(s) && Shape(s') && s'.cap == s.cap && p < |s'.producers| && pos < s.tail == s'.tail
  {
    var word := s'.words[SlotOf(s.cap, pos)];
    || (s'.log == s.log && s'.producers[p].pc.Claim() == Some(pos)
        && (word == VACANT || word == s.words[SlotOf(s.cap, pos)]))
    || (s'.producers[p].pc.Idle?
        && ((s'.log[pos].Holds? && word == PublishedWord(pos)) || (s'.log[pos].Empty? && word == AbandonedWord(pos))))
  }

  lemma HandledKeepsWords(s: Machine, s': Machine, p: nat, pos: nat)
    requires Basics(s) && p < |s.producers| && s.producers[p].pc.Claim() == Some(pos) && OnlyHandled(s, s', p, pos)
    requires pos < s.tail && Furthers(s, s', p, pos)
    ensures WordsOk(s')
  {
    assert ClaimOk(s, p);
    forall q | 0 <= q < s.cap ensures WordOk(s', q) { assert WordOk(s, q); }
  }

  lemma HandledKeepsBasics(s: Machine, s': Machine, p: nat, pos: nat)
    requires Basics(s) && p < |s.producers| && s.producers[p].pc.Claim() == Some(pos) && OnlyHandled(s, s', p, pos)
    requires pos < s.tail && Furthers(s, s', p, pos)
    ensures Basics(s')
  {
    assert ClaimOk(s, p);
    HandledKeepsWords(s, s', p, pos);
    hide WordOk;
    forall w | 0 <= w < |s.producers| ensures ProbeOk(s', w) && ClaimOk(s', w) {
      assert ProbeOk(s, w) && ClaimOk(s, w);
    }
    forall k | 0 <= k < |s.seats| ensures SeatOk(s', k) { SeatFrame(s, s', k); }
    forall c | 0 <= c < |s.cloners| ensures ClonerOk(s', c) { assert ClonerOk(s, c); }
  }

  /** Every access to a claimed slot is such a step. */
  lemma WorkingFurthers(s: Machine, a: Action)
    requires Basics(s) && Enabled(s, a) && (a.Mark? || a.Clear? || a.Fill? || a.Discard?)
    ensures
      var pos := s.producers[a.p].pc.pos;
      && pos < s.tail && s.producers[a.p].pc.Claim() == Some(pos)
      && OnlyHandled(s, Apply(s, a), a.p, pos) && Furthers(s, Apply(s, a), a.p, pos)
      && Apply(s, a).producers[a.p].pc.Claim() == Some(pos) && Apply(s, a).log == s.log
  {
    assert ClaimOk(s, a.p);
  }

  lemma ResolvingFurthers(s: Machine, a: Action)
    requires Basics(s) && Enabled(s, a) && (a.Publish? || a.Abandon?)
    ensures
      var pos := s.producers[a.p].pc.pos;
      && pos < s.tail && s.producers[a.p].pc.Claim() == Some(pos)
      && OnlyHandled(s, Apply(s, a), a.p, pos) && Furthers(s, Apply(s, a), a.p, pos)
  {
    assert ClaimOk(s, a.p);
  }

  lemma HandlingKeepsBasics(s: Machine, a: Action)
    requires Basics(s) && Enabled(s, a) && a.Handles()
    ensures Basics(Apply(s, a))
  {
    if a.Publish? || a.Abandon? { ResolvingFurthers(s, a); } else { WorkingFurthers(s, a); }
    hide Apply, Basics, OnlyHandled, Furthers, Shape;
    HandledKeepsBasics(s, Apply(s, a), a.p, s.producers[a.p].pc.pos);
  }

  /** Nobody is cloning a consumer that is inside a call of its own. */
  lemma BusyMeansUnpinned(s: Machine, k: nat)
    requires Basics(s) && k < |s.seats| && !s.seats[k].rpc.Resting?
    ensures !Pinned(s, k)
  {
    forall c | 0 <= c < |s.cloners| && !s.cloners[c].pc.Finished? ensures s.cloners[c].source != k {
      assert ClonerOk(s, c);
    }
  }

  /** `s'` differs from `s` in the seat of a settled consumer that nobody is cloning,
      moved on, or gone. */
  predicate OnlyMoved(s: Machine, s': Machine, k: nat)
    requires Shape(s)
  {
    && k < |s.seats| && s.seats[k].Settled() && |s'.seats| == |s.seats|
    && s' == s.(seats := s.seats[k := s'.seats[k]])
    && s.seats[k].head <= s'.seats[k].head && SeatOk(s', k) && !Pinned(s, k)
  }

  lemma MovedKeepsBasics(s: Machine, s': Machine, k: nat)
    requires Basics(s) && OnlyMoved(s, s', k)
    ensures Basics(s')
  {
    forall i | 0 <= i < |s.seats| ensures SeatOk(s', i) {
      assert SeatOk(s, i);
      if i != k { SeatFrame(s, s', i); }
    }
    forall w | 0 <= w < |s.producers| ensures ProbeOk(s', w) && ClaimOk(s', w) {
      assert ProbeOk(s, w) && ClaimOk(s, w);
    }
    forall c | 0 <= c < |s.cloners| ensures ClonerOk(s', c) { assert ClonerOk(s, c); }
    forall q | 0 <= q < s.cap ensures WordOk(s', q) { assert WordOk(s, q); }
  }

  /** What a consumer that finds its head ready, or to be skipped, is looking at. */
  lemma SeenIsSo(s: Machine, k: nat)
    requires Basics(s) && k < |s.seats|
    ensures
      var head := s.seats[k].head;
      var seen := Classify(s.words[SlotOf(s.cap, head)], head);
      && (seen.Ready? ==> head < s.tail && s.log[head].Holds?)
      && (seen.Tombstoned? ==> head < s.tail && s.log[head].Empty?)
  {
    assert WordOk(s, SlotOf(s.cap, s.seats[k].head));
  }

  /** Whether `a` is a consumer's own access. */
  predicate Reads(a: Action) {
    a.Look? || a.Show? || a.Advance? || a.Leave?
  }

  lemma ReadingMoves(s: Machine, a: Action)
    requires Basics(s) && Enabled(s, a) && Reads(a)
    ensures OnlyMoved(s, Apply(s, a), a.k)
  {
    assert SeatOk(s, a.k);
    if a.Look? { SeenIsSo(s, a.k); }
    if a.Show? || a.Advance? { BusyMeansUnpinned(s, a.k); }
  }

  /** The rest does not look at the clones in progress. */
  lemma ClonersFrame(s: Machine, s': Machine)
    requires Basics(s) && s' == s.(cloners := s'.cloners)
    ensures Shape(s') && s'.shared <= s'.tail && SeatsOk(s') && ProducersOk(s') && OwnersOk(s') && WordsOk(s')
  {
    forall w | 0 <= w < |s.producers| ensures ProbeOk(s', w) && ClaimOk(s', w) {
      assert ProbeOk(s, w) && ClaimOk(s, w);
    }
    forall k | 0 <= k < |s.seats| ensures SeatOk(s', k) { assert SeatOk(s, k); }
    forall q | 0 <= q < s.cap ensures WordOk(s', q) { assert WordOk(s, q); }
  }

  /** A step of a clone that takes no seat. */
  lemma CloneWaitKeepsBasics(s: Machine, a: Action)
    requires Basics(s) && Enabled(s, a) && (a.StartClone? || a.CloneStep?) && !TakesSeat(s, a)
    ensures Basics(Apply(s, a))
  {
    var s' := Apply(s, a);
    ClonersFrame(s, s');
    forall c | 0 <= c < |s'.cloners| ensures ClonerOk(s', c) {
      if c < |s.cloners| { assert ClonerOk(s, c); }
      if a.CloneStep? && c == a.c { assert SeatOk(s, s.cloners[c].source); }
    }
  }

  /** A step of a clone that takes a seat, or settles in it, fills a seat nobody has
      settled in, no further behind than the consumer it is made of. */
  lemma TakingFills(s: Machine, a: Action)
    requires Basics(s) && Enabled(s, a) && TakesSeat(s, a)
    ensures
      var (s', j, source) := (Apply(s, a), s.cloners[a.c].pc.j, s.cloners[a.c].source);
      && j < |s.seats| && !s.seats[j].Settled() && AtRest(s, source) && source != j
      && s' == s.(cloners := s'.cloners, seats := s.seats[j := s'.seats[j]])
      && (s'.seats[j].Settled() ==> s'.seats[j].rpc.Resting? && s'.seats[j].seen == []
                                    && s.seats[source].head <= s'.seats[j].start == s'.seats[j].head <= s.tail)
      && (!s'.seats[j].Settled() ==> s'.seats[j].head == s.seats[j].head)
  {
    assert ClonerOk(s, a.c);
  }

  lemma TakingKeepsCloners(s: Machine, a: Action)
    requires Basics(s) && Enabled(s, a) && TakesSeat(s, a)
    ensures ClonersOk(Apply(s, a))
  {
    var s' := Apply(s, a);
    assert ClonerOk(s, a.c);
    forall c | 0 <= c < |s.cloners| ensures ClonerOk(s', c) { assert ClonerOk(s, c); }
    forall c, d | 0 <= c < |s.cloners| && 0 <= d < |s.cloners| && c != d
                  && s'.cloners[c].pc.Seated? && s'.cloners[d].pc.Seated?
      ensures s'.cloners[c].pc.j != s'.cloners[d].pc.j
    {
      assert ClonerOk(s, c) && ClonerOk(s, d);
    }
  }

  lemma TakingKeepsBasics(s: Machine, a: Action)
    requires Basics(s) && Enabled(s, a) && TakesSeat(s, a)
    ensures Basics(Apply(s, a))
  {
    var s' := Apply(s, a);
    TakingKeepsCloners(s, a);
    TakingFills(s, a);
    hide Apply;
    assert SeatOk(s, s.cloners[a.c].pc.j);
    forall k | 0 <= k < |s.seats| ensures SeatOk(s', k) { assert SeatOk(s, k); }
    forall w | 0 <= w < |s.producers| ensures ProbeOk(s', w) && ClaimOk(s', w) {
      assert ProbeOk(s, w) && ClaimOk(s, w);
    }
    forall q | 0 <= q < s.cap ensures WordOk(s', q) { assert WordOk(s, q); }
  }

  /** Every step of every thread keeps the basics. */
  lemma BasicsStep(s: Machine, a: Action)
    requires Basics(s) && Enabled(s, a)
    ensures Basics(Apply(s, a))
  {
    if a.Handles() {
      HandlingKeepsBasics(s, a);
    } else if a.Probe? {
      ProbeKeepsBasics(s, a.p);
    } else if a.Swing? {
      if s.producers[a.p].pc.t == s.tail { WinKeepsBasics(s, a.p); } else { LoseKeepsBasics(s, a.p); }
    } else if a.Asks() {
      BeginKeepsBasics(s, a);
    } else if Reads(a) {
      ReadingMoves(s, a);
      hide Apply, Basics;
      MovedKeepsBasics(s, Apply(s, a), a.k);
    } else if TakesSeat(s, a) {
      TakingKeepsBasics(s, a);
    } else {
      CloneWaitKeepsBasics(s, a);
    }
  }

  /** In a registry of one seat no clone ever finds a seat to take. */
  lemma OneSeatAdmitsNoClone(s: Machine, a: Action)
    requires Basics(s) && |s.seats| == 1 && Enabled(s, a)
    ensures !TakesSeat(s, a)
  {
    if a.CloneStep? { assert ClonerOk(s, a.c); }
  }
}
