/** The history of a ring, position by position: what each claim came to. */
module PositionLog {
  /** What became of a claimed position. */
  datatype Entry =
    | Unresolved(owner: nat)
    | Holds(ticket: nat)
    | Empty

  /** The values published at the positions `[lo, hi)`, in position order. */
  function Values(log: seq<Entry>, lo: nat, hi: nat): seq<nat>
    requires hi <= |log|
    decreases hi
  {
    if hi <= lo then []
    else Values(log, lo, hi - 1) + match log[hi - 1] case Holds(v) => [v] case _ => []
  }

  /** What was read between two positions depends only on those positions. */
  lemma {:induction false} ValuesFrame(log: seq<Entry>, log': seq<Entry>, lo: nat, hi: nat)
    requires hi <= |log| && hi <= |log'|
    requires forall p | lo <= p < hi :: log[p] == log'[p]
    ensures Values(log, lo, hi) == Values(log', lo, hi)
    decreases hi
  {
    if lo < hi {
      ValuesFrame(log, log', lo, hi - 1);
    }
  }
}
