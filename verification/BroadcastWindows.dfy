/** What clones may race, and the runs in which they race no more than that. */
module BroadcastWindows {
  import opened BroadcastMachine

  /** What clones are let do while they take a seat: race a floor scan, race a
      claim whose slot is still unmarked, come after the first claim at all. */
  datatype Window = Window(scan: bool, mark: bool, late: bool)
  {
    /** With this many seats, no clone that takes one races a floor scan. A registry
        of one seat has none to take. */
    predicate OffScans(seats: nat) {
      seats == 1 || !scan
    }

    /** Nor an unmarked claim: either outright, or by coming before the first claim. */
    predicate OffMarks(seats: nat) {
      seats == 1 || !mark || !late
    }

    /** Every clone comes before the first claim, and races no floor scan. */
    predicate Early(seats: nat) {
      seats == 1 || (!scan && !late)
    }
  }

  const ALL_RACES: Window := Window(true, true, true)

  const DISCIPLINED: Window := Window(false, false, true)

  /** No producer is where the window keeps clones from taking a seat. */
  predicate Shielded(w: Window, s: Machine) {
    && (!w.late ==> s.tail == 0)
    && forall p | 0 <= p < |s.producers| ::
         && (s.producers[p].pc.Scanning? || s.producers[p].pc.Peeking? ==> w.scan)
         && (s.producers[p].pc.Claimed? ==> w.mark)
  }

  /** As `Runs`, every seat taken within the window. */
  predicate RunsIn(w: Window, s: Machine, acts: seq<Action>, t: Machine)
    decreases |acts|
  {
    if acts == [] then s == t
    else
      && Shape(s) && Enabled(s, acts[0]) && (TakesSeat(s, acts[0]) ==> Shielded(w, s))
      && RunsIn(w, Apply(s, acts[0]), acts[1..], t)
  }

  /** Where runs start, and what they let clones do. */
  datatype Origin = Origin(start: Machine, w: Window)

  /** Some run leads from the origin to `t`. */
  ghost predicate Leads(o: Origin, t: Machine) {
    exists acts :: RunsIn(o.w, o.start, acts, t)
  }

  /** The ring `split` returns, and what clones may race. */
  function RingIn(w: Window, cap: nat, seats: nat, needsDrop: bool): Origin
    requires cap > 0 && seats > 0
  {
    Origin(Init(cap, seats, needsDrop), w)
  }

  lemma {:induction false} RunsOn(w: Window, s: Machine, acts: seq<Action>, t: Machine, a: Action)
    requires RunsIn(w, s, acts, t) && Shape(t) && Enabled(t, a) && (TakesSeat(t, a) ==> Shielded(w, t))
    ensures RunsIn(w, s, acts + [a], Apply(t, a))
    decreases |acts|
  {
    if acts == [] {
      assert [a][1..] == [];
      assert acts + [a] == [a];
    } else {
      RunsOn(w, Apply(s, acts[0]), acts[1..], t, a);
      assert (acts + [a])[1..] == acts[1..] + [a];
    }
  }

  lemma LeadsOn(o: Origin, t: Machine, a: Action)
    requires Leads(o, t) && Shape(t) && Enabled(t, a) && (TakesSeat(t, a) ==> Shielded(o.w, t))
    ensures Leads(o, Apply(t, a))
  {
    var acts :| RunsIn(o.w, o.start, acts, t);
    RunsOn(o.w, o.start, acts, t, a);
  }

  lemma LeadsNowhere(o: Origin)
    ensures Leads(o, o.start)
  {
    assert RunsIn(o.w, o.start, [], o.start);
  }

  /** With every race allowed the runs are all runs. */
  lemma {:induction false} AllRacesIsAllRuns(s: Machine, acts: seq<Action>, t: Machine)
    ensures RunsIn(ALL_RACES, s, acts, t) <==> Runs(s, acts, t)
    decreases |acts|
  {
    if acts != [] && Shape(s) && Enabled(s, acts[0]) {
      AllRacesIsAllRuns(Apply(s, acts[0]), acts[1..], t);
    }
  }
}
