/** Concurrent claims behave like dequeuing from one first-in first-out queue. */
module Fifo {
  import opened Ids
  import opened JobTable
  import opened Protocol
  import opened Invariant
  import opened Preservation
  import Safety

  /** The waiting rows, oldest id first. */
  ghost function Queue(s: State): seq<nat> {
    Sorted(ClaimableIds(s.rows))
  }

  /** The ids an event takes from the queue, as the thread that claimed them records them. */
  ghost function Taken(s: State, e: Event): seq<nat>
    requires Enabled(s, e)
  {
    if e.ClaimRows? && e.ok then Sorted(PcOf(Step(s, e), e.t).claimed) else []
  }

  function Added(e: Event): seq<nat> {
    if e.Insert? then [e.id] else []
  }

  function Demand(s: State, e: Event): nat
    requires e.ClaimRows? ==> At(s, e.t) && PcOf(s, e.t).Claiming?
  {
    if e.ClaimRows? && e.ok then PcOf(s, e.t).workload else 0
  }

  lemma ClaimableIsQueued(s: State, id: nat)
    requires Inv(s) && id in s.rows
    ensures Claimable(s.rows[id]) <==> s.fate[id] == Queued
  {
    assert RowOk(s, id);
    if s.fate[id].InHand? { assert s.rows[id].status != Pending; }
  }

  lemma HandStaysUnclaimable(s: State, e: Event, id: nat)
    requires Inv(s) && Enabled(s, e) && !Safety.LeavesRows(e) && !e.Insert? && !e.ClaimRows? && id in s.rows
    ensures id in Step(s, e).rows && (Claimable(Step(s, e).rows[id]) <==> Claimable(s.rows[id]))
  {
    assert ThreadOk(s, e.t);
    Safety.HandFrame(s, e, id);
    assert RowOk(s, id);
    ClaimableIsQueued(s, id);
  }

  lemma HandKeepsIds(s: State, e: Event)
    requires Enabled(s, e) && !e.Insert?
    ensures Step(s, e).rows.Keys == s.rows.Keys
  {
  }

  lemma ClaimableAfter(s: State, e: Event)
    requires Inv(s) && Enabled(s, e) && !e.Insert? && !e.ClaimRows?
    ensures ClaimableIds(Step(s, e).rows) == ClaimableIds(s.rows)
  {
    if Safety.LeavesRows(e) {
      Safety.LeavesRowsFrame(s, e);
    } else {
      var rows := Step(s, e).rows;
      HandKeepsIds(s, e);
      forall id | id in s.rows ensures Claimable(rows[id]) <==> Claimable(s.rows[id]) {
        HandStaysUnclaimable(s, e, id);
      }
    }
  }

  lemma ClaimTakesFront(s: State, e: Event)
    requires Inv(s) && Enabled(s, e) && e.ClaimRows? && e.ok
    ensures Taken(s, e) + Queue(Step(s, e)) == Queue(s)
    ensures |Taken(s, e)| == if Demand(s, e) < |Queue(s)| then Demand(s, e) else |Queue(s)|
  {
    var ids := ClaimableIds(s.rows);
    var front := Take(ids, Demand(s, e));
    SortedRemoveLowest(ids, Demand(s, e));
    SortedIs(Elements(front), front);
    PickedIsFront(s.rows, Demand(s, e));
    assert ClaimableIds(Step(s, e).rows) == ids - Elements(front);
  }

  lemma InsertAppends(s: State, e: Event)
    requires Inv(s) && Enabled(s, e) && e.Insert?
    ensures Queue(Step(s, e)) == Queue(s) + [e.id]
  {
    assert ClaimableIds(Step(s, e).rows) == ClaimableIds(s.rows) + {e.id};
    SortedInsertMax(ClaimableIds(s.rows), e.id);
  }

  /**
   * Each event is one operation of an abstract queue: an insert appends, a successful claim removes the first
   * `workload` entries or all of them, and everything else leaves the queue alone.
   */
  lemma QueueStep(s: State, e: Event)
    requires Inv(s) && Enabled(s, e)
    ensures Taken(s, e) + Queue(Step(s, e)) == Queue(s) + Added(e)
    ensures |Taken(s, e)| == if Demand(s, e) < |Queue(s)| then Demand(s, e) else |Queue(s)|
  {
    if e.Insert? {
      InsertAppends(s, e);
    } else if e.ClaimRows? {
      if e.ok {
        ClaimTakesFront(s, e);
      } else {
        Safety.LeavesRowsFrame(s, e);
      }
    } else {
      ClaimableAfter(s, e);
    }
  }

  // ----- Whole runs -----

  /** Every id claimed in the run, in the order of the claims. */
  ghost function Dequeued(s: State, es: seq<Event>): seq<nat>
    requires IsRun(s, es)
    decreases |es|
  {
    if es == [] then []
    else Dequeued(s, es[..|es| - 1]) + Taken(After(s, es[..|es| - 1]), es[|es| - 1])
  }

  function Inserted(es: seq<Event>): seq<nat> {
    if es == [] then [] else Inserted(es[..|es| - 1]) + Added(es[|es| - 1])
  }

  /** The sum of the workloads of the successful claims. */
  ghost function TotalDemand(s: State, es: seq<Event>): nat
    requires IsRun(s, es)
    decreases |es|
  {
    if es == [] then 0
    else TotalDemand(s, es[..|es| - 1]) + Demand(After(s, es[..|es| - 1]), es[|es| - 1])
  }

  /** First in, first out: what was claimed, then what still waits, is what waited first and then what was added. */
  lemma {:induction false} FirstInFirstOut(s: State, es: seq<Event>)
    requires Inv(s) && IsRun(s, es)
    ensures Dequeued(s, es) + Queue(After(s, es)) == Queue(s) + Inserted(es)
    decreases |es|
  {
    if es == [] {
    } else {
      var front, e := es[..|es| - 1], es[|es| - 1];
      var mid := After(s, front);
      FirstInFirstOut(s, front);
      RunKeeps(s, front);
      QueueStep(mid, e);
      Splice(Dequeued(s, front), Taken(mid, e), Queue(Step(mid, e)), Queue(mid), Added(e), Queue(s), Inserted(front));
    }
  }

  lemma Splice(d: seq<nat>, t: seq<nat>, rest: seq<nat>, q: seq<nat>, a: seq<nat>, start: seq<nat>, added: seq<nat>)
    requires d + q == start + added && t + rest == q + a
    ensures (d + t) + rest == start + (added + a)
  {
    calc {
      (d + t) + rest;
      d + (t + rest);
      (d + q) + a;
      start + (added + a);
    }
  }

  /** Claims cover demand while rows last: with no inserts, exactly the excess of rows over demand stays. */
  lemma {:induction false} DrainLaw(s: State, es: seq<Event>)
    requires Inv(s) && IsRun(s, es)
    requires forall e :: e in es ==> !e.Insert?
    ensures |Queue(After(s, es))| ==
      if TotalDemand(s, es) < |Queue(s)| then |Queue(s)| - TotalDemand(s, es) else 0
    decreases |es|
  {
    if es != [] {
      var front, e := es[..|es| - 1], es[|es| - 1];
      var mid := After(s, front);
      DrainLaw(s, front);
      RunKeeps(s, front);
      QueueStep(mid, e);
      assert e in es;
      assert |Taken(mid, e)| + |Queue(Step(mid, e))| == |Queue(mid)|;
    }
  }

  /** No row is claimed twice in a run. */
  lemma ClaimedOnce(s: State, es: seq<Event>)
    requires Inv(s) && IsRun(s, es)
    ensures Increasing(Dequeued(s, es) + Queue(After(s, es)))
  {
    FirstInFirstOut(s, es);
    QueueThenInserts(s, es);
  }

  lemma {:induction false} QueueThenInserts(s: State, es: seq<Event>)
    requires Inv(s) && IsRun(s, es)
    ensures Increasing(Queue(s) + Inserted(es))
    ensures forall id :: id in Queue(s) + Inserted(es) ==> id in After(s, es).rows
    decreases |es|
  {
    if es == [] {
      assert Queue(s) + Inserted(es) == Queue(s);
    } else {
      var front, e := es[..|es| - 1], es[|es| - 1];
      var mid, q := After(s, front), Queue(s) + Inserted(front);
      QueueThenInserts(s, front);
      RunKeeps(s, front);
      assert Queue(s) + Inserted(es) == q + Added(e);
      forall id | id in q ensures id in Step(mid, e).rows {
        Safety.TakenStep(mid, e, id);
      }
      if e.Insert? {
        AppendMax(q, Elements(q), e.id);
      } else {
        assert q + Added(e) == q;
      }
    }
  }
}
