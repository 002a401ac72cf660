/**
 * What the threads of all processes share, with the run of the protocol so far. Every method is one atomic access;
 * between two of them `Others` lets everyone else take any number of steps.
 */
module SharedState {
  import opened Options
  import opened LockIds
  import opened JobTable
  import opened Protocol
  import opened Invariant
  import opened Preservation
  import opened Shutdown
  import opened Safety

  /** Whoever runs the code at hand: a work thread, or the main thread of a worker process. */
  datatype Actor = WorkThread(t: nat) | MainThread(worker: nat, members: set<nat>)

  predicate Does(a: Actor, e: Event) {
    match a
    case WorkThread(t) => IsOwn(e, t)
    case MainThread(w, members) =>
      || ((e.AddPending? || e.PushWork? || e.PushStop?) && e.t in members)
      || e == Deactivate(w)
  }

  /** The steps of one actor in a run. */
  function Mine(es: seq<Event>, a: Actor): seq<Event> {
    if es == [] then [] else Mine(es[..|es| - 1], a) + if Does(a, es[|es| - 1]) then [es[|es| - 1]] else []
  }

  lemma MineSnoc(es: seq<Event>, e: Event, a: Actor)
    ensures Mine(es + [e], a) == Mine(es, a) + if Does(a, e) then [e] else []
  {
    assert (es + [e])[..|es|] == es;
  }

  lemma {:induction false} MineOthers(es: seq<Event>, more: seq<Event>, a: Actor)
    requires forall e :: e in more ==> !Does(a, e)
    ensures Mine(es + more, a) == Mine(es, a)
    decreases |more|
  {
    if more == [] {
      assert es + more == es;
    } else {
      var front, e := more[..|more| - 1], more[|more| - 1];
      MineOthers(es, front, a);
      assert es + more == (es + front) + [e];
      MineSnoc(es + front, e, a);
      assert e in more;
    }
  }

  /** One run continues another, and actor `a` did exactly `did` in between. */
  ghost predicate Extends(a: Actor, es: seq<Event>, more: seq<Event>, did: seq<Event>) {
    es <= more && Mine(more, a) == Mine(es, a) + did
  }

  lemma ExtendsTwice(a: Actor, es: seq<Event>, mid: seq<Event>, more: seq<Event>, d: seq<Event>, d': seq<Event>)
    requires Extends(a, es, mid, d) && Extends(a, mid, more, d')
    ensures Extends(a, es, more, d + d')
  {
    assert Mine(es, a) + (d + d') == (Mine(es, a) + d) + d';
  }

  lemma {:induction false} MineConcat(es: seq<Event>, more: seq<Event>, a: Actor)
    ensures Mine(es + more, a) == Mine(es, a) + Mine(more, a)
    decreases |more|
  {
    if more == [] {
      assert es + more == es;
    } else {
      var front, e := more[..|more| - 1], more[|more| - 1];
      MineConcat(es, front, a);
      assert es + more == (es + front) + [e];
      MineSnoc(es + front, e, a);
    }
  }

  lemma {:induction false} MineIsPart(es: seq<Event>, a: Actor, e: Event)
    ensures e in Mine(es, a) <==> e in es && Does(a, e)
  {
    if es != [] {
      MineIsPart(es[..|es| - 1], a, e);
      assert es == es[..|es| - 1] + [es[|es| - 1]];
    }
  }

  /** What a contract with `did` says: the actor's steps since are those, in that order, and no others. */
  lemma ExtendsMeans(a: Actor, es: seq<Event>, more: seq<Event>, did: seq<Event>)
    ensures Extends(a, es, more, did) <==> es <= more && Mine(more[|es|..], a) == did
  {
    if es <= more {
      var rest := Mine(more[|es|..], a);
      MineConcat(es, more[|es|..], a);
      assert es + more[|es|..] == more;
      assert (Mine(es, a) + rest)[|Mine(es, a)|..] == rest && (Mine(es, a) + did)[|Mine(es, a)|..] == did;
    }
  }

  /** The state that the first `k` events of a run lead to. */
  ghost function StateAt(start: State, es: seq<Event>, k: nat): State
    requires IsRun(start, es) && k <= |es|
  {
    PrefixRun(start, es, k);
    After(start, es[..k])
  }

  /** A recorded point of a run stays what it was as the run goes on. */
  lemma StateAtStays(start: State, es: seq<Event>, more: seq<Event>, k: nat)
    requires IsRun(start, es) && IsRun(start, more) && es <= more && k <= |es|
    ensures StateAt(start, more, k) == StateAt(start, es, k)
  {
    assert more[..k] == es[..k];
  }

  // ----- What any run leaves alone -----

  /** Rows seen before are still there, under the same names. */
  ghost predicate NamesKept(before: Table, now: Table) {
    forall id :: id in before ==> id in now && now[id].name == before[id].name
  }

  ghost predicate DeadKept(s: State, s': State) {
    forall id :: Dead(s, id) ==>
      id in s'.rows && id in s'.fate && s'.rows[id] == s.rows[id] && s'.fate[id] == s.fate[id]
  }

  /** Names stay, executions stay on record, and finished or stranded rows never change. */
  ghost predicate Later(s: State, s': State) {
    && NamesKept(s.rows, s'.rows)
    && (forall id :: id in s.executed ==> id in s'.executed)
    && DeadKept(s, s')
  }

  lemma RunLater(s: State, es: seq<Event>)
    requires Inv(s) && IsRun(s, es)
    ensures Later(s, After(s, es))
  {
    var s' := After(s, es);
    forall id | id in s.rows ensures id in s'.rows && s'.rows[id].name == s.rows[id].name {
      NeverPendingAgain(s, es, id);
    }
    forall id | id in s.executed ensures id in s'.executed { ExecutedStays(s, es, id); }
    forall id | Dead(s, id)
      ensures id in s'.rows && id in s'.fate && s'.rows[id] == s.rows[id] && s'.fate[id] == s.fate[id]
    {
      DeadForever(s, es, id);
    }
  }

  /** Between two points of one run. */
  lemma PrefixLater(start: State, es: seq<Event>, more: seq<Event>)
    requires Initial(start) && IsRun(start, more) && es <= more
    ensures IsRun(start, es) && Later(After(start, es), After(start, more))
  {
    var rest := more[|es|..];
    assert more == es + rest;
    RunSplit(start, es, rest);
    InitialInv(start);
    RunKeeps(start, es);
    RunLater(After(start, es), rest);
  }

  // ----- What the others leave alone -----

  lemma {:induction false} OthersKeepMine(s: State, es: seq<Event>, t: nat)
    requires IsRun(s, es) && At(s, t)
    requires forall e :: e in es ==> !IsOwn(e, t)
    ensures At(After(s, es), t) && PcOf(After(s, es), t) == PcOf(s, t)
    ensures After(s, es).threads[t].cfg == s.threads[t].cfg
    decreases |es|
  {
    if es != [] {
      var front, e := es[..|es| - 1], es[|es| - 1];
      assert e in es;
      OthersKeepMine(s, front, t);
      OthersKeepPc(After(s, front), e, t);
      StaysInactive(After(s, front), e, t);
    }
  }

  lemma HeldExists(s: State, t: nat, id: nat)
    requires Inv(s) && At(s, t) && Holds(PcOf(s, t), id)
    ensures id in s.rows && id in s.fate && s.fate[id] == InHand(t) && s.rows[id].status != Pending
  {
    assert ThreadOk(s, t);
    assert RowOk(s, id);
  }

  lemma OthersKeepRowStep(s: State, e: Event, t: nat, id: nat)
    requires Inv(s) && Enabled(s, e) && !IsOwn(e, t) && At(s, t) && Holds(PcOf(s, t), id)
    ensures id in s.rows && id in Step(s, e).rows && Step(s, e).rows[id] == s.rows[id]
  {
    HeldExists(s, t, id);
    if LeavesRows(e) {
      LeavesRowsFrame(s, e);
    } else if e.ClaimRows? {
      ClaimFrame(s, e, id);
    } else if !e.Insert? {
      HandsDisjoint(s, t, e.t, id);
      HandFrame(s, e, id);
    }
  }

  /** Nobody else changes a row that a thread holds. */
  lemma {:induction false} OthersKeepRow(s: State, es: seq<Event>, t: nat, id: nat)
    requires Inv(s) && IsRun(s, es) && At(s, t) && Holds(PcOf(s, t), id)
    requires forall e :: e in es ==> !IsOwn(e, t)
    ensures id in s.rows && id in After(s, es).rows && After(s, es).rows[id] == s.rows[id]
    decreases |es|
  {
    if es == [] {
      HeldExists(s, t, id);
    } else {
      var front, e := es[..|es| - 1], es[|es| - 1];
      assert e in es;
      OthersKeepRow(s, front, t, id);
      OthersKeepMine(s, front, t);
      RunKeeps(s, front);
      OthersKeepRowStep(After(s, front), e, t, id);
    }
  }

  lemma ClaimEffect(s: State, t: nat, stamp: Stamp, ok: bool)
    requires Enabled(s, ClaimRows(t, stamp, ok))
    ensures var s' := Step(s, ClaimRows(t, stamp, ok));
      && s'.rows == (if ok then Claim(s.rows, Text(stamp), PcOf(s, t).workload) else s.rows)
      && s'.active == s.active && |s'.threads| == |s.threads|
      && (forall u: nat :: At(s, u) ==>
            Mirrors(s'.threads[u], s.threads[u].queue, s.threads[u].pending, s.threads[u].pc.Exited?))
  {
  }

  // ----- The shared object -----

  predicate Mirrors(th: Thread, queue: seq<Message>, pending: int, exited: bool) {
    th.queue == queue && th.pending == pending && th.pc.Exited? == exited
  }

  /** What the SELECT and the fetch of its result can come to. */
  datatype Fetched = QueryFailed | NoRows | Rows(ids: seq<nat>, names: seq<string>)

  /** The table, the message queues, the pending counters and the active flags, with the run so far. */
  class Shared {
    ghost const start: State
    ghost var trace: seq<Event>
    ghost var st: State
    var rows: Table
    var queues: seq<seq<Message>>
    var pendings: seq<int>
    var active: seq<bool>
    var exited: seq<bool>   // what g_thread_join waits for

    constructor (ghost start: State, rows: Table, threads: nat, active: seq<bool>)
      requires Initial(start) && start.rows == rows && |start.threads| == threads && start.active == active
      ensures Valid() && trace == [] && st == start
    {
      this.start := start;
      this.trace := [];
      this.st := start;
      this.rows := rows;
      this.queues := seq(threads, _ => []);
      this.pendings := seq(threads, _ => 0);
      this.active := active;
      this.exited := seq(threads, _ => false);
      new;
      assert forall t: nat :: At(st, t) ==> Mirrors(st.threads[t], queues[t], pendings[t], exited[t]);
    }

    /** The real fields are what the recorded run of the protocol leads to. */
    ghost predicate Valid()
      reads this
    {
      && Initial(start) && IsRun(start, trace) && st == After(start, trace)
      && rows == st.rows && active == st.active
      && |queues| == |pendings| == |exited| == |st.threads|
      && (forall t: nat :: At(st, t) ==> Mirrors(st.threads[t], queues[t], pendings[t], exited[t]))
    }

    lemma Facts()
      requires Valid()
      ensures Inv(st) && Reachable(st)
    {
      InitialInv(start);
      RunKeeps(start, trace);
    }

    /** Records one event; the caller has changed the real fields to match. */
    ghost method Record(e: Event)
      requires Initial(start) && IsRun(start, trace) && st == After(start, trace) && Enabled(st, e)
      modifies this`trace, this`st
      ensures IsRun(start, trace) && st == After(start, trace)
      ensures trace == old(trace) + [e] && st == Step(old(st), e)
    {
      RunSnoc(start, trace, e);
      trace := trace + [e];
      st := Step(st, e);
    }

    /**
     * Interference: everyone but actor `a` takes any steps. Nothing but this contract is known to a caller.
     * `reserved` are lock ids that no other call makes.
     */
    method Others(a: Actor, ghost reserved: set<string>)
      requires Valid() && st.used !! reserved
      modifies this
      ensures Valid() && st.used !! reserved
      ensures old(trace) <= trace
      ensures forall k :: |old(trace)| <= k < |trace| ==> !Does(a, trace[k])
    {
    }

    // ----- Statements and queue operations -----

    method TestActive(t: nat, worker: nat) returns (on: bool)
      requires Valid() && At(st, t) && PcOf(st, t) == Top && st.threads[t].cfg.worker == worker
      modifies this
      ensures Valid() && trace == old(trace) + [Test(t)] && st == Step(old(st), Test(t))
      ensures on <==> IsActive(old(st), t)
    {
      on := worker < |active| && active[worker];
      exited := exited[t := !on];
      Record(Test(t));
    }

    /** `g_async_queue_timed_pop`: nothing is returned only if nothing arrived. */
    method TimedPop(t: nat) returns (m: Option<Message>)
      requires Valid() && At(st, t) && PcOf(st, t) == Waiting
      modifies this
      ensures Valid() && m == if old(queues)[t] == [] then None else Some(old(queues)[t][0])
      ensures var e := if m.None? then Timeout(t) else Pop(t);
        Enabled(old(st), e) && trace == old(trace) + [e] && st == Step(old(st), e)
    {
      if queues[t] == [] {
        m := None;
        Record(Timeout(t));
      } else {
        m := Some(queues[t][0]);
        queues := queues[t := queues[t][1..]];
        Record(Pop(t));
      }
    }

    method TryPop(t: nat) returns (m: Option<Message>)
      requires Valid() && At(st, t) && PcOf(st, t).Draining?
      modifies this
      ensures Valid() && m == if old(queues)[t] == [] then None else Some(old(queues)[t][0])
      ensures var e := if m.None? then DrainEnd(t) else Pop(t);
        Enabled(old(st), e) && trace == old(trace) + [e] && st == Step(old(st), e)
    {
      if queues[t] == [] {
        m := None;
        Record(DrainEnd(t));
      } else {
        m := Some(queues[t][0]);
        queues := queues[t := queues[t][1..]];
        Record(Pop(t));
      }
    }

    method UpdateClaim(t: nat, stamp: Stamp, workload: nat) returns (ok: bool)
      requires Valid() && At(st, t) && PcOf(st, t) == Claiming(workload)
      requires stamp.Valid() && Text(stamp) !in st.used
      modifies this
      ensures Valid() && trace == old(trace) + [ClaimRows(t, stamp, ok)]
      ensures st == Step(old(st), ClaimRows(t, stamp, ok))
    {
      ok := *;
      ClaimEffect(st, t, stamp, ok);
      if ok {
        rows := ApplyClaim(rows, Text(stamp), workload);
        Record(ClaimRows(t, stamp, true));
      } else {
        Record(ClaimRows(t, stamp, false));
      }
    }

    method SelectLocked(t: nat, lock: string, limit: nat) returns (result: Fetched)
      requires Valid() && At(st, t) && PcOf(st, t).Selecting?
      requires PcOf(st, t).lock == lock && PcOf(st, t).workload == limit
      modifies this
      ensures Valid() && rows == old(rows)
      ensures var e := SelectRows(t, !result.QueryFailed?, result.Rows?);
        trace == old(trace) + [e] && st == Step(old(st), e)
      ensures result.Rows? ==> result.ids == Select(rows, lock, limit) && NamesOf(rows, result.ids, result.names)
    {
      var ok: bool, stored: bool := *, *;
      if !ok {
        result := QueryFailed;
      } else if !stored {
        result := NoRows;
      } else {
        var ids := Lowest(LockedIds(rows, lock), limit);
        var names := ReadNames(rows, ids);
        result := Rows(ids, names);
      }
      Record(SelectRows(t, !result.QueryFailed?, result.Rows?));
    }

    method UpdateRelease(t: nat, lock: string) returns (ok: bool)
      requires Valid() && At(st, t) && PcOf(st, t).Releasing? && PcOf(st, t).lock == lock
      modifies this
      ensures Valid() && trace == old(trace) + [ReleaseRows(t, ok)] && st == Step(old(st), ReleaseRows(t, ok))
    {
      ok := *;
      if ok { rows := Release(rows, lock); }
      Record(ReleaseRows(t, ok));
    }

    /** `type_creator(...)`: building the job works or gives NULL. */
    method CallCreator(t: nat, row: nat) returns (made: bool)
      requires Valid() && At(st, t) && PcOf(st, t).Reading? && PcOf(st, t).todo != [] && PcOf(st, t).todo[0] == row
      requires row in rows && rows[row].name in st.threads[t].cfg.registered
      modifies this
      ensures Valid() && trace == old(trace) + [Create(t, made)] && st == Step(old(st), Create(t, made))
    {
      made := *;
      Record(Create(t, made));
    }

    /** No creator is registered under the row's name. */
    method SkipCreator(t: nat, row: nat)
      requires Valid() && At(st, t) && PcOf(st, t).Reading? && PcOf(st, t).todo != [] && PcOf(st, t).todo[0] == row
      requires row in rows && rows[row].name !in st.threads[t].cfg.registered
      modifies this
      ensures Valid() && trace == old(trace) + [Create(t, false)] && st == Step(old(st), Create(t, false))
    {
      Record(Create(t, false));
    }

    method FinishReading(t: nat)
      requires Valid() && At(st, t) && PcOf(st, t).Reading? && PcOf(st, t).todo == []
      modifies this
      ensures Valid() && trace == old(trace) + [ReadEnd(t)] && st == Step(old(st), ReadEnd(t)) && rows == old(rows)
    {
      Record(ReadEnd(t));
    }

    method ExecuteJob(t: nat) returns (succeeded: bool)
      requires Valid() && At(st, t) && PcOf(st, t).Executing? && PcOf(st, t).jobs != []
      modifies this
      ensures Valid() && trace == old(trace) + [Execute(t, succeeded)] && st == Step(old(st), Execute(t, succeeded))
    {
      succeeded := *;
      Record(Execute(t, succeeded));
    }

    method EndBatch(t: nat)
      requires Valid() && At(st, t) && PcOf(st, t).Executing? && PcOf(st, t).jobs == []
      modifies this
      ensures Valid() && trace == old(trace) + [BatchEnd(t)] && st == Step(old(st), BatchEnd(t))
    {
      Record(BatchEnd(t));
    }

    method UpdateDiscard(t: nat, row: nat) returns (ok: bool)
      requires Valid() && At(st, t) && PcOf(st, t).Discarding? && PcOf(st, t).row == row && row in st.rows
      modifies this
      ensures Valid() && trace == old(trace) + [DiscardRow(t, ok)] && st == Step(old(st), DiscardRow(t, ok))
    {
      ok := *;
      if ok { rows := Resolve(rows, row, Error); }
      Record(DiscardRow(t, ok));
    }

    method UpdateProcessing(t: nat, row: nat) returns (ok: bool)
      requires Valid() && At(st, t) && PcOf(st, t).Marking? && PcOf(st, t).row == row && row in st.rows
      modifies this
      ensures Valid() && trace == old(trace) + [MarkRow(t, ok)] && st == Step(old(st), MarkRow(t, ok))
    {
      ok := *;
      if ok { rows := MarkProcessing(rows, row); }
      Record(MarkRow(t, ok));
    }

    /** The UPDATE with the job's result, then `g_atomic_int_add(&m_pending,-1)`. */
    method UpdateFinished(t: nat, row: nat, succeeded: bool) returns (ok: bool)
      requires Valid() && At(st, t) && PcOf(st, t).Finishing? && PcOf(st, t).workload > 0
      requires PcOf(st, t).jobs != [] && PcOf(st, t).jobs[0] == row && PcOf(st, t).succeeded == succeeded
      modifies this
      ensures Valid() && trace == old(trace) + [FinishRow(t, ok)] && st == Step(old(st), FinishRow(t, ok))
    {
      ok := *;
      if ok { rows := Resolve(rows, row, if succeeded then Complete else Error); }
      pendings := pendings[t := pendings[t] - 1];
      Record(FinishRow(t, ok));
    }

    /** `g_atomic_int_add(&m_pending,1)` */
    method RaisePending(t: nat)
      requires Valid() && At(st, t)
      modifies this
      ensures Valid() && trace == old(trace) + [AddPending(t)] && st == Step(old(st), AddPending(t))
    {
      pendings := pendings[t := pendings[t] + 1];
      Record(AddPending(t));
    }

    /** `g_async_queue_push( m_queue, (gpointer)1)` */
    method PushUnit(t: nat)
      requires Valid() && At(st, t) && st.threads[t].adding > 0
      modifies this
      ensures Valid() && trace == old(trace) + [PushWork(t)] && st == Step(old(st), PushWork(t))
    {
      queues := queues[t := queues[t] + [Work]];
      Record(PushWork(t));
    }

    method SendStop(t: nat)
      requires Valid() && At(st, t)
      modifies this
      ensures Valid() && trace == old(trace) + [PushStop(t)] && st == Step(old(st), PushStop(t))
    {
      queues := queues[t := queues[t] + [Stop]];
      Record(PushStop(t));
    }

    method ClearActive(worker: nat)
      requires Valid() && worker < |active|
      modifies this
      ensures Valid() && trace == old(trace) + [Deactivate(worker)] && st == Step(old(st), Deactivate(worker))
    {
      active := active[worker := false];
      Record(Deactivate(worker));
    }

    /** The run goes on from where it was; actor `a` added exactly `did`; the reserved lock ids are still unused. */
    twostate predicate GoesOn(a: Actor, reserved: set<string>, did: seq<Event>)
      reads this
    {
      st.used !! reserved && Extends(a, old(trace), trace, did)
    }

    /** Let the others run, and recall what that cannot have changed. */
    method Yield(a: Actor, ghost reserved: set<string>)
      requires Valid() && st.used !! reserved
      modifies this
      ensures Valid() && GoesOn(a, reserved, []) && SameSetup(old(st), st)
      ensures forall k :: |old(trace)| <= k < |trace| ==> !Does(a, trace[k])
    {
      ghost var before, es := st, trace;
      Facts();
      Others(a, reserved);
      ghost var more := trace[|es|..];
      assert trace == es + more;
      RunSplit(start, es, more);
      forall e | e in more ensures !Does(a, e) {
        var k :| 0 <= k < |more| && more[k] == e;
        assert trace[|es| + k] == e;
      }
      MineOthers(es, more, a);
      RunSameSetup(before, more);
    }

    /** A work thread keeps its place, its settings and the rows it holds while the others run. */
    method YieldThread(t: nat, ghost reserved: set<string>)
      requires Valid() && At(st, t) && st.used !! reserved
      modifies this
      ensures Valid() && GoesOn(WorkThread(t), reserved, [])
      ensures At(st, t) && PcOf(st, t) == old(PcOf(st, t)) && st.threads[t].cfg == old(st.threads[t].cfg)
      ensures forall id :: Holds(PcOf(st, t), id) ==> id in rows && id in old(rows) && rows[id] == old(rows[id])
    {
      ghost var before, es := st, trace;
      Facts();
      Yield(WorkThread(t), reserved);
      ghost var more := trace[|es|..];
      assert trace == es + more;
      RunSplit(start, es, more);
      OthersKeepMine(before, more, t);
      forall id | Holds(PcOf(before, t), id) ensures id in rows && id in before.rows && rows[id] == before.rows[id] {
        OthersKeepRow(before, more, t, id);
      }
    }
  }

  lemma SameThreadsStep(s: State, e: Event)
    requires Enabled(s, e)
    ensures |Step(s, e).threads| == |s.threads| && |Step(s, e).active| == |s.active|
  {
  }

  /** Threads and processes neither come nor go, and keep their settings. */
  ghost predicate SameSetup(s: State, s': State) {
    && |s'.threads| == |s.threads| && |s'.active| == |s.active|
    && forall t: nat :: At(s, t) ==> s'.threads[t].cfg == s.threads[t].cfg
  }

  lemma {:induction false} RunSameSetup(s: State, es: seq<Event>)
    requires IsRun(s, es)
    ensures SameSetup(s, After(s, es))
    decreases |es|
  {
    if es != [] {
      var mid := After(s, es[..|es| - 1]);
      RunSameSetup(s, es[..|es| - 1]);
      SameThreadsStep(mid, es[|es| - 1]);
      forall t: nat | At(s, t) ensures Step(mid, es[|es| - 1]).threads[t].cfg == s.threads[t].cfg {
        StaysInactive(mid, es[|es| - 1], t);
      }
    }
  }
}
