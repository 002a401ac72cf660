/**
 * `WorkQueue::find_jobs` and `WorkQueue::run` as imperative code. Before each access to shared state the other
 * threads may take any number of steps; the code is shown to be a run of the protocol under every such
 * interference, so all results about runs hold of it. Each contract lists the thread's own steps, in order.
 */
module WorkQueues {
  import opened Options
  import opened Ids
  import opened LockIds
  import opened JobTable
  import opened Protocol
  import opened Invariant
  import opened Preservation
  import opened Safety
  import opened SharedState

  /** What became of a row of the result: was a job built, and did the two UPDATEs work, where they were sent. */
  datatype RowOutcome = RowOutcome(made: bool, discarded: bool, marked: bool)

  datatype RowRead = RowRead(id: nat, name: string, outcome: RowOutcome)

  /** What `find_jobs` came to. */
  datatype Found = ClaimFailed | SelectFailure(released: bool) | NoResultSet | RowsFound(rows: seq<RowRead>)

  /** `real_execute` of one job, and whether the UPDATE with its result worked. */
  datatype JobResult = JobResult(succeeded: bool, written: bool)

  /** How the drain of the message queue ended: nothing more queued, a stop message, or out of patience. */
  datatype Ended = Empty | Stopped | Impatient

  /** One pass of the main loop: the work messages popped, how that ended, and what was done about them. */
  datatype Pass = Pass(popped: nat, ended: Ended, found: Option<Found>, results: seq<JobResult>)

  /** The rows of which a job was built, in order. */
  function Built(rows: seq<RowRead>): seq<nat> {
    if rows == [] then []
    else Built(rows[..|rows| - 1]) + if rows[|rows| - 1].outcome.made then [rows[|rows| - 1].id] else []
  }

  lemma {:induction false} BuiltExactly(rows: seq<RowRead>, id: nat)
    ensures id in Built(rows) <==> exists k :: 0 <= k < |rows| && rows[k].id == id && rows[k].outcome.made
  {
    if rows != [] {
      var front := rows[..|rows| - 1];
      BuiltExactly(front, id);
      assert forall k :: 0 <= k < |front| ==> front[k] == rows[k];
    }
  }

  /** The batch `find_jobs` hands over, or None where it returns NULL. */
  function JobsOf(found: Found): Option<seq<nat>> {
    match found
    case ClaimFailed => None
    case SelectFailure(_) => None
    case NoResultSet => Some([])
    case RowsFound(rows) => Some(Built(rows))
  }

  function Repeat(e: Event, n: nat): (es: seq<Event>)
    ensures |es| == n && forall k :: 0 <= k < n ==> es[k] == e
  {
    seq(n, _ => e)
  }

  lemma RowInHand(sh: Shared, t: nat)
    requires sh.Valid() && At(sh.st, t) && (PcOf(sh.st, t).Discarding? || PcOf(sh.st, t).Marking?)
    ensures Holds(PcOf(sh.st, t), PcOf(sh.st, t).row) && PcOf(sh.st, t).row in sh.st.rows
  {
    sh.Facts();
    assert ThreadOk(sh.st, t);
    assert Holds(PcOf(sh.st, t), PcOf(sh.st, t).row);
  }

  /** The job ran; if its result could be written, the row says so for good. */
  ghost predicate JobDone(s: State, id: nat, r: JobResult) {
    && id in s.executed
    && (r.written ==>
          && Dead(s, id) && s.rows[id].lock == ""
          && s.rows[id].status == if r.succeeded then Complete else Error)
  }

  ghost predicate JobsDone(s: State, jobs: seq<nat>, results: seq<JobResult>) {
    |results| <= |jobs| && forall k :: 0 <= k < |results| ==> JobDone(s, jobs[k], results[k])
  }

  lemma FinishDone(s: State, t: nat, written: bool)
    requires Inv(s) && Enabled(s, FinishRow(t, written))
    ensures JobDone(Step(s, FinishRow(t, written)), PcOf(s, t).jobs[0], JobResult(PcOf(s, t).succeeded, written))
  {
    HeldExists(s, t, PcOf(s, t).jobs[0]);
    assert HasRun(PcOf(s, t), PcOf(s, t).jobs[0]);
  }

  /** One thread's work queue: its number and the settings it reads. */
  class WorkQueue {
    const sh: Shared
    const t: nat
    const cfg: Config

    constructor (sh: Shared, t: nat, cfg: Config)
      ensures this.sh == sh && this.t == t && this.cfg == cfg
    {
      this.sh := sh;
      this.t := t;
      this.cfg := cfg;
    }

    /** The thread stands at `pc`, with the settings this object reads. */
    ghost predicate Is(pc: Pc)
      reads sh
    {
      sh.Valid() && At(sh.st, t) && sh.st.threads[t].cfg == cfg && PcOf(sh.st, t) == pc
    }

    /** The run went on, and this thread's part of it is exactly `did`. */
    twostate predicate Did(reserved: set<string>, did: seq<Event>)
      reads sh
    {
      sh.GoesOn(WorkThread(t), reserved, did)
    }

    // ----- One row of the result -----

    method Discard(id: nat, ghost pc: Pc, ghost reserved: set<string>) returns (ok: bool)
      requires Is(pc) && pc.Discarding? && pc.row == id && sh.st.used !! reserved
      modifies sh
      ensures Is(if pc.known then Marking(pc.workload, pc.lock, id, false, pc.todo, pc.jobs)
                 else Reading(pc.workload, pc.lock, pc.todo, pc.jobs))
      ensures Did(reserved, [DiscardRow(t, ok)])
      ensures id in old(sh.rows) && id in sh.rows
      ensures var row := old(sh.rows)[id];
        sh.rows[id] == if ok then row.(status := Error, lock := "") else row
    {
      RowInHand(sh, t);
      sh.YieldThread(t, reserved);
      ghost var es := sh.trace;
      ok := sh.UpdateDiscard(t, id);
      MineSnoc(es, DiscardRow(t, ok), WorkThread(t));
    }

    method Mark(id: nat, ghost pc: Pc, ghost reserved: set<string>) returns (ok: bool)
      requires Is(pc) && pc.Marking? && pc.row == id && sh.st.used !! reserved
      modifies sh
      ensures Is(Reading(pc.workload, pc.lock, pc.todo, if pc.made then pc.jobs + [id] else pc.jobs))
      ensures Did(reserved, [MarkRow(t, ok)])
      ensures id in old(sh.rows) && id in sh.rows
      ensures var row := old(sh.rows)[id];
        sh.rows[id] == if ok then row.(status := Processing) else row
    {
      RowInHand(sh, t);
      sh.YieldThread(t, reserved);
      ghost var es := sh.trace;
      ok := sh.UpdateProcessing(t, id);
      MineSnoc(es, MarkRow(t, ok), WorkThread(t));
    }

    /** Looks up the row's type and, if it is registered, has the job built. */
    method Build(id: nat, name: string, ghost pc: Pc, ghost reserved: set<string>) returns (made: bool)
      requires Is(pc) && pc.Reading? && pc.todo != [] && pc.todo[0] == id && sh.st.used !! reserved
      requires id in sh.rows && sh.rows[id].name == name
      modifies sh
      ensures Did(reserved, [Create(t, made)])
      ensures made ==> name in cfg.registered
      ensures id in sh.rows && sh.rows[id] == old(sh.rows)[id]
      ensures Is(AfterCreate(id, name, made, pc))
    {
      assert Holds(pc, id);
      sh.YieldThread(t, reserved);
      ghost var es := sh.trace;
      if name in cfg.registered {
        made := sh.CallCreator(t, id);
      } else {
        made := false;
        sh.SkipCreator(t, id);
      }
      MineSnoc(es, Create(t, made), WorkThread(t));
    }

    /** Where the thread stands once the creator has, or has not, built the job of row `id`. */
    ghost function AfterCreate(id: nat, name: string, made: bool, pc: Pc): Pc
      requires pc.Reading? && pc.todo != []
    {
      var w, l, rest := pc.workload, pc.lock, pc.todo[1..];
      if made then Marking(w, l, id, true, rest, pc.jobs)
      else if cfg.discard then Discarding(w, l, id, name in cfg.registered, rest, pc.jobs)
      else if name in cfg.registered then Marking(w, l, id, false, rest, pc.jobs)
      else Reading(w, l, rest, pc.jobs)
    }

    /** The steps taken after that. */
    function SettleEvents(name: string, o: RowOutcome): seq<Event> {
      (if !o.made && cfg.discard then [DiscardRow(t, o.discarded)] else [])
      + (if name in cfg.registered then [MarkRow(t, o.marked)] else [])
    }

    /** The steps taken for a row of type `name`. */
    function RowEvents(name: string, o: RowOutcome): seq<Event> {
      [Create(t, o.made)] + SettleEvents(name, o)
    }

    /** What those steps make of the row. */
    function RowAfter(row: Row, name: string, o: RowOutcome): Row {
      var row1 := if !o.made && cfg.discard && o.discarded then row.(status := Error, lock := "") else row;
      if name in cfg.registered && o.marked then row1.(status := Processing) else row1
    }

    /** Without a job the row is resolved if the settings say so; rows of a registered type are marked. */
    method Settle(id: nat, name: string, made: bool, ghost pc: Pc, ghost reserved: set<string>) returns (o: RowOutcome)
      requires pc.Reading? && pc.todo != [] && (made ==> name in cfg.registered)
      requires Is(AfterCreate(id, name, made, pc)) && sh.st.used !! reserved && id in sh.rows
      modifies sh
      ensures o.made == made
      ensures Is(Reading(pc.workload, pc.lock, pc.todo[1..], if made then pc.jobs + [id] else pc.jobs))
      ensures Did(reserved, SettleEvents(name, o))
      ensures id in sh.rows && sh.rows[id] == RowAfter(old(sh.rows)[id], name, o)
    {
      var discarded, marked := false, false;
      if !made && cfg.discard {
        discarded := Discard(id, AfterCreate(id, name, made, pc), reserved);
      }
      if name in cfg.registered {
        marked := Mark(id, PcOf(sh.st, t), reserved);
      }
      o := RowOutcome(made, discarded, marked);
    }

    /**
     * Once round the row loop: the row at the head of the result becomes the next job, or is given up. The creator is
     * called; without a job the discarding UPDATE is sent if the settings say so; then, for a registered type, the
     * marking UPDATE. The row's columns follow from which of them worked.
     */
    method ReadRow(id: nat, name: string, ghost pc: Pc, ghost reserved: set<string>) returns (o: RowOutcome)
      requires Is(pc) && pc.Reading? && pc.todo != [] && pc.todo[0] == id && sh.st.used !! reserved
      requires id in sh.rows && sh.rows[id].name == name
      modifies sh
      ensures Is(Reading(pc.workload, pc.lock, pc.todo[1..], if o.made then pc.jobs + [id] else pc.jobs))
      ensures Did(reserved, [Create(t, o.made)] +
        ((if !o.made && cfg.discard then [DiscardRow(t, o.discarded)] else [])
         + (if name in cfg.registered then [MarkRow(t, o.marked)] else [])))
      ensures o.made ==> name in cfg.registered
      ensures id in sh.rows && sh.rows[id].name == name
      ensures sh.rows[id].status ==
        if name in cfg.registered && o.marked then Processing
        else if !o.made && cfg.discard && o.discarded then Error
        else old(sh.rows)[id].status
      ensures sh.rows[id].lock == if !o.made && cfg.discard && o.discarded then "" else old(sh.rows)[id].lock
    {
      var made := Build(id, name, pc, reserved);
      ghost var es := sh.trace;
      o := Settle(id, name, made, pc, reserved);
      ExtendsTwice(WorkThread(t), old(sh.trace), es, sh.trace, [Create(t, made)], SettleEvents(name, o));
    }

    // ----- find_jobs -----

    /** The UPDATE, without any interference in front of it. */
    method ClaimNow(workload: nat, stamp: Stamp, ghost reserved: set<string>) returns (ok: bool)
      requires Is(Claiming(workload)) && stamp.Valid() && sh.st.used !! reserved + {Text(stamp)}
      requires Text(stamp) !in reserved
      modifies sh
      ensures sh.trace == old(sh.trace) + [ClaimRows(t, stamp, ok)]
      ensures Is(if ok then Selecting(workload, Text(stamp), Picked(old(sh.st.rows), workload)) else Top)
      ensures Did(reserved, [ClaimRows(t, stamp, ok)])
    {
      ghost var es := sh.trace;
      ok := sh.UpdateClaim(t, stamp, workload);
      MineSnoc(es, ClaimRows(t, stamp, ok), WorkThread(t));
    }

    /** `at` is the point of the run at which the UPDATE takes effect. */
    method Claim(workload: nat, stamp: Stamp, ghost reserved: set<string>) returns (ok: bool, ghost at: nat)
      requires Is(Claiming(workload)) && stamp.Valid() && sh.st.used !! reserved + {Text(stamp)}
      requires Text(stamp) !in reserved
      modifies sh
      ensures sh.Valid() && |old(sh.trace)| <= at < |sh.trace| && sh.trace[at] == ClaimRows(t, stamp, ok)
      ensures Is(if ok then Selecting(workload, Text(stamp), Picked(StateAt(sh.start, sh.trace, at).rows, workload))
                 else Top)
      ensures Did(reserved, [ClaimRows(t, stamp, ok)])
    {
      sh.YieldThread(t, reserved + {Text(stamp)});
      ghost var es := sh.trace;
      at := |es|;
      ok := ClaimNow(workload, stamp, reserved);
      assert sh.trace[..at] == es;
      ExtendsTwice(WorkThread(t), old(sh.trace), es, sh.trace, [], [ClaimRows(t, stamp, ok)]);
      assert [] + [ClaimRows(t, stamp, ok)] == [ClaimRows(t, stamp, ok)];
    }

    method Fetch(lock: string, workload: nat, ghost claimed: set<nat>, ghost reserved: set<string>)
      returns (result: Fetched)
      requires Is(Selecting(workload, lock, claimed)) && sh.st.used !! reserved
      modifies sh
      ensures Did(reserved, [SelectRows(t, !result.QueryFailed?, result.Rows?)])
      ensures result.QueryFailed? ==> Is(Releasing(lock, claimed))
      ensures result.NoRows? ==> Is(Executing(workload, lock, []))
      ensures result.Rows? ==> Is(Reading(workload, lock, result.ids, [])) && result.ids == Sorted(claimed)
      ensures result.Rows? ==> NamesOf(sh.rows, result.ids, result.names)
    {
      sh.YieldThread(t, reserved);
      ghost var es := sh.trace;
      sh.Facts();
      SelectsClaimed(sh.st, t);
      result := sh.SelectLocked(t, lock, workload);
      MineSnoc(es, SelectRows(t, !result.QueryFailed?, result.Rows?), WorkThread(t));
    }

    method GiveUp(lock: string, ghost claimed: set<nat>, ghost reserved: set<string>) returns (ok: bool)
      requires Is(Releasing(lock, claimed)) && sh.st.used !! reserved
      modifies sh
      ensures Is(Top) && Did(reserved, [ReleaseRows(t, ok)])
    {
      sh.YieldThread(t, reserved);
      ghost var es := sh.trace;
      ok := sh.UpdateRelease(t, lock);
      MineSnoc(es, ReleaseRows(t, ok), WorkThread(t));
    }

    function LoopEvents(rows: seq<RowRead>): seq<Event> {
      if rows == [] then []
      else LoopEvents(rows[..|rows| - 1]) + RowEvents(rows[|rows| - 1].name, rows[|rows| - 1].outcome)
    }

    /** The first rows of the result, as the table has them; a job is built only of a registered type. */
    ghost predicate ReadFrom(table: Table, ids: seq<nat>, rows: seq<RowRead>) {
      && |rows| <= |ids|
      && forall k :: 0 <= k < |rows| ==>
           && rows[k].id == ids[k] && ids[k] in table && table[ids[k]].name == rows[k].name
           && (rows[k].outcome.made ==> rows[k].name in cfg.registered)
    }

    /** The rows read so far are those of the result. */
    ghost predicate ReadsFirst(ids: seq<nat>, names: seq<string>, rows: seq<RowRead>) {
      && |rows| <= |ids| == |names|
      && forall k :: 0 <= k < |rows| ==>
           && rows[k].id == ids[k] && rows[k].name == names[k]
           && (rows[k].outcome.made ==> rows[k].name in cfg.registered)
    }

    /** The row loop takes the steps of one row after those of the rows before it. */
    lemma ReadNext(rows: seq<RowRead>, row: RowRead)
      ensures LoopEvents([]) == [] && Built([]) == []
      ensures LoopEvents(rows + [row]) == LoopEvents(rows) + ([Create(t, row.outcome.made)] +
        ((if !row.outcome.made && cfg.discard then [DiscardRow(t, row.outcome.discarded)] else [])
         + (if row.name in cfg.registered then [MarkRow(t, row.outcome.marked)] else [])))
      ensures Built(rows + [row]) == if row.outcome.made then Built(rows) + [row.id] else Built(rows)
    {
      assert (rows + [row])[..|rows|] == rows;
    }

    lemma StillNamed(es: seq<Event>, ids: seq<nat>, names: seq<string>)
      requires sh.Valid() && IsRun(sh.start, es) && es <= sh.trace
      requires NamesOf(After(sh.start, es).rows, ids, names)
      ensures NamesOf(sh.rows, ids, names)
    {
      PrefixLater(sh.start, es, sh.trace);
    }

    lemma LoopNext(start: seq<Event>, es: seq<Event>, now: seq<Event>, rows: seq<RowRead>, row: RowRead)
      requires Extends(WorkThread(t), start, es, LoopEvents(rows))
      requires Extends(WorkThread(t), es, now, RowEvents(row.name, row.outcome))
      ensures Extends(WorkThread(t), start, now, LoopEvents(rows + [row]))
    {
      ExtendsTwice(WorkThread(t), start, es, now, LoopEvents(rows), RowEvents(row.name, row.outcome));
      assert (rows + [row])[..|rows|] == rows;
    }

    /** Reads one row more. */
    method NextRow(workload: nat, lock: string, ids: seq<nat>, names: seq<string>, rows: seq<RowRead>,
                   ghost reserved: set<string>)
      returns (row: RowRead)
      requires |rows| < |ids| && Is(Reading(workload, lock, ids[|rows|..], Built(rows))) && sh.st.used !! reserved
      requires ReadsFirst(ids, names, rows) && NamesOf(sh.rows, ids, names)
      modifies sh
      ensures ReadsFirst(ids, names, rows + [row])
      ensures Is(Reading(workload, lock, ids[|rows| + 1..], Built(rows + [row])))
      ensures Did(reserved, RowEvents(row.name, row.outcome))
      ensures NamesOf(sh.rows, ids, names)
    {
      var i := |rows|;
      ghost var es := sh.trace;
      var o := ReadRow(ids[i], names[i], Reading(workload, lock, ids[i..], Built(rows)), reserved);
      StillNamed(es, ids, names);
      row := RowRead(ids[i], names[i], o);
      ReadNext(rows, row);
      assert ids[i..][1..] == ids[i + 1..];
    }

    /** Turns the rows read into jobs, in order. */
    method ReadRows(workload: nat, lock: string, ids: seq<nat>, names: seq<string>, ghost reserved: set<string>)
      returns (rows: seq<RowRead>)
      requires Is(Reading(workload, lock, ids, [])) && NamesOf(sh.rows, ids, names) && sh.st.used !! reserved
      modifies sh
      ensures Is(Reading(workload, lock, [], Built(rows)))
      ensures Did(reserved, LoopEvents(rows))
      ensures |rows| == |ids| && ReadsFirst(ids, names, rows) && NamesOf(sh.rows, ids, names)
    {
      rows := [];
      while |rows| < |ids|
        invariant ReadsFirst(ids, names, rows)
        invariant Is(Reading(workload, lock, ids[|rows|..], Built(rows)))
        invariant Did(reserved, LoopEvents(rows))
        invariant NamesOf(sh.rows, ids, names)
        decreases |ids| - |rows|
      {
        ghost var es := sh.trace;
        var row := NextRow(workload, lock, ids, names, rows, reserved);
        LoopNext(old(sh.trace), es, sh.trace, rows, row);
        rows := rows + [row];
      }
    }

    method EndReading(workload: nat, lock: string, jobs: seq<nat>, ghost reserved: set<string>)
      requires Is(Reading(workload, lock, [], jobs)) && sh.st.used !! reserved
      modifies sh
      ensures Is(Executing(workload, lock, jobs)) && Did(reserved, [ReadEnd(t)]) && sh.rows == old(sh.rows)
      ensures Increasing(jobs) && |jobs| <= workload
    {
      sh.Facts();
      assert ThreadOk(sh.st, t);
      assert jobs + [] == jobs;
      ghost var es := sh.trace;
      sh.FinishReading(t);
      MineSnoc(es, ReadEnd(t), WorkThread(t));
    }

    /** The steps after the SELECT. */
    function AfterSelect(found: Found): seq<Event> {
      match found
      case ClaimFailed => []
      case SelectFailure(released) => [ReleaseRows(t, released)]
      case NoResultSet => []
      case RowsFound(rows) => LoopEvents(rows) + [ReadEnd(t)]
    }

    /** The steps after the claim. */
    function ReadEvents(found: Found): seq<Event> {
      if found.ClaimFailed? then []
      else [SelectRows(t, !found.SelectFailure?, found.RowsFound?)] + AfterSelect(found)
    }

    /** Where `find_jobs` leaves the thread. */
    ghost predicate Handed(workload: nat, lock: string, found: Found)
      reads sh
    {
      match JobsOf(found)
      case None => Is(Top)
      case Some(jobs) => Is(Executing(workload, lock, jobs)) && Increasing(jobs) && |jobs| <= workload
    }

    /** Builds the jobs of the rows read. */
    method BuildAll(workload: nat, lock: string, ids: seq<nat>, names: seq<string>, ghost reserved: set<string>)
      returns (rows: seq<RowRead>)
      requires Is(Reading(workload, lock, ids, [])) && NamesOf(sh.rows, ids, names) && sh.st.used !! reserved
      modifies sh
      ensures Did(reserved, LoopEvents(rows) + [ReadEnd(t)])
      ensures |rows| == |ids| && ReadFrom(sh.rows, ids, rows)
      ensures Handed(workload, lock, RowsFound(rows))
    {
      rows := ReadRows(workload, lock, ids, names, reserved);
      ghost var es := sh.trace;
      EndReading(workload, lock, Built(rows), reserved);
      ExtendsTwice(WorkThread(t), old(sh.trace), es, sh.trace, LoopEvents(rows), [ReadEnd(t)]);
    }

    /** What the SELECT came to, dealt with. */
    method UseResult(result: Fetched, workload: nat, lock: string, ghost claimed: set<nat>, ghost reserved: set<string>)
      returns (found: Found)
      requires sh.st.used !! reserved && Is(match result
        case QueryFailed => Releasing(lock, claimed)
        case NoRows => Executing(workload, lock, [])
        case Rows(ids, _) => Reading(workload, lock, ids, []))
      requires result.Rows? ==> NamesOf(sh.rows, result.ids, result.names)
      modifies sh
      ensures !found.ClaimFailed? && Did(reserved, AfterSelect(found)) && Handed(workload, lock, found)
      ensures (found.SelectFailure? <==> result.QueryFailed?) && (found.RowsFound? <==> result.Rows?)
      ensures found.RowsFound? ==>
        |found.rows| == |result.ids| && ReadFrom(sh.rows, result.ids, found.rows)
    {
      match result {
        case QueryFailed =>
          var released := GiveUp(lock, claimed, reserved);
          found := SelectFailure(released);
        case NoRows =>
          found := NoResultSet;
        case Rows(ids, names) =>
          var rows := BuildAll(workload, lock, ids, names, reserved);
          found := RowsFound(rows);
      }
    }

    /** Reads the result of the SELECT and builds the jobs, or gives up. */
    method ReadBack(workload: nat, lock: string, ghost claimed: set<nat>, ghost reserved: set<string>)
      returns (found: Found)
      requires Is(Selecting(workload, lock, claimed)) && sh.st.used !! reserved
      modifies sh
      ensures !found.ClaimFailed? && Did(reserved, ReadEvents(found)) && Handed(workload, lock, found)
      ensures found.RowsFound? ==>
        |found.rows| == |claimed| && ReadFrom(sh.rows, Sorted(claimed), found.rows)
    {
      var result := Fetch(lock, workload, claimed, reserved);
      ghost var es := sh.trace;
      found := UseResult(result, workload, lock, claimed, reserved);
      ExtendsTwice(WorkThread(t), old(sh.trace), es, sh.trace,
                   [SelectRows(t, !result.QueryFailed?, result.Rows?)], AfterSelect(found));
    }

    function FindEvents(stamp: Stamp, found: Found): seq<Event> {
      [ClaimRows(t, stamp, !found.ClaimFailed?)] + ReadEvents(found)
    }

    /** The steps of a call, for each way it can go. */
    lemma FindEventsAre(stamp: Stamp, found: Found)
      ensures FindEvents(stamp, found) == match found
        case ClaimFailed => [ClaimRows(t, stamp, false)]
        case SelectFailure(released) =>
          [ClaimRows(t, stamp, true), SelectRows(t, false, false), ReleaseRows(t, released)]
        case NoResultSet => [ClaimRows(t, stamp, true), SelectRows(t, true, false)]
        case RowsFound(rows) =>
          [ClaimRows(t, stamp, true), SelectRows(t, true, true)] + (LoopEvents(rows) + [ReadEnd(t)])
    {
    }

    /** The rows found are the lowest rows waiting in `table`, as many as the workload asks for, in order. */
    ghost predicate FoundFront(table: Table, workload: nat, found: Found) {
      found.RowsFound? ==>
        && |found.rows| == |Picked(table, workload)|
        && ReadFrom(table, Sorted(Picked(table, workload)), found.rows)
    }

    /** Rows keep their names, so the names read are those at the time of the claim. */
    lemma NamesWere(at: nat, ids: seq<nat>, rows: seq<RowRead>)
      requires sh.Valid() && at <= |sh.trace|
      requires ReadFrom(sh.rows, ids, rows) && forall id :: id in ids ==> id in StateAt(sh.start, sh.trace, at).rows
      ensures ReadFrom(StateAt(sh.start, sh.trace, at).rows, ids, rows)
    {
      PrefixLater(sh.start, sh.trace[..at], sh.trace);
      forall k | 0 <= k < |rows| ensures ids[k] in StateAt(sh.start, sh.trace, at).rows { assert ids[k] in ids; }
    }

    lemma FrontWas(at: nat, workload: nat, found: Found)
      requires sh.Valid() && at <= |sh.trace|
      requires var picked := Picked(StateAt(sh.start, sh.trace, at).rows, workload);
        found.RowsFound? ==> |found.rows| == |picked| && ReadFrom(sh.rows, Sorted(picked), found.rows)
      ensures FoundFront(StateAt(sh.start, sh.trace, at).rows, workload, found)
    {
      var table := StateAt(sh.start, sh.trace, at).rows;
      PickedIsFront(table, workload);
      if found.RowsFound? { NamesWere(at, Sorted(Picked(table, workload)), found.rows); }
    }

    /**
     * Claims up to `workload` rows and builds their jobs. `at` is the point of the run where the claiming UPDATE
     * takes effect: the rows found are exactly the lowest rows waiting there, up to the workload, and the jobs are
     * those whose type is registered and whose creator returned one. Without a result nothing stays in hand.
     */
    method FindJobs(workload: nat, stamp: Stamp, ghost reserved: set<string>)
      returns (found: Found, ghost at: nat)
      requires Is(Claiming(workload)) && stamp.Valid() && sh.st.used !! reserved + {Text(stamp)}
      requires Text(stamp) !in reserved
      modifies sh
      ensures Did(reserved, FindEvents(stamp, found)) && Handed(workload, Text(stamp), found)
      ensures sh.Valid() && |old(sh.trace)| <= at < |sh.trace|
      ensures sh.trace[at] == ClaimRows(t, stamp, !found.ClaimFailed?)
      ensures FoundFront(StateAt(sh.start, sh.trace, at).rows, workload, found)
    {
      var ok;
      ok, at := Claim(workload, stamp, reserved);
      if !ok { return ClaimFailed, at; }
      ghost var es, claimed := sh.trace, Picked(StateAt(sh.start, sh.trace, at).rows, workload);
      found := ReadBack(workload, Text(stamp), claimed, reserved);
      ExtendsTwice(WorkThread(t), old(sh.trace), es, sh.trace, [ClaimRows(t, stamp, true)], ReadEvents(found));
      StateAtStays(sh.start, es, sh.trace, at);
      FrontWas(at, workload, found);
    }

    // ----- The batch -----

    /** `job->real_execute()`, whatever it does. */
    method Perform(workload: nat, lock: string, jobs: seq<nat>, ghost reserved: set<string>) returns (succeeded: bool)
      requires Is(Executing(workload, lock, jobs)) && jobs != [] && sh.st.used !! reserved
      modifies sh
      ensures Is(Finishing(workload, lock, jobs, succeeded)) && Did(reserved, [Execute(t, succeeded)])
      ensures jobs[0] in sh.st.executed
    {
      sh.YieldThread(t, reserved);
      ghost var es := sh.trace;
      succeeded := sh.ExecuteJob(t);
      MineSnoc(es, Execute(t, succeeded), WorkThread(t));
    }

    /** The UPDATE with the result and the count, without any interference in front of them. */
    method WriteNow(workload: nat, lock: string, jobs: seq<nat>, succeeded: bool, ghost reserved: set<string>)
      returns (written: bool)
      requires Is(Finishing(workload, lock, jobs, succeeded)) && jobs != [] && workload > 0 && sh.st.used !! reserved
      modifies sh
      ensures Is(Executing(workload - 1, lock, jobs[1..])) && Did(reserved, [FinishRow(t, written)])
      ensures JobDone(sh.st, jobs[0], JobResult(succeeded, written))
    {
      ghost var es, before := sh.trace, sh.st;
      sh.Facts();
      written := sh.UpdateFinished(t, jobs[0], succeeded);
      FinishDone(before, t, written);
      MineSnoc(es, FinishRow(t, written), WorkThread(t));
    }

    method WriteResult(workload: nat, lock: string, jobs: seq<nat>, succeeded: bool, ghost reserved: set<string>)
      returns (written: bool)
      requires Is(Finishing(workload, lock, jobs, succeeded)) && jobs != [] && workload > 0 && sh.st.used !! reserved
      modifies sh
      ensures Is(Executing(workload - 1, lock, jobs[1..])) && Did(reserved, [FinishRow(t, written)])
      ensures JobDone(sh.st, jobs[0], JobResult(succeeded, written))
    {
      sh.YieldThread(t, reserved);
      ghost var es := sh.trace;
      written := WriteNow(workload, lock, jobs, succeeded, reserved);
      ExtendsTwice(WorkThread(t), old(sh.trace), es, sh.trace, [], [FinishRow(t, written)]);
      assert [] + [FinishRow(t, written)] == [FinishRow(t, written)];
    }

    function JobEvents(results: seq<JobResult>): seq<Event> {
      if results == [] then []
      else
        var r := results[|results| - 1];
        JobEvents(results[..|results| - 1]) + [Execute(t, r.succeeded), FinishRow(t, r.written)]
    }

    method RunJob(workload: nat, lock: string, jobs: seq<nat>, ghost reserved: set<string>) returns (r: JobResult)
      requires Is(Executing(workload, lock, jobs)) && jobs != [] && workload > 0 && sh.st.used !! reserved
      modifies sh
      ensures Is(Executing(workload - 1, lock, jobs[1..]))
      ensures Did(reserved, [Execute(t, r.succeeded), FinishRow(t, r.written)])
      ensures JobDone(sh.st, jobs[0], r)
    {
      var succeeded := Perform(workload, lock, jobs, reserved);
      ghost var es := sh.trace;
      var written := WriteResult(workload, lock, jobs, succeeded, reserved);
      ExtendsTwice(WorkThread(t), old(sh.trace), es, sh.trace, [Execute(t, succeeded)], [FinishRow(t, written)]);
      r := JobResult(succeeded, written);
      assert [Execute(t, succeeded)] + [FinishRow(t, written)] == [Execute(t, r.succeeded), FinishRow(t, r.written)];
    }

    lemma JobNext(start: seq<Event>, es: seq<Event>, now: seq<Event>, results: seq<JobResult>, r: JobResult)
      requires Extends(WorkThread(t), start, es, JobEvents(results))
      requires Extends(WorkThread(t), es, now, [Execute(t, r.succeeded), FinishRow(t, r.written)])
      ensures Extends(WorkThread(t), start, now, JobEvents(results + [r]))
    {
      ExtendsTwice(WorkThread(t), start, es, now, JobEvents(results),
                   [Execute(t, r.succeeded), FinishRow(t, r.written)]);
      assert (results + [r])[..|results|] == results;
    }

    lemma StayDone(es: seq<Event>, jobs: seq<nat>, results: seq<JobResult>)
      requires sh.Valid() && IsRun(sh.start, es) && es <= sh.trace && JobsDone(After(sh.start, es), jobs, results)
      ensures JobsDone(sh.st, jobs, results)
    {
      PrefixLater(sh.start, es, sh.trace);
    }

    /** One job more. */
    method NextJob(workload: nat, lock: string, jobs: seq<nat>, results: seq<JobResult>, ghost reserved: set<string>)
      returns (r: JobResult)
      requires |results| < |jobs| <= workload && sh.st.used !! reserved
      requires Is(Executing(workload - |results|, lock, jobs[|results|..])) && JobsDone(sh.st, jobs, results)
      modifies sh
      ensures Is(Executing(workload - |results| - 1, lock, jobs[|results| + 1..]))
      ensures Did(reserved, [Execute(t, r.succeeded), FinishRow(t, r.written)])
      ensures JobsDone(sh.st, jobs, results + [r])
    {
      ghost var es := sh.trace;
      assert jobs[|results|..][1..] == jobs[|results| + 1..];
      r := RunJob(workload - |results|, lock, jobs[|results|..], reserved);
      StayDone(es, jobs, results);
    }

    /** The jobs in order, each executed and then recorded. */
    method RunJobs(workload: nat, lock: string, jobs: seq<nat>, ghost reserved: set<string>)
      returns (results: seq<JobResult>)
      requires Is(Executing(workload, lock, jobs)) && |jobs| <= workload && sh.st.used !! reserved
      modifies sh
      ensures Is(Executing(workload - |jobs|, lock, [])) && Did(reserved, JobEvents(results))
      ensures |results| == |jobs| && JobsDone(sh.st, jobs, results)
    {
      results := [];
      while |results| < |jobs|
        invariant |results| <= |jobs| && JobsDone(sh.st, jobs, results)
        invariant Is(Executing(workload - |results|, lock, jobs[|results|..])) && Did(reserved, JobEvents(results))
        decreases |jobs| - |results|
      {
        ghost var es := sh.trace;
        var r := NextJob(workload, lock, jobs, results, reserved);
        JobNext(old(sh.trace), es, sh.trace, results, r);
        results := results + [r];
      }
    }

    /** Job number `k` is executed and recorded by steps number `2 * k` and `2 * k + 1`, whatever the others do. */
    lemma {:induction false} JobEventsAt(results: seq<JobResult>, k: nat)
      requires k < |results|
      ensures |JobEvents(results)| == 2 * |results|
      ensures JobEvents(results)[2 * k] == Execute(t, results[k].succeeded)
      ensures JobEvents(results)[2 * k + 1] == FinishRow(t, results[k].written)
    {
      var front := results[..|results| - 1];
      if k < |front| {
        JobEventsAt(front, k);
      } else if front != [] {
        JobEventsAt(front, 0);
      }
    }

    function BatchEvents(results: seq<JobResult>): seq<Event> {
      JobEvents(results) + [BatchEnd(t)]
    }

    /** The batch loop: every job found is run before the thread looks at m_active again. */
    method RunBatch(workload: nat, lock: string, jobs: seq<nat>, ghost reserved: set<string>)
      returns (results: seq<JobResult>)
      requires Is(Executing(workload, lock, jobs)) && |jobs| <= workload && sh.st.used !! reserved
      modifies sh
      ensures Is(Top) && Did(reserved, BatchEvents(results))
      ensures |results| == |jobs| && JobsDone(sh.st, jobs, results)
      ensures forall k :: 0 <= k < |jobs| ==> jobs[k] in sh.st.executed
      ensures forall k :: 0 <= k < |jobs| && results[k].written ==>
        && jobs[k] in sh.rows && sh.rows[jobs[k]].lock == ""
        && sh.rows[jobs[k]].status == if results[k].succeeded then Complete else Error
    {
      results := RunJobs(workload, lock, jobs, reserved);
      ghost var es := sh.trace;
      sh.EndBatch(t);
      StayDone(es, jobs, results);
      MineSnoc(es, BatchEnd(t), WorkThread(t));
      ExtendsTwice(WorkThread(t), old(sh.trace), es, sh.trace, JobEvents(results), [BatchEnd(t)]);
    }

    // ----- run -----

    method WaitForMessage(ghost reserved: set<string>) returns (message: Option<Message>)
      requires Is(Waiting) && sh.st.used !! reserved
      modifies sh
      ensures Is(if message == Some(Work) then Draining(1) else Top)
      ensures Did(reserved, [if message.None? then Timeout(t) else Pop(t)])
    {
      sh.YieldThread(t, reserved);
      ghost var es := sh.trace;
      message := sh.TimedPop(t);
      MineSnoc(es, if message.None? then Timeout(t) else Pop(t), WorkThread(t));
    }

    /** Where the thread stands after try_pop returned `message` with `workload` units counted. */
    function AfterPop(message: Option<Message>, workload: nat): Pc {
      match message
      case None => Claiming(workload)
      case Some(Work) => Draining(workload + 1)
      case Some(Stop) => Top
    }

    method NextMessage(workload: nat, ghost reserved: set<string>) returns (message: Option<Message>)
      requires Is(Draining(workload)) && sh.st.used !! reserved
      modifies sh
      ensures Is(AfterPop(message, workload))
      ensures Did(reserved, [if message.None? then DrainEnd(t) else Pop(t)])
    {
      sh.YieldThread(t, reserved);
      ghost var es := sh.trace;
      message := sh.TryPop(t);
      MineSnoc(es, if message.None? then DrainEnd(t) else Pop(t), WorkThread(t));
    }

    function EndEvents(popped: nat, ended: Ended): seq<Event> {
      match ended
      case Empty => [if popped == 0 then Timeout(t) else DrainEnd(t)]
      case Stopped => [Pop(t)]
      case Impatient => []
    }

    /** `popped` work messages, and then how it ended. */
    function DrainEvents(popped: nat, ended: Ended): seq<Event> {
      Repeat(Pop(t), popped) + EndEvents(popped, ended)
    }

    function AfterDrain(popped: nat, ended: Ended): Pc {
      match ended
      case Empty => if popped == 0 then Top else Claiming(popped)
      case Stopped => Top
      case Impatient => Draining(popped)
    }

    lemma OneMorePop(start: seq<Event>, es: seq<Event>, now: seq<Event>, more: nat)
      requires Extends(WorkThread(t), start, es, Repeat(Pop(t), more))
      requires Extends(WorkThread(t), es, now, [Pop(t)])
      ensures Extends(WorkThread(t), start, now, Repeat(Pop(t), more + 1))
    {
      ExtendsTwice(WorkThread(t), start, es, now, Repeat(Pop(t), more), [Pop(t)]);
      assert Repeat(Pop(t), more) + [Pop(t)] == Repeat(Pop(t), more + 1);
    }

    /** After the first work message: takes what else is queued, up to `patience` messages more. */
    method TakeQueued(patience: nat, ghost reserved: set<string>) returns (popped: nat, ended: Ended)
      requires Is(Draining(1)) && sh.st.used !! reserved
      modifies sh
      ensures popped > 0 && Is(AfterDrain(popped, ended))
      ensures Did(reserved, Repeat(Pop(t), popped - 1) + EndEvents(popped, ended))
      ensures ended.Impatient? ==> popped > patience
    {
      popped := 1;
      while popped <= patience
        invariant 1 <= popped && Is(Draining(popped)) && Did(reserved, Repeat(Pop(t), popped - 1))
      {
        ghost var es := sh.trace;
        var message := NextMessage(popped, reserved);
        if message != Some(Work) {
          ended := if message == None then Empty else Stopped;
          ExtendsTwice(WorkThread(t), old(sh.trace), es, sh.trace, Repeat(Pop(t), popped - 1),
                       EndEvents(popped, ended));
          return popped, ended;
        }
        OneMorePop(old(sh.trace), es, sh.trace, popped - 1);
        popped := popped + 1;
      }
      ended := Impatient;
    }

    lemma FirstPop(popped: nat, ended: Ended)
      requires popped > 0
      ensures [Pop(t)] + (Repeat(Pop(t), popped - 1) + EndEvents(popped, ended)) == DrainEvents(popped, ended)
    {
      assert [Pop(t)] + Repeat(Pop(t), popped - 1) == Repeat(Pop(t), popped);
    }

    /**
     * Waits for a message and takes whatever else is queued. `popped` counts the work messages taken; they make up
     * the workload unless a stop message discards them. It gives up only after more than `patience` of them.
     */
    method Drain(patience: nat, ghost reserved: set<string>) returns (popped: nat, ended: Ended)
      requires Is(Waiting) && sh.st.used !! reserved
      modifies sh
      ensures Is(match ended
        case Empty => if popped == 0 then Top else Claiming(popped)
        case Stopped => Top
        case Impatient => Draining(popped))
      ensures Did(reserved, Repeat(Pop(t), popped) + match ended
        case Empty => [if popped == 0 then Timeout(t) else DrainEnd(t)]
        case Stopped => [Pop(t)]
        case Impatient => [])
      ensures ended.Impatient? ==> popped > patience
    {
      var message := WaitForMessage(reserved);
      if message != Some(Work) {
        ended := if message == None then Empty else Stopped;
        assert DrainEvents(0, ended) == EndEvents(0, ended);
        return 0, ended;
      }
      ghost var es := sh.trace;
      popped, ended := TakeQueued(patience, reserved);
      ExtendsTwice(WorkThread(t), old(sh.trace), es, sh.trace, [Pop(t)],
                   Repeat(Pop(t), popped - 1) + EndEvents(popped, ended));
      FirstPop(popped, ended);
    }

    method KeepGoing(ghost reserved: set<string>) returns (on: bool)
      requires Is(Top) && sh.st.used !! reserved
      modifies sh
      ensures Is(if on then Waiting else Exited) && Did(reserved, [Test(t)])
      ensures on <==> IsActive(sh.st, t)
    {
      sh.YieldThread(t, reserved);
      ghost var es := sh.trace;
      on := sh.TestActive(t, cfg.worker);
      MineSnoc(es, Test(t), WorkThread(t));
    }

    /** What a pass consists of: a drain; if that gave a workload, a claim; if that gave a batch, its jobs. */
    predicate PassShape(pass: Pass, patience: nat) {
      && (pass.found.Some? <==> pass.ended.Empty? && pass.popped > 0)
      && (pass.found.Some? && JobsOf(pass.found.value).Some? ==>
            |pass.results| == |JobsOf(pass.found.value).value|)
      && (pass.ended.Impatient? ==> pass.popped > patience)
    }

    function BatchPart(found: Found, results: seq<JobResult>): seq<Event> {
      if JobsOf(found).Some? then BatchEvents(results) else []
    }

    function PassEvents(stamp: Stamp, pass: Pass): seq<Event> {
      DrainEvents(pass.popped, pass.ended) +
      match pass.found
      case None => []
      case Some(found) => FindEvents(stamp, found) + BatchPart(found, pass.results)
    }

    method Serve(workload: nat, stamp: Stamp, ghost reserved: set<string>)
      returns (found: Found, results: seq<JobResult>)
      requires Is(Claiming(workload)) && stamp.Valid() && sh.st.used !! reserved + {Text(stamp)}
      requires Text(stamp) !in reserved
      modifies sh
      ensures Is(Top) && Did(reserved, FindEvents(stamp, found) + BatchPart(found, results))
      ensures JobsOf(found).Some? ==> |results| == |JobsOf(found).value|
    {
      ghost var at;
      found, at := FindJobs(workload, stamp, reserved);
      results := [];
      ghost var es := sh.trace;
      match JobsOf(found) {
        case None =>
          assert FindEvents(stamp, found) + [] == FindEvents(stamp, found);
        case Some(jobs) =>
          results := RunBatch(workload, Text(stamp), jobs, reserved);
          ExtendsTwice(WorkThread(t), old(sh.trace), es, sh.trace, FindEvents(stamp, found), BatchEvents(results));
      }
    }

    /** One pass of the main loop below the test of m_active. */
    method Round(stamp: Stamp, patience: nat, ghost reserved: set<string>) returns (pass: Pass)
      requires Is(Waiting) && stamp.Valid() && Text(stamp) !in reserved && sh.st.used !! reserved + {Text(stamp)}
      modifies sh
      ensures PassShape(pass, patience) && Did(reserved, PassEvents(stamp, pass))
      ensures Is(if pass.ended.Impatient? then Draining(pass.popped) else Top)
    {
      var popped, ended := Drain(patience, reserved + {Text(stamp)});
      pass := Pass(popped, ended, None, []);
      if ended == Empty && popped > 0 {
        ghost var es := sh.trace;
        var found, results := Serve(popped, stamp, reserved);
        pass := Pass(popped, ended, Some(found), results);
        ExtendsTwice(WorkThread(t), old(sh.trace), es, sh.trace, DrainEvents(popped, ended),
                     FindEvents(stamp, found) + BatchPart(found, results));
      } else {
        assert DrainEvents(popped, ended) + [] == DrainEvents(popped, ended);
      }
    }

    /** Out of the loop, with m_active seen cleared and no row in hand. */
    ghost predicate Left()
      reads sh
    {
      Is(Exited) && !IsActive(sh.st, t) && forall id :: !Holds(PcOf(sh.st, t), id)
    }

    function LapEvents(stamp: Stamp, pass: Pass): seq<Event> {
      [Test(t)] + PassEvents(stamp, pass)
    }

    /** Tests m_active and, while it is set, makes one pass. */
    method Lap(stamp: Stamp, patience: nat, ghost reserved: set<string>) returns (lap: Option<Pass>)
      requires Is(Top) && stamp.Valid() && Text(stamp) !in reserved && sh.st.used !! reserved + {Text(stamp)}
      modifies sh
      ensures match lap
        case None => Left() && Did(reserved, [Test(t)])
        case Some(pass) =>
          && PassShape(pass, patience) && Did(reserved, LapEvents(stamp, pass))
          && Is(if pass.ended.Impatient? then Draining(pass.popped) else Top)
    {
      var on := KeepGoing(reserved + {Text(stamp)});
      if !on { return None; }
      ghost var es := sh.trace;
      var pass := Round(stamp, patience, reserved);
      ExtendsTwice(WorkThread(t), old(sh.trace), es, sh.trace, [Test(t)], PassEvents(stamp, pass));
      lap := Some(pass);
    }

    /** The tests of m_active and the passes that followed them. */
    function PassesEvents(clock: seq<Stamp>, passes: seq<Pass>): seq<Event>
      requires |passes| <= |clock|
    {
      if passes == [] then []
      else
        var k := |passes| - 1;
        PassesEvents(clock, passes[..k]) + LapEvents(clock[k], passes[k])
    }

    lemma NextLap(start: seq<Event>, es: seq<Event>, now: seq<Event>, clock: seq<Stamp>, passes: seq<Pass>, pass: Pass)
      requires |passes| < |clock|
      requires Extends(WorkThread(t), start, es, PassesEvents(clock, passes))
      requires Extends(WorkThread(t), es, now, LapEvents(clock[|passes|], pass))
      ensures Extends(WorkThread(t), start, now, PassesEvents(clock, passes + [pass]))
    {
      ExtendsTwice(WorkThread(t), start, es, now, PassesEvents(clock, passes), LapEvents(clock[|passes|], pass));
      assert (passes + [pass])[..|passes|] == passes;
    }

    /** How often m_active is tested. */
    function Tests(es: seq<Event>): nat {
      if es == [] then 0 else Tests(es[..|es| - 1]) + if es[|es| - 1].Test? then 1 else 0
    }

    lemma {:induction false} TestsAppend(a: seq<Event>, b: seq<Event>)
      ensures Tests(a + b) == Tests(a) + Tests(b)
      decreases |b|
    {
      if b == [] {
        assert a + b == a;
      } else {
        assert (a + b)[..|a + b| - 1] == a + b[..|b| - 1];
        TestsAppend(a, b[..|b| - 1]);
      }
    }

    lemma {:induction false} NoTests(es: seq<Event>)
      requires forall e :: e in es ==> !e.Test?
      ensures Tests(es) == 0
    {
      if es != [] { NoTests(es[..|es| - 1]); }
    }

    lemma {:induction false} LoopTests(rows: seq<RowRead>)
      ensures forall e :: e in LoopEvents(rows) ==> !e.Test?
    {
      if rows != [] { LoopTests(rows[..|rows| - 1]); }
    }

    lemma {:induction false} JobTests(results: seq<JobResult>)
      ensures forall e :: e in JobEvents(results) ==> !e.Test?
    {
      if results != [] { JobTests(results[..|results| - 1]); }
    }

    lemma PassTests(stamp: Stamp, pass: Pass)
      ensures forall e :: e in PassEvents(stamp, pass) ==> !e.Test?
    {
      JobTests(pass.results);
      if pass.found.Some? {
        if pass.found.value.RowsFound? { LoopTests(pass.found.value.rows); }
        assert forall e :: e in FindEvents(stamp, pass.found.value) ==> !e.Test?;
        assert forall e :: e in BatchPart(pass.found.value, pass.results) ==> !e.Test?;
      }
      assert forall e :: e in DrainEvents(pass.popped, pass.ended) ==> !e.Test?;
    }

    lemma LapTests(stamp: Stamp, pass: Pass)
      ensures Tests(LapEvents(stamp, pass)) == 1
    {
      var rest := PassEvents(stamp, pass);
      PassTests(stamp, pass);
      NoTests(rest);
      TestsAppend([Test(t)], rest);
      assert [Test(t)][..0] == [];
    }

    /** One test of m_active for each pass. */
    lemma {:induction false} TestsInRun(clock: seq<Stamp>, passes: seq<Pass>)
      requires |passes| <= |clock|
      ensures Tests(PassesEvents(clock, passes)) == |passes|
    {
      if passes != [] {
        var k := |passes| - 1;
        TestsInRun(clock, passes[..k]);
        LapTests(clock[k], passes[k]);
        TestsAppend(PassesEvents(clock, passes[..k]), LapEvents(clock[k], passes[k]));
      }
    }

    /** The test that found m_active cleared. */
    function LastTest(exited: bool): seq<Event> {
      if exited then [Test(t)] else []
    }

    lemma NoLastTest(start: seq<Event>, now: seq<Event>, did: seq<Event>)
      requires Extends(WorkThread(t), start, now, did)
      ensures Extends(WorkThread(t), start, now, did + LastTest(false))
    {
      assert did + [] == did;
    }

    predicate AllPatient(passes: seq<Pass>, patience: nat) {
      forall k :: 0 <= k < |passes| ==> PassShape(passes[k], patience) && !passes[k].ended.Impatient?
    }

    /** Every pass is of the proper shape, and only the last can have run out of patience. */
    predicate PassesShape(passes: seq<Pass>, patience: nat) {
      passes == [] || (AllPatient(passes[..|passes| - 1], patience) && PassShape(passes[|passes| - 1], patience))
    }

    lemma PatientShape(passes: seq<Pass>, pass: Pass, patience: nat)
      requires AllPatient(passes, patience) && PassShape(pass, patience)
      ensures PassesShape(passes + [pass], patience)
      ensures !pass.ended.Impatient? ==> AllPatient(passes + [pass], patience)
    {
      assert (passes + [pass])[..|passes|] == passes;
    }

    /**
     * The thread's main loop, one pass per clock reading. Its steps are exactly the tests of m_active with the
     * passes between them. It leaves the loop when a test finds m_active cleared, and then it holds no row;
     * otherwise it is observed until the clock readings or the patience run out.
     */
    method Run(clock: seq<Stamp>, patience: nat) returns (passes: seq<Pass>, exited: bool)
      requires Is(Top)
      requires forall k :: 0 <= k < |clock| ==> clock[k].Valid() && Text(clock[k]) !in sh.st.used
      requires forall j, k :: 0 <= j < k < |clock| ==> Text(clock[j]) != Text(clock[k])
      modifies sh
      ensures |passes| <= |clock| && PassesShape(passes, patience)
      ensures Did({}, PassesEvents(clock, passes) + LastTest(exited))
      ensures exited ==> Left()
      ensures !exited ==>
        || (passes != [] && passes[|passes| - 1].ended.Impatient? && Is(Draining(passes[|passes| - 1].popped)))
        || (|passes| == |clock| && Is(Top))
    {
      passes, exited := [], false;
      while |passes| < |clock|
        invariant |passes| <= |clock| && AllPatient(passes, patience) && PassesShape(passes, patience)
        invariant Is(Top) && Did(Texts(clock[|passes|..]), PassesEvents(clock, passes))
        decreases |clock| - |passes|
      {
        ghost var es, k := sh.trace, |passes|;
        ghost var later := Texts(clock[k + 1..]);
        TextsHead(clock, k);
        var lap := Lap(clock[|passes|], patience, later);
        match lap {
          case None =>
            ExtendsTwice(WorkThread(t), old(sh.trace), es, sh.trace, PassesEvents(clock, passes), LastTest(true));
            return passes, true;
          case Some(pass) =>
            NextLap(old(sh.trace), es, sh.trace, clock, passes, pass);
            PatientShape(passes, pass, patience);
            passes := passes + [pass];
            if pass.ended == Impatient { break; }
        }
      }
      NoLastTest(old(sh.trace), sh.trace, PassesEvents(clock, passes));
    }
  }

  ghost function Texts(clock: seq<Stamp>): set<string> {
    set k | 0 <= k < |clock| :: Text(clock[k])
  }

  lemma TextsHead(clock: seq<Stamp>, k: nat)
    requires k < |clock|
    requires forall i, j :: 0 <= i < j < |clock| ==> Text(clock[i]) != Text(clock[j])
    ensures Texts(clock[k..]) == Texts(clock[k + 1..]) + {Text(clock[k])}
    ensures Text(clock[k]) !in Texts(clock[k + 1..])
  {
    var now, later := clock[k..], clock[k + 1..];
    assert now == [clock[k]] + later;
    forall x ensures x in Texts(now) <==> x in Texts(later) + {Text(clock[k])} {
      if x in Texts(later) {
        var i :| 0 <= i < |later| && Text(later[i]) == x;
        assert now[i + 1] == later[i];
      }
      if x == Text(clock[k]) { assert now[0] == clock[k]; }
    }
  }
}
