/** Safety over whole runs: exclusion, at-most-once execution, and what becomes of every row. */
module Safety {
  import opened Ids
  import opened LockIds
  import opened JobTable
  import opened Protocol
  import opened Invariant
  import opened Preservation

  function LockOf(pc: Pc): string {
    match pc
    case Selecting(_, lock, _) => lock
    case Releasing(lock, _) => lock
    case Reading(_, lock, _, _) => lock
    case Discarding(_, lock, _, _, _, _) => lock
    case Marking(_, lock, _, _, _, _) => lock
    case Executing(_, lock, _) => lock
    case Finishing(_, lock, _, _) => lock
    case _ => ""
  }

  lemma JobRow(s: State, t: nat, id: nat)
    requires Inv(s) && At(s, t) && HasJob(PcOf(s, t), id)
    ensures id in s.rows && InProgress(s.rows[id], LockOf(PcOf(s, t))) && s.rows[id].lock != ""
  {
    assert ThreadOk(s, t);
    assert Holds(PcOf(s, t), id);
    assert RowOk(s, id);
    var pc := PcOf(s, t);
    if pc.Marking? { BatchHead(pc.workload, pc.lock, s.used, [pc.row] + pc.todo, pc.jobs); }
  }

  lemma HandsDisjoint(s: State, t: nat, u: nat, id: nat)
    requires Inv(s) && At(s, t) && At(s, u) && t != u
    ensures !(Holds(PcOf(s, t), id) && Holds(PcOf(s, u), id))
  {
    assert ThreadOk(s, t) && ThreadOk(s, u);
  }

  /** No row is in the hands of two threads, and a row with a live job is marked as its thread's own. */
  lemma MutualExclusion(s: State, t: nat, u: nat, id: nat)
    requires Reachable(s) && At(s, t) && At(s, u) && t != u
    ensures !(Holds(PcOf(s, t), id) && Holds(PcOf(s, u), id))
    ensures HasJob(PcOf(s, t), id) ==>
      id in s.rows && InProgress(s.rows[id], LockOf(PcOf(s, t))) && s.rows[id].lock != ""
  {
    assert Inv(s) by { ReachableInv(s); }
    HandsDisjoint(s, t, u, id);
    if HasJob(PcOf(s, t), id) { JobRow(s, t, id); }
  }

  // ----- A row that nobody holds and nobody may claim never changes again -----

  predicate Dead(s: State, id: nat) {
    id in s.rows && id in s.fate && (s.fate[id].Settled? || s.fate[id].Stranded?)
  }

  lemma DeadNotHeld(s: State, t: nat, id: nat)
    requires Inv(s) && At(s, t) && Dead(s, id)
    ensures !Holds(PcOf(s, t), id)
  {
    assert ThreadOk(s, t);
  }

  /** Events that change no row. */
  predicate LeavesRows(e: Event) {
    || e.AddPending? || e.PushWork? || e.PushStop? || e.Deactivate? || e.Test? || e.Timeout? || e.Pop? || e.DrainEnd?
    || e.ReadEnd? || e.Execute? || e.BatchEnd? || (e.ClaimRows? && !e.ok) || (e.SelectRows? && !e.ok)
  }

  lemma LeavesRowsFrame(s: State, e: Event)
    requires Enabled(s, e) && LeavesRows(e)
    ensures Step(s, e).rows == s.rows && Step(s, e).fate == s.fate
  {
  }

  predicate ReadsRows(e: Event) {
    e.SelectRows? || e.ReleaseRows? || e.Create?
  }

  /** What a statement about rows in hand leaves alone. */
  ghost predicate Framed(s: State, s': State, t: nat, id: nat)
    requires At(s, t) && id in s.rows && id in s.fate
  {
    && id in s'.rows && id in s'.fate && s'.rows[id].name == s.rows[id].name
    && (!Holds(PcOf(s, t), id) ==> s'.rows[id] == s.rows[id] && s'.fate[id] == s.fate[id])
    && (s.rows[id].status != Pending ==> s'.rows[id].status != Pending)
  }

  lemma ReadFrame(s: State, e: Event, id: nat)
    requires Inv(s) && Enabled(s, e) && ReadsRows(e) && id in s.rows
    ensures Framed(s, Step(s, e), e.t, id)
  {
    assert ThreadOk(s, e.t);
    if e.Create? { assert Holds(PcOf(s, e.t), PcOf(s, e.t).todo[0]); }
  }

  lemma DiscardFrame(s: State, t: nat, ok: bool, id: nat)
    requires Inv(s) && Enabled(s, DiscardRow(t, ok)) && id in s.rows
    ensures Framed(s, DiscardStep(s, t, ok), t, id)
  {
  }

  lemma MarkFrame(s: State, t: nat, ok: bool, id: nat)
    requires Inv(s) && Enabled(s, MarkRow(t, ok)) && id in s.rows
    ensures Framed(s, MarkStep(s, t, ok), t, id)
  {
  }

  lemma FinishFrame(s: State, t: nat, ok: bool, id: nat)
    requires Inv(s) && Enabled(s, FinishRow(t, ok)) && id in s.rows
    ensures Framed(s, FinishStep(s, t, ok), t, id)
  {
    assert Holds(PcOf(s, t), PcOf(s, t).jobs[0]);
  }

  lemma WriteFrame(s: State, e: Event, id: nat)
    requires Inv(s) && Enabled(s, e) && (e.DiscardRow? || e.MarkRow? || e.FinishRow?) && id in s.rows
    ensures Framed(s, Step(s, e), e.t, id)
  {
    match e {
      case DiscardRow(t, ok) => DiscardFrame(s, t, ok, id);
      case MarkRow(t, ok) => MarkFrame(s, t, ok, id);
      case FinishRow(t, ok) => FinishFrame(s, t, ok, id);
    }
  }

  /** Statements about rows in hand touch only those. */
  lemma HandFrame(s: State, e: Event, id: nat)
    requires Inv(s) && Enabled(s, e) && !LeavesRows(e) && !e.Insert? && !e.ClaimRows? && id in s.rows
    ensures Framed(s, Step(s, e), e.t, id)
  {
    if ReadsRows(e) { ReadFrame(s, e, id); } else { WriteFrame(s, e, id); }
  }

  lemma ClaimFrame(s: State, e: Event, id: nat)
    requires Enabled(s, e) && e.ClaimRows? && id in s.rows && id in s.fate
    ensures var s' := Step(s, e);
      && id in s'.rows && id in s'.fate && s'.rows[id].name == s.rows[id].name
      && (!Claimable(s.rows[id]) ==> s'.rows[id] == s.rows[id] && s'.fate[id] == s.fate[id])
      && (s.rows[id].status != Pending ==> s'.rows[id].status != Pending)
  {
    PickedIsFront(s.rows, PcOf(s, e.t).workload);
  }

  lemma DeadStep(s: State, e: Event, id: nat)
    requires Inv(s) && Enabled(s, e) && Dead(s, id)
    ensures var s' := Step(s, e);
      id in s'.rows && id in s'.fate && s'.rows[id] == s.rows[id] && s'.fate[id] == s.fate[id]
  {
    assert RowOk(s, id);
    if LeavesRows(e) {
      LeavesRowsFrame(s, e);
    } else if e.ClaimRows? {
      ClaimFrame(s, e, id);
    } else if !e.Insert? {
      DeadNotHeld(s, e.t, id);
      HandFrame(s, e, id);
    }
  }

  /** A settled row keeps its result, and a stranded row is never picked up again, whatever happens. */
  lemma {:induction false} DeadForever(s: State, es: seq<Event>, id: nat)
    requires Inv(s) && IsRun(s, es) && Dead(s, id)
    ensures var s' := After(s, es);
      id in s'.rows && id in s'.fate && s'.rows[id] == s.rows[id] && s'.fate[id] == s.fate[id]
    decreases |es|
  {
    if es != [] {
      DeadForever(s, es[..|es| - 1], id);
      RunKeeps(s, es[..|es| - 1]);
      DeadStep(After(s, es[..|es| - 1]), es[|es| - 1], id);
    }
  }

  // ----- Rows stay, keep their names, and never become pending again -----

  lemma TakenStep(s: State, e: Event, id: nat)
    requires Inv(s) && Enabled(s, e) && id in s.rows
    ensures var s' := Step(s, e);
      id in s'.rows && s'.rows[id].name == s.rows[id].name
      && (s.rows[id].status != Pending ==> s'.rows[id].status != Pending)
  {
    if LeavesRows(e) {
      LeavesRowsFrame(s, e);
    } else if e.ClaimRows? {
      ClaimFrame(s, e, id);
    } else if !e.Insert? {
      HandFrame(s, e, id);
    }
  }

  lemma {:induction false} NeverPendingAgain(s: State, es: seq<Event>, id: nat)
    requires Inv(s) && IsRun(s, es) && id in s.rows
    ensures var s' := After(s, es);
      id in s'.rows && s'.rows[id].name == s.rows[id].name
      && (s.rows[id].status != Pending ==> s'.rows[id].status != Pending)
    decreases |es|
  {
    if es != [] {
      NeverPendingAgain(s, es[..|es| - 1], id);
      RunKeeps(s, es[..|es| - 1]);
      TakenStep(After(s, es[..|es| - 1]), es[|es| - 1], id);
    }
  }

  // ----- At most one execution -----

  /** The job that event number `k` of the run executes. */
  ghost function ExecutedAt(s: State, es: seq<Event>, k: nat): nat
    requires IsRun(s, es) && k < |es| && es[k].Execute?
  {
    PrefixRun(s, es, k + 1);
    assert es[..k + 1][..k] == es[..k];
    PcOf(After(s, es[..k]), es[k].t).jobs[0]
  }

  lemma PrefixRun(s: State, es: seq<Event>, k: nat)
    requires IsRun(s, es) && k <= |es|
    ensures IsRun(s, es[..k])
  {
    assert es[..k] + es[k..] == es;
    RunSplit(s, es[..k], es[k..]);
  }

  lemma ExecutedStaysStep(s: State, e: Event, id: nat)
    requires Enabled(s, e) && id in s.executed
    ensures id in Step(s, e).executed
  {
  }

  lemma {:induction false} ExecutedStays(s: State, es: seq<Event>, id: nat)
    requires IsRun(s, es) && id in s.executed
    ensures id in After(s, es).executed
    decreases |es|
  {
    if es != [] {
      ExecutedStays(s, es[..|es| - 1], id);
      ExecutedStaysStep(After(s, es[..|es| - 1]), es[|es| - 1], id);
    }
  }

  lemma ExecutionRecorded(s: State, es: seq<Event>, k: nat)
    requires IsRun(s, es) && k < |es| && es[k].Execute?
    ensures IsRun(s, es[..k]) && Enabled(After(s, es[..k]), es[k])
    ensures ExecutedAt(s, es, k) == PcOf(After(s, es[..k]), es[k].t).jobs[0]
    ensures ExecutedAt(s, es, k) in After(s, es).executed
  {
    PrefixRun(s, es, k + 1);
    assert es[..k + 1][..k] == es[..k];
    assert ExecutedAt(s, es, k) in After(s, es[..k + 1]).executed;
    assert es[..k + 1] + es[k + 1..] == es;
    RunSplit(s, es[..k + 1], es[k + 1..]);
    ExecutedStays(After(s, es[..k + 1]), es[k + 1..], ExecutedAt(s, es, k));
  }

  lemma NotExecutedBefore(start: State, es: seq<Event>, j: nat)
    requires Initial(start) && IsRun(start, es) && j < |es| && es[j].Execute?
    ensures IsRun(start, es[..j]) && ExecutedAt(start, es, j) !in After(start, es[..j]).executed
  {
    ExecutionRecorded(start, es, j);
    InitialInv(start);
    RunKeeps(start, es[..j]);
    HandNotRun(After(start, es[..j]), es[j].t);
  }

  lemma ExecutedEarlier(start: State, es: seq<Event>, i: nat, j: nat)
    requires IsRun(start, es) && i < j < |es| && es[i].Execute? && IsRun(start, es[..j])
    ensures ExecutedAt(start, es, i) in After(start, es[..j]).executed
  {
    assert es[..j][..i] == es[..i];
    ExecutionRecorded(start, es, i);
    ExecutionRecorded(start, es[..j], i);
  }

  /** No job is executed twice in a run, even when statements fail in between. */
  lemma AtMostOnce(start: State, es: seq<Event>, i: nat, j: nat)
    requires Initial(start) && IsRun(start, es)
    requires i < j < |es| && es[i].Execute? && es[j].Execute?
    ensures ExecutedAt(start, es, i) != ExecutedAt(start, es, j)
  {
    NotExecutedBefore(start, es, j);
    ExecutedEarlier(start, es, i, j);
  }

  // ----- What becomes of a row -----

  ghost predicate Held(s: State, id: nat) {
    exists t: nat :: At(s, t) && Holds(PcOf(s, t), id)
  }

  /**
   * A row that no thread holds is waiting, finished, or stranded; it is stranded exactly when its status still
   * says loading or processing, and the reason fixes what its columns look like.
   */
  lemma Classification(s: State, id: nat)
    requires Reachable(s) && id in s.rows && !Held(s, id)
    ensures id in s.fate
    ensures s.fate[id].Queued? <==> s.rows[id].status == Pending
    ensures s.fate[id].Queued? <==> Claimable(s.rows[id])
    ensures s.fate[id].Settled? <==> SettledShape(s.rows[id])
    ensures s.fate[id].Stranded? <==> s.rows[id].status == Loading || s.rows[id].status == Processing
    ensures s.fate[id].Stranded? ==> StrandedShape(s.fate[id].why, s.rows[id])
  {
    assert Inv(s) by { ReachableInv(s); }
    assert RowOk(s, id);
    assert forall t: nat :: At(s, t) ==> !Holds(PcOf(s, t), id);
  }

  function StrandedIds(s: State): set<nat> {
    set id | id in s.fate && s.fate[id].Stranded?
  }

  ghost predicate StrandedFor(s: State, id: nat, why: Why) {
    id in s.fate && s.fate[id] == Stranded(why)
  }

  /** The events that strand row `id`, and the reason each gives. */
  ghost predicate StrandsRow(s: State, e: Event, id: nat, why: Why)
    requires Enabled(s, e)
  {
    match e
    case SelectRows(t, ok, stored) => ok && !stored && id in PcOf(s, t).claimed && why == NoResult
    case ReleaseRows(t, ok) => id in PcOf(s, t).claimed && why == SelectFailed(ok)
    case Create(t, _) =>
      && id == PcOf(s, t).todo[0] && why == UnknownKept
      && s.rows[id].name !in s.threads[t].cfg.registered && !s.threads[t].cfg.discard
    case DiscardRow(t, ok) => !ok && !PcOf(s, t).known && id == PcOf(s, t).row && why == DiscardFailed
    case MarkRow(t, ok) =>
      && !PcOf(s, t).made && id == PcOf(s, t).row
      && (ok || s.rows[id].status != Error) && why == NullCreator(s.rows[id].status == Error, ok)
    case FinishRow(t, ok) => !ok && id == PcOf(s, t).jobs[0] && why == ResultLost
    case _ => false
  }

  /** Only a row in hand can be stranded. */
  lemma StrandedFromHand(s: State, e: Event, id: nat, why: Why)
    requires Inv(s) && Enabled(s, e) && StrandsRow(s, e, id, why)
    ensures Holds(PcOf(s, e.t), id) && id in s.fate && s.fate[id] == InHand(e.t)
  {
    assert ThreadOk(s, e.t);
    assert Holds(PcOf(s, e.t), id);
  }

  lemma SelectStrands(s: State, t: nat, ok: bool, stored: bool, id: nat, why: Why)
    requires Enabled(s, SelectRows(t, ok, stored)) && id in s.fate && !s.fate[id].Stranded?
    ensures StrandedFor(SelectStep(s, t, ok, stored), id, why) <==> StrandsRow(s, SelectRows(t, ok, stored), id, why)
  {
  }

  lemma ReleaseStrands(s: State, t: nat, ok: bool, id: nat, why: Why)
    requires Enabled(s, ReleaseRows(t, ok)) && id in s.fate && !s.fate[id].Stranded?
    ensures StrandedFor(ReleaseStep(s, t, ok), id, why) <==> StrandsRow(s, ReleaseRows(t, ok), id, why)
  {
  }

  lemma CreateStrands(s: State, t: nat, made: bool, id: nat, why: Why)
    requires Enabled(s, Create(t, made)) && id in s.fate && !s.fate[id].Stranded?
    ensures StrandedFor(CreateStep(s, t, made), id, why) <==> StrandsRow(s, Create(t, made), id, why)
  {
  }

  lemma DiscardStrands(s: State, t: nat, ok: bool, id: nat, why: Why)
    requires Enabled(s, DiscardRow(t, ok)) && id in s.fate && !s.fate[id].Stranded?
    ensures StrandedFor(DiscardStep(s, t, ok), id, why) <==> StrandsRow(s, DiscardRow(t, ok), id, why)
  {
  }

  lemma MarkStrands(s: State, t: nat, ok: bool, id: nat, why: Why)
    requires Enabled(s, MarkRow(t, ok)) && id in s.fate && !s.fate[id].Stranded?
    ensures StrandedFor(MarkStep(s, t, ok), id, why) <==> StrandsRow(s, MarkRow(t, ok), id, why)
  {
  }

  lemma FinishStrands(s: State, t: nat, ok: bool, id: nat, why: Why)
    requires Enabled(s, FinishRow(t, ok)) && id in s.fate && !s.fate[id].Stranded?
    ensures StrandedFor(FinishStep(s, t, ok), id, why) <==> StrandsRow(s, FinishRow(t, ok), id, why)
  {
  }

  /** No other event strands a row, or puts an end to its being stranded. */
  lemma RestStrands(s: State, e: Event, id: nat)
    requires Enabled(s, e) && (LeavesRows(e) || e.ClaimRows? || e.Insert?) && (id in s.fate ==> !s.fate[id].Stranded?)
    ensures id in Step(s, e).fate ==> !Step(s, e).fate[id].Stranded?
    ensures forall why :: !StrandsRow(s, e, id, why)
  {
    if LeavesRows(e) { LeavesRowsFrame(s, e); }
  }

  lemma FateExists(s: State, e: Event, id: nat)
    requires Enabled(s, e) && !e.Insert?
    ensures id in Step(s, e).fate <==> id in s.fate
  {
  }

  lemma HandStrands(s: State, e: Event, id: nat, why: Why)
    requires Enabled(s, e) && !LeavesRows(e) && !e.ClaimRows? && !e.Insert?
    requires id in s.fate && !s.fate[id].Stranded?
    ensures StrandedFor(Step(s, e), id, why) <==> StrandsRow(s, e, id, why)
  {
    match e {
      case SelectRows(t, ok, stored) => SelectStrands(s, t, ok, stored, id, why);
      case ReleaseRows(t, ok) => ReleaseStrands(s, t, ok, id, why);
      case Create(t, made) => CreateStrands(s, t, made, id, why);
      case DiscardRow(t, ok) => DiscardStrands(s, t, ok, id, why);
      case MarkRow(t, ok) => MarkStrands(s, t, ok, id, why);
      case FinishRow(t, ok) => FinishStrands(s, t, ok, id, why);
    }
  }

  lemma StrandsRowStep(s: State, e: Event, id: nat, why: Why)
    requires Inv(s) && Enabled(s, e)
    ensures StrandedFor(Step(s, e), id, why) <==> StrandedFor(s, id, why) || StrandsRow(s, e, id, why)
  {
    if id in s.fate && s.fate[id].Stranded? {
      DeadStep(s, e, id);
      if StrandsRow(s, e, id, why) { StrandedFromHand(s, e, id, why); }
    } else if LeavesRows(e) || e.ClaimRows? || e.Insert? {
      RestStrands(s, e, id);
    } else {
      FateExists(s, e, id);
      if id in s.fate {
        HandStrands(s, e, id, why);
      } else if StrandsRow(s, e, id, why) {
        StrandedFromHand(s, e, id, why);
      }
    }
  }

  /** Some event of the run strands row `id`, for that reason. */
  ghost predicate StrandedDuring(s: State, es: seq<Event>, id: nat, why: Why)
    requires IsRun(s, es)
    decreases |es|
  {
    es != [] &&
    (StrandedDuring(s, es[..|es| - 1], id, why) || StrandsRow(After(s, es[..|es| - 1]), es[|es| - 1], id, why))
  }

  /** A row is stranded for a reason if and only if it was so at the start or one of the listed events did it. */
  lemma {:induction false} StrandedExactly(s: State, es: seq<Event>, id: nat, why: Why)
    requires Inv(s) && IsRun(s, es)
    ensures StrandedFor(After(s, es), id, why) <==> StrandedFor(s, id, why) || StrandedDuring(s, es, id, why)
    decreases |es|
  {
    if es != [] {
      var front := es[..|es| - 1];
      StrandedExactly(s, front, id, why);
      RunKeeps(s, front);
      StrandsRowStep(After(s, front), es[|es| - 1], id, why);
    }
  }

  /** No event of the run strands any row. */
  ghost predicate NothingStrands(s: State, es: seq<Event>)
    requires IsRun(s, es)
  {
    forall id, why :: !StrandedDuring(s, es, id, why)
  }

  /** The stranded rows only grow, and stay the same if and only if nothing strands any. */
  lemma StrandedSet(s: State, es: seq<Event>)
    requires Inv(s) && IsRun(s, es)
    ensures StrandedIds(s) <= StrandedIds(After(s, es))
    ensures NothingStrands(s, es) <==> StrandedIds(After(s, es)) == StrandedIds(s)
  {
    var s' := After(s, es);
    forall id | id in StrandedIds(s) ensures id in StrandedIds(s') { DeadForever(s, es, id); }
    if NothingStrands(s, es) {
      forall id | id in StrandedIds(s') ensures id in StrandedIds(s) {
        StrandedExactly(s, es, id, s'.fate[id].why);
      }
    } else {
      var id, why :| StrandedDuring(s, es, id, why);
      StrandedExactly(s, es, id, why);
      NotStrandedBefore(s, es, id, why);
    }
  }

  lemma {:induction false} NotStrandedBefore(s: State, es: seq<Event>, id: nat, why: Why)
    requires Inv(s) && IsRun(s, es) && StrandedDuring(s, es, id, why)
    ensures id !in StrandedIds(s)
    decreases |es|
  {
    var front := es[..|es| - 1];
    if StrandedDuring(s, front, id, why) {
      NotStrandedBefore(s, front, id, why);
    } else {
      RunKeeps(s, front);
      StrandedFromHand(After(s, front), es[|es| - 1], id, why);
      if id in StrandedIds(s) { DeadForever(s, front, id); }
    }
  }

  /**
   * Between batches a row waits, or is finished and unlocked, if and only if it was not stranded when the processes
   * started and no event of the run stranded it.
   */
  lemma QuiescentRows(start: State, es: seq<Event>, id: nat)
    requires Initial(start) && IsRun(start, es)
    requires id in After(start, es).rows && !Held(After(start, es), id)
    ensures var row := After(start, es).rows[id];
      Claimable(row) || SettledShape(row) <==>
      id !in StrandedIds(start) && forall why :: !StrandedDuring(start, es, id, why)
  {
    InitialInv(start);
    RunKeeps(start, es);
    var s := After(start, es);
    assert RowOk(s, id);
    assert forall t: nat :: At(s, t) ==> !Holds(PcOf(s, t), id);
    if s.fate[id].Stranded? {
      StrandedExactly(start, es, id, s.fate[id].why);
    } else {
      if id in StrandedIds(start) { DeadForever(start, es, id); }
      forall why ensures !StrandedDuring(start, es, id, why) { StrandedExactly(start, es, id, why); }
    }
  }

  // ----- The poll -----

  /** On rows locked by lock ids or not at all, comparing the lock with 0 means comparing it with "". */
  lemma PollIsClaimable(t: Table)
    requires forall id :: id in t && t[id].lock != "" ==> exists a: Stamp :: a.Valid() && Text(a) == t[id].lock
    ensures PolledIds(t) == ClaimableIds(t)
  {
    forall id | id in t ensures NumericPrefix(t[id].lock) == 0 <==> t[id].lock == "" {
      if t[id].lock != "" {
        var a: Stamp :| a.Valid() && Text(a) == t[id].lock;
        LockIdIsNotZero(a);
      } else {
        LockIdIsNotZero(Stamp(1, 0, 0, 0));
      }
    }
  }

  lemma PollMatches(s: State)
    requires Inv(s)
    ensures PolledIds(s.rows) == ClaimableIds(s.rows)
  {
    LockIdIsNotZero(Stamp(1, 0, 0, 0));
    forall id | id in s.rows ensures id in PolledIds(s.rows) <==> id in ClaimableIds(s.rows) {
      assert RowOk(s, id);
      if s.fate[id].InHand? {
        assert s.rows[id].status != Pending;
      }
    }
  }

  /** In every reachable state the poll counts something exactly when a claim would take something. */
  lemma PollAgreesWithClaim(s: State, workload: nat)
    requires Reachable(s) && workload > 0
    ensures PolledIds(s.rows) == ClaimableIds(s.rows)
    ensures PolledIds(s.rows) != {} <==> Picked(s.rows, workload) != {}
  {
    ReachableInv(s);
    PollMatches(s);
    var c := ClaimableIds(s.rows);
    if c != {} { assert Take(c, workload)[0] in Picked(s.rows, workload); }
    if Picked(s.rows, workload) != {} { assert Take(c, workload) != []; assert Take(c, workload)[0] in c; }
  }

  // ----- The pending counter -----

  function Sends(es: seq<Event>, t: nat): nat {
    if es == [] then 0 else Sends(es[..|es| - 1], t) + if es[|es| - 1] == AddPending(t) then 1 else 0
  }

  /** The jobs of thread `t` that ran to the end. */
  function Finishes(es: seq<Event>, t: nat): nat {
    if es == [] then 0
    else Finishes(es[..|es| - 1], t) + if es[|es| - 1].FinishRow? && es[|es| - 1].t == t then 1 else 0
  }

  lemma PendingStep(s: State, e: Event, t: nat)
    requires Enabled(s, e) && At(s, t)
    ensures At(Step(s, e), t)
    ensures Step(s, e).threads[t].pending == s.threads[t].pending
      + (if e == AddPending(t) then 1 else 0) - (if e.FinishRow? && e.t == t then 1 else 0)
  {
    if e.SelectRows? {
      assert Step(s, e) == SelectStep(s, e.t, e.ok, e.stored);
    } else if e.Create? {
      assert Step(s, e) == CreateStep(s, e.t, e.made);
    } else if e.DiscardRow? {
      assert Step(s, e) == DiscardStep(s, e.t, e.ok);
    } else if e.MarkRow? {
      assert Step(s, e) == MarkStep(s, e.t, e.ok);
    }
  }

  /** Only the sender's own steps change how many units it is between raising m_pending and pushing. */
  lemma AddingStays(s: State, e: Event, t: nat)
    requires Enabled(s, e) && At(s, t) && !((e.AddPending? || e.PushWork?) && e.t == t)
    ensures At(Step(s, e), t) && Step(s, e).threads[t].adding == s.threads[t].adding
  {
  }

  lemma {:induction false} PendingCounts(s: State, es: seq<Event>, t: nat)
    requires IsRun(s, es) && At(s, t)
    ensures At(After(s, es), t)
    ensures After(s, es).threads[t].pending == s.threads[t].pending + Sends(es, t) - Finishes(es, t)
    decreases |es|
  {
    if es != [] {
      PendingCounts(s, es[..|es| - 1], t);
      PendingStep(After(s, es[..|es| - 1]), es[|es| - 1], t);
    }
  }

  /**
   * Every unit sent to a thread has run as a job, or is queued, being sent, in the current batch, or lost; and that
   * is what m_pending shows. It never falls below the work in the queue, and at rest it is the number of units lost.
   */
  lemma PendingLedger(start: State, es: seq<Event>, t: nat)
    requires Initial(start) && IsRun(start, es) && At(start, t)
    ensures At(After(start, es), t)
    ensures var th := After(start, es).threads[t];
      && Sends(es, t) == Finishes(es, t) + WorkCount(th.queue) + th.adding + Unspent(th.pc) + th.lost
      && th.pending == Sends(es, t) - Finishes(es, t)
      && th.pending >= WorkCount(th.queue) + th.lost
  {
    InitialInv(start);
    PendingCounts(start, es, t);
    RunKeeps(start, es);
    assert ThreadOk(After(start, es), t);
  }
}
