/**
 * At-most-once execution when lock texts may repeat: which rows a reused text can bring back, that nothing else runs a
 * job twice, and that such a row does get run again.
 */
module Reuse {
  import opened Exclusion
  import opened Ids
  import opened Invariant
  import opened JobTable
  import LockIds
  import opened Preservation
  import opened Protocol
  import opened Safety
  import opened Shutdown

  // ----- How long a row reads loading -----

  /** A statement about row `id` that works. */
  predicate Updates(s: State, e: Event, id: nat) {
    match e
    case DiscardRow(t, ok) => ok && At(s, t) && PcOf(s, t).Discarding? && PcOf(s, t).row == id
    case MarkRow(t, ok) => ok && At(s, t) && PcOf(s, t).Marking? && PcOf(s, t).row == id
    case FinishRow(t, ok) =>
      ok && At(s, t) && PcOf(s, t).Finishing? && PcOf(s, t).jobs != [] && PcOf(s, t).jobs[0] == id
    case _ => false
  }

  /** A claimed row whose status is still the one the claim gave it. */
  predicate ReadsLoading(s: State, id: nat) {
    id in s.rows && s.rows[id].status == Loading
  }

  predicate Moved(s: State, id: nat) {
    id in s.rows && s.rows[id].status != Loading && s.rows[id].status != Pending
  }

  lemma UpdateMoves(s: State, e: Event, id: nat)
    requires Enabled(s, e) && (e.DiscardRow? || e.MarkRow? || e.FinishRow?) && (ReadsLoading(s, id) || Moved(s, id))
    ensures if ReadsLoading(s, id) && !Updates(s, e, id) then ReadsLoading(Step(s, e), id) else Moved(Step(s, e), id)
  {
  }

  lemma OthersLeave(s: State, e: Event, id: nat)
    requires Enabled(s, e) && !e.DiscardRow? && !e.MarkRow? && !e.FinishRow? && (ReadsLoading(s, id) || Moved(s, id))
    ensures !Updates(s, e, id)
    ensures ReadsLoading(Step(s, e), id) <==> ReadsLoading(s, id)
    ensures Moved(Step(s, e), id) <==> Moved(s, id)
  {
    if LeavesRows(e) {
      LeavesRowsFrame(s, e);
    } else {
      StatementsLeave(s, e, id);
    }
  }

  lemma StatementsLeave(s: State, e: Event, id: nat)
    requires Enabled(s, e) && !e.DiscardRow? && !e.MarkRow? && !e.FinishRow? && !LeavesRows(e)
    requires ReadsLoading(s, id) || Moved(s, id)
    ensures id in Step(s, e).rows && Step(s, e).rows[id].status == s.rows[id].status
  {
    if e.ClaimRows? { assert id !in ClaimableIds(s.rows); }
  }

  lemma LoadingStep(s: State, e: Event, id: nat)
    requires Enabled(s, e) && (ReadsLoading(s, id) || Moved(s, id))
    ensures ReadsLoading(Step(s, e), id) <==> ReadsLoading(s, id) && !Updates(s, e, id)
    ensures ReadsLoading(Step(s, e), id) || Moved(Step(s, e), id)
  {
    if e.DiscardRow? || e.MarkRow? || e.FinishRow? { UpdateMoves(s, e, id); } else { OthersLeave(s, e, id); }
  }

  lemma LoadingNext(trace: seq<State>, es: seq<Event>, owners: seq<Owner>, k: nat, id: nat)
    requires IsLooseTrace(trace, es, owners) && k < |es| && (ReadsLoading(trace[k], id) || Moved(trace[k], id))
    ensures ReadsLoading(trace[k + 1], id) <==> ReadsLoading(trace[k], id) && !Updates(trace[k], es[k], id)
    ensures ReadsLoading(trace[k + 1], id) || Moved(trace[k + 1], id)
  {
    assert LooseNext(trace, es, owners, k);
    LoadingStep(Forget(trace[k]), es[k], id);
    assert Updates(Forget(trace[k]), es[k], id) <==> Updates(trace[k], es[k], id);
  }

  /** None of the events from number `i` up to number `j` is a statement about row `id` that works. */
  predicate NoUpdates(trace: seq<State>, es: seq<Event>, i: nat, j: nat, id: nat)
    requires i <= j <= |es| && |trace| == |es| + 1
  {
    i == j || (NoUpdates(trace, es, i, j - 1, id) && !Updates(trace[j - 1], es[j - 1], id))
  }

  /** From its claim on, a row reads loading exactly as long as no statement about it has worked. */
  lemma {:induction false} LoadingUntilUpdated(trace: seq<State>, es: seq<Event>, owners: seq<Owner>, i: nat, j: nat,
                                               id: nat)
    requires IsLooseTrace(trace, es, owners) && i <= j <= |es| && ReadsLoading(trace[i], id)
    ensures ReadsLoading(trace[j], id) || Moved(trace[j], id)
    ensures ReadsLoading(trace[j], id) <==> NoUpdates(trace, es, i, j, id)
    decreases j
  {
    if i < j {
      LoadingUntilUpdated(trace, es, owners, i, j - 1, id);
      LoadingNext(trace, es, owners, j - 1, id);
    }
  }

  // ----- Without a reread every job runs once -----

  /** Reads back a row that has been executed, of a type the thread can build again. */
  ghost predicate RereadsRow(s: State, t: nat, id: nat)
    requires At(s, t) && PcOf(s, t).Selecting?
  {
    && id in s.executed && id in Select(s.rows, PcOf(s, t).lock, PcOf(s, t).workload)
    && id in s.rows && s.rows[id].name in s.threads[t].cfg.registered
  }

  ghost predicate Rereads(s: State, e: Event) {
    e.SelectRows? && e.ok && e.stored && At(s, e.t) && PcOf(s, e.t).Selecting? && exists id :: RereadsRow(s, e.t, id)
  }

  /** Jobs in hand are of registered types and, but for one that has just run, were never executed. */
  ghost predicate HandNew(s: State, t: nat)
    requires At(s, t)
  {
    var pc, known := PcOf(s, t), s.threads[t].cfg.registered;
    && (forall id :: HasJob(pc, id) ==> id in s.rows && s.rows[id].name in known)
    && (forall id :: Holds(pc, id) && id in s.executed && id in s.rows && s.rows[id].name in known ==> HasRun(pc, id))
  }

  ghost predicate OnceInv(s: State) {
    && NoRepeats(s.executed)
    && (forall id :: id in s.executed ==> id in s.rows && s.rows[id].status != Pending)
    && (forall t: nat :: At(s, t) ==> HandNew(s, t))
  }

  /** What no step does to rows: lose them, rename them, or make them wait again. */
  ghost predicate RowsGoOn(s: State, s': State) {
    forall id :: id in s.rows ==>
      && id in s'.rows && s'.rows[id].name == s.rows[id].name
      && (s.rows[id].status != Pending ==> s'.rows[id].status != Pending)
  }

  lemma StepRowsGoOn(s: State, e: Event)
    requires Enabled(s, e)
    ensures RowsGoOn(s, Step(s, e))
  {
    if LeavesRows(e) { LeavesRowsFrame(s, e); }
  }

  /** The other threads keep their places and settings. */
  ghost predicate OnlyMoves(s: State, s': State, t: nat) {
    && At(s, t) && |s'.threads| == |s.threads|
    && (forall u: nat :: At(s, u) ==> s'.threads[u].cfg == s.threads[u].cfg)
    && (forall u: nat :: At(s, u) && u != t ==> PcOf(s', u) == PcOf(s, u))
  }

  lemma StepOnlyMoves(s: State, e: Event)
    requires Enabled(s, e) && !e.Insert? && !e.Deactivate?
    ensures OnlyMoves(s, Step(s, e), e.t)
  {
    forall u: nat | At(s, u) ensures Step(s, e).threads[u].cfg == s.threads[u].cfg { CfgStays(s, e, u); }
    forall u: nat | At(s, u) && u != e.t ensures PcOf(Step(s, e), u) == PcOf(s, u) { OthersKeepPc(s, e, u); }
    CountStays(s, e);
  }

  lemma CountStays(s: State, e: Event)
    requires Enabled(s, e)
    ensures |Step(s, e).threads| == |s.threads|
  {
  }

  lemma ExecutedStep(s: State, e: Event)
    requires Enabled(s, e)
    ensures Step(s, e).executed == s.executed + if e.Execute? then [PcOf(s, e.t).jobs[0]] else []
  {
  }

  lemma OthersNew(s: State, e: Event, owners: seq<Owner>, u: nat)
    requires LooseInv(s, owners) && OnceInv(s) && Enabled(s, e) && !e.Insert? && !e.Deactivate? && At(s, u) && u != e.t
    ensures At(Step(s, e), u) && HandNew(Step(s, e), u)
  {
    StepRowsGoOn(s, e);
    StepOnlyMoves(s, e);
    ExecutedStep(s, e);
    assert HandNew(s, u) && HandOk(s, u, owners[u]) && Apart(s, e.t, u);
  }

  /** The thread that moves, apart from executing, reading back and claiming. */
  ghost predicate Narrows(s: State, s': State, t: nat)
    requires At(s, t) && At(s', t)
  {
    var pc, pc' := PcOf(s, t), PcOf(s', t);
    && (forall id :: Holds(pc', id) ==> Holds(pc, id) && !(HasRun(pc, id) && !HasRun(pc', id)))
    && (forall id :: HasJob(pc', id) ==>
          HasJob(pc, id) || (Holds(pc, id) && id in s.rows && s.rows[id].name in s.threads[t].cfg.registered))
  }

  lemma NarrowNew(s: State, s': State, t: nat, owners: seq<Owner>)
    requires LooseInv(s, owners) && OnceInv(s) && OnlyMoves(s, s', t) && Narrows(s, s', t)
    requires RowsGoOn(s, s') && s'.executed == s.executed
    ensures HandNew(s', t)
  {
    assert HandNew(s, t) && HandOk(s, t, owners[t]);
  }

  lemma QuietNarrows(s: State, e: Event)
    requires Enabled(s, e) && LeavesRows(e) && !e.Deactivate? && !e.Execute?
    ensures At(Step(s, e), e.t) && Narrows(s, Step(s, e), e.t)
  {
  }

  lemma CreateNarrows(s: State, t: nat, made: bool)
    requires Enabled(s, Create(t, made)) && Increasing(Hand(PcOf(s, t)))
    ensures At(CreateStep(s, t, made), t) && Narrows(s, CreateStep(s, t, made), t)
  {
    assert [PcOf(s, t).todo[0]] + PcOf(s, t).todo[1..] == PcOf(s, t).todo;
  }

  lemma RowNarrows(s: State, e: Event)
    requires Enabled(s, e) && (e.DiscardRow? || e.MarkRow? || e.ReleaseRows? || (e.SelectRows? && !(e.ok && e.stored)))
    ensures At(Step(s, e), e.t) && Narrows(s, Step(s, e), e.t)
  {
  }

  lemma FinishNarrows(s: State, t: nat, ok: bool)
    requires Enabled(s, FinishRow(t, ok)) && Increasing(Hand(PcOf(s, t)))
    ensures At(FinishStep(s, t, ok), t) && Narrows(s, FinishStep(s, t, ok), t)
  {
    assert PcOf(s, t).jobs[0] !in PcOf(s, t).jobs[1..];
  }

  lemma StepNarrows(s: State, e: Event, owners: seq<Owner>)
    requires LooseInv(s, owners) && Enabled(s, e)
    requires !e.Insert? && !e.Deactivate? && !e.Execute?
    requires !(e.SelectRows? && e.ok && e.stored) && !(e.ClaimRows? && e.ok)
    ensures At(Step(s, e), e.t) && Narrows(s, Step(s, e), e.t)
  {
    assert HandOk(s, e.t, owners[e.t]);
    if LeavesRows(e) {
      QuietNarrows(s, e);
    } else if e.Create? {
      CreateNarrows(s, e.t, e.made);
    } else if e.FinishRow? {
      FinishNarrows(s, e.t, e.ok);
    } else {
      RowNarrows(s, e);
    }
  }

  lemma ExecuteNew(s: State, t: nat, succeeded: bool, owners: seq<Owner>)
    requires LooseInv(s, owners) && OnceInv(s) && Enabled(s, Execute(t, succeeded))
    ensures PcOf(s, t).jobs[0] !in s.executed && HandNew(ExecuteStep(s, t, succeeded), t)
    ensures PcOf(s, t).jobs[0] in s.rows && s.rows[PcOf(s, t).jobs[0]].status != Pending
  {
    assert HandNew(s, t) && HandOk(s, t, owners[t]);
    assert HasJob(PcOf(s, t), PcOf(s, t).jobs[0]);
  }

  lemma ClaimNew(s: State, t: nat, lock: string)
    requires OnceInv(s) && At(s, t) && PcOf(s, t).Claiming?
    ensures HandNew(ClaimStep(s, t, lock), t)
  {
    var s' := ClaimStep(s, t, lock);
    PickedIsFront(s.rows, PcOf(s, t).workload);
    forall id | Holds(PcOf(s', t), id) ensures id !in s'.executed {
      assert id in Picked(s.rows, PcOf(s, t).workload);
      assert id in s.rows && Claimable(s.rows[id]);
    }
  }

  lemma SelectNew(s: State, t: nat)
    requires OnceInv(s) && At(s, t) && PcOf(s, t).Selecting? && forall id :: !RereadsRow(s, t, id)
    ensures HandNew(SelectStep(s, t, true, true), t)
  {
    var s', pc := SelectStep(s, t, true, true), PcOf(s, t);
    forall id | Holds(PcOf(s', t), id)
      ensures id in s.rows && !(id in s'.executed && s.rows[id].name in s.threads[t].cfg.registered)
    {
      assert id in Select(s.rows, pc.lock, pc.workload);
      SelectedRows(s.rows, pc.lock, pc.workload, id);
      assert !RereadsRow(s, t, id);
    }
  }

  lemma MoverNew(s: State, e: Event, owners: seq<Owner>)
    requires LooseInv(s, owners) && OnceInv(s) && Enabled(s, e) && !Rereads(s, e) && !e.Insert? && !e.Deactivate?
    ensures At(Step(s, e), e.t) && HandNew(Step(s, e), e.t)
  {
    if e.Execute? {
      ExecuteNew(s, e.t, e.succeeded, owners);
    } else if e.ClaimRows? && e.ok {
      ClaimNew(s, e.t, LockIds.Text(e.stamp));
    } else if e.SelectRows? && e.ok && e.stored {
      SelectNew(s, e.t);
    } else {
      StepRowsGoOn(s, e);
      StepOnlyMoves(s, e);
      ExecutedStep(s, e);
      StepNarrows(s, e, owners);
      NarrowNew(s, Step(s, e), e.t, owners);
    }
  }

  lemma OnceStep(s: State, e: Event, owners: seq<Owner>)
    requires LooseInv(s, owners) && OnceInv(s) && Enabled(s, e) && !Rereads(s, e)
    ensures OnceInv(Step(s, e))
  {
    var s' := Step(s, e);
    StepRowsGoOn(s, e);
    ExecutedStep(s, e);
    CountStays(s, e);
    if e.Execute? { ExecuteNew(s, e.t, e.succeeded, owners); }
    forall u: nat | At(s', u) ensures HandNew(s', u) {
      if e.Insert? || e.Deactivate? {
        OutsideNew(s, e, owners, u);
      } else if u == e.t {
        MoverNew(s, e, owners);
      } else {
        OthersNew(s, e, owners, u);
      }
    }
  }

  lemma OutsideNew(s: State, e: Event, owners: seq<Owner>, u: nat)
    requires LooseInv(s, owners) && OnceInv(s) && Enabled(s, e) && (e.Insert? || e.Deactivate?) && At(s, u)
    ensures At(Step(s, e), u) && HandNew(Step(s, e), u)
  {
    assert HandNew(s, u) && HandOk(s, u, owners[u]);
  }

  /**
   * Even with repeated lock texts, a job is executed twice only if some SELECT reads back a row that was executed
   * before; by `LoadingUntilUpdated`, no statement about such a row has worked since it was claimed.
   */
  lemma {:induction false} OnceUnlessReread(trace: seq<State>, es: seq<Event>, owners: seq<Owner>, i: nat)
    requires IsLooseTrace(trace, es, owners) && Initial(trace[0]) && i <= |es|
    requires AllDifferent(owners) && |owners| == |trace[0].threads|
    requires forall k :: 0 <= k < i ==> !Rereads(trace[k], es[k])
    ensures OnceInv(trace[i])
  {
    if i > 0 {
      OnceUnlessReread(trace, es, owners, i - 1);
      LooseTraceInv(trace, es, owners, i - 1);
      var s, e := Forget(trace[i - 1]), es[i - 1];
      assert LooseNext(trace, es, owners, i - 1);
      ForgetKeeps(trace[i - 1], owners);
      ForgetOnce(trace[i - 1], e);
      OnceStep(s, e, owners);
    }
  }

  lemma ForgetOnce(s: State, e: Event)
    requires OnceInv(s) && !Rereads(s, e)
    ensures OnceInv(Forget(s)) && !Rereads(Forget(s), e)
  {
    forall t: nat | At(s, t) ensures HandNew(Forget(s), t) { assert HandNew(s, t); }
    if Rereads(Forget(s), e) {
      var id :| RereadsRow(Forget(s), e.t, id);
      assert RereadsRow(s, e.t, id);
    }
  }

  // ----- A reread row is run again -----

  /** The batch fits into the workload. */
  predicate Room(pc: Pc) {
    match pc
    case Reading(w, _, todo, jobs) => |jobs| + |todo| <= w
    case Discarding(w, _, _, _, todo, jobs) => |jobs| + |todo| < w
    case Marking(w, _, _, _, todo, jobs) => |jobs| + |todo| < w
    case Executing(w, _, jobs) => |jobs| <= w
    case Finishing(w, _, jobs, _) => jobs != [] && |jobs| <= w
    case _ => false
  }

  /** Row `id` will be executed in this batch, if its creator and those of the rows in front of it do their work. */
  predicate Coming(s: State, t: nat, id: nat)
    requires At(s, t)
  {
    var buildable := id in s.rows && s.rows[id].name in s.threads[t].cfg.registered;
    match PcOf(s, t)
    case Reading(_, _, todo, jobs) => id in jobs || (id in todo && buildable)
    case Discarding(_, _, _, _, todo, jobs) => id in jobs || (id in todo && buildable)
    case Marking(_, _, row, made, todo, jobs) => id in jobs || (id == row && made) || (id in todo && buildable)
    case Executing(_, _, jobs) => id in jobs
    case Finishing(_, _, jobs, _) => jobs != [] && id in jobs[1..]
    case _ => false
  }

  /** The next step of the batch, with everything working. */
  function BatchNext(s: State, t: nat): Event
    requires At(s, t) && Room(PcOf(s, t))
  {
    match PcOf(s, t)
    case Reading(_, _, todo, _) => if todo == [] then ReadEnd(t) else Create(t, true)
    case Discarding(_, _, _, _, _, _) => DiscardRow(t, true)
    case Marking(_, _, _, _, _, _) => MarkRow(t, true)
    case Executing(_, _, jobs) => if jobs == [] then BatchEnd(t) else Execute(t, true)
    case Finishing(_, _, _, _) => FinishRow(t, true)
  }

  lemma BatchNextEnabled(s: State, t: nat)
    requires At(s, t) && RowsOk(s, t) && Room(PcOf(s, t))
    ensures Enabled(s, BatchNext(s, t)) && IsOwn(BatchNext(s, t), t)
    ensures ForRow(BatchNext(s, t)) || ForBatch(BatchNext(s, t))
  {
    var pc := PcOf(s, t);
    if pc.Reading? && pc.todo != [] { assert Holds(pc, pc.todo[0]); }
    if pc.Discarding? || pc.Marking? { assert Holds(pc, pc.row); }
  }

  lemma StillComing(s: State, t: nat, id: nat)
    requires At(s, t) && Room(PcOf(s, t)) && Enabled(s, BatchNext(s, t)) && Coming(s, t, id)
    requires PcOf(s, t).Executing? ==> PcOf(s, t).jobs[0] != id
    ensures At(Step(s, BatchNext(s, t)), t)
    ensures Room(PcOf(Step(s, BatchNext(s, t)), t)) && Coming(Step(s, BatchNext(s, t)), t, id)
  {
    var pc := PcOf(s, t);
    if pc.Reading? && pc.todo != [] { assert [pc.todo[0]] + pc.todo[1..] == pc.todo; }
    if pc.Executing? { assert [pc.jobs[0]] + pc.jobs[1..] == pc.jobs; }
  }

  lemma {:induction false} RunCons(s: State, e: Event, es: seq<Event>)
    requires Enabled(s, e) && IsRun(Step(s, e), es)
    ensures IsRun(s, [e] + es) && After(s, [e] + es) == After(Step(s, e), es)
    decreases |es|
  {
    if es == [] {
      RunSnoc(s, [], e);
      assert [e] + es == [] + [e];
    } else {
      RunCons(s, e, es[..|es| - 1]);
      assert ([e] + es)[..|es|] == [e] + es[..|es| - 1];
    }
  }

  lemma {:induction false} BatchRunsAgain(s: State, t: nat, id: nat, owners: seq<Owner>) returns (more: seq<Event>)
    requires LooseInv(s, owners) && AllDifferent(owners) && At(s, t)
    requires Room(PcOf(s, t)) && Coming(s, t, id) && id in s.executed
    ensures IsRun(s, more) && !NoRepeats(After(s, more).executed)
    ensures forall e :: e in more ==> IsOwn(e, t) && !e.ClaimRows? && !e.SelectRows?
    decreases Ahead(PcOf(s, t))
  {
    assert HandOk(s, t, owners[t]);
    BatchNextEnabled(s, t);
    var e := BatchNext(s, t);
    var s' := Step(s, e);
    if PcOf(s, t).Executing? && PcOf(s, t).jobs[0] == id {
      RunCons(s, e, []);
      more := [e] + [];
      var k :| 0 <= k < |s.executed| && s.executed[k] == id;
      assert s'.executed[k] == s'.executed[|s.executed|] == id;
    } else {
      StepLoose(s, e, owners);
      StillComing(s, t, id);
      StepAdvances(s, e);
      ExecutedStep(s, e);
      var rest := BatchRunsAgain(s', t, id, owners);
      RunCons(s, e, rest);
      more := [e] + rest;
    }
  }

  /**
   * And such a SELECT does lead to a second execution: if the creators and statements work, the thread's own next
   * steps run the row again.
   */
  lemma RereadRunsAgain(s: State, t: nat, id: nat, owners: seq<Owner>) returns (more: seq<Event>)
    requires LooseInv(s, owners) && AllDifferent(owners) && At(s, t) && PcOf(s, t).Selecting?
    requires RereadsRow(s, t, id)
    ensures more != [] && more[0] == SelectRows(t, true, true)
    ensures IsRun(s, more) && !NoRepeats(After(s, more).executed)
    ensures forall e :: e in more ==> IsOwn(e, t) && !e.ClaimRows?
  {
    var e := SelectRows(t, true, true);
    SelectLoose(s, t, true, owners);
    var rest := BatchRunsAgain(SelectStep(s, t, true, true), t, id, owners);
    RunCons(s, e, rest);
    more := [e] + rest;
  }
}
