/**
 * Exclusion between threads does not rest on fresh lock ids. A loose run lets every call stamp any text, even one
 * that is in use: the pid and the thread pointer in front of it still tell the threads apart.
 */
module Exclusion {
  import opened Ids
  import opened Invariant
  import opened JobTable
  import opened LockIds
  import opened Preservation
  import opened Protocol
  import opened Safety

  /** Forgetting which texts were used makes every text look fresh; nothing else reads that record. */
  function Forget(s: State): State {
    s.(used := {})
  }

  ghost predicate LooseEnabled(s: State, e: Event) {
    Enabled(Forget(s), e)
  }

  ghost function LooseStep(s: State, e: Event): State
    requires LooseEnabled(s, e)
  {
    Step(Forget(s), e)
  }

  /** What sets a thread apart: the process it runs in and its address there. */
  datatype Owner = Owner(pid: nat, thread: int)

  ghost predicate StampedBy(lock: string, o: Owner) {
    exists a: Stamp :: a.Valid() && a.pid == o.pid && a.thread == o.thread && OwnerFits(a) && Text(a) == lock
  }

  lemma OneOwner(lock: string, o: Owner, o': Owner)
    requires StampedBy(lock, o) && StampedBy(lock, o')
    ensures o == o' && lock != ""
  {
    var a: Stamp :| a.Valid() && a.pid == o.pid && a.thread == o.thread && OwnerFits(a) && Text(a) == lock;
    var b: Stamp :| b.Valid() && b.pid == o'.pid && b.thread == o'.thread && OwnerFits(b) && Text(b) == lock;
    TextIdentifiesOwner(a, b);
    LockIdIsNotZero(a);
  }

  /** Thread `t` stamps its claims with its own pid and address. */
  predicate OwnStamp(owners: seq<Owner>, e: Event) {
    e.ClaimRows? ==>
      e.t < |owners| && e.stamp.pid == owners[e.t].pid && e.stamp.thread == owners[e.t].thread && OwnerFits(e.stamp)
  }

  ghost predicate AllDifferent(owners: seq<Owner>) {
    forall i, j :: 0 <= i < j < |owners| ==> owners[i] != owners[j]
  }

  // ----- Invariant -----

  predicate HasLock(pc: Pc) {
    !(pc.Top? || pc.Waiting? || pc.Draining? || pc.Claiming? || pc.Exited?)
  }

  /** The rows in hand, in the order in which they are dealt with. */
  function Hand(pc: Pc): seq<nat> {
    match pc
    case Reading(_, _, todo, jobs) => jobs + todo
    case Discarding(_, _, row, _, todo, jobs) => jobs + ([row] + todo)
    case Marking(_, _, row, _, todo, jobs) => jobs + ([row] + todo)
    case Executing(_, _, jobs) => jobs
    case Finishing(_, _, jobs, _) => jobs
    case _ => []
  }

  /** A held row is in progress under its thread's lock, unless its thread has just resolved it. */
  predicate HeldUnder(pc: Pc, id: nat, row: Row) {
    || InProgress(row, LockOf(pc))
    || (pc.Marking? && !pc.made && pc.row == id && row.status == Error && row.lock == "")
  }

  /** What a thread holds: each row once, and each under its lock. */
  ghost predicate RowsOk(s: State, t: nat)
    requires At(s, t)
  {
    var pc := PcOf(s, t);
    && Increasing(Hand(pc))
    && (forall id :: Holds(pc, id) ==> id in s.rows && HeldUnder(pc, id, s.rows[id]))
    && (pc.Selecting? ==> forall id :: id in pc.claimed ==> id in s.rows && s.rows[id].status == Loading)
  }

  /** The lock a thread works under is one it stamped itself. */
  ghost predicate HandOk(s: State, t: nat, o: Owner)
    requires At(s, t)
  {
    RowsOk(s, t) && (HasLock(PcOf(s, t)) ==> StampedBy(LockOf(PcOf(s, t)), o))
  }

  ghost predicate Apart(s: State, t: nat, u: nat)
    requires At(s, t) && At(s, u)
  {
    t != u ==> forall id :: !(Holds(PcOf(s, t), id) && Holds(PcOf(s, u), id))
  }

  ghost predicate LooseInv(s: State, owners: seq<Owner>) {
    && |owners| == |s.threads|
    && (forall t: nat :: At(s, t) ==> HandOk(s, t, owners[t]))
    && (forall t: nat, u: nat :: At(s, t) && At(s, u) ==> Apart(s, t, u))
  }

  /** The frame of every step: one thread moves, and what the others hold stays as it is and theirs. */
  ghost predicate Leaves(s: State, s': State, t: nat) {
    && At(s, t) && |s'.threads| == |s.threads|
    && (forall u: nat :: At(s, u) && u != t ==> PcOf(s', u) == PcOf(s, u))
    && (forall u: nat, id :: At(s, u) && u != t && Holds(PcOf(s, u), id) ==>
          && id in s.rows && id in s'.rows && s'.rows[id] == s.rows[id]
          && !Holds(PcOf(s', t), id))
  }

  lemma LeavesKeeps(s: State, s': State, t: nat, owners: seq<Owner>)
    requires LooseInv(s, owners) && Leaves(s, s', t) && HandOk(s', t, owners[t])
    ensures LooseInv(s', owners)
  {
    forall u: nat | At(s', u) ensures HandOk(s', u, owners[u]) {
      if u != t { assert HandOk(s, u, owners[u]); }
    }
    forall u: nat, v: nat | At(s', u) && At(s', v) ensures Apart(s', u, v) {
      if u != t && v != t { assert Apart(s, u, v); }
    }
  }

  lemma HeldIsMine(s: State, owners: seq<Owner>, t: nat, u: nat, id: nat)
    requires LooseInv(s, owners) && At(s, t) && At(s, u) && t != u && Holds(PcOf(s, u), id)
    ensures id in s.rows && s.rows[id].status != Pending && !Holds(PcOf(s, t), id)
    ensures AllDifferent(owners) && HasLock(PcOf(s, t)) ==> s.rows[id].lock != LockOf(PcOf(s, t))
  {
    assert HandOk(s, u, owners[u]) && HandOk(s, t, owners[t]) && Apart(s, t, u);
    var pc, pu := PcOf(s, t), PcOf(s, u);
    if HasLock(pc) {
      OneOwner(LockOf(pc), owners[t], owners[t]);
      if s.rows[id].lock == LockOf(pc) {
        assert HasLock(pu) && s.rows[id].lock == LockOf(pu);
        OneOwner(LockOf(pc), owners[t], owners[u]);
      }
    }
  }

  // ----- Preservation -----

  /** A row that thread `t` may deal with: waiting, in its hands, or under its own lock. */
  predicate Within(s: State, t: nat, id: nat)
    requires At(s, t) && id in s.rows
  {
    var pc, row := PcOf(s, t), s.rows[id];
    row.status == Pending || Holds(pc, id) || (HasLock(pc) && row.lock == LockOf(pc))
  }

  /** Thread `t` moves; it changes, and takes into its hands, only rows it may deal with. */
  ghost predicate OwnMove(s: State, s': State, t: nat) {
    && At(s, t) && |s'.threads| == |s.threads|
    && (forall u: nat :: At(s, u) && u != t ==> PcOf(s', u) == PcOf(s, u))
    && (forall id :: id in s.rows && !Within(s, t, id) ==> id in s'.rows && s'.rows[id] == s.rows[id])
    && (forall id :: Holds(PcOf(s', t), id) ==> id in s.rows && Within(s, t, id))
  }

  lemma OwnMoveLoose(s: State, s': State, t: nat, owners: seq<Owner>)
    requires LooseInv(s, owners) && AllDifferent(owners) && OwnMove(s, s', t) && HandOk(s', t, owners[t])
    ensures LooseInv(s', owners)
  {
    forall u: nat, id | At(s, u) && u != t && Holds(PcOf(s, u), id) ensures id in s.rows && !Within(s, t, id) {
      HeldIsMine(s, owners, t, u, id);
    }
    LeavesKeeps(s, s', t, owners);
  }

  lemma QuietLoose(s: State, e: Event, owners: seq<Owner>)
    requires LooseInv(s, owners) && AllDifferent(owners) && Enabled(s, e) && LeavesRows(e) && !e.Deactivate?
    ensures LooseInv(Step(s, e), owners)
  {
    LeavesRowsFrame(s, e);
    QuietMove(s, e);
    assert HandOk(s, e.t, owners[e.t]);
    OwnMoveLoose(s, Step(s, e), e.t, owners);
  }

  /** Such a step leaves the thread with what it held, or with nothing. */
  lemma QuietMove(s: State, e: Event)
    requires Enabled(s, e) && LeavesRows(e) && !e.Deactivate?
    ensures At(s, e.t) && |Step(s, e).threads| == |s.threads|
    ensures forall u: nat :: At(s, u) && u != e.t ==> PcOf(Step(s, e), u) == PcOf(s, u)
    ensures var pc, pc' := PcOf(s, e.t), PcOf(Step(s, e), e.t);
      && (pc' == pc || !HasLock(pc') ||
           (HasLock(pc) && LockOf(pc') == LockOf(pc) && !pc.Marking? && !pc'.Marking? && !pc'.Selecting?))
      && (Hand(pc') == Hand(pc) || Hand(pc') == [])
      && (forall id :: Holds(pc', id) ==> Holds(pc, id))
      && (!HasLock(pc') ==> forall id :: !Holds(pc', id))
  {
  }

  /** New rows and shutdowns move no thread. */
  lemma OutsideLoose(s: State, e: Event, owners: seq<Owner>)
    requires LooseInv(s, owners) && Enabled(s, e) && (e.Insert? || e.Deactivate?)
    ensures LooseInv(Step(s, e), owners)
  {
    var s' := Step(s, e);
    forall t: nat | At(s', t) ensures HandOk(s', t, owners[t]) { assert HandOk(s, t, owners[t]); }
    forall t: nat, u: nat | At(s', t) && At(s', u) ensures Apart(s', t, u) { assert Apart(s, t, u); }
  }

  lemma ClaimLoose(s: State, t: nat, stamp: Stamp, owners: seq<Owner>)
    requires LooseInv(s, owners) && AllDifferent(owners) && Enabled(s, ClaimRows(t, stamp, true))
    requires OwnStamp(owners, ClaimRows(t, stamp, true))
    ensures LooseInv(ClaimStep(s, t, Text(stamp)), owners)
  {
    PickedIsFront(s.rows, PcOf(s, t).workload);
    assert StampedBy(Text(stamp), owners[t]);
    OwnMoveLoose(s, ClaimStep(s, t, Text(stamp)), t, owners);
  }

  lemma SelectedRows(rows: Table, lock: string, workload: nat, id: nat)
    requires id in Select(rows, lock, workload)
    ensures id in rows && rows[id].status == Loading && rows[id].lock == lock
  {
    assert id in LockedIds(rows, lock);
  }

  lemma SelectHand(s: State, t: nat, stored: bool)
    requires At(s, t) && PcOf(s, t).Selecting? && RowsOk(s, t)
    ensures RowsOk(SelectStep(s, t, true, stored), t)
  {
    var s', pc := SelectStep(s, t, true, stored), PcOf(s, t);
    if stored {
      var ids := Select(s.rows, pc.lock, pc.workload);
      assert Hand(PcOf(s', t)) == ids;
      forall id | Holds(PcOf(s', t), id) ensures id in s.rows && HeldUnder(PcOf(s', t), id, s.rows[id]) {
        SelectedRows(s.rows, pc.lock, pc.workload, id);
      }
    }
  }

  lemma SelectLoose(s: State, t: nat, stored: bool, owners: seq<Owner>)
    requires LooseInv(s, owners) && AllDifferent(owners) && At(s, t) && PcOf(s, t).Selecting?
    ensures LooseInv(SelectStep(s, t, true, stored), owners)
  {
    assert HandOk(s, t, owners[t]);
    SelectHand(s, t, stored);
    OwnMoveLoose(s, SelectStep(s, t, true, stored), t, owners);
  }

  lemma ReleaseLoose(s: State, t: nat, ok: bool, owners: seq<Owner>)
    requires LooseInv(s, owners) && AllDifferent(owners) && At(s, t) && PcOf(s, t).Releasing?
    ensures LooseInv(ReleaseStep(s, t, ok), owners)
  {
    OwnMoveLoose(s, ReleaseStep(s, t, ok), t, owners);
  }

  /** The next row of the hand is not among the rest of it. */
  lemma HandHead(jobs: seq<nat>, row: nat, todo: seq<nat>)
    requires Increasing(jobs + ([row] + todo))
    ensures row !in jobs && row !in todo
    ensures Increasing(jobs + todo) && Increasing((jobs + [row]) + todo)
  {
    assert ([row] + todo)[1..] == todo;
    BatchHead(|jobs| + |todo| + 1, "x", {"x"}, [row] + todo, jobs);
  }

  lemma CreateHand(s: State, t: nat, made: bool)
    requires Enabled(s, Create(t, made)) && RowsOk(s, t)
    ensures RowsOk(CreateStep(s, t, made), t)
  {
    var pc := PcOf(s, t);
    assert [pc.todo[0]] + pc.todo[1..] == pc.todo;
    HandHead(pc.jobs, pc.todo[0], pc.todo[1..]);
  }

  lemma CreateLoose(s: State, t: nat, made: bool, owners: seq<Owner>)
    requires LooseInv(s, owners) && AllDifferent(owners) && Enabled(s, Create(t, made))
    ensures LooseInv(CreateStep(s, t, made), owners)
  {
    assert HandOk(s, t, owners[t]);
    CreateHand(s, t, made);
    OwnMoveLoose(s, CreateStep(s, t, made), t, owners);
  }

  lemma DiscardHand(s: State, t: nat, ok: bool)
    requires Enabled(s, DiscardRow(t, ok)) && RowsOk(s, t)
    ensures RowsOk(DiscardStep(s, t, ok), t)
  {
    var pc := PcOf(s, t);
    HandHead(pc.jobs, pc.row, pc.todo);
  }

  lemma DiscardLoose(s: State, t: nat, ok: bool, owners: seq<Owner>)
    requires LooseInv(s, owners) && AllDifferent(owners) && Enabled(s, DiscardRow(t, ok))
    ensures LooseInv(DiscardStep(s, t, ok), owners)
  {
    assert HandOk(s, t, owners[t]);
    DiscardHand(s, t, ok);
    OwnMoveLoose(s, DiscardStep(s, t, ok), t, owners);
  }

  lemma MarkHand(s: State, t: nat, ok: bool)
    requires Enabled(s, MarkRow(t, ok)) && RowsOk(s, t)
    ensures RowsOk(MarkStep(s, t, ok), t)
  {
    var pc := PcOf(s, t);
    HandHead(pc.jobs, pc.row, pc.todo);
  }

  lemma MarkLoose(s: State, t: nat, ok: bool, owners: seq<Owner>)
    requires LooseInv(s, owners) && AllDifferent(owners) && Enabled(s, MarkRow(t, ok))
    ensures LooseInv(MarkStep(s, t, ok), owners)
  {
    assert HandOk(s, t, owners[t]);
    MarkHand(s, t, ok);
    OwnMoveLoose(s, MarkStep(s, t, ok), t, owners);
  }

  lemma FinishHand(s: State, t: nat, ok: bool)
    requires Enabled(s, FinishRow(t, ok)) && RowsOk(s, t)
    ensures RowsOk(FinishStep(s, t, ok), t)
  {
    var pc := PcOf(s, t);
    assert Holds(pc, pc.jobs[0]);
    assert pc.jobs[0] !in pc.jobs[1..];
  }

  lemma FinishLoose(s: State, t: nat, ok: bool, owners: seq<Owner>)
    requires LooseInv(s, owners) && AllDifferent(owners) && Enabled(s, FinishRow(t, ok))
    ensures LooseInv(FinishStep(s, t, ok), owners)
  {
    assert HandOk(s, t, owners[t]);
    FinishHand(s, t, ok);
    OwnMoveLoose(s, FinishStep(s, t, ok), t, owners);
  }

  lemma StepLoose(s: State, e: Event, owners: seq<Owner>)
    requires LooseInv(s, owners) && AllDifferent(owners) && Enabled(s, e) && OwnStamp(owners, e)
    ensures LooseInv(Step(s, e), owners)
  {
    if e.Insert? || e.Deactivate? {
      OutsideLoose(s, e, owners);
    } else if LeavesRows(e) {
      QuietLoose(s, e, owners);
    } else {
      StatementLoose(s, e, owners);
    }
  }

  lemma StatementLoose(s: State, e: Event, owners: seq<Owner>)
    requires LooseInv(s, owners) && AllDifferent(owners) && Enabled(s, e) && OwnStamp(owners, e)
    requires !e.Insert? && !LeavesRows(e)
    ensures LooseInv(Step(s, e), owners)
  {
    match e {
      case ClaimRows(t, stamp, _) => ClaimLoose(s, t, stamp, owners);
      case SelectRows(t, _, stored) => SelectLoose(s, t, stored, owners);
      case ReleaseRows(t, ok) => ReleaseLoose(s, t, ok, owners);
      case Create(t, made) => CreateLoose(s, t, made, owners);
      case DiscardRow(t, ok) => DiscardLoose(s, t, ok, owners);
      case MarkRow(t, ok) => MarkLoose(s, t, ok, owners);
      case FinishRow(t, ok) => FinishLoose(s, t, ok, owners);
    }
  }

  // ----- Loose runs -----

  /** Event number `k` leads from state number `k` to the next. */
  ghost predicate LooseNext(trace: seq<State>, es: seq<Event>, owners: seq<Owner>, k: nat)
    requires k < |es| && |trace| == |es| + 1
  {
    LooseEnabled(trace[k], es[k]) && trace[k + 1] == LooseStep(trace[k], es[k]) && OwnStamp(owners, es[k])
  }

  /** `trace` lists the states of a loose run, one more than there are events. */
  ghost predicate IsLooseTrace(trace: seq<State>, es: seq<Event>, owners: seq<Owner>) {
    && |trace| == |es| + 1
    && forall k {:trigger LooseNext(trace, es, owners, k)} :: 0 <= k < |es| ==> LooseNext(trace, es, owners, k)
  }

  lemma {:induction false} LooseTraceInv(trace: seq<State>, es: seq<Event>, owners: seq<Owner>, i: nat)
    requires IsLooseTrace(trace, es, owners) && Initial(trace[0]) && i <= |es|
    requires AllDifferent(owners) && |owners| == |trace[0].threads|
    ensures LooseInv(trace[i], owners)
  {
    if i > 0 {
      LooseTraceInv(trace, es, owners, i - 1);
      assert LooseNext(trace, es, owners, i - 1);
      ForgetKeeps(trace[i - 1], owners);
      StepLoose(Forget(trace[i - 1]), es[i - 1], owners);
    }
  }

  lemma ForgetKeeps(s: State, owners: seq<Owner>)
    requires LooseInv(s, owners)
    ensures LooseInv(Forget(s), owners)
  {
    forall t: nat | At(s, t) ensures HandOk(Forget(s), t, owners[t]) { assert HandOk(s, t, owners[t]); }
    forall t: nat, u: nat | At(s, t) && At(s, u) ensures Apart(Forget(s), t, u) { assert Apart(s, t, u); }
  }

  /**
   * Exclusion without fresh lock ids: even if clocks stand still or run backwards, no row is in the hands of two
   * threads, and a row with a live job is in progress under a lock that its thread stamped.
   */
  lemma ExclusiveAnyway(trace: seq<State>, es: seq<Event>, owners: seq<Owner>, t: nat, u: nat, id: nat)
    requires IsLooseTrace(trace, es, owners) && Initial(trace[0])
    requires AllDifferent(owners) && |owners| == |trace[0].threads|
    requires var s := trace[|es|]; At(s, t) && At(s, u) && t != u
    ensures var s := trace[|es|];
      && |owners| == |s.threads|
      && !(Holds(PcOf(s, t), id) && Holds(PcOf(s, u), id))
      && (HasJob(PcOf(s, t), id) ==> id in s.rows && InProgress(s.rows[id], LockOf(PcOf(s, t))))
      && (HasLock(PcOf(s, t)) ==> StampedBy(LockOf(PcOf(s, t)), owners[t]))
  {
    LooseTraceInv(trace, es, owners, |es|);
    var s := trace[|es|];
    assert HandOk(s, t, owners[t]) && Apart(s, t, u);
    var pc := PcOf(s, t);
    if HasJob(pc, id) && pc.Marking? && id == pc.row { HandHead(pc.jobs, pc.row, pc.todo); }
    if HasJob(pc, id) && pc.Marking? && id in pc.jobs { HandHead(pc.jobs, pc.row, pc.todo); }
  }
}
