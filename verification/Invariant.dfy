/** What every step of the protocol keeps. */
module Invariant {
  import opened Ids
  import opened JobTable
  import opened Protocol

  /** The rows a thread is responsible for. */
  predicate Holds(pc: Pc, id: nat) {
    match pc
    case Selecting(_, _, claimed) => id in claimed
    case Releasing(_, claimed) => id in claimed
    case Reading(_, _, todo, jobs) => id in todo || id in jobs
    case Discarding(_, _, row, _, todo, jobs) => id == row || id in todo || id in jobs
    case Marking(_, _, row, _, todo, jobs) => id == row || id in todo || id in jobs
    case Executing(_, _, jobs) => id in jobs
    case Finishing(_, _, jobs, _) => id in jobs
    case _ => false
  }

  /** The rows for which the thread has built a job object that it has not deleted yet. */
  predicate HasJob(pc: Pc, id: nat) {
    match pc
    case Reading(_, _, _, jobs) => id in jobs
    case Discarding(_, _, _, _, _, jobs) => id in jobs
    case Marking(_, _, row, made, _, jobs) => id in jobs || (made && id == row)
    case Executing(_, _, jobs) => id in jobs
    case Finishing(_, _, jobs, _) => id in jobs
    case _ => false
  }

  /** The job in front of the batch has run but its result is not written yet. */
  predicate HasRun(pc: Pc, id: nat) {
    pc.Finishing? && pc.jobs != [] && pc.jobs[0] == id
  }

  predicate InProgress(row: Row, lock: string) {
    (row.status == Loading || row.status == Processing) && row.lock == lock
  }

  /** The columns of a row that a thread holds. */
  predicate HeldShape(pc: Pc, id: nat, row: Row) {
    match pc
    case Selecting(_, lock, _) => row.status == Loading && row.lock == lock
    case Releasing(lock, _) => row.status == Loading && row.lock == lock
    case Reading(_, lock, todo, _) => InProgress(row, lock) && (id in todo ==> row.status == Loading)
    case Discarding(_, lock, head, _, todo, _) =>
      InProgress(row, lock) && (id == head || id in todo ==> row.status == Loading)
    case Marking(_, lock, head, made, todo, _) =>
      if id == head then (row.status == Loading && row.lock == lock) || (!made && row.status == Error && row.lock == "")
      else InProgress(row, lock) && (id in todo ==> row.status == Loading)
    case Executing(_, lock, _) => InProgress(row, lock)
    case Finishing(_, lock, _, _) => InProgress(row, lock)
    case _ => false
  }

  predicate SettledShape(row: Row) {
    (row.status == Complete || row.status == Error) && row.lock == ""
  }

  /** What each way of abandoning a row leaves in its columns. */
  predicate StrandedShape(why: Why, row: Row) {
    match why
    case SelectFailed(released) => row.status == Loading && (row.lock == "" <==> released)
    case NoResult => row.status == Loading && row.lock != ""
    case UnknownKept => row.status == Loading && row.lock != ""
    case DiscardFailed => row.status == Loading && row.lock != ""
    case NullCreator(resolved, marked) =>
      row.status == (if marked then Processing else Loading) && (row.lock == "" <==> resolved) && (resolved ==> marked)
    case ResultLost => (row.status == Loading || row.status == Processing) && row.lock != ""
  }

  predicate RowOk(s: State, id: nat)
    requires id in s.rows && id in s.fate
  {
    var row := s.rows[id];
    && (row.lock != "" ==> row.lock in s.used)
    && match s.fate[id]
       case Queued => Claimable(row)
       case InHand(t) => At(s, t) && Holds(PcOf(s, t), id) && HeldShape(PcOf(s, t), id, row)
       case Settled => SettledShape(row)
       case Stranded(why) => StrandedShape(why, row)
  }

  /** Units popped for the current batch and not yet counted out. */
  function Unspent(pc: Pc): nat {
    match pc
    case Draining(w) => w
    case Claiming(w) => w
    case Selecting(w, _, _) => w
    case Reading(w, _, _, _) => w
    case Discarding(w, _, _, _, _, _) => w
    case Marking(w, _, _, _, _, _) => w
    case Executing(w, _, _) => w
    case Finishing(w, _, _, _) => w
    case _ => 0
  }

  function WorkCount(q: seq<Message>): nat {
    if q == [] then 0 else (if q[0] == Work then 1 else 0) + WorkCount(q[1..])
  }

  /** m_pending accounts for every unit ever sent: queued, being sent, in the batch, or lost. */
  predicate Ledger(th: Thread) {
    th.pending == WorkCount(th.queue) + th.adding + Unspent(th.pc) + th.lost
  }

  ghost predicate Batch(workload: nat, lock: string, used: set<string>, todo: seq<nat>, jobs: seq<nat>) {
    && lock in used && lock != ""
    && Increasing(jobs + todo)
    && |jobs| + |todo| <= workload
  }

  ghost predicate PcOk(s: State, pc: Pc) {
    match pc
    case Selecting(w, lock, claimed) =>
      && lock in s.used && lock != ""
      && |claimed| <= w
      && (forall id :: id in s.rows && s.rows[id].lock == lock ==> id in claimed)
    case Releasing(lock, claimed) =>
      && lock in s.used && lock != ""
      && (forall id :: id in s.rows && s.rows[id].lock == lock ==> id in claimed)
    case Reading(w, lock, todo, jobs) => Batch(w, lock, s.used, todo, jobs)
    case Discarding(w, lock, row, known, todo, jobs) => Batch(w, lock, s.used, [row] + todo, jobs)
    case Marking(w, lock, row, made, todo, jobs) => Batch(w, lock, s.used, [row] + todo, jobs)
    case Executing(w, lock, jobs) => Batch(w, lock, s.used, [], jobs)
    case Finishing(w, lock, jobs, ok) => Batch(w, lock, s.used, [], jobs) && jobs != []
    case _ => true
  }

  ghost predicate ThreadOk(s: State, t: nat)
    requires At(s, t)
  {
    var th := s.threads[t];
    && th.cfg.worker < |s.active|
    && Ledger(th)
    && PcOk(s, th.pc)
    && (forall id :: Holds(th.pc, id) ==> id in s.fate && s.fate[id] == InHand(t))
    && (forall id :: HasJob(th.pc, id) ==> id in s.created && id in s.rows && s.rows[id].name in th.cfg.registered)
  }

  /** Claims take the front of the queue: no row that has been claimed lies behind a waiting one. */
  ghost predicate PendingIsSuffix(s: State) {
    forall i, j :: i in s.rows && j in s.rows && s.rows[i].status != Pending && s.rows[j].status == Pending ==> i < j
  }

  predicate MayBeExecuted(s: State, id: nat) {
    id in s.fate && match s.fate[id]
    case Queued => false
    case InHand(t) => At(s, t) && HasRun(PcOf(s, t), id)
    case Settled => true
    case Stranded(why) => why == ResultLost
  }

  predicate CreatedOk(s: State, id: nat) {
    id in s.executed ||
    (id in s.fate && s.fate[id].InHand? && At(s, s.fate[id].thread) && HasJob(PcOf(s, s.fate[id].thread), id))
  }

  ghost predicate NoRepeats(q: seq<nat>) {
    forall i, j :: 0 <= i < j < |q| ==> q[i] != q[j]
  }

  /** Jobs run once, only while in hand, and every job object built is run. */
  ghost predicate HistoryOk(s: State) {
    && NoRepeats(s.executed)
    && (forall id :: id in s.executed ==> id in s.created && MayBeExecuted(s, id))
    && (forall id :: id in s.created ==> CreatedOk(s, id))
    && (forall t: nat, id :: At(s, t) && HasRun(PcOf(s, t), id) ==> id in s.executed)
  }

  ghost predicate Inv(s: State) {
    && s.fate.Keys == s.rows.Keys
    && (forall id :: id in s.rows ==> RowOk(s, id))
    && (forall t: nat :: At(s, t) ==> ThreadOk(s, t))
    && PendingIsSuffix(s)
    && HistoryOk(s)
  }

  /** Threads at the top of their loops with empty queues, over any table left by earlier processes. */
  ghost predicate Initial(s: State) {
    && (forall t: nat :: At(s, t) ==>
         var th := s.threads[t];
         && th.cfg.worker < |s.active| && th.pc == Top
         && th.queue == [] && th.pending == 0 && th.adding == 0 && th.lost == 0)
    && s.fate.Keys == s.rows.Keys
    && (forall id :: id in s.rows ==> !s.fate[id].InHand? && RowOk(s, id))
    && PendingIsSuffix(s)
    && s.created == {} && s.executed == []
  }

  ghost predicate Reachable(s: State) {
    exists start, es :: Initial(start) && IsRun(start, es) && After(start, es) == s
  }

  lemma InitialInv(s: State)
    requires Initial(s)
    ensures Inv(s)
  {
  }
}
