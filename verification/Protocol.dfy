/**
 * The job-claim protocol as a state machine. Any number of threads share one table; a step is one
 * SQL statement, one queue operation or one local decision of one thread, so a run is an arbitrary
 * interleaving. Events carry every outcome the code does not control: failed statements, creators
 * that return NULL, job results, and the clock behind each lock id.
 */
module Protocol {
  import opened LockIds
  import opened JobTable

  datatype Message = Work | Stop

  /** Settings of the process a thread lives in; `worker` names the process. */
  datatype Config = Config(worker: nat, registered: set<string>, discard: bool)

  /** Where a thread stands in `run` and `find_jobs`, with its local variables. */
  datatype Pc =
    | Top                                   // testing m_active
    | Waiting                               // in the timed pop
    | Draining(workload: nat)               // before the next try_pop
    | Claiming(workload: nat)               // before the claiming UPDATE
    | Selecting(workload: nat, lock: string, claimed: set<nat>)  // before the SELECT
    | Releasing(lock: string, claimed: set<nat>)                 // the SELECT failed
    | Reading(workload: nat, lock: string, todo: seq<nat>, jobs: seq<nat>)  // at the row loop
    | Discarding(workload: nat, lock: string, row: nat, known: bool, todo: seq<nat>, jobs: seq<nat>)
    | Marking(workload: nat, lock: string, row: nat, made: bool, todo: seq<nat>, jobs: seq<nat>)
    | Executing(workload: nat, lock: string, jobs: seq<nat>)     // at the batch loop
    | Finishing(workload: nat, lock: string, jobs: seq<nat>, succeeded: bool)  // jobs[0] has run
    | Exited

  /**
   * `pending` is m_pending; `adding` counts send_work calls between its two operations; `lost` records the
   * units of this thread that were counted in m_pending and will never be counted out again.
   */
  datatype Thread = Thread(cfg: Config, pc: Pc, queue: seq<Message>, pending: int, adding: nat, lost: nat)

  /** How a row was abandoned; a refused job may have been resolved already, and marked after that. */
  datatype Why =
    | SelectFailed(released: bool)
    | NoResult
    | UnknownKept
    | DiscardFailed
    | NullCreator(resolved: bool, marked: bool)
    | ResultLost

  /** What has become of a row. A record of history: no decision reads it. */
  datatype Fate = Queued | InHand(thread: nat) | Settled | Stranded(why: Why)

  /** `used`, `fate`, `created` and `executed` record history. */
  datatype State = State(
    rows: Table,
    threads: seq<Thread>,
    active: seq<bool>,        // m_active of each worker process
    used: set<string>,
    fate: map<nat, Fate>,
    created: set<nat>,
    executed: seq<nat>)

  datatype Event =
    | Insert(id: nat, name: string)          // a client adds a row
    | AddPending(t: nat)                     // send_work: m_pending + 1 ...
    | PushWork(t: nat)                       // ... then the push
    | PushStop(t: nat)                       // send_stop
    | Deactivate(worker: nat)                // shutdown clears m_active
    | Test(t: nat)
    | Timeout(t: nat)
    | Pop(t: nat)
    | DrainEnd(t: nat)
    | ClaimRows(t: nat, stamp: Stamp, ok: bool)
    | SelectRows(t: nat, ok: bool, stored: bool)
    | ReleaseRows(t: nat, ok: bool)
    | Create(t: nat, made: bool)
    | DiscardRow(t: nat, ok: bool)
    | MarkRow(t: nat, ok: bool)
    | ReadEnd(t: nat)
    | Execute(t: nat, succeeded: bool)
    | FinishRow(t: nat, ok: bool)
    | BatchEnd(t: nat)

  // ----- When an event can happen -----

  predicate At(s: State, t: nat) {
    t < |s.threads|
  }

  function PcOf(s: State, t: nat): Pc
    requires At(s, t)
  {
    s.threads[t].pc
  }

  predicate IsActive(s: State, t: nat)
    requires At(s, t)
  {
    var w := s.threads[t].cfg.worker;
    w < |s.active| && s.active[w]
  }

  predicate Popping(pc: Pc) {
    pc.Waiting? || pc.Draining?
  }

  ghost predicate Enabled(s: State, e: Event) {
    match e
    case Insert(id, _) => forall i :: i in s.rows ==> i < id
    case AddPending(t) => At(s, t)
    case PushWork(t) => At(s, t) && s.threads[t].adding > 0
    case PushStop(t) => At(s, t)
    case Deactivate(w) => w < |s.active|
    case Test(t) => At(s, t) && PcOf(s, t).Top?
    case Timeout(t) => At(s, t) && PcOf(s, t).Waiting? && s.threads[t].queue == []
    case Pop(t) => At(s, t) && Popping(PcOf(s, t)) && s.threads[t].queue != []
    case DrainEnd(t) => At(s, t) && PcOf(s, t).Draining? && s.threads[t].queue == []
    case ClaimRows(t, stamp, _) => At(s, t) && PcOf(s, t).Claiming? && stamp.Valid() && Text(stamp) !in s.used
    case SelectRows(t, _, _) => At(s, t) && PcOf(s, t).Selecting?
    case ReleaseRows(t, _) => At(s, t) && PcOf(s, t).Releasing?
    case Create(t, _) => At(s, t) && PcOf(s, t).Reading? && PcOf(s, t).todo != [] && PcOf(s, t).todo[0] in s.rows
    case DiscardRow(t, _) => At(s, t) && PcOf(s, t).Discarding? && PcOf(s, t).row in s.rows
    case MarkRow(t, _) => At(s, t) && PcOf(s, t).Marking? && PcOf(s, t).row in s.rows
    case ReadEnd(t) => At(s, t) && PcOf(s, t).Reading? && PcOf(s, t).todo == []
    case Execute(t, _) => At(s, t) && PcOf(s, t).Executing? && PcOf(s, t).jobs != []
    case FinishRow(t, _) => At(s, t) && PcOf(s, t).Finishing? && PcOf(s, t).jobs != [] && PcOf(s, t).workload > 0
    case BatchEnd(t) => At(s, t) && PcOf(s, t).Executing? && PcOf(s, t).jobs == []
  }

  // ----- What an event does -----

  function Goto(s: State, t: nat, pc: Pc): State
    requires At(s, t)
  {
    s.(threads := s.threads[t := s.threads[t].(pc := pc)])
  }

  function SetFate(fate: map<nat, Fate>, ids: set<nat>, f: Fate): map<nat, Fate> {
    map id | id in fate :: if id in ids then f else fate[id]
  }

  function Lose(s: State, t: nat, units: nat): State
    requires At(s, t)
  {
    s.(threads := s.threads[t := s.threads[t].(lost := s.threads[t].lost + units)])
  }

  function PopStep(s: State, t: nat): State
    requires At(s, t) && Popping(PcOf(s, t)) && s.threads[t].queue != []
  {
    var th := s.threads[t];
    var drained := if th.pc.Draining? then th.pc.workload else 0;
    var rest := th.(queue := th.queue[1..]);
    s.(threads := s.threads[t :=
      if th.queue[0] == Stop then rest.(pc := Top, lost := th.lost + drained)
      else rest.(pc := Draining(drained + 1))])
  }

  ghost function ClaimStep(s: State, t: nat, lock: string): State
    requires At(s, t) && PcOf(s, t).Claiming?
  {
    var w := PcOf(s, t).workload;
    var claimed := Picked(s.rows, w);
    Goto(s, t, Selecting(w, lock, claimed)).(
      rows := Claim(s.rows, lock, w),
      used := s.used + {lock},
      fate := SetFate(s.fate, claimed, InHand(t)))
  }

  ghost function SelectStep(s: State, t: nat, ok: bool, stored: bool): State
    requires At(s, t) && PcOf(s, t).Selecting?
  {
    var pc := PcOf(s, t);
    if !ok then
      Goto(Lose(s, t, pc.workload), t, Releasing(pc.lock, pc.claimed))
    else if !stored then
      Goto(s, t, Executing(pc.workload, pc.lock, [])).(fate := SetFate(s.fate, pc.claimed, Stranded(NoResult)))
    else
      Goto(s, t, Reading(pc.workload, pc.lock, Select(s.rows, pc.lock, pc.workload), []))
  }

  function ReleaseStep(s: State, t: nat, ok: bool): State
    requires At(s, t) && PcOf(s, t).Releasing?
  {
    var pc := PcOf(s, t);
    Goto(s, t, Top).(
      rows := if ok then Release(s.rows, pc.lock) else s.rows,
      fate := SetFate(s.fate, pc.claimed, Stranded(SelectFailed(ok))))
  }

  function CreateStep(s: State, t: nat, made: bool): State
    requires At(s, t) && PcOf(s, t).Reading? && PcOf(s, t).todo != [] && PcOf(s, t).todo[0] in s.rows
  {
    var pc, cfg := PcOf(s, t), s.threads[t].cfg;
    var row, rest := pc.todo[0], pc.todo[1..];
    if s.rows[row].name in cfg.registered then
      if made then
        Goto(s, t, Marking(pc.workload, pc.lock, row, true, rest, pc.jobs)).(created := s.created + {row})
      else if cfg.discard then
        Goto(s, t, Discarding(pc.workload, pc.lock, row, true, rest, pc.jobs))
      else
        Goto(s, t, Marking(pc.workload, pc.lock, row, false, rest, pc.jobs))
    else if cfg.discard then
      Goto(s, t, Discarding(pc.workload, pc.lock, row, false, rest, pc.jobs))
    else
      Goto(s, t, Reading(pc.workload, pc.lock, rest, pc.jobs)).(fate := SetFate(s.fate, {row}, Stranded(UnknownKept)))
  }

  function DiscardStep(s: State, t: nat, ok: bool): State
    requires At(s, t) && PcOf(s, t).Discarding?
  {
    var pc := PcOf(s, t);
    var rows := if ok then Resolve(s.rows, pc.row, Error) else s.rows;
    if pc.known then
      Goto(s, t, Marking(pc.workload, pc.lock, pc.row, false, pc.todo, pc.jobs)).(rows := rows)
    else
      Goto(s, t, Reading(pc.workload, pc.lock, pc.todo, pc.jobs)).(
        rows := rows,
        fate := SetFate(s.fate, {pc.row}, if ok then Settled else Stranded(DiscardFailed)))
  }

  function MarkStep(s: State, t: nat, ok: bool): State
    requires At(s, t) && PcOf(s, t).Marking? && PcOf(s, t).row in s.rows
  {
    var pc := PcOf(s, t);
    var rows := if ok then MarkProcessing(s.rows, pc.row) else s.rows;
    if pc.made then
      Goto(s, t, Reading(pc.workload, pc.lock, pc.todo, pc.jobs + [pc.row])).(rows := rows)
    else
      // no job exists for the row: what is left behind depends on which of the two UPDATEs worked
      var gone := if rows[pc.row].status == Error then Settled
                  else Stranded(NullCreator(s.rows[pc.row].status == Error, ok));
      Goto(s, t, Reading(pc.workload, pc.lock, pc.todo, pc.jobs)).(
        rows := rows, fate := SetFate(s.fate, {pc.row}, gone))
  }

  function ExecuteStep(s: State, t: nat, succeeded: bool): State
    requires At(s, t) && PcOf(s, t).Executing? && PcOf(s, t).jobs != []
  {
    var pc := PcOf(s, t);
    Goto(s, t, Finishing(pc.workload, pc.lock, pc.jobs, succeeded)).(executed := s.executed + [pc.jobs[0]])
  }

  function FinishStep(s: State, t: nat, ok: bool): State
    requires At(s, t) && PcOf(s, t).Finishing? && PcOf(s, t).jobs != [] && PcOf(s, t).workload > 0
  {
    var th, pc := s.threads[t], PcOf(s, t);
    var next := th.(pc := Executing(pc.workload - 1, pc.lock, pc.jobs[1..]), pending := th.pending - 1);
    s.(threads := s.threads[t := next],
       rows := if ok then Resolve(s.rows, pc.jobs[0], if pc.succeeded then Complete else Error) else s.rows,
       fate := SetFate(s.fate, {pc.jobs[0]}, if ok then Settled else Stranded(ResultLost)))
  }

  ghost function Step(s: State, e: Event): State
    requires Enabled(s, e)
  {
    match e
    case Insert(id, name) =>
      s.(rows := s.rows[id := Row(name, Pending, "")], fate := s.fate[id := Queued])
    case AddPending(t) =>
      var th := s.threads[t];
      s.(threads := s.threads[t := th.(pending := th.pending + 1, adding := th.adding + 1)])
    case PushWork(t) =>
      var th := s.threads[t];
      s.(threads := s.threads[t := th.(queue := th.queue + [Work], adding := th.adding - 1)])
    case PushStop(t) =>
      var th := s.threads[t];
      s.(threads := s.threads[t := th.(queue := th.queue + [Stop])])
    case Deactivate(w) => s.(active := s.active[w := false])
    case Test(t) => Goto(s, t, if IsActive(s, t) then Waiting else Exited)
    case Timeout(t) => Goto(s, t, Top)
    case Pop(t) => PopStep(s, t)
    case DrainEnd(t) => Goto(s, t, Claiming(PcOf(s, t).workload))
    case ClaimRows(t, stamp, ok) =>
      if ok then ClaimStep(s, t, Text(stamp)) else Goto(Lose(s, t, PcOf(s, t).workload), t, Top)
    case SelectRows(t, ok, stored) => SelectStep(s, t, ok, stored)
    case ReleaseRows(t, ok) => ReleaseStep(s, t, ok)
    case Create(t, made) => CreateStep(s, t, made)
    case DiscardRow(t, ok) => DiscardStep(s, t, ok)
    case MarkRow(t, ok) => MarkStep(s, t, ok)
    case ReadEnd(t) => Goto(s, t, Executing(PcOf(s, t).workload, PcOf(s, t).lock, PcOf(s, t).jobs))
    case Execute(t, succeeded) => ExecuteStep(s, t, succeeded)
    case FinishRow(t, ok) => FinishStep(s, t, ok)
    case BatchEnd(t) => Goto(Lose(s, t, PcOf(s, t).workload), t, Top)
  }

  // ----- Runs -----

  ghost predicate IsRun(s: State, es: seq<Event>)
    decreases |es|, 0
  {
    es == [] || (IsRun(s, es[..|es| - 1]) && Enabled(After(s, es[..|es| - 1]), es[|es| - 1]))
  }

  ghost function After(s: State, es: seq<Event>): State
    requires IsRun(s, es)
    decreases |es|, 1
  {
    if es == [] then s else Step(After(s, es[..|es| - 1]), es[|es| - 1])
  }

  lemma RunSnoc(s: State, es: seq<Event>, e: Event)
    requires IsRun(s, es) && Enabled(After(s, es), e)
    ensures IsRun(s, es + [e]) && After(s, es + [e]) == Step(After(s, es), e)
  {
    assert (es + [e])[..|es|] == es;
  }

  lemma {:induction false} RunSplit(s: State, a: seq<Event>, b: seq<Event>)
    requires IsRun(s, a + b)
    ensures IsRun(s, a) && IsRun(After(s, a), b) && After(s, a + b) == After(After(s, a), b)
  {
    if b == [] {
      assert a + b == a;
    } else {
      assert (a + b)[..|a + b| - 1] == a + b[..|b| - 1];
      RunSplit(s, a, b[..|b| - 1]);
    }
  }
}
