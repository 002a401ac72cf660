/**
 * The wake-up pipeline on top of the claim protocol: the server polls or receives a datagram and writes two
 * bytes to the next worker's pipe; the worker's read callback turns bytes into units of work for its threads.
 */
module Pipeline {
  import opened JobTable
  import opened Protocol
  import opened Invariant
  import opened Preservation
  import opened Dispatch
  import opened RoundRobin
  import Safety

  const BUFFER_BYTES := 80

  /** Where a worker's main thread stands in `on_io_work`. */
  datatype Io =
    | Ready                             // in the event loop
    | FirstPush(t: nat, hup: bool)      // in the schedule() before the read, m_pending already raised
    | AtRead(hup: bool)
    | Loop(left: nat)                   // schedule() calls still to make for the bytes read
    | LoopPush(t: nat, left: nat)
    | Closed                            // end of file or error: the process shuts down

  /**
   * `members[w]` lists the threads of worker `w`, its `m_threads` array. `laps`, `chosen`, `woken` and `sent`
   * record history: full rounds over the workers, calls of Server::schedule per worker, the ones whose write
   * succeeded, and calls of send_work per worker.
   */
  datatype System = System(
    p: State,
    pipes: seq<nat>,
    io: seq<Io>,
    members: seq<seq<nat>>,
    last: nat,
    laps: nat,
    chosen: seq<nat>,
    woken: seq<nat>,
    sent: seq<nat>)

  datatype SystemEvent =
    | Tick(counted: bool, hasRow: bool, written: bool)  // idle_jobcheck
    | Datagram(received: bool, written: bool)           // on_connect
    | Wake(w: nat, hup: bool)                           // on_io_work starts
    | Push(w: nat)
    | Read(w: nat, bytes: nat)
    | ReadFail(w: nat)
    | Next(w: nat)
    | Local(e: Event)                                   // anything but send_work

  ghost predicate Shape(s: System) {
    && |s.pipes| == |s.io| == |s.members| == |s.chosen| == |s.woken| == |s.sent|
    && s.last < |s.pipes|
    && (forall w :: 0 <= w < |s.members| ==> s.members[w] != [])
    && (forall w, k :: 0 <= w < |s.members| && 0 <= k < |s.members[w]| ==> At(s.p, s.members[w][k]))
    && (forall w, k, v, j ::
          0 <= w < |s.members| && 0 <= k < |s.members[w]| && 0 <= v < |s.members| && 0 <= j < |s.members[v]| ==>
          s.members[w][k] == s.members[v][j] ==> w == v && k == j)
  }

  predicate MembersExist(s: System, w: nat) {
    w < |s.members| && s.members[w] != [] && forall k :: 0 <= k < |s.members[w]| ==> s.members[w][k] < |s.p.threads|
  }

  function Counts(s: System, w: nat): (counts: seq<int>)
    requires MembersExist(s, w)
    ensures |counts| == |s.members[w]|
  {
    seq(|s.members[w]|, k requires 0 <= k < |s.members[w]| => s.p.threads[s.members[w][k]].pending)
  }

  /** The thread `Worker::schedule` picks. */
  function Pick(s: System, w: nat): nat
    requires MembersExist(s, w)
  {
    s.members[w][Selected(Counts(s, w))]
  }

  ghost predicate CanDo(s: System, e: SystemEvent)
    requires Shape(s)
  {
    match e
    case Tick(_, _, _) => true
    case Datagram(_, _) => true
    case Wake(w, hup) => w < |s.io| && s.io[w].Ready? && (hup || s.pipes[w] > 0)
    case Push(w) => w < |s.io| && (s.io[w].FirstPush? || s.io[w].LoopPush?) && Enabled(s.p, PushWork(s.io[w].t))
    case Read(w, bytes) => w < |s.io| && s.io[w].AtRead? && 1 <= bytes <= s.pipes[w] && bytes <= BUFFER_BYTES
    case ReadFail(w) => w < |s.io| && s.io[w].AtRead?
    case Next(w) => w < |s.io| && s.io[w].Loop?
    case Local(e) => !e.AddPending? && !e.PushWork? && Enabled(s.p, e)
  }

  /** Server::schedule: wake the next worker, and move on whether or not the write worked. */
  function ServerSchedule(s: System, written: bool): System
    requires s.last < |s.pipes| == |s.chosen| == |s.woken|
  {
    var w := s.last;
    s.(pipes := WritePipe(s.pipes, w, written),
       woken := if written then s.woken[w := s.woken[w] + 1] else s.woken,
       chosen := s.chosen[w := s.chosen[w] + 1],
       last := NextWorker(w, |s.pipes|),
       laps := if w + 1 >= |s.pipes| then s.laps + 1 else s.laps)
  }

  predicate Wakes(s: System, e: SystemEvent) {
    match e
    case Tick(counted, hasRow, _) => counted && hasRow && PolledIds(s.p.rows) != {}
    case Datagram(received, _) => received
    case _ => false
  }

  /** The first half of send_work for the thread the scan picks. */
  ghost function StartSend(s: System, w: nat, io: Io): System
    requires Shape(s) && w < |s.io|
  {
    s.(p := Step(s.p, AddPending(Pick(s, w))), io := s.io[w := io], sent := s.sent[w := s.sent[w] + 1])
  }

  ghost function Do(s: System, e: SystemEvent): System
    requires Shape(s) && CanDo(s, e)
  {
    match e
    case Tick(_, _, written) => if Wakes(s, e) then ServerSchedule(s, written) else s
    case Datagram(_, written) => if Wakes(s, e) then ServerSchedule(s, written) else s
    case Wake(w, hup) => StartSend(s, w, FirstPush(Pick(s, w), hup))
    case Push(w) =>
      s.(p := Step(s.p, PushWork(s.io[w].t)),
         io := s.io[w := if s.io[w].FirstPush? then AtRead(s.io[w].hup) else Loop(s.io[w].left)])
    case Read(w, bytes) => s.(pipes := s.pipes[w := s.pipes[w] - bytes], io := s.io[w := Loop(bytes - 1)])
    case ReadFail(w) => s.(io := s.io[w := Closed])
    case Next(w) =>
      if s.io[w].left == 0 then s.(io := s.io[w := Ready])
      else StartSend(s, w, LoopPush(Pick(s, w), s.io[w].left - 1))
    case Local(e) => s.(p := Step(s.p, e))
  }

  // ----- Invariant -----

  /** A thread that never gets any work. */
  predicate IdleThread(th: Thread) {
    && (th.pc.Top? || th.pc.Waiting? || th.pc.Exited?)
    && th.pending == 0 && th.adding == 0 && th.lost == 0
    && WorkCount(th.queue) == 0
  }

  /** send_work calls not made yet for bytes that were read, minus the one made before the read. */
  function Owed(io: Io): int {
    match io
    case Ready => 0
    case FirstPush(_, _) => -1
    case AtRead(_) => -1
    case Loop(left) => left
    case LoopPush(_, left) => left
    case Closed => -1
  }

  predicate WorkerOk(s: System, w: nat)
    requires w < |s.io| == |s.pipes| == |s.members| == |s.woken| == |s.sent| == |s.chosen|
  {
    && s.sent[w] + s.pipes[w] + Owed(s.io[w]) == MESSAGE * s.woken[w]
    && s.woken[w] <= s.chosen[w]
    && s.chosen[w] == s.laps + (if w < s.last then 1 else 0)
    && ((s.io[w].FirstPush? || s.io[w].AtRead?) && !s.io[w].hup ==> s.pipes[w] > 0)
    && s.members[w] != []
    && At(s.p, s.members[w][0])
    && (if s.io[w].FirstPush? || s.io[w].LoopPush? then
          s.io[w].t == s.members[w][0] && s.p.threads[s.members[w][0]].adding == 1
        else s.p.threads[s.members[w][0]].adding == 0)
  }

  ghost predicate FollowersIdle(s: System) {
    forall w, k :: 0 <= w < |s.members| && 1 <= k < |s.members[w]| ==>
      At(s.p, s.members[w][k]) && IdleThread(s.p.threads[s.members[w][k]])
  }

  ghost predicate SystemInv(s: System) {
    && Inv(s.p)
    && Shape(s)
    && (forall w :: 0 <= w < |s.io| ==> WorkerOk(s, w))
    && FollowersIdle(s)
  }

  ghost predicate SystemInitial(s: System) {
    && Initial(s.p)
    && Shape(s)
    && s.last == 0 && s.laps == 0
    && (forall w :: 0 <= w < |s.io| ==>
          s.io[w] == Ready && s.pipes[w] == 0 && s.chosen[w] == 0 && s.woken[w] == 0 && s.sent[w] == 0)
  }

  lemma SystemInitialInv(s: System)
    requires SystemInitial(s)
    ensures SystemInv(s)
  {
    InitialInv(s.p);
    forall w, k | 0 <= w < |s.members| && 1 <= k < |s.members[w]| ensures IdleThread(s.p.threads[s.members[w][k]]) {
      assert At(s.p, s.members[w][k]);
    }
    forall w | 0 <= w < |s.io| ensures WorkerOk(s, w) { assert At(s.p, s.members[w][0]); }
  }

  /** With its followers idle, a worker's scan always picks its first thread. */
  lemma PickIsFirst(s: System, w: nat)
    requires Shape(s) && FollowersIdle(s) && w < |s.members|
    ensures Pick(s, w) == s.members[w][0]
  {
    var counts := Counts(s, w);
    forall i | 1 <= i < |counts| ensures counts[i] <= 0 {
      assert IdleThread(s.p.threads[s.members[w][i]]);
    }
    OnlyFirstBusy(counts);
  }

  lemma ServerScheduleKeeps(s: System, written: bool)
    requires SystemInv(s)
    ensures SystemInv(ServerSchedule(s, written))
  {
    var s' := ServerSchedule(s, written);
    forall w | 0 <= w < |s'.io| ensures WorkerOk(s', w) { assert WorkerOk(s, w); }
  }

  lemma StartSendKeeps(s: System, w: nat, io: Io)
    requires SystemInv(s) && w < |s.io|
    requires || (s.io[w].Ready? && io.FirstPush? && (io.hup || s.pipes[w] > 0))
             || (s.io[w].Loop? && io.LoopPush? && io.left == s.io[w].left - 1)
    requires io.t == Pick(s, w)
    ensures SystemInv(StartSend(s, w, io))
  {
    PickIsFirst(s, w);
    var t, s' := s.members[w][0], StartSend(s, w, io);
    StepKeeps(s.p, AddPending(t));
    assert forall u: nat :: At(s.p, u) && u != t ==> s'.p.threads[u] == s.p.threads[u];
    forall v | 0 <= v < |s'.io| ensures WorkerOk(s', v) {
      assert WorkerOk(s, v);
      assert v != w ==> s.members[v][0] != t;
    }
    forall v, k | 0 <= v < |s'.members| && 1 <= k < |s'.members[v]| ensures IdleThread(s'.p.threads[s'.members[v][k]]) {
      assert s.members[v][k] != t;
    }
  }

  lemma PushKeeps(s: System, w: nat)
    requires SystemInv(s) && CanDo(s, Push(w))
    ensures SystemInv(Do(s, Push(w)))
  {
    var t, s' := s.members[w][0], Do(s, Push(w));
    assert WorkerOk(s, w);
    StepKeeps(s.p, PushWork(t));
    assert forall u: nat :: At(s.p, u) && u != t ==> s'.p.threads[u] == s.p.threads[u];
    forall v | 0 <= v < |s'.io| ensures WorkerOk(s', v) {
      assert WorkerOk(s, v);
      assert v != w ==> s.members[v][0] != t;
    }
    forall v, k | 0 <= v < |s'.members| && 1 <= k < |s'.members[v]| ensures IdleThread(s'.p.threads[s'.members[v][k]]) {
      assert s.members[v][k] != t;
    }
  }

  /** Events of other threads, or about no thread. */
  lemma IdleUntouched(s: State, e: Event, t: nat)
    requires Enabled(s, e) && At(s, t) && (e.Insert? || e.Deactivate? || e.t != t)
    ensures At(Step(s, e), t) && Step(s, e).threads[t] == s.threads[t]
  {
  }

  /** An idle thread only tests, waits, and drops stop messages. */
  lemma IdleMoves(s: State, e: Event, t: nat)
    requires Enabled(s, e) && !e.Insert? && !e.Deactivate? && e.t == t
    requires !e.AddPending? && !e.PushWork? && IdleThread(s.threads[t])
    ensures e.PushStop? || e.Test? || e.Timeout? || e.Pop?
    ensures At(Step(s, e), t) && IdleThread(Step(s, e).threads[t])
  {
    if e.PushStop? { WorkCountAppend(s.threads[t].queue, Stop); }
  }

  lemma IdleStays(s: State, e: Event, t: nat)
    requires Enabled(s, e) && At(s, t) && !e.AddPending? && !e.PushWork? && IdleThread(s.threads[t])
    ensures At(Step(s, e), t) && IdleThread(Step(s, e).threads[t])
  {
    if e.Insert? || e.Deactivate? || e.t != t { IdleUntouched(s, e, t); } else { IdleMoves(s, e, t); }
  }

  lemma LocalKeepsSystem(s: System, e: Event)
    requires SystemInv(s) && CanDo(s, Local(e))
    ensures SystemInv(Do(s, Local(e)))
  {
    var s' := Do(s, Local(e));
    StepKeeps(s.p, e);
    forall t: nat | At(s.p, t) ensures At(s'.p, t) && s'.p.threads[t].adding == s.p.threads[t].adding {
      Safety.AddingStays(s.p, e, t);
    }
    forall w | 0 <= w < |s'.io| ensures WorkerOk(s', w) { assert WorkerOk(s, w); }
    forall w, k | 0 <= w < |s'.members| && 1 <= k < |s'.members[w]|
      ensures At(s'.p, s'.members[w][k]) && IdleThread(s'.p.threads[s'.members[w][k]])
    {
      IdleStays(s.p, e, s.members[w][k]);
    }
  }

  lemma ReadKeeps(s: System, e: SystemEvent)
    requires SystemInv(s) && CanDo(s, e) && (e.Read? || e.ReadFail? || (e.Next? && s.io[e.w].left == 0))
    ensures SystemInv(Do(s, e))
  {
    var s' := Do(s, e);
    forall v | 0 <= v < |s'.io| ensures WorkerOk(s', v) { assert WorkerOk(s, v); }
  }

  lemma WakeKeeps(s: System, w: nat, hup: bool)
    requires SystemInv(s) && CanDo(s, Wake(w, hup))
    ensures SystemInv(Do(s, Wake(w, hup)))
  {
    StartSendKeeps(s, w, FirstPush(Pick(s, w), hup));
  }

  lemma NextKeeps(s: System, w: nat)
    requires SystemInv(s) && CanDo(s, Next(w))
    ensures SystemInv(Do(s, Next(w)))
  {
    if s.io[w].left == 0 {
      ReadKeeps(s, Next(w));
    } else {
      StartSendKeeps(s, w, LoopPush(Pick(s, w), s.io[w].left - 1));
    }
  }

  lemma DoKeeps(s: System, e: SystemEvent)
    requires SystemInv(s) && CanDo(s, e)
    ensures SystemInv(Do(s, e))
  {
    match e {
      case Tick(_, _, written) => ServerScheduleKeeps(s, written);
      case Datagram(_, written) => ServerScheduleKeeps(s, written);
      case Wake(w, hup) => WakeKeeps(s, w, hup);
      case Push(w) => PushKeeps(s, w);
      case Read(_, _) => ReadKeeps(s, e);
      case ReadFail(_) => ReadKeeps(s, e);
      case Next(w) => NextKeeps(s, w);
      case Local(le) => LocalKeepsSystem(s, le);
    }
  }
}
