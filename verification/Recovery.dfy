/** Results about whole runs of the pipeline. */
module Recovery {
  import opened Ids
  import opened JobTable
  import opened Protocol
  import opened Invariant
  import opened Preservation
  import opened Dispatch
  import opened Pipeline
  import opened Shutdown
  import opened Sums
  import Safety
  import Fifo

  /** `trace` lists the states of a run, one more than there are events. */
  ghost predicate IsTrace(trace: seq<System>, es: seq<SystemEvent>) {
    && |trace| == |es| + 1
    && (forall i :: 0 <= i < |es| ==> Shape(trace[i]) && CanDo(trace[i], es[i]) && trace[i + 1] == Do(trace[i], es[i]))
  }

  lemma {:induction false} TraceInv(trace: seq<System>, es: seq<SystemEvent>, i: nat)
    requires IsTrace(trace, es) && SystemInv(trace[0]) && i <= |es|
    ensures SystemInv(trace[i])
  {
    if i > 0 {
      TraceInv(trace, es, i - 1);
      DoKeeps(trace[i - 1], es[i - 1]);
    }
  }

  // ----- What the server and the reads can do -----

  /** A datagram wakes a worker if it was received; a poll does if some waiting row is unlocked and the query worked. */
  lemma WakesExactly(s: System, counted: bool, hasRow: bool, received: bool, written: bool)
    requires SystemInv(s)
    ensures Wakes(s, Datagram(received, written)) <==> received
    ensures Wakes(s, Tick(counted, hasRow, written)) <==>
      counted && hasRow && exists id :: id in s.p.rows && s.p.rows[id].status == Pending && s.p.rows[id].lock == ""
  {
    Safety.PollMatches(s.p);
    if id :| id in s.p.rows && s.p.rows[id].status == Pending && s.p.rows[id].lock == "" {
      assert id in ClaimableIds(s.p.rows);
    }
    if ClaimableIds(s.p.rows) != {} { assert Min(ClaimableIds(s.p.rows)) in ClaimableIds(s.p.rows); }
  }

  /** A read takes any number of the bytes there are, up to 80, and at least one. */
  lemma ReadsExactly(s: System, w: nat, bytes: nat)
    requires SystemInv(s) && w < |s.io| && s.io[w].AtRead?
    ensures CanDo(s, Read(w, bytes)) <==> 1 <= bytes <= s.pipes[w] && bytes <= 80
    ensures CanDo(s, Read(w, bytes)) ==>
      Do(s, Read(w, bytes)).pipes[w] == s.pipes[w] - bytes && Do(s, Read(w, bytes)).io[w] == Loop(bytes - 1)
  {
  }

  // ----- Conservation of signals -----

  /**
   * Whatever the sizes of the reads, between callbacks a worker has made one send_work call for each byte it has
   * taken out of its pipe, and two bytes went in per successful wake-up; after end of file or a read error there
   * has been exactly one call too many.
   */
  lemma SignalConservation(trace: seq<System>, es: seq<SystemEvent>, w: nat)
    requires IsTrace(trace, es) && SystemInitial(trace[0]) && w < |trace[|es|].io|
    ensures var s := trace[|es|];
      && w < |s.sent| == |s.pipes| == |s.woken|
      && (s.io[w].Ready? ==> s.sent[w] + s.pipes[w] == 2 * s.woken[w])
      && (s.io[w].Closed? ==> s.sent[w] + s.pipes[w] == 2 * s.woken[w] + 1)
  {
    SystemInitialInv(trace[0]);
    TraceInv(trace, es, |es|);
    assert WorkerOk(trace[|es|], w);
  }

  // ----- Only the first thread of a worker ever works -----

  /**
   * In every run, every thread but the first of each worker process stays in its idle loop: it never receives a
   * unit of work, never claims a row and never holds one.
   */
  lemma OnlyFirstThreadsWork(trace: seq<System>, es: seq<SystemEvent>, w: nat, k: nat)
    requires IsTrace(trace, es) && SystemInitial(trace[0])
    requires w < |trace[|es|].members| && 1 <= k < |trace[|es|].members[w]|
    ensures var s := trace[|es|];
      && At(s.p, s.members[w][k])
      && IdleThread(s.p.threads[s.members[w][k]])
      && (forall id :: !Holds(PcOf(s.p, s.members[w][k]), id))
  {
    SystemInitialInv(trace[0]);
    TraceInv(trace, es, |es|);
  }

  lemma LeastBusyNow(s: System, w: nat)
    requires SystemInv(s) && w < |s.members|
    ensures IsLeast(Counts(s, w), Selected(Counts(s, w))) <==>
      |s.members[w]| == 1 || s.p.threads[s.members[w][0]].pending == 0
  {
    PickIsFirst(s, w);
    var counts := Counts(s, w);
    assert WorkerOk(s, w);
    forall k | 1 <= k < |counts| ensures counts[k] == 0 { assert IdleThread(s.p.threads[s.members[w][k]]); }
    FirstPending(s, w);
    OnlyFirstBusy(counts);
    if |counts| > 1 { assert counts[1] == 0; }
  }

  lemma FirstPending(s: System, w: nat)
    requires SystemInv(s) && w < |s.members|
    ensures s.p.threads[s.members[w][0]].pending >= 0
  {
    assert WorkerOk(s, w);
    assert ThreadOk(s.p, s.members[w][0]);
  }

  /**
   * In every run the thread picked is a least busy one if and only if the worker has no other thread or its first
   * thread has nothing pending.
   */
  lemma LeastBusyInRuns(trace: seq<System>, es: seq<SystemEvent>, w: nat)
    requires IsTrace(trace, es) && SystemInitial(trace[0]) && w < |trace[|es|].members|
    ensures var s := trace[|es|];
      && MembersExist(s, w)
      && (IsLeast(Counts(s, w), Selected(Counts(s, w))) <==>
            |s.members[w]| == 1 || s.p.threads[s.members[w][0]].pending == 0)
  {
    SystemInitialInv(trace[0]);
    TraceInv(trace, es, |es|);
    assert WorkerOk(trace[|es|], w);
    LeastBusyNow(trace[|es|], w);
  }

  // ----- Round robin -----

  lemma MulOrder(x: nat, y: nat, n: nat)
    ensures x < y ==> (x + 1) * n <= y * n
  {
  }

  lemma DivUnique(a: nat, n: nat, q: nat)
    requires n > 0 && q * n <= a < (q + 1) * n
    ensures a / n == q
  {
    MulOrder(a / n, q, n);
    MulOrder(q, a / n, n);
  }

  /** After `laps` full rounds and `last` more calls, worker `w` was chosen as often as the closed form says. */
  lemma ClosedForm(n: nat, laps: nat, last: nat, w: nat)
    requires last < n && w < n
    ensures (laps * n + last) % n == last
    ensures (laps * n + last + n - 1 - w) / n == laps + if w < last then 1 else 0
  {
    var k := laps * n + last;
    assert (laps + 1) * n == laps * n + n && (laps + 2) * n == laps * n + 2 * n;
    DivUnique(k, n, laps);
    assert k == (k / n) * n + k % n;
    DivUnique(k + n - 1 - w, n, laps + if w < last then 1 else 0);
  }

  /** How often Server::schedule was called in a run. */
  ghost function Calls(trace: seq<System>, es: seq<SystemEvent>, i: nat): nat
    requires IsTrace(trace, es) && i <= |es|
  {
    if i == 0 then 0 else Calls(trace, es, i - 1) + if Wakes(trace[i - 1], es[i - 1]) then 1 else 0
  }

  lemma {:induction false} CallsPosition(trace: seq<System>, es: seq<SystemEvent>, i: nat)
    requires IsTrace(trace, es) && SystemInitial(trace[0]) && i <= |es|
    ensures |trace[i].pipes| == |trace[0].pipes|
    ensures trace[i].laps * |trace[0].pipes| + trace[i].last == Calls(trace, es, i)
  {
    if i > 0 {
      CallsPosition(trace, es, i - 1);
      var s, s', e := trace[i - 1], trace[i], es[i - 1];
      assert s' == Do(s, e);
      var n := |s.pipes|;
      assert (s.laps + 1) * n == s.laps * n + n;
      if Wakes(s, e) {
        assert s.last + 1 >= n ==> s'.laps == s.laps + 1 && s'.last == 0 && s.last + 1 == n;
      } else {
        assert s'.laps == s.laps && s'.last == s.last;
      }
    }
  }

  lemma ChosenPosition(trace: seq<System>, es: seq<SystemEvent>, w: nat)
    requires IsTrace(trace, es) && SystemInitial(trace[0]) && w < |trace[|es|].pipes|
    ensures var s := trace[|es|];
      w < |s.chosen| == |s.pipes| && s.last < |s.pipes| && s.chosen[w] == s.laps + if w < s.last then 1 else 0
  {
    SystemInitialInv(trace[0]);
    TraceInv(trace, es, |es|);
    assert WorkerOk(trace[|es|], w);
  }

  /** Round robin: the next worker and how often each was chosen depend on the number of calls alone. */
  lemma RoundRobin(trace: seq<System>, es: seq<SystemEvent>, w: nat)
    requires IsTrace(trace, es) && SystemInitial(trace[0]) && w < |trace[0].pipes|
    ensures var s, n, k := trace[|es|], |trace[0].pipes|, Calls(trace, es, |es|);
      && s.last == k % n
      && w < |s.chosen| == n
      && s.chosen[w] == (k + n - 1 - w) / n
  {
    CallsPosition(trace, es, |es|);
    ChosenPosition(trace, es, w);
    ClosedForm(|trace[0].pipes|, trace[|es|].laps, trace[|es|].last, w);
  }

  /** No worker is ever chosen more than once more often than another. */
  lemma RoundRobinFair(trace: seq<System>, es: seq<SystemEvent>, w: nat, v: nat)
    requires IsTrace(trace, es) && SystemInitial(trace[0]) && w < |trace[0].pipes| && v < |trace[0].pipes|
    ensures w < |trace[|es|].chosen| && v < |trace[|es|].chosen|
    ensures trace[|es|].chosen[w] <= trace[|es|].chosen[v] + 1
  {
    CallsPosition(trace, es, |es|);
    ChosenPosition(trace, es, w);
    ChosenPosition(trace, es, v);
  }

  // ----- Units of work -----

  /** Units a thread has been sent and not claimed rows for. */
  function Unclaimed(th: Thread): nat {
    WorkCount(th.queue) + th.adding + if th.pc.Draining? || th.pc.Claiming? then th.pc.workload else 0
  }

  function PipeUnits(s: System): seq<int>
    requires |s.io| == |s.pipes|
  {
    seq(|s.pipes|, w requires 0 <= w < |s.pipes| => s.pipes[w] + Owed(s.io[w]))
  }

  function ThreadUnits(p: State): seq<int> {
    seq(|p.threads|, t requires 0 <= t < |p.threads| => Unclaimed(p.threads[t]))
  }

  /** Units under way: bytes in pipes, calls owed for bytes read, queued and drained messages. */
  function UnderWay(s: System): int
    requires |s.io| == |s.pipes|
  {
    Sum(PipeUnits(s)) + Sum(ThreadUnits(s.p))
  }

  /** The conditions of the drain theorem: no new rows, and nothing fails or stops. */
  predicate Healthy(e: SystemEvent) {
    match e
    case Tick(counted, hasRow, written) => counted && hasRow && written
    case Datagram(received, written) => received ==> written
    case Wake(_, hup) => !hup
    case ReadFail(_) => false
    case Local(le) => !le.Insert? && !le.PushStop? && !(le.ClaimRows? && !le.ok)
    case _ => true
  }

  ghost predicate NoStops(p: State) {
    forall t: nat :: At(p, t) ==> Stop !in p.threads[t].queue
  }

  function ClaimDemand(s: System, e: SystemEvent): nat
    requires e.Local? && e.e.ClaimRows? ==> At(s.p, e.e.t) && PcOf(s.p, e.e.t).Claiming?
  {
    if e.Local? then Fifo.Demand(s.p, e.e) else 0
  }

  lemma PipeUnitsChange(s: System, s': System, w: nat)
    requires |s.io| == |s.pipes| == |s'.io| == |s'.pipes| && w < |s.io|
    requires forall v :: 0 <= v < |s.io| && v != w ==> s'.io[v] == s.io[v] && s'.pipes[v] == s.pipes[v]
    ensures Sum(PipeUnits(s')) == Sum(PipeUnits(s)) - (s.pipes[w] + Owed(s.io[w])) + (s'.pipes[w] + Owed(s'.io[w]))
  {
    var v := s'.pipes[w] + Owed(s'.io[w]);
    assert PipeUnits(s') == PipeUnits(s)[w := v];
    SumUpdate(PipeUnits(s), w, v);
  }

  lemma ThreadUnitsChange(p: State, p': State, t: nat)
    requires At(p, t) && |p'.threads| == |p.threads|
    requires forall u: nat :: At(p, u) && u != t ==> p'.threads[u] == p.threads[u]
    ensures Sum(ThreadUnits(p')) == Sum(ThreadUnits(p)) - Unclaimed(p.threads[t]) + Unclaimed(p'.threads[t])
  {
    assert ThreadUnits(p') == ThreadUnits(p)[t := Unclaimed(p'.threads[t])];
    SumUpdate(ThreadUnits(p), t, Unclaimed(p'.threads[t]));
  }

  /** Events that concern one thread, as its own step or as a message to it. */
  predicate OfThread(e: Event) {
    !e.Insert? && !e.Deactivate?
  }

  lemma OneThreadMoves(p: State, e: Event)
    requires Enabled(p, e) && OfThread(e)
    ensures At(p, e.t) && |Step(p, e).threads| == |p.threads|
    ensures Step(p, e).threads == p.threads[e.t := Step(p, e).threads[e.t]]
  {
  }

  lemma PopUnits(p: State, t: nat)
    requires Enabled(p, Pop(t)) && Stop !in p.threads[t].queue
    ensures At(PopStep(p, t), t)
    ensures Unclaimed(PopStep(p, t).threads[t]) == Unclaimed(p.threads[t])
    ensures Stop !in PopStep(p, t).threads[t].queue
  {
    assert p.threads[t].queue[0] in p.threads[t].queue;
  }

  /** Of the thread's own steps in a healthy run, only a claim uses units up. */
  lemma OwnUnits(p: State, e: Event)
    requires Enabled(p, e) && OfThread(e) && Stop !in p.threads[e.t].queue
    requires !e.PushStop? && !e.AddPending? && !e.PushWork? && !(e.ClaimRows? && !e.ok)
    ensures At(Step(p, e), e.t)
    ensures Unclaimed(Step(p, e).threads[e.t]) == Unclaimed(p.threads[e.t]) - Fifo.Demand(p, e)
    ensures Stop !in Step(p, e).threads[e.t].queue
  {
    if e.Pop? {
      PopUnits(p, e.t);
    } else if ForRow(e) || ForBatch(e) || ForClaim(e) {
      StepAdvances(p, e);
    }
  }

  lemma SendUnits(p: State, e: Event)
    requires Enabled(p, e) && (e.AddPending? || e.PushWork?) && Stop !in p.threads[e.t].queue
    ensures At(Step(p, e), e.t)
    ensures Unclaimed(Step(p, e).threads[e.t]) == Unclaimed(p.threads[e.t]) + if e.AddPending? then 1 else 0
    ensures Stop !in Step(p, e).threads[e.t].queue
  {
    WorkCountAppend(p.threads[e.t].queue, Work);
  }

  lemma LocalUnits(p: State, e: Event)
    requires Enabled(p, e) && NoStops(p) && !e.Insert? && !e.PushStop? && !(e.ClaimRows? && !e.ok)
    ensures Sum(ThreadUnits(Step(p, e))) ==
      Sum(ThreadUnits(p)) - Fifo.Demand(p, e) + if e.AddPending? then 1 else 0
    ensures NoStops(Step(p, e))
  {
    var p' := Step(p, e);
    if e.Deactivate? {
      assert p'.threads == p.threads;
      assert ThreadUnits(p') == ThreadUnits(p);
    } else {
      OneThreadMoves(p, e);
      if e.AddPending? || e.PushWork? { SendUnits(p, e); } else { OwnUnits(p, e); }
      ThreadUnitsChange(p, p', e.t);
    }
  }

  lemma ScheduleUnits(s: System)
    requires SystemInv(s)
    ensures UnderWay(ServerSchedule(s, true)) == UnderWay(s) + 2
  {
    PipeUnitsChange(s, ServerSchedule(s, true), s.last);
  }

  lemma StartSendUnits(s: System, w: nat, io: Io)
    requires SystemInv(s) && NoStops(s.p) && w < |s.io| && Owed(io) == Owed(s.io[w]) - 1
    ensures UnderWay(StartSend(s, w, io)) == UnderWay(s) && NoStops(StartSend(s, w, io).p)
  {
    PipeUnitsChange(s, StartSend(s, w, io), w);
    LocalUnits(s.p, AddPending(Pick(s, w)));
  }

  lemma PushUnits(s: System, w: nat)
    requires SystemInv(s) && NoStops(s.p) && CanDo(s, Push(w))
    ensures UnderWay(Do(s, Push(w))) == UnderWay(s) && NoStops(Do(s, Push(w)).p)
  {
    PipeUnitsChange(s, Do(s, Push(w)), w);
    LocalUnits(s.p, PushWork(s.io[w].t));
  }

  lemma ReadUnits(s: System, e: SystemEvent)
    requires SystemInv(s) && CanDo(s, e) && (e.Read? || (e.Next? && s.io[e.w].left == 0))
    ensures UnderWay(Do(s, e)) == UnderWay(s) && Do(s, e).p == s.p
  {
    PipeUnitsChange(s, Do(s, e), e.w);
  }

  lemma LocalStepUnits(s: System, e: Event)
    requires SystemInv(s) && NoStops(s.p) && CanDo(s, Local(e)) && Healthy(Local(e))
    ensures UnderWay(Do(s, Local(e))) == UnderWay(s) - ClaimDemand(s, Local(e)) && NoStops(Do(s, Local(e)).p)
  {
    LocalUnits(s.p, e);
    assert PipeUnits(Do(s, Local(e))) == PipeUnits(s);
  }

  lemma ServerUnits(s: System, e: SystemEvent)
    requires SystemInv(s) && NoStops(s.p) && (e.Tick? || e.Datagram?) && Healthy(e)
    ensures |Do(s, e).io| == |Do(s, e).pipes|
    ensures UnderWay(Do(s, e)) == UnderWay(s) + if Wakes(s, e) then 2 else 0
    ensures NoStops(Do(s, e).p)
  {
    ScheduleUnits(s);
  }

  lemma WorkerUnits(s: System, e: SystemEvent)
    requires SystemInv(s) && NoStops(s.p) && CanDo(s, e) && Healthy(e) && (e.Wake? || e.Push? || e.Read? || e.Next?)
    ensures |Do(s, e).io| == |Do(s, e).pipes|
    ensures UnderWay(Do(s, e)) == UnderWay(s)
    ensures NoStops(Do(s, e).p)
  {
    match e {
      case Wake(w, hup) => StartSendUnits(s, w, FirstPush(Pick(s, w), hup));
      case Push(w) => PushUnits(s, w);
      case Read(_, _) => ReadUnits(s, e);
      case Next(w) =>
        if s.io[w].left == 0 { ReadUnits(s, e); }
        else { StartSendUnits(s, w, LoopPush(Pick(s, w), s.io[w].left - 1)); }
    }
  }

  /** Units are conserved: a wake-up adds two, a claim uses its workload up, and nothing else counts. */
  lemma HealthyStep(s: System, e: SystemEvent)
    requires SystemInv(s) && NoStops(s.p) && CanDo(s, e) && Healthy(e)
    ensures |Do(s, e).io| == |Do(s, e).pipes|
    ensures UnderWay(Do(s, e)) == UnderWay(s) + (if Wakes(s, e) then 2 else 0) - ClaimDemand(s, e)
    ensures NoStops(Do(s, e).p)
  {
    if e.Tick? || e.Datagram? {
      ServerUnits(s, e);
    } else if e.Local? {
      LocalStepUnits(s, e.e);
    } else {
      WorkerUnits(s, e);
    }
  }

  // ----- Recovery from lost datagrams -----

  ghost function Demanded(trace: seq<System>, es: seq<SystemEvent>, i: nat): nat
    requires IsTrace(trace, es) && i <= |es|
  {
    if i == 0 then 0 else Demanded(trace, es, i - 1) + ClaimDemand(trace[i - 1], es[i - 1])
  }

  /** How many idle ticks there are among the first `i` events. */
  function Ticks(es: seq<SystemEvent>, i: nat): nat
    requires i <= |es|
  {
    if i == 0 then 0 else Ticks(es, i - 1) + if es[i - 1].Tick? then 1 else 0
  }

  ghost predicate HealthyRun(trace: seq<System>, es: seq<SystemEvent>) {
    && IsTrace(trace, es)
    && SystemInv(trace[0])
    && NoStops(trace[0].p)
    && (forall i :: 0 <= i < |es| ==> Healthy(es[i]))
  }

  /** Nothing is under way: pipes drained, callbacks done, no message queued or drained for a coming claim. */
  ghost predicate AtRest(s: System) {
    && (forall w :: 0 <= w < |s.io| ==> s.io[w].Ready? && w < |s.pipes| && s.pipes[w] == 0)
    && (forall t: nat :: At(s.p, t) ==> Unclaimed(s.p.threads[t]) == 0)
  }

  lemma AtRestUnits(s: System)
    requires AtRest(s) && |s.io| == |s.pipes|
    ensures UnderWay(s) == 0
  {
    SumZero(PipeUnits(s));
    SumZero(ThreadUnits(s.p));
  }

  lemma QueueHealthyStep(s: System, e: SystemEvent)
    requires SystemInv(s) && CanDo(s, e) && Healthy(e)
    ensures var n, d := |Fifo.Queue(s.p)|, ClaimDemand(s, e);
      |Fifo.Queue(Do(s, e).p)| == if d < n then n - d else 0
  {
    match e {
      case Local(le) => 
        Fifo.QueueStep(s.p, le);
        assert |Fifo.Taken(s.p, le)| + |Fifo.Queue(Step(s.p, le))| == |Fifo.Queue(s.p)|;
      case Wake(w, _) => Fifo.QueueStep(s.p, AddPending(Pick(s, w)));
      case Push(w) => Fifo.QueueStep(s.p, PushWork(s.io[w].t));
      case Next(w) => if s.io[w].left > 0 { Fifo.QueueStep(s.p, AddPending(Pick(s, w))); }
      case _ =>
    }
  }

  lemma EmptyQueuePoll(p: State)
    requires Inv(p)
    ensures PolledIds(p.rows) == {} <==> Fifo.Queue(p) == []
  {
    Safety.PollMatches(p);
    if ClaimableIds(p.rows) != {} { assert Min(ClaimableIds(p.rows)) in Fifo.Queue(p); }
  }

  lemma {:induction false} HealthyInv(trace: seq<System>, es: seq<SystemEvent>, i: nat)
    requires HealthyRun(trace, es) && i <= |es|
    ensures SystemInv(trace[i]) && NoStops(trace[i].p)
  {
    if i > 0 {
      HealthyInv(trace, es, i - 1);
      DoKeeps(trace[i - 1], es[i - 1]);
      HealthyStep(trace[i - 1], es[i - 1]);
    }
  }

  lemma {:induction false} UnitBalance(trace: seq<System>, es: seq<SystemEvent>, i: nat)
    requires HealthyRun(trace, es) && i <= |es|
    ensures |trace[i].io| == |trace[i].pipes|
    ensures Demanded(trace, es, i) + UnderWay(trace[i]) == UnderWay(trace[0]) + 2 * Calls(trace, es, i)
  {
    if i > 0 {
      UnitBalance(trace, es, i - 1);
      HealthyInv(trace, es, i - 1);
      HealthyStep(trace[i - 1], es[i - 1]);
    }
  }

  lemma {:induction false} QueueBalance(trace: seq<System>, es: seq<SystemEvent>, i: nat)
    requires HealthyRun(trace, es) && i <= |es|
    ensures var n, d := |Fifo.Queue(trace[0].p)|, Demanded(trace, es, i);
      |Fifo.Queue(trace[i].p)| == if d < n then n - d else 0
  {
    if i > 0 {
      QueueBalance(trace, es, i - 1);
      HealthyInv(trace, es, i - 1);
      QueueHealthyStep(trace[i - 1], es[i - 1]);
    }
  }

  /** As long as rows wait, every idle tick wakes a worker. */
  lemma {:induction false} TicksWake(trace: seq<System>, es: seq<SystemEvent>, i: nat)
    requires HealthyRun(trace, es) && i <= |es|
    ensures Fifo.Queue(trace[i].p) == [] || Ticks(es, i) <= Calls(trace, es, i)
  {
    if i > 0 {
      TicksWake(trace, es, i - 1);
      HealthyInv(trace, es, i - 1);
      QueueHealthyStep(trace[i - 1], es[i - 1]);
      EmptyQueuePoll(trace[i - 1].p);
    }
  }

  /** No worker has seen, or is about to see, the end of its pipe. */
  ghost predicate NoneHungUp(s: System) {
    forall w :: 0 <= w < |s.io| ==> !s.io[w].Closed? && (s.io[w].FirstPush? || s.io[w].AtRead? ==> !s.io[w].hup)
  }

  lemma UnderWayNonNegative(s: System)
    requires SystemInv(s)
    requires NoneHungUp(s)
    ensures UnderWay(s) >= 0
  {
    forall w | 0 <= w < |s.io| ensures PipeUnits(s)[w] >= 0 { assert WorkerOk(s, w); }
    SumNonNegative(PipeUnits(s));
    SumNonNegative(ThreadUnits(s.p));
  }

  /**
   * From rest to rest, `k` wake-ups take exactly `2 * k` rows, or all there are, however reads and batches split
   * them up.
   */
  lemma WakeUpsDrain(trace: seq<System>, es: seq<SystemEvent>)
    requires HealthyRun(trace, es) && AtRest(trace[0]) && AtRest(trace[|es|])
    ensures var n, k := |Fifo.Queue(trace[0].p)|, Calls(trace, es, |es|);
      |Fifo.Queue(trace[|es|].p)| == if 2 * k < n then n - 2 * k else 0
  {
    UnitBalance(trace, es, |es|);
    QueueBalance(trace, es, |es|);
    AtRestUnits(trace[0]);
    AtRestUnits(trace[|es|]);
  }

  /**
   * Polling alone recovers from lost datagrams: in a run without inserts or failures that ends at rest, half as
   * many idle ticks as there were waiting rows leave none, wherever the ticks fall.
   */
  lemma PollingRecovers(trace: seq<System>, es: seq<SystemEvent>)
    requires HealthyRun(trace, es) && AtRest(trace[|es|])
    requires NoneHungUp(trace[0])
    requires 2 * Ticks(es, |es|) >= |Fifo.Queue(trace[0].p)|
    ensures Fifo.Queue(trace[|es|].p) == []
  {
    UnderWayNonNegative(trace[0]);
    UnitBalance(trace, es, |es|);
    QueueBalance(trace, es, |es|);
    TicksWake(trace, es, |es|);
    AtRestUnits(trace[|es|]);
  }
}
