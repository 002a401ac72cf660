/**
 * Rest is reached: while anything is under way some productive event can happen, and each one brings the system
 * closer to rest, so recovery by polling does not depend on assuming that the run ends at rest.
 */
module Rest {
  import opened LockIds
  import opened Pipeline
  import opened Protocol
  import opened Recovery
  import opened RoundRobin
  import opened Shutdown
  import opened Sums
  import Fifo
  import Safety

  /** Healthy events of a system whose processes are not being stopped. */
  predicate Serving(e: SystemEvent) {
    Healthy(e) && !(e.Local? && e.e.Deactivate?)
  }

  /** The idle loop of a thread with nothing queued: test m_active, wait, time out. */
  predicate Idling(p: State, e: Event) {
    e.Timeout? || (e.Test? && At(p, e.t) && p.threads[e.t].queue == [])
  }

  /** Everything but the server's callbacks and idling threads. */
  predicate Productive(s: System, e: SystemEvent) {
    !e.Tick? && !e.Datagram? && !(e.Local? && Idling(s.p, e.e))
  }

  function Members(s: System): set<nat> {
    set w, k | 0 <= w < |s.members| && 0 <= k < |s.members[w]| :: s.members[w][k]
  }

  /** Every thread is running in an active process, and only threads of workers are being sent anything. */
  ghost predicate OnDuty(s: System) {
    forall t: nat :: At(s.p, t) ==>
      IsActive(s.p, t) && !PcOf(s.p, t).Exited? && (t in Members(s) || s.p.threads[t].adding == 0)
  }

  ghost predicate InService(s: System) {
    SystemInv(s) && NoStops(s.p) && NoneHungUp(s) && OnDuty(s)
  }

  /** A freshly started system with all its processes active. */
  lemma InitialInService(s: System)
    requires SystemInitial(s) && forall t: nat :: At(s.p, t) ==> IsActive(s.p, t)
    ensures InService(s)
  {
    SystemInitialInv(s);
  }

  // ----- The distance from rest -----

  const PER_MESSAGE := 12
  const PER_SEND := 14
  const PER_BYTE := 19

  /** What a thread still has to do: its batch, and what is queued for it or on the way into its queue. */
  function ToDo(th: Thread): nat {
    Ahead(th.pc) + PER_MESSAGE * |th.queue| + PER_SEND * th.adding + if th.pc.Top? && th.queue != [] then 1 else 0
  }

  /** What a read callback still has to do; before the read, less what the bytes in the pipe already count for. */
  function IoToDo(io: Io): int {
    match io
    case FirstPush(_, _) => -16
    case AtRead(_) => -17
    case Loop(left) => 1 + 16 * left
    case LoopPush(_, left) => 2 + 16 * left
    case _ => 0
  }

  function ThreadsToDo(p: State): seq<int> {
    seq(|p.threads|, t requires 0 <= t < |p.threads| => ToDo(p.threads[t]))
  }

  function PipesToDo(s: System): seq<int>
    requires |s.io| == |s.pipes|
  {
    seq(|s.pipes|, w requires 0 <= w < |s.pipes| => PER_BYTE * s.pipes[w] + IoToDo(s.io[w]))
  }

  function Distance(s: System): int
    requires |s.io| == |s.pipes|
  {
    Sum(PipesToDo(s)) + Sum(ThreadsToDo(s.p))
  }

  lemma DistanceNonNegative(s: System)
    requires SystemInv(s) && NoneHungUp(s)
    ensures Distance(s) >= 0
  {
    forall w | 0 <= w < |s.io| ensures PipesToDo(s)[w] >= 0 { assert WorkerOk(s, w); }
    SumNonNegative(PipesToDo(s));
    SumNonNegative(ThreadsToDo(s.p));
  }

  // ----- Threads -----

  lemma PopToDo(p: State, t: nat)
    requires Enabled(p, Pop(t)) && Stop !in p.threads[t].queue
    ensures ToDo(PopStep(p, t).threads[t]) < ToDo(p.threads[t])
  {
    assert p.threads[t].queue[0] in p.threads[t].queue;
  }

  /** Each step of a thread's own brings it closer to being idle; idling does not change anything. */
  lemma OwnToDo(p: State, e: Event)
    requires Enabled(p, e) && OfThread(e) && IsOwn(e, e.t) && Stop !in p.threads[e.t].queue && !(e.ClaimRows? && !e.ok)
    ensures At(Step(p, e), e.t)
    ensures Idling(p, e) ==> ToDo(Step(p, e).threads[e.t]) == ToDo(p.threads[e.t])
    ensures !Idling(p, e) ==> ToDo(Step(p, e).threads[e.t]) < ToDo(p.threads[e.t])
  {
    if ForRow(e) || ForBatch(e) || ForClaim(e) {
      StepAdvances(p, e);
    } else if e.Pop? {
      PopToDo(p, e.t);
    }
  }

  lemma ThreadsChange(p: State, e: Event)
    requires Enabled(p, e) && OfThread(e)
    ensures At(p, e.t) && |Step(p, e).threads| == |p.threads|
    ensures Sum(ThreadsToDo(Step(p, e))) ==
      Sum(ThreadsToDo(p)) - ToDo(p.threads[e.t]) + ToDo(Step(p, e).threads[e.t])
  {
    var p' := Step(p, e);
    OneThreadMoves(p, e);
    assert ThreadsToDo(p') == ThreadsToDo(p)[e.t := ToDo(p'.threads[e.t])];
    SumUpdate(ThreadsToDo(p), e.t, ToDo(p'.threads[e.t]));
  }

  lemma SendToDo(p: State, t: nat)
    requires At(p, t)
    ensures Sum(ThreadsToDo(Step(p, AddPending(t)))) == Sum(ThreadsToDo(p)) + PER_SEND
    ensures p.threads[t].adding > 0 ==>
      Sum(ThreadsToDo(Step(p, PushWork(t)))) <= Sum(ThreadsToDo(p)) - PER_SEND + PER_MESSAGE + 1
  {
    ThreadsChange(p, AddPending(t));
    if p.threads[t].adding > 0 { ThreadsChange(p, PushWork(t)); }
  }

  // ----- The system -----

  lemma PipesChange(s: System, s': System, w: nat)
    requires |s.io| == |s.pipes| == |s'.io| == |s'.pipes| && w < |s.io|
    requires forall v :: 0 <= v < |s.io| && v != w ==> s'.io[v] == s.io[v] && s'.pipes[v] == s.pipes[v]
    ensures Sum(PipesToDo(s')) == Sum(PipesToDo(s))
      - (PER_BYTE * s.pipes[w] + IoToDo(s.io[w])) + (PER_BYTE * s'.pipes[w] + IoToDo(s'.io[w]))
  {
    var v := PER_BYTE * s'.pipes[w] + IoToDo(s'.io[w]);
    assert PipesToDo(s') == PipesToDo(s)[w := v];
    SumUpdate(PipesToDo(s), w, v);
  }

  lemma StartSendCloser(s: System, w: nat, io: Io)
    requires SystemInv(s) && w < |s.io| && IoToDo(io) < IoToDo(s.io[w]) - PER_SEND
    ensures Distance(StartSend(s, w, io)) < Distance(s)
  {
    PipesChange(s, StartSend(s, w, io), w);
    SendToDo(s.p, Pick(s, w));
  }

  lemma PushCloser(s: System, w: nat)
    requires SystemInv(s) && CanDo(s, Push(w))
    ensures Distance(Do(s, Push(w))) < Distance(s)
  {
    PipesChange(s, Do(s, Push(w)), w);
    SendToDo(s.p, s.io[w].t);
  }

  lemma ReadCloser(s: System, e: SystemEvent)
    requires SystemInv(s) && CanDo(s, e) && (e.Read? || (e.Next? && s.io[e.w].left == 0))
    ensures Distance(Do(s, e)) < Distance(s)
  {
    PipesChange(s, Do(s, e), e.w);
  }

  lemma WorkerCloser(s: System, e: SystemEvent)
    requires SystemInv(s) && CanDo(s, e) && Healthy(e) && (e.Wake? || e.Push? || e.Read? || e.Next?)
    ensures |Do(s, e).io| == |Do(s, e).pipes| && Distance(Do(s, e)) < Distance(s)
  {
    match e {
      case Wake(w, hup) => StartSendCloser(s, w, FirstPush(Pick(s, w), hup));
      case Push(w) => PushCloser(s, w);
      case Read(_, _) => ReadCloser(s, e);
      case Next(w) =>
        if s.io[w].left == 0 { ReadCloser(s, e); }
        else { StartSendCloser(s, w, LoopPush(Pick(s, w), s.io[w].left - 1)); }
    }
  }

  lemma LocalCloser(s: System, e: Event)
    requires SystemInv(s) && NoStops(s.p) && CanDo(s, Local(e)) && Serving(Local(e))
    ensures |Do(s, Local(e)).io| == |Do(s, Local(e)).pipes|
    ensures Idling(s.p, e) ==> Distance(Do(s, Local(e))) == Distance(s)
    ensures !Idling(s.p, e) ==> Distance(Do(s, Local(e))) < Distance(s)
  {
    assert PipesToDo(Do(s, Local(e))) == PipesToDo(s);
    ThreadsChange(s.p, e);
    OwnToDo(s.p, e);
  }

  /** A wake-up adds what two bytes count for; every productive event brings rest closer; idling is neutral. */
  lemma ServingCloser(s: System, e: SystemEvent)
    requires SystemInv(s) && NoStops(s.p) && CanDo(s, e) && Serving(e)
    ensures |Do(s, e).io| == |Do(s, e).pipes|
    ensures Distance(Do(s, e)) <= Distance(s) + if Wakes(s, e) then MESSAGE * PER_BYTE else 0
    ensures Productive(s, e) ==> Distance(Do(s, e)) < Distance(s)
  {
    if e.Tick? || e.Datagram? {
      PipesChange(s, ServerSchedule(s, true), s.last);
    } else if e.Local? {
      LocalCloser(s, e.e);
    } else {
      WorkerCloser(s, e);
    }
  }

  // ----- Serving systems stay so -----

  lemma LocalOnDuty(p: State, e: Event, t: nat)
    requires Enabled(p, e) && At(p, t) && IsActive(p, t) && !PcOf(p, t).Exited? && !e.Deactivate?
    ensures At(Step(p, e), t) && !PcOf(Step(p, e), t).Exited?
  {
    if !IsOwn(e, t) { OthersKeepPc(p, e, t); }
  }

  lemma StaysActive(p: State, e: Event, t: nat)
    requires Enabled(p, e) && At(p, t) && IsActive(p, t) && !e.Deactivate?
    ensures At(Step(p, e), t) && IsActive(Step(p, e), t)
  {
    StaysInactive(p, e, t);
    ActiveStays(p, e);
  }

  lemma SameThreadCount(p: State, e: Event)
    requires Enabled(p, e)
    ensures |Step(p, e).threads| == |p.threads|
  {
  }

  /** The protocol event behind a system event, if there is one. */
  ghost function Inner(s: System, e: SystemEvent): seq<Event>
    requires Shape(s) && CanDo(s, e)
  {
    match e
    case Wake(w, _) => [AddPending(Pick(s, w))]
    case Push(w) => [PushWork(s.io[w].t)]
    case Next(w) => if s.io[w].left == 0 then [] else [AddPending(Pick(s, w))]
    case Local(le) => [le]
    case _ => []
  }

  lemma InnerStep(s: System, e: SystemEvent)
    requires SystemInv(s) && CanDo(s, e)
    ensures var es := Inner(s, e);
      if es == [] then Do(s, e).p == s.p else Enabled(s.p, es[0]) && Do(s, e).p == Step(s.p, es[0])
    ensures Do(s, e).members == s.members
    ensures Inner(s, e) != [] && (Inner(s, e)[0].AddPending? || Inner(s, e)[0].PushWork?) ==>
      Inner(s, e)[0].t in Members(s)
  {
    if (e.Wake? || e.Push? || e.Next?) {
      PickIsFirst(s, e.w);
      assert WorkerOk(s, e.w);
      assert s.members[e.w][0] in Members(s);
    }
  }

  lemma OnDutyStays(s: System, e: SystemEvent)
    requires SystemInv(s) && OnDuty(s) && CanDo(s, e) && Serving(e)
    ensures OnDuty(Do(s, e))
  {
    InnerStep(s, e);
    var es, s' := Inner(s, e), Do(s, e);
    assert Members(s') == Members(s);
    if es != [] {
      SameThreadCount(s.p, es[0]);
      forall t: nat | At(s'.p, t)
        ensures IsActive(s'.p, t) && !PcOf(s'.p, t).Exited? && (t in Members(s) || s'.p.threads[t].adding == 0)
      {
        LocalOnDuty(s.p, es[0], t);
        StaysActive(s.p, es[0], t);
        if t !in Members(s) { Safety.AddingStays(s.p, es[0], t); }
      }
    }
  }

  lemma ServingStep(s: System, e: SystemEvent)
    requires InService(s) && CanDo(s, e) && Serving(e)
    ensures InService(Do(s, e))
  {
    DoKeeps(s, e);
    HealthyStep(s, e);
    OnDutyStays(s, e);
    HangUpStays(s, e);
  }

  lemma HangUpStays(s: System, e: SystemEvent)
    requires SystemInv(s) && NoneHungUp(s) && CanDo(s, e) && Serving(e)
    ensures NoneHungUp(Do(s, e))
  {
  }

  // ----- Something can always be done before rest -----

  /** Callbacks done, pipes empty, every thread idling with nothing queued. */
  ghost predicate Settled(s: System) {
    && |s.io| == |s.pipes|
    && (forall w :: 0 <= w < |s.io| ==> s.io[w] == Io.Ready && s.pipes[w] == 0)
    && (forall t: nat :: At(s.p, t) ==> (PcOf(s.p, t).Top? || PcOf(s.p, t).Waiting?) && s.p.threads[t].queue == [])
  }

  lemma SettledRests(s: System)
    requires InService(s) && Settled(s)
    ensures AtRest(s)
  {
    forall t: nat | At(s.p, t) ensures Unclaimed(s.p.threads[t]) == 0 {
      if t in Members(s) {
        var w, k :| 0 <= w < |s.members| && 0 <= k < |s.members[w]| && s.members[w][k] == t;
        assert WorkerOk(s, w);
        if k > 0 { assert IdleThread(s.p.threads[s.members[w][k]]); }
      }
    }
  }

  /** What worker `w` can do next. */
  function WorkerNext(s: System, w: nat): SystemEvent
    requires w < |s.io| == |s.pipes|
  {
    match s.io[w]
    case AtRead(_) => Read(w, if s.pipes[w] < BUFFER_BYTES then s.pipes[w] else BUFFER_BYTES)
    case Loop(_) => Next(w)
    case FirstPush(_, _) => Push(w)
    case LoopPush(_, _) => Push(w)
    case _ => Wake(w, false)
  }

  lemma WorkerCanGoOn(s: System, w: nat)
    requires InService(s) && w < |s.io| && (s.io[w] != Io.Ready || s.pipes[w] > 0)
    ensures var e := WorkerNext(s, w); CanDo(s, e) && Serving(e) && Productive(s, e)
  {
    assert WorkerOk(s, w);
  }

  lemma ThreadCanGoOn(s: System, t: nat, stamp: Stamp)
    requires InService(s) && At(s.p, t) && stamp.Valid() && Text(stamp) !in s.p.used
    requires !((PcOf(s.p, t).Top? || PcOf(s.p, t).Waiting?) && s.p.threads[t].queue == [])
    ensures var e := Local(NextEvent(s.p, t, stamp)); CanDo(s, e) && Serving(e) && Productive(s, e)
  {
    NextEnabled(s.p, t, stamp);
  }

  /** As long as the system has not settled, some productive event can happen. */
  lemma Progress(s: System, stamp: Stamp)
    requires InService(s) && !Settled(s) && stamp.Valid() && Text(stamp) !in s.p.used
    ensures exists e :: CanDo(s, e) && Serving(e) && Productive(s, e) && ClaimsWith(e, stamp)
  {
    if w :| 0 <= w < |s.io| && (s.io[w] != Io.Ready || s.pipes[w] > 0) {
      WorkerCanGoOn(s, w);
    } else {
      var t: nat :| At(s.p, t) &&
        !((PcOf(s.p, t).Top? || PcOf(s.p, t).Waiting?) && s.p.threads[t].queue == []);
      ThreadCanGoOn(s, t, stamp);
    }
  }

  predicate ClaimsWith(e: SystemEvent, stamp: Stamp) {
    e.Local? && e.e.ClaimRows? ==> e.e.stamp == stamp
  }

  // ----- Whole runs -----

  /** How many of the first `i` events were productive. */
  ghost function Efforts(trace: seq<System>, es: seq<SystemEvent>, i: nat): nat
    requires IsTrace(trace, es) && i <= |es|
  {
    if i == 0 then 0 else Efforts(trace, es, i - 1) + if Productive(trace[i - 1], es[i - 1]) then 1 else 0
  }

  ghost predicate ServingRun(trace: seq<System>, es: seq<SystemEvent>) {
    IsTrace(trace, es) && InService(trace[0]) && forall i :: 0 <= i < |es| ==> Serving(es[i])
  }

  lemma {:induction false} ServingRunStays(trace: seq<System>, es: seq<SystemEvent>, i: nat)
    requires ServingRun(trace, es) && i <= |es|
    ensures InService(trace[i])
  {
    if i > 0 {
      ServingRunStays(trace, es, i - 1);
      ServingStep(trace[i - 1], es[i - 1]);
    }
  }

  lemma {:induction false} EffortBalance(trace: seq<System>, es: seq<SystemEvent>, i: nat)
    requires ServingRun(trace, es) && i <= |es|
    ensures |trace[i].io| == |trace[i].pipes|
    ensures Efforts(trace, es, i) + Distance(trace[i]) <=
      Distance(trace[0]) + MESSAGE * PER_BYTE * Calls(trace, es, i)
  {
    if i > 0 {
      EffortBalance(trace, es, i - 1);
      ServingRunStays(trace, es, i - 1);
      ServingCloser(trace[i - 1], es[i - 1]);
    }
  }

  /** However long a run goes on, only so many of its events are productive, unless the server wakes more workers. */
  lemma EffortBound(trace: seq<System>, es: seq<SystemEvent>)
    requires ServingRun(trace, es)
    ensures Efforts(trace, es, |es|) <= Distance(trace[0]) + MESSAGE * PER_BYTE * Calls(trace, es, |es|)
  {
    EffortBalance(trace, es, |es|);
    ServingRunStays(trace, es, |es|);
    DistanceNonNegative(trace[|es|]);
  }

  /** Clock readings whose lock ids are all different and unused. */
  ghost predicate Fresh(clock: seq<Stamp>, used: set<string>) {
    && (forall k :: 0 <= k < |clock| ==> clock[k].Valid() && Text(clock[k]) !in used)
    && (forall j, k :: 0 <= j < k < |clock| ==> Text(clock[j]) != Text(clock[k]))
  }

  lemma UsedStep(p: State, e: Event)
    requires Enabled(p, e)
    ensures Step(p, e).used <= p.used + if e.ClaimRows? then {Text(e.stamp)} else {}
  {
  }

  lemma StillFresh(s: System, e: SystemEvent, clock: seq<Stamp>)
    requires SystemInv(s) && CanDo(s, e) && clock != [] && Fresh(clock, s.p.used) && ClaimsWith(e, clock[0])
    ensures Fresh(clock[1..], Do(s, e).p.used)
  {
    InnerStep(s, e);
    if Inner(s, e) != [] { UsedStep(s.p, Inner(s, e)[0]); }
  }

  lemma SnocTrace(trace: seq<System>, es: seq<SystemEvent>, e: SystemEvent)
    requires IsTrace(trace, es) && Shape(trace[|es|]) && CanDo(trace[|es|], e)
    ensures IsTrace(trace + [Do(trace[|es|], e)], es + [e])
  {
  }

  /** The events added to a run are productive ones. */
  ghost predicate Continues(trace: seq<System>, es: seq<SystemEvent>, trace': seq<System>, es': seq<SystemEvent>) {
    && IsTrace(trace', es') && trace <= trace' && es <= es'
    && forall k :: |es| <= k < |es'| ==> Serving(es'[k]) && Productive(trace'[k], es'[k])
  }

  /** Given enough clock readings, every run of a serving system can go on to rest, without any further poll. */
  lemma {:induction false} ReachesRest(trace: seq<System>, es: seq<SystemEvent>, clock: seq<Stamp>)
    returns (trace': seq<System>, es': seq<SystemEvent>)
    requires IsTrace(trace, es) && InService(trace[|es|])
    requires Fresh(clock, trace[|es|].p.used) && Distance(trace[|es|]) < |clock|
    ensures Continues(trace, es, trace', es')
    ensures InService(trace'[|es'|]) && Settled(trace'[|es'|])
    decreases |clock|
  {
    var s := trace[|es|];
    if Settled(s) {
      return trace, es;
    }
    DistanceNonNegative(s);
    Progress(s, clock[0]);
    var e :| CanDo(s, e) && Serving(e) && Productive(s, e) && ClaimsWith(e, clock[0]);
    ServingStep(s, e);
    ServingCloser(s, e);
    StillFresh(s, e, clock);
    SnocTrace(trace, es, e);
    var trace1, es1 := trace + [Do(s, e)], es + [e];
    trace', es' := ReachesRest(trace1, es1, clock[1..]);
    assert es'[|es|] == es1[|es|] == e && trace'[|es|] == trace1[|es|] == s;
  }

  // ----- Recovery without assuming rest -----

  lemma {:induction false} TicksPrefix(es: seq<SystemEvent>, es': seq<SystemEvent>, i: nat)
    requires es <= es' && i <= |es|
    ensures Ticks(es', i) == Ticks(es, i)
  {
    if i > 0 { TicksPrefix(es, es', i - 1); }
  }

  lemma {:induction false} TicksGrow(es: seq<SystemEvent>, i: nat, j: nat)
    requires i <= j <= |es|
    ensures Ticks(es, i) <= Ticks(es, j)
    decreases j
  {
    if i < j { TicksGrow(es, i, j - 1); }
  }

  /** Enough ticks, and then nothing left to do: no row waits. */
  lemma SettledRecovered(trace: seq<System>, es: seq<SystemEvent>)
    requires ServingRun(trace, es) && Settled(trace[|es|])
    requires 2 * Ticks(es, |es|) >= |Fifo.Queue(trace[0].p)|
    ensures AtRest(trace[|es|]) && Fifo.Queue(trace[|es|].p) == []
  {
    ServingRunStays(trace, es, |es|);
    SettledRests(trace[|es|]);
    PollingRecovers(trace, es);
  }

  /** No productive event can happen. */
  ghost predicate Exhausted(s: System) {
    Shape(s) && forall e :: CanDo(s, e) && Serving(e) ==> !Productive(s, e)
  }

  /**
   * A serving run with half as many idle ticks as there were waiting rows, at whose end no productive event is
   * left, has claimed every row. By `EffortBound` a run without further wake-ups gets there.
   */
  lemma NothingLeftToDo(trace: seq<System>, es: seq<SystemEvent>, stamp: Stamp)
    requires ServingRun(trace, es) && 2 * Ticks(es, |es|) >= |Fifo.Queue(trace[0].p)|
    requires stamp.Valid() && Text(stamp) !in trace[|es|].p.used
    requires Exhausted(trace[|es|])
    ensures AtRest(trace[|es|]) && Fifo.Queue(trace[|es|].p) == []
  {
    ServingRunStays(trace, es, |es|);
    if !Settled(trace[|es|]) { Progress(trace[|es|], stamp); }
    SettledRecovered(trace, es);
  }

  /** The same for a freshly started system with all its processes active. */
  lemma RecoversFromStart(trace: seq<System>, es: seq<SystemEvent>, stamp: Stamp)
    requires IsTrace(trace, es) && SystemInitial(trace[0])
    requires forall t: nat :: At(trace[0].p, t) ==> IsActive(trace[0].p, t)
    requires forall i :: 0 <= i < |es| ==> Serving(es[i])
    requires 2 * Ticks(es, |es|) >= |Fifo.Queue(trace[0].p)|
    requires stamp.Valid() && Text(stamp) !in trace[|es|].p.used && Exhausted(trace[|es|])
    ensures AtRest(trace[|es|]) && Fifo.Queue(trace[|es|].p) == []
  {
    InitialInService(trace[0]);
    NothingLeftToDo(trace, es, stamp);
  }

  /** From any point of such a run, productive events alone lead to a state in which no row waits. */
  lemma AlwaysRecovers(trace: seq<System>, es: seq<SystemEvent>, clock: seq<Stamp>)
    returns (trace': seq<System>, es': seq<SystemEvent>)
    requires ServingRun(trace, es) && 2 * Ticks(es, |es|) >= |Fifo.Queue(trace[0].p)|
    requires Fresh(clock, trace[|es|].p.used) && |trace[|es|].io| == |trace[|es|].pipes|
    requires Distance(trace[|es|]) < |clock|
    ensures Continues(trace, es, trace', es')
    ensures AtRest(trace'[|es'|]) && Fifo.Queue(trace'[|es'|].p) == []
  {
    ServingRunStays(trace, es, |es|);
    trace', es' := ReachesRest(trace, es, clock);
    forall i | 0 <= i < |es'| ensures Serving(es'[i]) { if i < |es| { assert es'[i] == es[i]; } }
    TicksPrefix(es, es', |es|);
    TicksGrow(es', |es|, |es'|);
    SettledRecovered(trace', es');
  }
}
