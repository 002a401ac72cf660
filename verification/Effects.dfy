/** What each event does to rows, queues and flags, and what that comes to over whole runs. */
module Effects {
  import opened Invariant
  import opened JobTable
  import opened LockIds
  import opened Preservation
  import opened Protocol
  import opened Safety
  import opened SharedState
  import opened Shutdown

  // ----- Rows -----

  /** Every event's effect on the table, statement by statement. */
  lemma RowsExactly(s: State, e: Event)
    requires Enabled(s, e)
    ensures Step(s, e).rows == match e
      case Insert(id, name) => s.rows[id := Row(name, Pending, "")]
      case ClaimRows(t, stamp, ok) => if ok then Claim(s.rows, Text(stamp), PcOf(s, t).workload) else s.rows
      case ReleaseRows(t, ok) => if ok then Release(s.rows, PcOf(s, t).lock) else s.rows
      case DiscardRow(t, ok) => if ok then Resolve(s.rows, PcOf(s, t).row, Error) else s.rows
      case MarkRow(t, ok) => if ok then MarkProcessing(s.rows, PcOf(s, t).row) else s.rows
      case FinishRow(t, ok) =>
        if !ok then s.rows
        else Resolve(s.rows, PcOf(s, t).jobs[0], if PcOf(s, t).succeeded then Complete else Error)
      case _ => s.rows
  {
    if LeavesRows(e) { LeavesRowsFrame(s, e); }
  }

  /** A row inserted in a run has the name it was inserted with. */
  lemma {:induction false} InsertedName(s: State, es: seq<Event>, id: nat, name: string)
    requires Inv(s) && IsRun(s, es) && Insert(id, name) in es
    ensures id in After(s, es).rows && After(s, es).rows[id].name == name
    decreases |es|
  {
    var front, e := es[..|es| - 1], es[|es| - 1];
    RunKeeps(s, front);
    RowsExactly(After(s, front), e);
    if e != Insert(id, name) {
      InsertedName(s, front, id, name);
      TakenStep(After(s, front), e, id);
    }
  }

  // ----- Results -----

  lemma ExecuteThenFinish(s: State, es: seq<Event>, t: nat, succeeded: bool)
    requires Enabled(s, Execute(t, succeeded)) && IsRun(ExecuteStep(s, t, succeeded), es)
    requires forall e :: e in es ==> !IsOwn(e, t)
    ensures At(After(ExecuteStep(s, t, succeeded), es), t)
    ensures var pc := PcOf(After(ExecuteStep(s, t, succeeded), es), t);
      pc.Finishing? && pc.jobs == PcOf(s, t).jobs && pc.succeeded == succeeded
  {
    OthersKeepMine(ExecuteStep(s, t, succeeded), es, t);
  }

  /**
   * The result of a job as its row shows it for good: between execution and the UPDATE after it the thread takes no
   * other step, and if that UPDATE works the row says complete after a success and error after a failure, unlocked.
   */
  lemma ResultRecorded(s: State, between: seq<Event>, later: seq<Event>, t: nat, succeeded: bool)
    requires Inv(s) && Enabled(s, Execute(t, succeeded))
    requires IsRun(ExecuteStep(s, t, succeeded), between) && forall e :: e in between ==> !IsOwn(e, t)
    requires var s2 := After(ExecuteStep(s, t, succeeded), between);
      Enabled(s2, FinishRow(t, true)) && IsRun(Step(s2, FinishRow(t, true)), later)
    ensures var s3 := Step(After(ExecuteStep(s, t, succeeded), between), FinishRow(t, true));
      var id, rows := PcOf(s, t).jobs[0], After(s3, later).rows;
      id in rows && rows[id].status == (if succeeded then Complete else Error) && rows[id].lock == ""
  {
    var s1 := ExecuteStep(s, t, succeeded);
    StepKeeps(s, Execute(t, succeeded));
    RunKeeps(s1, between);
    var s2 := After(s1, between);
    ExecuteThenFinish(s, between, t, succeeded);
    var id := PcOf(s, t).jobs[0];
    HeldExists(s2, t, id);
    StepKeeps(s2, FinishRow(t, true));
    var s3 := Step(s2, FinishRow(t, true));
    RowsExactly(s2, FinishRow(t, true));
    assert Dead(s3, id);
    DeadForever(s3, later, id);
  }

  // ----- Message queues -----

  /** What an event does to the queue of thread `t`. */
  lemma QueueExactly(s: State, e: Event, t: nat)
    requires Enabled(s, e) && At(s, t)
    ensures At(Step(s, e), t)
    ensures Step(s, e).threads[t].queue ==
      if e == PushWork(t) then s.threads[t].queue + [Work]
      else if e == PushStop(t) then s.threads[t].queue + [Stop]
      else if e == Pop(t) then s.threads[t].queue[1..]
      else s.threads[t].queue
  {
    if !IsOwn(e, t) {
      OthersKeepPc(s, e, t);
    } else if ForRow(e) || ForBatch(e) || ForClaim(e) {
      StepAdvances(s, e);
    }
  }

  /** The messages pushed to a thread in a run, in order. */
  function Pushed(es: seq<Event>, t: nat): seq<Message> {
    if es == [] then []
    else
      var e := es[|es| - 1];
      Pushed(es[..|es| - 1], t) + if e == PushWork(t) then [Work] else if e == PushStop(t) then [Stop] else []
  }

  /** The messages a thread has popped in a run, in order. */
  ghost function Popped(s: State, es: seq<Event>, t: nat): seq<Message>
    requires IsRun(s, es)
    decreases |es|
  {
    if es == [] then []
    else
      Popped(s, es[..|es| - 1], t) +
      if es[|es| - 1] == Pop(t) then [After(s, es[..|es| - 1]).threads[t].queue[0]] else []
  }

  lemma QueueMove(pre: seq<Message>, popped: seq<Message>, queue: seq<Message>, queue': seq<Message>, e: Event, t: nat)
    requires pre == popped + queue && (e == Pop(t) ==> queue != [])
    requires queue' ==
      if e == PushWork(t) then queue + [Work] else if e == PushStop(t) then queue + [Stop]
      else if e == Pop(t) then queue[1..] else queue
    ensures (popped + if e == Pop(t) then [queue[0]] else []) + queue' ==
      pre + if e == PushWork(t) then [Work] else if e == PushStop(t) then [Stop] else []
  {
  }

  /** Queues are first in, first out: what was popped and what is left is what was there and what was pushed. */
  lemma {:induction false} QueueLaw(s: State, es: seq<Event>, t: nat)
    requires IsRun(s, es) && At(s, t)
    ensures At(After(s, es), t)
    ensures Popped(s, es, t) + After(s, es).threads[t].queue == s.threads[t].queue + Pushed(es, t)
    decreases |es|
  {
    if es != [] {
      var front, e := es[..|es| - 1], es[|es| - 1];
      var mid := After(s, front);
      QueueLaw(s, front, t);
      QueueExactly(mid, e, t);
      QueueMove(s.threads[t].queue + Pushed(front, t), Popped(s, front, t), mid.threads[t].queue,
                Step(mid, e).threads[t].queue, e, t);
      assert s.threads[t].queue + Pushed(es, t) ==
        s.threads[t].queue + Pushed(front, t) +
        if e == PushWork(t) then [Work] else if e == PushStop(t) then [Stop] else [];
    }
  }

  // ----- m_active -----

  /** A process is active as long as nobody has told it to stop. */
  lemma {:induction false} ActiveExactly(s: State, es: seq<Event>, w: nat)
    requires IsRun(s, es) && w < |s.active|
    ensures w < |After(s, es).active|
    ensures After(s, es).active[w] <==> s.active[w] && Deactivate(w) !in es
    decreases |es|
  {
    if es != [] {
      var front, e := es[..|es| - 1], es[|es| - 1];
      ActiveExactly(s, front, w);
      ActiveStays(After(s, front), e);
      assert es == front + [e];
    }
  }

  /** A thread that tests m_active leaves its loop exactly if it finds it cleared. */
  lemma TestExactly(s: State, t: nat)
    requires Enabled(s, Test(t))
    ensures var w := s.threads[t].cfg.worker;
      PcOf(Step(s, Test(t)), t) == if w < |s.active| && s.active[w] then Waiting else Exited
  {
  }

  lemma {:induction false} StopIsPushed(es: seq<Event>, t: nat)
    requires PushStop(t) in es
    ensures Stop in Pushed(es, t)
  {
    var front, e := es[..|es| - 1], es[|es| - 1];
    assert es == front + [e];
    if e != PushStop(t) { StopIsPushed(front, t); }
  }

  lemma WaitingStep(s: State, e: Event, t: nat)
    requires Enabled(s, e) && At(s, t) && !IsActive(s, t)
    ensures At(Step(s, e), t)
    ensures PcOf(Step(s, e), t).Waiting? ==> PcOf(s, t).Waiting? && e != Pop(t)
  {
    if IsOwn(e, t) { NotBackToWaiting(s, e, t); } else { OthersKeepPc(s, e, t); }
  }

  lemma {:induction false} WaitingSince(s: State, es: seq<Event>, t: nat)
    requires IsRun(s, es) && At(s, t) && !IsActive(s, t)
    ensures At(After(s, es), t)
    ensures PcOf(After(s, es), t).Waiting? ==>
      PcOf(s, t).Waiting? && After(s, es).threads[t].queue == s.threads[t].queue + Pushed(es, t)
    decreases |es|
  {
    if es != [] {
      var front, e := es[..|es| - 1], es[|es| - 1];
      WaitingSince(s, front, t);
      AtMostOneMoreBatch(s, front, t);
      WaitingStep(After(s, front), e, t);
      QueueExactly(After(s, front), e, t);
    }
  }

  /**
   * A stop message ends the wait: once m_active is cleared, a thread still waiting has been waiting all along, so a
   * stop sent since is in its queue, and its wait cannot time out.
   */
  lemma StopWakes(s: State, es: seq<Event>, t: nat)
    requires IsRun(s, es) && At(s, t) && !IsActive(s, t)
    ensures At(After(s, es), t)
    ensures PcOf(After(s, es), t).Waiting? ==>
      PcOf(s, t).Waiting? && After(s, es).threads[t].queue == s.threads[t].queue + Pushed(es, t)
    ensures PcOf(After(s, es), t).Waiting? && PushStop(t) in es ==>
      Stop in After(s, es).threads[t].queue && !Enabled(After(s, es), Timeout(t))
  {
    WaitingSince(s, es, t);
    if PushStop(t) in es { StopIsPushed(es, t); }
  }

  lemma NotBackToWaiting(s: State, e: Event, t: nat)
    requires Enabled(s, e) && At(s, t) && !IsActive(s, t) && IsOwn(e, t)
    ensures At(Step(s, e), t) && !PcOf(Step(s, e), t).Waiting?
  {
    if ForRow(e) || ForBatch(e) || ForClaim(e) { StepAdvances(s, e); }
  }
}
