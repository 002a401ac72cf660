/**
 * The main thread of a worker process: turning bytes from the server into units of work, and shutting down. Its
 * work threads, and everyone else, take any number of steps between its accesses to shared state.
 */
module WorkerProcesses {
  import opened Dispatch
  import opened Effects
  import opened Invariant
  import opened Preservation
  import opened Protocol
  import opened Safety
  import opened SharedState
  import opened Shutdown

  // ----- What becomes of a row in a thread's hand -----

  ghost predicate HandOrDead(s: State, t: nat, id: nat) {
    id in s.rows && id in s.fate && (s.fate[id] == InHand(t) || Dead(s, id))
  }

  lemma ReadFate(s: State, e: Event, t: nat, id: nat)
    requires Enabled(s, e) && ReadsRows(e) && id in s.rows && id in s.fate && s.fate[id] == InHand(t)
    ensures HandOrDead(Step(s, e), t, id)
  {
  }

  lemma WriteFate(s: State, e: Event, t: nat, id: nat)
    requires Enabled(s, e) && (e.DiscardRow? || e.MarkRow? || e.FinishRow?)
    requires id in s.rows && id in s.fate && s.fate[id] == InHand(t)
    ensures HandOrDead(Step(s, e), t, id)
  {
  }

  lemma HandOrDeadStep(s: State, e: Event, t: nat, id: nat)
    requires Inv(s) && Enabled(s, e) && HandOrDead(s, t, id)
    ensures HandOrDead(Step(s, e), t, id)
  {
    if Dead(s, id) {
      DeadStep(s, e, id);
    } else if LeavesRows(e) {
      LeavesRowsFrame(s, e);
    } else if e.ClaimRows? {
      assert RowOk(s, id);
      HeldExists(s, t, id);
      ClaimFrame(s, e, id);
    } else if ReadsRows(e) {
      ReadFate(s, e, t, id);
    } else if !e.Insert? {
      WriteFate(s, e, t, id);
    }
  }

  /** A row that thread `t` holds stays in its hands until it is finished or stranded. */
  lemma {:induction false} HandOrDeadRun(s: State, es: seq<Event>, t: nat, id: nat)
    requires Inv(s) && IsRun(s, es) && HandOrDead(s, t, id)
    ensures HandOrDead(After(s, es), t, id)
    decreases |es|
  {
    if es != [] {
      var front := es[..|es| - 1];
      HandOrDeadRun(s, front, t, id);
      RunKeeps(s, front);
      HandOrDeadStep(After(s, front), es[|es| - 1], t, id);
    }
  }

  lemma CreatedStaysStep(s: State, e: Event, id: nat)
    requires Enabled(s, e) && id in s.created
    ensures id in Step(s, e).created
  {
  }

  lemma {:induction false} CreatedStays(s: State, es: seq<Event>, id: nat)
    requires IsRun(s, es) && id in s.created
    ensures id in After(s, es).created
    decreases |es|
  {
    if es != [] {
      CreatedStays(s, es[..|es| - 1], id);
      CreatedStaysStep(After(s, es[..|es| - 1]), es[|es| - 1], id);
    }
  }

  /** The job was run, and its row is finished, or shows that its result was lost. */
  ghost predicate JobFinal(s: State, id: nat) {
    && id in s.executed && id in s.rows && id in s.fate
    && (SettledShape(s.rows[id]) || s.fate[id] == Stranded(ResultLost))
  }

  /** Once a thread has exited, every job it ever had in hand has been run and its row written, if that worked. */
  lemma ExitedFinishes(s: State, es: seq<Event>, t: nat, id: nat)
    requires Inv(s) && IsRun(s, es) && At(s, t) && HasJob(PcOf(s, t), id)
    requires At(After(s, es), t) && PcOf(After(s, es), t).Exited?
    ensures JobFinal(After(s, es), id)
  {
    var s' := After(s, es);
    assert ThreadOk(s, t) && Holds(PcOf(s, t), id);
    HeldExists(s, t, id);
    HandOrDeadRun(s, es, t, id);
    CreatedStays(s, es, id);
    RunKeeps(s, es);
    assert RowOk(s', id) && CreatedOk(s', id);
    assert MayBeExecuted(s', id);
  }

  // ----- The process -----

  /** The counters as one scan read them, and the points of the run where it did. */
  datatype Look = Look(counts: seq<int>, at: seq<nat>)

  class Worker {
    const sh: Shared
    const number: nat
    const threads: seq<nat>   // m_threads

    constructor (sh: Shared, number: nat, threads: seq<nat>)
      ensures this.sh == sh && this.number == number && this.threads == threads
    {
      this.sh := sh;
      this.number := number;
      this.threads := threads;
    }

    function Me(): Actor {
      MainThread(number, set t | t in threads)
    }

    /** The process has threads, all of them its own, and nobody else sends them anything. */
    ghost predicate Valid()
      reads sh
    {
      && sh.Valid() && number < |sh.active| && threads != []
      && forall k :: 0 <= k < |threads| ==> At(sh.st, threads[k]) && sh.st.threads[threads[k]].cfg.worker == number
    }

    /** Lets the others run. */
    method Pause()
      requires Valid()
      modifies sh
      ensures Valid() && sh.GoesOn(Me(), {}, [])
      ensures forall k :: 0 <= k < |threads| ==>
        sh.st.threads[threads[k]].adding == old(sh.st.threads[threads[k]].adding)
    {
      ghost var s, es := sh.st, sh.trace;
      sh.Yield(Me(), {});
      ghost var more := sh.trace[|es|..];
      assert sh.trace == es + more;
      RunSplit(sh.start, es, more);
      forall k | 0 <= k < |threads| ensures sh.st.threads[threads[k]].adding == s.threads[threads[k]].adding {
        AddingKept(s, more, threads[k]);
      }
    }

    lemma {:induction false} AddingKept(s: State, es: seq<Event>, t: nat)
      requires IsRun(s, es) && At(s, t) && t in threads
      requires forall e :: e in es ==> !Does(Me(), e)
      ensures At(After(s, es), t) && After(s, es).threads[t].adding == s.threads[t].adding
      decreases |es|
    {
      if es != [] {
        var front, e := es[..|es| - 1], es[|es| - 1];
        AddingKept(s, front, t);
        assert e in es;
        AddingStays(After(s, front), e, t);
      }
    }

    // ----- schedule -----

    /** At point `at` of the run, thread number `k` had `value` pending. */
    ghost predicate HadPending(es: seq<Event>, from: nat, k: nat, value: int, at: nat)
      requires IsRun(sh.start, es) && k < |threads|
    {
      && from <= at <= |es|
      && At(StateAt(sh.start, es, at), threads[k])
      && value == StateAt(sh.start, es, at).threads[threads[k]].pending
    }

    /** The counters of the first threads, each as it was at the point of the run in `at`. */
    ghost predicate ReadAt(es: seq<Event>, from: nat, counts: seq<int>, at: seq<nat>)
      requires IsRun(sh.start, es)
    {
      && |at| == |counts| <= |threads|
      && forall k {:trigger HadPending(es, from, k, counts[k], at[k])} :: 0 <= k < |counts| ==>
           HadPending(es, from, k, counts[k], at[k])
    }

    function CallEvents(k: nat): seq<Event>
      requires k < |threads|
    {
      [AddPending(threads[k]), PushWork(threads[k])]
    }

    /** The first step of `send_work`. */
    method RaiseOne(k: nat)
      requires Valid() && k < |threads|
      modifies sh
      ensures Valid() && sh.GoesOn(Me(), {}, [AddPending(threads[k])]) && sh.st.threads[threads[k]].adding > 0
    {
      Pause();
      ghost var es := sh.trace;
      sh.RaisePending(threads[k]);
      MineSnoc(es, AddPending(threads[k]), Me());
      ExtendsTwice(Me(), old(sh.trace), es, sh.trace, [], [AddPending(threads[k])]);
    }

    /** And the second. */
    method PushOne(k: nat)
      requires Valid() && k < |threads| && sh.st.threads[threads[k]].adding > 0
      modifies sh
      ensures Valid() && sh.GoesOn(Me(), {}, [PushWork(threads[k])])
    {
      Pause();
      ghost var es := sh.trace;
      sh.PushUnit(threads[k]);
      MineSnoc(es, PushWork(threads[k]), Me());
      ExtendsTwice(Me(), old(sh.trace), es, sh.trace, [], [PushWork(threads[k])]);
    }

    /** `send_work` on thread number `k`. */
    method SendWork(k: nat)
      requires Valid() && k < |threads|
      modifies sh
      ensures Valid() && sh.GoesOn(Me(), {}, CallEvents(k))
    {
      RaiseOne(k);
      ghost var es := sh.trace;
      PushOne(k);
      ExtendsTwice(Me(), old(sh.trace), es, sh.trace, [AddPending(threads[k])], [PushWork(threads[k])]);
      assert CallEvents(k) == [AddPending(threads[k])] + [PushWork(threads[k])];
    }

    /** `k` is what the scan picks, going by counters that were read one by one. */
    ghost predicate Chose(es: seq<Event>, from: nat, k: nat, counts: seq<int>, at: seq<nat>)
      requires IsRun(sh.start, es)
    {
      |counts| == |threads| && FirstGreatestAboveTen(counts, k) && ReadAt(es, from, counts, at)
    }

    lemma StillRead(es: seq<Event>, more: seq<Event>, from: nat, counts: seq<int>, at: seq<nat>)
      requires IsRun(sh.start, es) && IsRun(sh.start, more) && es <= more && ReadAt(es, from, counts, at)
      ensures ReadAt(more, from, counts, at)
    {
      forall k | 0 <= k < |counts| ensures HadPending(more, from, k, counts[k], at[k]) {
        assert HadPending(es, from, k, counts[k], at[k]);
        StateAtStays(sh.start, es, more, at[k]);
      }
    }

    /** `m_threads[i]->pending()` for the next thread. */
    method ReadPending(ghost from: nat, counts: seq<int>, ghost at: seq<nat>) returns (value: int)
      requires Valid() && |counts| < |threads| && from <= |sh.trace| && ReadAt(sh.trace, from, counts, at)
      modifies sh
      ensures Valid() && sh.GoesOn(Me(), {}, [])
      ensures ReadAt(sh.trace, from, counts + [value], at + [|sh.trace|])
    {
      ghost var es := sh.trace;
      Pause();
      value := sh.pendings[threads[|counts|]];
      StillRead(es, sh.trace, from, counts, at);
      assert sh.trace[..|sh.trace|] == sh.trace;
      assert forall k :: 0 <= k < |counts| ==> HadPending(sh.trace, from, k, counts[k], at[k]);
      assert HadPending(sh.trace, from, |counts|, value, |sh.trace|);
    }

    /** The local variables of the scan after the counters read so far. */
    ghost predicate Scanned(from: nat, smallest: int, selected: nat, counts: seq<int>, at: seq<nat>)
      requires sh.Valid()
      reads sh
    {
      smallest == Best(counts) && selected == Selected(counts) && ReadAt(sh.trace, from, counts, at)
    }

    method ScanOne(ghost from: nat, smallest: int, selected: nat, counts: seq<int>, ghost at: seq<nat>)
      returns (smallest': int, selected': nat, value: int)
      requires Valid() && |counts| < |threads| && from <= |sh.trace|
      requires Scanned(from, smallest, selected, counts, at)
      modifies sh
      ensures Valid() && sh.GoesOn(Me(), {}, [])
      ensures Scanned(from, smallest', selected', counts + [value], at + [|sh.trace|])
    {
      value := ReadPending(from, counts, at);
      ScanNext(counts, value);
      smallest', selected' := smallest, selected;
      if smallest < value {
        smallest' := value;
        selected' := |counts|;
      }
    }

    /** The scan over the counters, which the threads go on changing. */
    method Scan() returns (selected: nat, counts: seq<int>, ghost at: seq<nat>)
      requires Valid()
      modifies sh
      ensures Valid() && sh.GoesOn(Me(), {}, [])
      ensures Chose(sh.trace, |old(sh.trace)|, selected, counts, at)
    {
      var smallest, value := THRESHOLD, 0;
      selected, counts, at := 0, [], [];
      ghost var from := |sh.trace|;
      while |counts| < |threads|
        invariant |counts| <= |threads| && Valid() && sh.GoesOn(Me(), {}, [])
        invariant Scanned(from, smallest, selected, counts, at)
        decreases |threads| - |counts|
      {
        ghost var es := sh.trace;
        smallest, selected, value := ScanOne(from, smallest, selected, counts, at);
        ExtendsTwice(Me(), old(sh.trace), es, sh.trace, [], []);
        counts, at := counts + [value], at + [|sh.trace|];
      }
      SelectedIsBusiest(counts);
    }

    /** One unit of work to the thread the scan picks. */
    method Schedule() returns (selected: nat, counts: seq<int>, ghost at: seq<nat>)
      requires Valid()
      modifies sh
      ensures Valid() && Chose(sh.trace, |old(sh.trace)|, selected, counts, at)
      ensures sh.GoesOn(Me(), {}, [AddPending(threads[selected]), PushWork(threads[selected])])
    {
      selected, counts, at := Scan();
      ghost var es := sh.trace;
      SendWork(selected);
      StillRead(es, sh.trace, |old(sh.trace)|, counts, at);
      ExtendsTwice(Me(), old(sh.trace), es, sh.trace, [], CallEvents(selected));
    }

    // ----- on_io_work -----

    /** Every choice was what the scan picks, going by counters read at points of the run. */
    ghost predicate AllChosen(es: seq<Event>, from: nat, chosen: seq<nat>, seen: seq<Look>)
      requires IsRun(sh.start, es)
    {
      && |seen| == |chosen|
      && forall c :: 0 <= c < |chosen| ==> Chose(es, from, chosen[c], seen[c].counts, seen[c].at)
    }

    /** One `send_work` per choice, in order. */
    function CallsEvents(chosen: seq<nat>): seq<Event> {
      if chosen == [] then []
      else
        var k := chosen[|chosen| - 1];
        CallsEvents(chosen[..|chosen| - 1]) + if k < |threads| then CallEvents(k) else []
    }

    lemma OneCallMore(chosen: seq<nat>, k: nat)
      requires k < |threads|
      ensures CallsEvents(chosen + [k]) == CallsEvents(chosen) + CallEvents(k)
    {
      assert (chosen + [k])[..|chosen|] == chosen;
    }

    lemma StillChosen(es: seq<Event>, more: seq<Event>, from: nat, chosen: seq<nat>, seen: seq<Look>)
      requires IsRun(sh.start, es) && IsRun(sh.start, more) && es <= more && AllChosen(es, from, chosen, seen)
      ensures AllChosen(more, from, chosen, seen)
    {
      forall c | 0 <= c < |chosen| ensures Chose(more, from, chosen[c], seen[c].counts, seen[c].at) {
        StillRead(es, more, from, seen[c].counts, seen[c].at);
      }
    }

    lemma ReadLater(es: seq<Event>, from: nat, from': nat, k: nat, counts: seq<int>, at: seq<nat>)
      requires IsRun(sh.start, es) && from <= from' && Chose(es, from', k, counts, at)
      ensures Chose(es, from, k, counts, at)
    {
      forall i | 0 <= i < |counts| ensures HadPending(es, from, i, counts[i], at[i]) {
        assert HadPending(es, from', i, counts[i], at[i]);
      }
    }

    /** One call more, after the ones in `chosen`. */
    method ScheduleNext(ghost from: nat, chosen: seq<nat>, ghost seen: seq<Look>)
      returns (k: nat, ghost look: Look)
      requires Valid() && from <= |sh.trace| && AllChosen(sh.trace, from, chosen, seen)
      modifies sh
      ensures Valid() && k < |threads| && sh.GoesOn(Me(), {}, CallEvents(k))
      ensures AllChosen(sh.trace, from, chosen + [k], seen + [look])
    {
      ghost var es := sh.trace;
      var counts;
      ghost var at;
      k, counts, at := Schedule();
      look := Look(counts, at);
      StillChosen(es, sh.trace, from, chosen, seen);
      ReadLater(sh.trace, from, |es|, k, counts, at);
    }

    /** `n` calls of `schedule`, after the ones in `chosen0`. */
    method ScheduleMore(ghost from: nat, chosen0: seq<nat>, ghost seen0: seq<Look>, n: nat)
      returns (chosen: seq<nat>, ghost seen: seq<Look>)
      requires Valid() && from <= |sh.trace| && AllChosen(sh.trace, from, chosen0, seen0)
      modifies sh
      ensures Valid() && |chosen| == |chosen0| + n && AllChosen(sh.trace, from, chosen, seen)
      ensures chosen0 <= chosen && sh.GoesOn(Me(), {}, CallsEvents(chosen[|chosen0|..]))
    {
      chosen, seen := chosen0, seen0;
      var i := 0;
      ghost var more: seq<nat> := [];
      while i < n
        invariant 0 <= i <= n && Valid() && |sh.trace| >= from && AllChosen(sh.trace, from, chosen, seen)
        invariant chosen == chosen0 + more && |more| == i && sh.GoesOn(Me(), {}, CallsEvents(more))
      {
        ghost var es := sh.trace;
        var k;
        ghost var look;
        k, look := ScheduleNext(from, chosen, seen);
        ExtendsTwice(Me(), old(sh.trace), es, sh.trace, CallsEvents(more), CallEvents(k));
        OneCallMore(more, k);
        chosen, seen, more := chosen + [k], seen + [look], more + [k];
        i := i + 1;
      }
      assert chosen[|chosen0|..] == more;
    }

    // ----- shutdown -----

    function StopEvents(n: nat): seq<Event>
      requires n <= |threads|
    {
      seq(n, k requires 0 <= k < n => PushStop(threads[k]))
    }

    ghost predicate AllInactive()
      requires Valid()
      reads sh
    {
      forall k :: 0 <= k < |threads| ==> !IsActive(sh.st, threads[k])
    }

    ghost predicate AllExited()
      requires Valid()
      reads sh
    {
      forall k :: 0 <= k < |threads| ==> PcOf(sh.st, threads[k]).Exited?
    }

    /** Every job that a thread of the process had in hand in state `s` has been run and recorded. */
    ghost predicate JobsFinal(s: State)
      reads sh
    {
      forall k, id :: 0 <= k < |threads| && At(s, threads[k]) && HasJob(PcOf(s, threads[k]), id) ==>
        JobFinal(sh.st, id)
    }

    /** The same for every job that a thread of the process ever had in hand, at any point of the run. */
    ghost predicate AllJobsFinal()
      requires sh.Valid()
      reads sh
    {
      forall at: nat :: at <= |sh.trace| ==> JobsFinal(StateAt(sh.start, sh.trace, at))
    }

    lemma AllFinal()
      requires Valid() && AllExited()
      ensures AllJobsFinal()
    {
      forall at: nat | at <= |sh.trace| ensures JobsFinal(StateAt(sh.start, sh.trace, at)) {
        PrefixRun(sh.start, sh.trace, at);
        ExitedFinal(sh.trace[..at]);
      }
    }

    lemma ExitedFinal(es: seq<Event>)
      requires Valid() && AllExited() && IsRun(sh.start, es) && es <= sh.trace
      ensures JobsFinal(After(sh.start, es))
    {
      var more := sh.trace[|es|..];
      assert sh.trace == es + more;
      RunSplit(sh.start, es, more);
      InitialInv(sh.start);
      RunKeeps(sh.start, es);
      var s := After(sh.start, es);
      forall k, id | 0 <= k < |threads| && At(s, threads[k]) && HasJob(PcOf(s, threads[k]), id)
        ensures JobFinal(sh.st, id)
      {
        ExitedFinishes(s, more, threads[k], id);
      }
    }

    lemma StillInactive(es: seq<Event>, t: nat)
      requires sh.Valid() && IsRun(sh.start, es) && es <= sh.trace
      requires At(After(sh.start, es), t) && !IsActive(After(sh.start, es), t)
      ensures At(sh.st, t) && !IsActive(sh.st, t)
    {
      var more := sh.trace[|es|..];
      assert sh.trace == es + more;
      RunSplit(sh.start, es, more);
      AtMostOneMoreBatch(After(sh.start, es), more, t);
    }

    /** `m_active = false` */
    method ClearActive()
      requires Valid()
      modifies sh
      ensures Valid() && AllInactive() && sh.GoesOn(Me(), {}, [Deactivate(number)])
    {
      Pause();
      ghost var es := sh.trace;
      sh.ClearActive(number);
      MineSnoc(es, Deactivate(number), Me());
      ExtendsTwice(Me(), old(sh.trace), es, sh.trace, [], [Deactivate(number)]);
    }

    method StopOne(k: nat)
      requires Valid() && k < |threads|
      modifies sh
      ensures Valid() && sh.GoesOn(Me(), {}, [PushStop(threads[k])])
    {
      Pause();
      ghost var es := sh.trace;
      sh.SendStop(threads[k]);
      MineSnoc(es, PushStop(threads[k]), Me());
      ExtendsTwice(Me(), old(sh.trace), es, sh.trace, [], [PushStop(threads[k])]);
    }

    lemma OneStopMore(es: seq<Event>, mid: seq<Event>, now: seq<Event>, k: nat)
      requires k < |threads|
      requires Extends(Me(), es, mid, StopEvents(k)) && Extends(Me(), mid, now, [PushStop(threads[k])])
      ensures Extends(Me(), es, now, StopEvents(k + 1))
    {
      ExtendsTwice(Me(), es, mid, now, StopEvents(k), [PushStop(threads[k])]);
      assert StopEvents(k) + [PushStop(threads[k])] == StopEvents(k + 1);
    }

    /** `send_stop` to every thread. */
    method StopAll()
      requires Valid()
      modifies sh
      ensures Valid() && sh.GoesOn(Me(), {}, StopEvents(|threads|))
    {
      var k := 0;
      while k < |threads|
        invariant 0 <= k <= |threads| && Valid() && sh.GoesOn(Me(), {}, StopEvents(k))
      {
        ghost var es := sh.trace;
        StopOne(k);
        OneStopMore(old(sh.trace), es, sh.trace, k);
        k := k + 1;
      }
    }

    /** Lets the others run while thread number `k` has not exited; a thread that has exited stays so. */
    method Wait()
      requires Valid()
      modifies sh
      ensures Valid() && sh.GoesOn(Me(), {}, [])
      ensures forall k :: 0 <= k < |threads| ==> old(sh.exited[threads[k]]) ==> sh.exited[threads[k]]
    {
      ghost var s, es := sh.st, sh.trace;
      Pause();
      ghost var more := sh.trace[|es|..];
      assert sh.trace == es + more;
      RunSplit(sh.start, es, more);
      forall k | 0 <= k < |threads| && PcOf(s, threads[k]).Exited? ensures PcOf(sh.st, threads[k]).Exited? {
        ExitedStays(s, more, threads[k]);
      }
    }

    /** The joins, in order. It gives up only after `patience` waits, with a thread that has not exited. */
    method JoinAll(patience: nat) returns (joined: bool, waits: nat)
      requires Valid()
      modifies sh
      ensures Valid() && sh.GoesOn(Me(), {}, [])
      ensures joined <==> AllExited()
      ensures waits <= patience && (!joined ==> waits == patience)
    {
      Pause();
      var k := 0;
      waits := 0;
      while k < |threads|
        invariant 0 <= k <= |threads| && waits <= patience && Valid() && sh.GoesOn(Me(), {}, [])
        invariant forall j :: 0 <= j < k ==> sh.exited[threads[j]]
        decreases |threads| - k + patience - waits
      {
        if sh.exited[threads[k]] {
          k := k + 1;
        } else if waits < patience {
          ghost var es := sh.trace;
          Wait();
          ExtendsTwice(Me(), old(sh.trace), es, sh.trace, [], []);
          waits := waits + 1;
        } else {
          assert !PcOf(sh.st, threads[k]).Exited?;
          return false, waits;
        }
      }
      joined := true;
    }

    /** One stop message for each thread, in order. */
    predicate StopsAll(stops: seq<Event>) {
      |stops| == |threads| && forall k :: 0 <= k < |threads| ==> stops[k] == PushStop(threads[k])
    }

    /** A thread still waiting has a stop message to wake it. */
    ghost predicate NoneSleeps()
      requires Valid()
      reads sh
    {
      forall k :: 0 <= k < |threads| ==>
        PcOf(sh.st, threads[k]).Waiting? ==> Stop in sh.queues[threads[k]] && !Enabled(sh.st, Timeout(threads[k]))
    }

    /** From the point where m_active was cleared: inactive since, and each stop sent since is there to be popped. */
    lemma StoppedSince(es: seq<Event>, stops: seq<Event>)
      requires Valid() && IsRun(sh.start, es) && Extends(Me(), es, sh.trace, stops) && StopsAll(stops)
      requires forall k :: 0 <= k < |threads| ==>
        At(After(sh.start, es), threads[k]) && !IsActive(After(sh.start, es), threads[k])
      ensures AllInactive() && NoneSleeps()
    {
      var s, more := After(sh.start, es), sh.trace[|es|..];
      ExtendsMeans(Me(), es, sh.trace, stops);
      assert sh.trace == es + more;
      RunSplit(sh.start, es, more);
      forall k | 0 <= k < |threads|
        ensures !IsActive(sh.st, threads[k])
        ensures PcOf(sh.st, threads[k]).Waiting? ==>
          Stop in sh.queues[threads[k]] && !Enabled(sh.st, Timeout(threads[k]))
      {
        StillInactive(es, threads[k]);
        MineIsPart(more, Me(), stops[k]);
        StopWakes(s, more, threads[k]);
      }
    }

    /**
     * Graceful shutdown: m_active is cleared, every thread gets one stop message, every thread is joined. From then on
     * no thread of the process can be waiting without one. When the joins have returned, every job the threads ever
     * had in hand, a last batch included, has been run, and its row is finished unless the statement with its result
     * failed.
     */
    method Shutdown(patience: nat) returns (joined: bool, waits: nat, ghost stops: seq<Event>)
      requires Valid()
      modifies sh
      ensures Valid() && AllInactive()
      ensures |stops| == |threads| && forall k :: 0 <= k < |threads| ==> stops[k] == PushStop(threads[k])
      ensures sh.GoesOn(Me(), {}, [Deactivate(number)] + stops)
      ensures NoneSleeps()
      ensures joined <==> AllExited()
      ensures waits <= patience && (!joined ==> waits == patience)
      ensures joined ==> AllJobsFinal()
    {
      ghost var es0 := sh.trace;
      ClearActive();
      ghost var es1 := sh.trace;
      StopAll();
      ghost var es2 := sh.trace;
      joined, waits := JoinAll(patience);
      stops := StopEvents(|threads|);
      ExtendsTwice(Me(), es1, es2, sh.trace, stops, []);
      assert stops + [] == stops;
      ExtendsTwice(Me(), es0, es1, sh.trace, [Deactivate(number)], stops);
      StoppedSince(es1, stops);
      if joined { AllFinal(); }
    }

    /**
     * One read callback; `bytes` is what read() returned. It makes exactly as many calls of `send_work` as there
     * were bytes, each for the thread that the scan picks; at end of file or on an error it makes one call and
     * shuts the process down.
     */
    method OnIoWork(bytes: int, patience: nat)
      returns (chosen: seq<nat>, ghost seen: seq<Look>, joined: bool, ghost stops: seq<Event>)
      requires Valid() && bytes >= -1
      modifies sh
      ensures Valid() && |chosen| == (if bytes > 0 then bytes else 1)
      ensures AllChosen(sh.trace, |old(sh.trace)|, chosen, seen)
      ensures bytes > 0 ==> sh.GoesOn(Me(), {}, CallsEvents(chosen))
      ensures bytes <= 0 ==>
        && |stops| == |threads| && (forall k :: 0 <= k < |threads| ==> stops[k] == PushStop(threads[k]))
        && sh.GoesOn(Me(), {}, CallsEvents(chosen) + ([Deactivate(number)] + stops))
        && AllInactive() && NoneSleeps() && (joined <==> AllExited())
      ensures joined ==> AllJobsFinal()
    {
      ghost var from, es0 := |sh.trace|, sh.trace;
      joined, stops := false, [];
      chosen, seen := ScheduleMore(from, [], [], 1);
      ghost var es1 := sh.trace;
      if bytes == -1 || bytes == 0 {
        var waits;
        joined, waits, stops := Shutdown(patience);
        StillChosen(es1, sh.trace, from, chosen, seen);
        ExtendsTwice(Me(), es0, es1, sh.trace, CallsEvents(chosen), [Deactivate(number)] + stops);
        return;
      }
      ghost var first := chosen;
      chosen, seen := ScheduleMore(from, chosen, seen, bytes - 1);
      ghost var rest := chosen[|first|..];
      ExtendsTwice(Me(), es0, es1, sh.trace, CallsEvents(first), CallsEvents(rest));
      CallsTwice(first, rest);
      assert first + rest == chosen;
    }

    /** Call number `k` raises m_pending and then pushes, to the thread chosen for it. */
    lemma {:induction false} CallsEventsAt(chosen: seq<nat>, k: nat)
      requires k < |chosen| && forall c :: 0 <= c < |chosen| ==> chosen[c] < |threads|
      ensures |CallsEvents(chosen)| == 2 * |chosen|
      ensures CallsEvents(chosen)[2 * k] == AddPending(threads[chosen[k]])
      ensures CallsEvents(chosen)[2 * k + 1] == PushWork(threads[chosen[k]])
    {
      var front := chosen[..|chosen| - 1];
      if k < |front| {
        CallsEventsAt(front, k);
      } else if front != [] {
        CallsEventsAt(front, 0);
      }
    }

    lemma {:induction false} CallsTwice(a: seq<nat>, b: seq<nat>)
      ensures CallsEvents(a + b) == CallsEvents(a) + CallsEvents(b)
      decreases |b|
    {
      if b == [] {
        assert a + b == a;
      } else {
        assert (a + b)[..|a + b| - 1] == a + b[..|b| - 1];
        CallsTwice(a, b[..|b| - 1]);
      }
    }
  }

  lemma {:induction false} ExitedStays(s: State, es: seq<Event>, t: nat)
    requires IsRun(s, es) && At(s, t) && PcOf(s, t).Exited?
    ensures At(After(s, es), t) && PcOf(After(s, es), t).Exited?
    decreases |es|
  {
    if es != [] {
      var front, e := es[..|es| - 1], es[|es| - 1];
      ExitedStays(s, front, t);
      if !IsOwn(e, t) { OthersKeepPc(After(s, front), e, t); }
    }
  }
}
