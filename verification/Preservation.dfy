/** Each event keeps the invariant. */
module Preservation {
  import opened Ids
  import opened LockIds
  import opened JobTable
  import opened Protocol
  import opened Invariant

  lemma {:induction false} WorkCountAppend(q: seq<Message>, m: Message)
    ensures WorkCount(q + [m]) == WorkCount(q) + if m == Work then 1 else 0
  {
    if q == [] {
    } else {
      assert (q + [m])[1..] == q[1..] + [m];
      WorkCountAppend(q[1..], m);
    }
  }

  /** A thread moves without changing what it holds, and only the moving thread changes. */
  ghost predicate Quiet(s: State, s': State, t: nat) {
    && At(s, t)
    && |s'.threads| == |s.threads|
    && s' == s.(threads := s'.threads)
    && s'.threads == s.threads[t := s'.threads[t]]
    && var th, th' := s.threads[t], s'.threads[t];
      && th'.cfg == th.cfg
      && Ledger(th')
      && (th'.pc == th.pc || (PcOk(s, th'.pc) &&
         (forall id :: Holds(th.pc, id) == Holds(th'.pc, id)) &&
         (forall id :: HasJob(th.pc, id) == HasJob(th'.pc, id)) &&
         (forall id :: !HasRun(th.pc, id) && !HasRun(th'.pc, id)) &&
         (forall id :: id in s.rows && Holds(th.pc, id) && HeldShape(th.pc, id, s.rows[id]) ==>
            HeldShape(th'.pc, id, s.rows[id]))))
  }

  lemma QuietKeeps(s: State, s': State, t: nat)
    requires Inv(s) && Quiet(s, s', t)
    ensures Inv(s')
  {
    forall id | id in s'.rows ensures RowOk(s', id) { assert RowOk(s, id); }
    forall u: nat | At(s', u) ensures ThreadOk(s', u) { assert ThreadOk(s, u); }
    forall id | id in s'.executed ensures MayBeExecuted(s', id) { assert MayBeExecuted(s, id); }
    forall id | id in s'.created ensures CreatedOk(s', id) { assert CreatedOk(s, id); }
    forall u: nat, id | At(s', u) && HasRun(PcOf(s', u), id) ensures id in s'.executed {
      assert HasRun(PcOf(s, u), id);
    }
  }

  lemma SendKeeps(s: State, e: Event)
    requires Inv(s) && Enabled(s, e) && (e.AddPending? || e.PushWork? || e.PushStop?)
    ensures Inv(Step(s, e))
  {
    var t := e.t;
    assert ThreadOk(s, t);
    WorkCountAppend(s.threads[t].queue, Work);
    WorkCountAppend(s.threads[t].queue, Stop);
    QuietKeeps(s, Step(s, e), t);
  }

  lemma PopKeeps(s: State, t: nat)
    requires Inv(s) && At(s, t) && Popping(PcOf(s, t)) && s.threads[t].queue != []
    ensures Inv(PopStep(s, t))
  {
    assert ThreadOk(s, t);
    QuietKeeps(s, PopStep(s, t), t);
  }

  /** Moves between places where a thread holds no row. */
  lemma IdleMoveKeeps(s: State, t: nat, pc: Pc)
    requires Inv(s) && At(s, t)
    requires forall id :: !Holds(PcOf(s, t), id) && !Holds(pc, id) && !HasJob(pc, id)
    requires !pc.Finishing? && !PcOf(s, t).Finishing? && PcOk(s, pc) && Unspent(pc) == Unspent(PcOf(s, t))
    ensures Inv(Goto(s, t, pc))
  {
    assert ThreadOk(s, t);
    QuietKeeps(s, Goto(s, t, pc), t);
  }

  lemma ClaimFailureKeeps(s: State, t: nat)
    requires Inv(s) && At(s, t) && PcOf(s, t).Claiming?
    ensures Inv(Goto(Lose(s, t, PcOf(s, t).workload), t, Top))
  {
    assert ThreadOk(s, t);
    QuietKeeps(s, Goto(Lose(s, t, PcOf(s, t).workload), t, Top), t);
  }

  lemma SelectFailureKeeps(s: State, t: nat, stored: bool)
    requires Inv(s) && At(s, t) && PcOf(s, t).Selecting?
    ensures Inv(SelectStep(s, t, false, stored))
  {
    assert ThreadOk(s, t);
    QuietKeeps(s, SelectStep(s, t, false, stored), t);
  }

  lemma ReadEndKeeps(s: State, t: nat)
    requires Inv(s) && At(s, t) && PcOf(s, t).Reading? && PcOf(s, t).todo == []
    ensures Inv(Goto(s, t, Executing(PcOf(s, t).workload, PcOf(s, t).lock, PcOf(s, t).jobs)))
  {
    assert ThreadOk(s, t);
    assert PcOf(s, t).jobs + [] == PcOf(s, t).jobs;
    QuietKeeps(s, Goto(s, t, Executing(PcOf(s, t).workload, PcOf(s, t).lock, PcOf(s, t).jobs)), t);
  }

  lemma BatchEndKeeps(s: State, t: nat)
    requires Inv(s) && At(s, t) && PcOf(s, t).Executing? && PcOf(s, t).jobs == []
    ensures Inv(Goto(Lose(s, t, PcOf(s, t).workload), t, Top))
  {
    assert ThreadOk(s, t);
    QuietKeeps(s, Goto(Lose(s, t, PcOf(s, t).workload), t, Top), t);
  }

  lemma DeactivateKeeps(s: State, w: nat)
    requires Inv(s) && w < |s.active|
    ensures Inv(s.(active := s.active[w := false]))
  {
    var s' := s.(active := s.active[w := false]);
    forall id | id in s'.rows ensures RowOk(s', id) { assert RowOk(s, id); }
    forall t: nat | At(s', t) ensures ThreadOk(s', t) { assert ThreadOk(s, t); }
    forall id | id in s'.executed ensures MayBeExecuted(s', id) { assert MayBeExecuted(s, id); }
    forall id | id in s'.created ensures CreatedOk(s', id) { assert CreatedOk(s, id); }
    forall t: nat, id | At(s', t) && HasRun(PcOf(s', t), id) ensures id in s'.executed {
      assert HasRun(PcOf(s, t), id);
    }
  }

  lemma InsertKeeps(s: State, e: Event)
    requires Inv(s) && Enabled(s, e) && e.Insert?
    ensures Inv(Step(s, e))
  {
    var s' := Step(s, e);
    forall id | id in s'.rows ensures RowOk(s', id) { if id != e.id { assert RowOk(s, id); } }
    forall t: nat | At(s', t) ensures ThreadOk(s', t) { assert ThreadOk(s, t); }
    forall id | id in s'.executed ensures MayBeExecuted(s', id) { assert MayBeExecuted(s, id); }
    forall id | id in s'.created ensures CreatedOk(s', id) { assert CreatedOk(s, id); }
    forall t: nat, id | At(s', t) && HasRun(PcOf(s', t), id) ensures id in s'.executed {
      assert HasRun(PcOf(s, t), id);
    }
  }

  // ----- Steps on rows: only the acting thread's own rows change -----

  /**
   * Thread `t` moves and may change rows it holds; every other thread and every other row stays as it was, and
   * no lock text it did not hold appears.
   */
  ghost predicate Own(s: State, s': State, t: nat) {
    && At(s, t)
    && |s'.threads| == |s.threads|
    && s'.threads == s.threads[t := s'.threads[t]]
    && s'.threads[t].cfg == s.threads[t].cfg
    && s'.active == s.active && s'.used == s.used
    && s'.rows.Keys == s.rows.Keys == s.fate.Keys == s'.fate.Keys
    && (forall id :: id in s.rows && !Holds(PcOf(s, t), id) ==> s'.rows[id] == s.rows[id] && s'.fate[id] == s.fate[id])
    && (forall id :: id in s.rows && Holds(PcOf(s, t), id) ==>
          s'.rows[id].name == s.rows[id].name && s'.rows[id].status != Pending
          && (s'.rows[id].lock == s.rows[id].lock || s'.rows[id].lock == ""))
  }

  lemma OwnKeepsRows(s: State, s': State, t: nat)
    requires Inv(s) && Own(s, s', t)
    requires forall id :: id in s.rows && Holds(PcOf(s, t), id) ==> id in s'.fate && RowOk(s', id)
    ensures forall id :: id in s'.rows ==> RowOk(s', id)
    ensures PendingIsSuffix(s')
  {
    assert ThreadOk(s, t);
    forall id | id in s'.rows ensures RowOk(s', id) {
      assert RowOk(s, id);
      assert s.fate[id] == InHand(t) ==> Holds(PcOf(s, t), id);
    }
    forall id | id in s.rows ensures s'.rows[id].status == Pending <==> s.rows[id].status == Pending {
      assert RowOk(s, id);
      if Holds(PcOf(s, t), id) { assert s.fate[id] == InHand(t); }
    }
  }

  lemma OwnKeepsThreads(s: State, s': State, t: nat)
    requires Inv(s) && Own(s, s', t)
    requires ThreadOk(s', t)
    requires s.created <= s'.created
    ensures forall u: nat :: At(s', u) ==> ThreadOk(s', u)
  {
    assert ThreadOk(s, t);
    forall u: nat | At(s', u) && u != t ensures ThreadOk(s', u) {
      assert ThreadOk(s, u);
      assert PcOf(s', u) == PcOf(s, u);
      forall id | Holds(PcOf(s', u), id) ensures id in s'.fate && s'.fate[id] == InHand(u) {
        assert s.fate[id] == InHand(u);
      }
    }
  }

  lemma OwnKeepsExecuted(s: State, s': State, t: nat)
    requires Inv(s) && Own(s, s', t)
    requires s'.executed == s.executed && s.created <= s'.created
    requires forall id :: Holds(PcOf(s, t), id) && id in s.executed ==> MayBeExecuted(s', id)
    ensures forall id :: id in s'.executed ==> id in s'.created && MayBeExecuted(s', id)
  {
    forall id | id in s'.executed ensures MayBeExecuted(s', id) {
      assert MayBeExecuted(s, id);
      assert RowOk(s, id);
    }
  }

  lemma OwnKeepsCreated(s: State, s': State, t: nat)
    requires Inv(s) && Own(s, s', t)
    requires s'.executed == s.executed && s.created <= s'.created
    requires forall id :: id in s'.created && id !in s.created ==> CreatedOk(s', id)
    requires forall id :: Holds(PcOf(s, t), id) && id in s.created ==> CreatedOk(s', id)
    ensures forall id :: id in s'.created ==> CreatedOk(s', id)
  {
    forall id | id in s'.created ensures CreatedOk(s', id) {
      if id in s.created { assert CreatedOk(s, id); }
    }
  }

  lemma OwnKeepsRunning(s: State, s': State, t: nat)
    requires Inv(s) && Own(s, s', t) && s'.executed == s.executed
    requires forall id :: HasRun(PcOf(s', t), id) ==> id in s.executed
    ensures forall u: nat, id :: At(s', u) && HasRun(PcOf(s', u), id) ==> id in s'.executed
  {
    forall u: nat, id | At(s', u) && HasRun(PcOf(s', u), id) ensures id in s'.executed {
      if u != t { assert HasRun(PcOf(s, u), id); }
    }
  }

  lemma OwnKeepsHistory(s: State, s': State, t: nat)
    requires Inv(s) && Own(s, s', t)
    requires s'.executed == s.executed && s.created <= s'.created
    requires forall id :: id in s'.created && id !in s.created ==> CreatedOk(s', id)
    requires forall id :: Holds(PcOf(s, t), id) && id in s.executed ==> MayBeExecuted(s', id)
    requires forall id :: Holds(PcOf(s, t), id) && id in s.created ==> CreatedOk(s', id)
    requires forall id :: HasRun(PcOf(s', t), id) ==> id in s.executed
    ensures HistoryOk(s')
  {
    OwnKeepsExecuted(s, s', t);
    OwnKeepsCreated(s, s', t);
    OwnKeepsRunning(s, s', t);
  }

  /** The rows a thread holds exist and are no longer waiting. */
  ghost predicate HandTaken(s: State, t: nat)
    requires At(s, t)
  {
    forall id :: Holds(PcOf(s, t), id) ==> id in s.rows && s.rows[id].status != Pending
  }

  lemma HandIsTaken(s: State, t: nat)
    requires Inv(s) && At(s, t)
    ensures HandTaken(s, t)
  {
    assert ThreadOk(s, t);
    forall id | Holds(PcOf(s, t), id) ensures id in s.rows && s.rows[id].status != Pending { assert RowOk(s, id); }
  }

  /** Rows in the hands of a thread that has no job object for them have never been executed. */
  lemma NotYetRun(s: State, t: nat, id: nat)
    requires Inv(s) && At(s, t) && Holds(PcOf(s, t), id) && !HasJob(PcOf(s, t), id)
    ensures id !in s.executed && id !in s.created
  {
    assert ThreadOk(s, t);
    assert !MayBeExecuted(s, id);
    assert !CreatedOk(s, id);
  }

  lemma ReleaseRows(s: State, t: nat, ok: bool)
    requires Inv(s) && At(s, t) && PcOf(s, t).Releasing?
    ensures forall id :: Holds(PcOf(s, t), id) ==>
      id in s.rows && id in s.fate && RowOk(ReleaseStep(s, t, ok), id) && id !in s.executed && id !in s.created
  {
    assert ThreadOk(s, t);
    forall id | Holds(PcOf(s, t), id) ensures id in s.rows && id in s.fate && RowOk(ReleaseStep(s, t, ok), id)
      && id !in s.executed && id !in s.created
    {
      assert RowOk(s, id);
      NotYetRun(s, t, id);
    }
  }

  lemma ReleaseMoves(s: State, t: nat, ok: bool)
    requires Inv(s) && At(s, t) && PcOf(s, t).Releasing?
    ensures ThreadOk(ReleaseStep(s, t, ok), t) && Own(s, ReleaseStep(s, t, ok), t)
  {
    assert ThreadOk(s, t);
    forall id | Holds(PcOf(s, t), id) ensures id in s.rows && s.rows[id].status != Pending { assert RowOk(s, id); }
  }

  lemma ReleaseKeeps(s: State, t: nat, ok: bool)
    requires Inv(s) && At(s, t) && PcOf(s, t).Releasing?
    ensures Inv(ReleaseStep(s, t, ok))
  {
    ReleaseRows(s, t, ok);
    ReleaseMoves(s, t, ok);
    OwnKeeps(s, ReleaseStep(s, t, ok), t);
  }

  lemma NoResultRows(s: State, t: nat)
    requires Inv(s) && At(s, t) && PcOf(s, t).Selecting?
    ensures forall id :: Holds(PcOf(s, t), id) ==>
      id in s.rows && id in s.fate && RowOk(SelectStep(s, t, true, false), id) && id !in s.executed && id !in s.created
  {
    assert ThreadOk(s, t);
    forall id | Holds(PcOf(s, t), id) ensures id in s.rows && id in s.fate && RowOk(SelectStep(s, t, true, false), id)
      && id !in s.executed && id !in s.created
    {
      assert RowOk(s, id);
      NotYetRun(s, t, id);
    }
  }

  lemma NoResultMoves(s: State, t: nat)
    requires Inv(s) && At(s, t) && PcOf(s, t).Selecting?
    ensures ThreadOk(SelectStep(s, t, true, false), t) && Own(s, SelectStep(s, t, true, false), t)
  {
    assert ThreadOk(s, t);
    forall id | Holds(PcOf(s, t), id) ensures id in s.rows && s.rows[id].status != Pending { assert RowOk(s, id); }
  }

  lemma NoResultKeeps(s: State, t: nat)
    requires Inv(s) && At(s, t) && PcOf(s, t).Selecting?
    ensures Inv(SelectStep(s, t, true, false))
  {
    NoResultRows(s, t);
    NoResultMoves(s, t);
    OwnKeeps(s, SelectStep(s, t, true, false), t);
  }

  /** The SELECT reads back exactly the claimed rows. */
  lemma SelectsClaimed(s: State, t: nat)
    requires Inv(s) && At(s, t) && PcOf(s, t).Selecting?
    ensures var pc := PcOf(s, t); Select(s.rows, pc.lock, pc.workload) == Sorted(pc.claimed)
  {
    var pc := PcOf(s, t);
    assert ThreadOk(s, t);
    forall id ensures id in pc.claimed <==> id in LockedIds(s.rows, pc.lock) {
      if id in pc.claimed { assert Holds(pc, id); assert RowOk(s, id); }
    }
    assert LockedIds(s.rows, pc.lock) == pc.claimed;
  }

  lemma StartReading(s: State, t: nat, ids: seq<nat>)
    requires Inv(s) && At(s, t) && PcOf(s, t).Selecting?
    requires Increasing(ids) && |ids| <= PcOf(s, t).workload
    requires forall id :: id in ids <==> id in PcOf(s, t).claimed
    ensures Inv(Goto(s, t, Reading(PcOf(s, t).workload, PcOf(s, t).lock, ids, [])))
  {
    var pc := PcOf(s, t);
    var pc' := Reading(pc.workload, pc.lock, ids, []);
    assert ThreadOk(s, t);
    assert Batch(pc.workload, pc.lock, s.used, ids, []) by { assert [] + ids == ids; }
    assert PcOk(s, pc');
    forall id ensures Holds(pc, id) == Holds(pc', id) && !HasJob(pc', id) && !HasRun(pc', id) {}
    forall id | id in s.rows && Holds(pc, id) && HeldShape(pc, id, s.rows[id]) ensures HeldShape(pc', id, s.rows[id]) {}
    QuietKeeps(s, Goto(s, t, pc'), t);
  }

  lemma ResultKeeps(s: State, t: nat)
    requires Inv(s) && At(s, t) && PcOf(s, t).Selecting?
    ensures Inv(SelectStep(s, t, true, true))
  {
    assert ThreadOk(s, t);
    SelectsClaimed(s, t);
    StartReading(s, t, Sorted(PcOf(s, t).claimed));
  }

  // ----- The claim -----

  lemma PickedIsFront(t: Table, workload: nat)
    ensures forall id :: id in Picked(t, workload) ==> id in t && Claimable(t[id])
    ensures forall i, j :: i in Picked(t, workload) && j in t && Claimable(t[j]) && j !in Picked(t, workload) ==> i < j
  {
    SortedRemoveLowest(ClaimableIds(t), workload);
    forall i, j | i in Picked(t, workload) && j in t && Claimable(t[j]) && j !in Picked(t, workload) ensures i < j {
      assert j in ClaimableIds(t);
    }
  }

  lemma ClaimKeepsRows(s: State, t: nat, lock: string)
    requires Inv(s) && At(s, t) && PcOf(s, t).Claiming? && lock != "" && lock !in s.used
    ensures forall id :: id in ClaimStep(s, t, lock).rows ==> RowOk(ClaimStep(s, t, lock), id)
  {
    var s' := ClaimStep(s, t, lock);
    PickedIsFront(s.rows, PcOf(s, t).workload);
    forall id | id in s'.rows ensures RowOk(s', id) {
      assert RowOk(s, id);
    }
  }

  lemma ClaimKeepsSuffix(s: State, t: nat, lock: string)
    requires Inv(s) && At(s, t) && PcOf(s, t).Claiming?
    ensures PendingIsSuffix(ClaimStep(s, t, lock))
  {
    var s' := ClaimStep(s, t, lock);
    PickedIsFront(s.rows, PcOf(s, t).workload);
    forall i, j | i in s'.rows && j in s'.rows && s'.rows[i].status != Pending && s'.rows[j].status == Pending
      ensures i < j
    {
      assert RowOk(s, j);
    }
  }

  lemma ClaimKeepsThreads(s: State, t: nat, lock: string)
    requires Inv(s) && At(s, t) && PcOf(s, t).Claiming? && lock != "" && lock !in s.used
    ensures forall u: nat :: At(s, u) ==> ThreadOk(ClaimStep(s, t, lock), u)
  {
    var s' := ClaimStep(s, t, lock);
    var picked := Picked(s.rows, PcOf(s, t).workload);
    forall id | id in s.rows ensures s.rows[id].lock != lock && (id in picked ==> s.fate[id] == Queued) {
      assert RowOk(s, id);
      if id in picked { assert id in ClaimableIds(s.rows); }
    }
    forall u: nat | At(s', u) ensures ThreadOk(s', u) {
      assert ThreadOk(s, u);
      if u == t {
        ElementsSize(Take(ClaimableIds(s.rows), PcOf(s, t).workload));
      } else {
        assert PcOf(s', u) == PcOf(s, u);
      }
    }
  }

  lemma ClaimKeepsHistory(s: State, t: nat, lock: string)
    requires Inv(s) && At(s, t) && PcOf(s, t).Claiming? && lock != "" && lock !in s.used
    ensures HistoryOk(ClaimStep(s, t, lock))
  {
    var s' := ClaimStep(s, t, lock);
    var picked := Picked(s.rows, PcOf(s, t).workload);
    forall id | id in picked ensures id in s.rows && s.fate[id] == Queued {
      assert id in ClaimableIds(s.rows);
      assert RowOk(s, id);
    }
    forall id | id in s'.executed ensures MayBeExecuted(s', id) { assert MayBeExecuted(s, id); }
    forall id | id in s'.created ensures CreatedOk(s', id) { assert CreatedOk(s, id); }
    forall u: nat, id | At(s', u) && HasRun(PcOf(s', u), id) ensures id in s'.executed {
      assert HasRun(PcOf(s, u), id);
    }
  }

  // ----- The row loop and the batch loop -----

  /** What a thread does with the row at hand; that its own part of the invariant holds is shown by the caller. */
  lemma OwnKeeps(s: State, s': State, t: nat)
    requires Inv(s) && Own(s, s', t) && ThreadOk(s', t)
    requires forall id :: Holds(PcOf(s, t), id) ==> id in s'.rows && id in s'.fate && RowOk(s', id)
    requires s'.executed == s.executed && s.created <= s'.created
    requires forall id :: id in s'.created && id !in s.created ==> CreatedOk(s', id)
    requires forall id :: Holds(PcOf(s, t), id) && id in s.executed ==> MayBeExecuted(s', id)
    requires forall id :: Holds(PcOf(s, t), id) && id in s.created ==> CreatedOk(s', id)
    requires forall id :: HasRun(PcOf(s', t), id) ==> id in s.executed
    ensures Inv(s')
  {
    OwnKeepsRows(s, s', t);
    OwnKeepsThreads(s, s', t);
    OwnKeepsHistory(s, s', t);
  }

  lemma MadeKeeps(s: State, t: nat)
    requires Inv(s) && At(s, t) && PcOf(s, t).Reading? && PcOf(s, t).todo != [] && PcOf(s, t).todo[0] in s.rows
    requires s.rows[PcOf(s, t).todo[0]].name in s.threads[t].cfg.registered
    ensures Inv(CreateStep(s, t, true))
  {
    var s' := CreateStep(s, t, true);
    var pc, pc' := PcOf(s, t), PcOf(s', t);
    assert ThreadOk(s, t);
    assert [pc.todo[0]] + pc.todo[1..] == pc.todo;
    BatchHead(pc.workload, pc.lock, s.used, pc.todo, pc.jobs);
    forall id | Holds(pc, id) ensures RowOk(s', id)
      && (id in s.executed ==> MayBeExecuted(s', id)) && (id in s.created ==> CreatedOk(s', id))
    {
      assert RowOk(s, id);
      if !HasJob(pc, id) { NotYetRun(s, t, id); } else { assert CreatedOk(s, id); }
    }
    OwnKeeps(s, s', t);
  }

  lemma RefusedKeeps(s: State, t: nat, pc': Pc)
    requires Inv(s) && At(s, t) && PcOf(s, t).Reading? && PcOf(s, t).todo != []
    requires var pc := PcOf(s, t); var row, rest := pc.todo[0], pc.todo[1..];
      || pc' == Discarding(pc.workload, pc.lock, row, true, rest, pc.jobs)
      || pc' == Discarding(pc.workload, pc.lock, row, false, rest, pc.jobs)
      || pc' == Marking(pc.workload, pc.lock, row, false, rest, pc.jobs)
    ensures Inv(Goto(s, t, pc'))
  {
    var pc := PcOf(s, t);
    assert ThreadOk(s, t);
    assert [pc.todo[0]] + pc.todo[1..] == pc.todo;
    BatchHead(pc.workload, pc.lock, s.used, pc.todo, pc.jobs);
    QuietKeeps(s, Goto(s, t, pc'), t);
  }

  lemma UnknownKeptKeeps(s: State, t: nat)
    requires Inv(s) && At(s, t) && PcOf(s, t).Reading? && PcOf(s, t).todo != []
    ensures var pc := PcOf(s, t);
      Inv(Goto(s, t, Reading(pc.workload, pc.lock, pc.todo[1..], pc.jobs)).(
        fate := SetFate(s.fate, {pc.todo[0]}, Stranded(UnknownKept))))
  {
    var pc := PcOf(s, t);
    var s' := Goto(s, t, Reading(pc.workload, pc.lock, pc.todo[1..], pc.jobs)).(
      fate := SetFate(s.fate, {pc.todo[0]}, Stranded(UnknownKept)));
    assert ThreadOk(s, t);
    assert [pc.todo[0]] + pc.todo[1..] == pc.todo;
    BatchHead(pc.workload, pc.lock, s.used, pc.todo, pc.jobs);
    forall id | Holds(pc, id) ensures RowOk(s', id)
      && (id in s.executed ==> MayBeExecuted(s', id)) && (id in s.created ==> CreatedOk(s', id))
    {
      assert RowOk(s, id);
      if !HasJob(pc, id) { NotYetRun(s, t, id); } else { assert CreatedOk(s, id); }
    }
    OwnKeeps(s, s', t);
  }

  lemma BatchHead(workload: nat, lock: string, used: set<string>, todo: seq<nat>, jobs: seq<nat>)
    requires Batch(workload, lock, used, todo, jobs) && todo != []
    ensures todo[0] !in todo[1..] && todo[0] !in jobs
    ensures Batch(workload, lock, used, todo[1..], jobs)
    ensures Batch(workload, lock, used, todo[1..], jobs + [todo[0]])
  {
    var q := jobs + todo;
    assert q[|jobs|] == todo[0];
    assert forall i :: 0 <= i < |jobs| ==> q[i] == jobs[i];
    assert forall i :: 0 < i < |todo| ==> q[|jobs| + i] == todo[i];
    assert jobs + [todo[0]] + todo[1..] == q;
    var r := jobs + todo[1..];
    forall i, j | 0 <= i < j < |r| ensures r[i] < r[j] {
      assert r[i] == q[if i < |jobs| then i else i + 1];
      assert r[j] == q[if j < |jobs| then j else j + 1];
    }
  }

  /** Before the batch runs, no row in hand has been executed, and the ones with a job object are known. */
  lemma HandNotRun(s: State, t: nat)
    requires Inv(s) && At(s, t) && !PcOf(s, t).Finishing?
    ensures forall id :: Holds(PcOf(s, t), id) ==> id in s.rows && id !in s.executed
    ensures forall id :: Holds(PcOf(s, t), id) && id in s.created ==> HasJob(PcOf(s, t), id)
  {
    assert ThreadOk(s, t);
    forall id | Holds(PcOf(s, t), id) ensures id !in s.executed && (id in s.created ==> HasJob(PcOf(s, t), id)) {
      assert !MayBeExecuted(s, id);
      assert id in s.created ==> CreatedOk(s, id);
    }
  }

  lemma DiscardThread(s: State, t: nat, ok: bool)
    requires Inv(s) && At(s, t) && PcOf(s, t).Discarding?
    ensures ThreadOk(DiscardStep(s, t, ok), t)
  {
    var pc := PcOf(s, t);
    assert ThreadOk(s, t);
    BatchHead(pc.workload, pc.lock, s.used, [pc.row] + pc.todo, pc.jobs);
    assert ([pc.row] + pc.todo)[1..] == pc.todo;
  }

  lemma DiscardOwn(s: State, t: nat, ok: bool)
    requires At(s, t) && PcOf(s, t).Discarding?
    requires s.fate.Keys == s.rows.Keys && HandTaken(s, t)
    ensures Own(s, DiscardStep(s, t, ok), t)
  {
  }

  lemma DiscardKnownRows(s: State, t: nat, ok: bool)
    requires Inv(s) && At(s, t) && PcOf(s, t).Discarding? && PcOf(s, t).known
    ensures forall id :: Holds(PcOf(s, t), id) ==> id in s.rows && RowOk(DiscardStep(s, t, ok), id)
  {
    var pc := PcOf(s, t);
    assert ThreadOk(s, t);
    BatchHead(pc.workload, pc.lock, s.used, [pc.row] + pc.todo, pc.jobs);
    assert ([pc.row] + pc.todo)[1..] == pc.todo;
    assert RowOk(s, pc.row);
    forall id | Holds(pc, id) ensures RowOk(DiscardStep(s, t, ok), id) { assert RowOk(s, id); }
  }

  lemma DiscardKnownKeeps(s: State, t: nat, ok: bool)
    requires Inv(s) && At(s, t) && PcOf(s, t).Discarding? && PcOf(s, t).known
    ensures Inv(DiscardStep(s, t, ok))
  {
    var s' := DiscardStep(s, t, ok);
    var pc := PcOf(s, t);
    HandNotRun(s, t);
    DiscardKnownRows(s, t, ok);
    DiscardThread(s, t, ok);
    HandIsTaken(s, t);
    DiscardOwn(s, t, ok);
    OwnKeeps(s, s', t);
  }

  lemma DiscardUnknownRows(s: State, t: nat, ok: bool)
    requires Inv(s) && At(s, t) && PcOf(s, t).Discarding? && !PcOf(s, t).known
    ensures forall id :: Holds(PcOf(s, t), id) ==> id in s.rows && RowOk(DiscardStep(s, t, ok), id)
  {
    var pc := PcOf(s, t);
    assert ThreadOk(s, t);
    BatchHead(pc.workload, pc.lock, s.used, [pc.row] + pc.todo, pc.jobs);
    assert ([pc.row] + pc.todo)[1..] == pc.todo;
    assert RowOk(s, pc.row);
    forall id | Holds(pc, id) ensures RowOk(DiscardStep(s, t, ok), id) { assert RowOk(s, id); }
  }

  lemma DiscardUnknownKeeps(s: State, t: nat, ok: bool)
    requires Inv(s) && At(s, t) && PcOf(s, t).Discarding? && !PcOf(s, t).known
    ensures Inv(DiscardStep(s, t, ok))
  {
    var s' := DiscardStep(s, t, ok);
    var pc := PcOf(s, t);
    HandNotRun(s, t);
    DiscardUnknownRows(s, t, ok);
    DiscardThread(s, t, ok);
    HandIsTaken(s, t);
    DiscardOwn(s, t, ok);
    OwnKeeps(s, s', t);
  }

  lemma MarkThread(s: State, t: nat, ok: bool)
    requires Inv(s) && At(s, t) && PcOf(s, t).Marking? && PcOf(s, t).row in s.rows
    ensures ThreadOk(MarkStep(s, t, ok), t)
  {
    var pc := PcOf(s, t);
    assert ThreadOk(s, t);
    BatchHead(pc.workload, pc.lock, s.used, [pc.row] + pc.todo, pc.jobs);
    assert ([pc.row] + pc.todo)[1..] == pc.todo;
  }

  lemma MarkOwn(s: State, t: nat, ok: bool)
    requires At(s, t) && PcOf(s, t).Marking? && PcOf(s, t).row in s.rows
    requires s.fate.Keys == s.rows.Keys && HandTaken(s, t)
    ensures Own(s, MarkStep(s, t, ok), t)
  {
  }

  lemma MarkMadeRows(s: State, t: nat, ok: bool)
    requires Inv(s) && At(s, t) && PcOf(s, t).Marking? && PcOf(s, t).row in s.rows && PcOf(s, t).made
    ensures forall id :: Holds(PcOf(s, t), id) ==> id in s.rows && RowOk(MarkStep(s, t, ok), id)
  {
    var pc := PcOf(s, t);
    assert ThreadOk(s, t);
    BatchHead(pc.workload, pc.lock, s.used, [pc.row] + pc.todo, pc.jobs);
    assert ([pc.row] + pc.todo)[1..] == pc.todo;
    assert RowOk(s, pc.row);
    forall id | Holds(pc, id) ensures RowOk(MarkStep(s, t, ok), id) { assert RowOk(s, id); }
  }

  lemma MarkMadeKeeps(s: State, t: nat, ok: bool)
    requires Inv(s) && At(s, t) && PcOf(s, t).Marking? && PcOf(s, t).row in s.rows && PcOf(s, t).made
    ensures Inv(MarkStep(s, t, ok))
  {
    var s' := MarkStep(s, t, ok);
    var pc := PcOf(s, t);
    HandNotRun(s, t);
    MarkMadeRows(s, t, ok);
    MarkThread(s, t, ok);
    HandIsTaken(s, t);
    MarkOwn(s, t, ok);
    OwnKeeps(s, s', t);
  }

  lemma MarkRefusedRows(s: State, t: nat, ok: bool)
    requires Inv(s) && At(s, t) && PcOf(s, t).Marking? && PcOf(s, t).row in s.rows && !PcOf(s, t).made
    ensures forall id :: Holds(PcOf(s, t), id) ==> id in s.rows && RowOk(MarkStep(s, t, ok), id)
  {
    var pc := PcOf(s, t);
    assert ThreadOk(s, t);
    BatchHead(pc.workload, pc.lock, s.used, [pc.row] + pc.todo, pc.jobs);
    assert ([pc.row] + pc.todo)[1..] == pc.todo;
    assert RowOk(s, pc.row);
    forall id | Holds(pc, id) ensures RowOk(MarkStep(s, t, ok), id) { assert RowOk(s, id); }
  }

  lemma MarkRefusedKeeps(s: State, t: nat, ok: bool)
    requires Inv(s) && At(s, t) && PcOf(s, t).Marking? && PcOf(s, t).row in s.rows && !PcOf(s, t).made
    ensures Inv(MarkStep(s, t, ok))
  {
    var s' := MarkStep(s, t, ok);
    var pc := PcOf(s, t);
    HandNotRun(s, t);
    MarkRefusedRows(s, t, ok);
    MarkThread(s, t, ok);
    HandIsTaken(s, t);
    MarkOwn(s, t, ok);
    OwnKeeps(s, s', t);
  }

  lemma FinishRows(s: State, t: nat, ok: bool)
    requires Inv(s) && At(s, t) && PcOf(s, t).Finishing? && PcOf(s, t).jobs != [] && PcOf(s, t).workload > 0
    ensures var s' := FinishStep(s, t, ok);
      forall id :: Holds(PcOf(s, t), id) ==>
        && id in s.rows && RowOk(s', id)
        && (id in s.executed ==> MayBeExecuted(s', id)) && (id in s.created ==> CreatedOk(s', id))
  {
    var s', pc := FinishStep(s, t, ok), PcOf(s, t);
    assert ThreadOk(s, t);
    FinishBatch(pc.workload, pc.lock, s.used, pc.jobs);
    assert HasRun(pc, pc.jobs[0]);
    forall id | Holds(pc, id) ensures id in s.rows && RowOk(s', id)
      && (id in s.executed ==> MayBeExecuted(s', id)) && (id in s.created ==> CreatedOk(s', id))
    {
      assert RowOk(s, id);
      assert CreatedOk(s, id);
      assert id in s.executed ==> MayBeExecuted(s, id);
    }
  }

  lemma FinishMoves(s: State, t: nat, ok: bool)
    requires Inv(s) && At(s, t) && PcOf(s, t).Finishing? && PcOf(s, t).jobs != [] && PcOf(s, t).workload > 0
    ensures ThreadOk(FinishStep(s, t, ok), t) && Own(s, FinishStep(s, t, ok), t)
  {
    var pc := PcOf(s, t);
    assert ThreadOk(s, t);
    FinishBatch(pc.workload, pc.lock, s.used, pc.jobs);
    forall id | Holds(pc, id) ensures id in s.rows && s.rows[id].status != Pending { assert RowOk(s, id); }
  }

  lemma FinishKeeps(s: State, t: nat, ok: bool)
    requires Inv(s) && At(s, t) && PcOf(s, t).Finishing? && PcOf(s, t).jobs != [] && PcOf(s, t).workload > 0
    ensures Inv(FinishStep(s, t, ok))
  {
    FinishRows(s, t, ok);
    FinishMoves(s, t, ok);
    OwnKeeps(s, FinishStep(s, t, ok), t);
  }

  lemma FinishBatch(workload: nat, lock: string, used: set<string>, jobs: seq<nat>)
    requires Batch(workload, lock, used, [], jobs) && jobs != []
    ensures workload > 0 && Batch(workload - 1, lock, used, [], jobs[1..])
    ensures jobs[0] !in jobs[1..]
  {
    assert jobs + [] == jobs;
    assert jobs[1..] + [] == jobs[1..];
  }

  lemma ExecuteKeeps(s: State, t: nat, succeeded: bool)
    requires Inv(s) && At(s, t) && PcOf(s, t).Executing? && PcOf(s, t).jobs != []
    ensures Inv(ExecuteStep(s, t, succeeded))
  {
    var s' := ExecuteStep(s, t, succeeded);
    var pc := PcOf(s, t);
    var id := pc.jobs[0];
    assert ThreadOk(s, t);
    assert Holds(pc, id) && HasJob(pc, id);
    assert id !in s.executed by { assert !MayBeExecuted(s, id); }
    forall i | i in s'.rows ensures RowOk(s', i) { assert RowOk(s, i); }
    forall u: nat | At(s', u) ensures ThreadOk(s', u) { assert ThreadOk(s, u); }
    forall i | i in s'.executed ensures i in s'.created && MayBeExecuted(s', i) {
      if i != id { assert MayBeExecuted(s, i); }
    }
    forall i | i in s'.created ensures CreatedOk(s', i) { assert CreatedOk(s, i); }
    forall u: nat, i | At(s', u) && HasRun(PcOf(s', u), i) ensures i in s'.executed {
      if u != t { assert HasRun(PcOf(s, u), i); }
    }
  }

  // ----- All events -----

  lemma LocalKeeps(s: State, e: Event)
    requires Inv(s) && Enabled(s, e)
    requires e.Deactivate? || e.Test? || e.Timeout? || e.Pop? || e.DrainEnd? || e.ReadEnd? || e.BatchEnd?
    ensures Inv(Step(s, e))
  {
    match e {
      case Deactivate(w) => DeactivateKeeps(s, w);
      case Test(t) => IdleMoveKeeps(s, t, if IsActive(s, t) then Waiting else Exited);
      case Timeout(t) => IdleMoveKeeps(s, t, Top);
      case Pop(t) => PopKeeps(s, t);
      case DrainEnd(t) => IdleMoveKeeps(s, t, Claiming(PcOf(s, t).workload));
      case ReadEnd(t) => ReadEndKeeps(s, t);
      case BatchEnd(t) => BatchEndKeeps(s, t);
    }
  }

  lemma ClaimEventKeeps(s: State, e: Event)
    requires Inv(s) && Enabled(s, e) && e.ClaimRows?
    ensures Inv(Step(s, e))
  {
    if e.ok {
      LockIdIsNotZero(e.stamp);
      ClaimKeepsRows(s, e.t, Text(e.stamp));
      ClaimKeepsSuffix(s, e.t, Text(e.stamp));
      ClaimKeepsThreads(s, e.t, Text(e.stamp));
      ClaimKeepsHistory(s, e.t, Text(e.stamp));
    } else {
      ClaimFailureKeeps(s, e.t);
    }
  }

  lemma StatementKeeps(s: State, e: Event)
    requires Inv(s) && Enabled(s, e)
    requires e.SelectRows? || e.ReleaseRows? || e.DiscardRow? || e.MarkRow? || e.FinishRow?
    ensures Inv(Step(s, e))
  {
    match e {
      case SelectRows(t, ok, stored) =>
        if !ok { SelectFailureKeeps(s, t, stored); }
        else if stored { ResultKeeps(s, t); }
        else { NoResultKeeps(s, t); }
      case ReleaseRows(t, ok) => ReleaseKeeps(s, t, ok);
      case DiscardRow(t, ok) =>
        if PcOf(s, t).known { DiscardKnownKeeps(s, t, ok); } else { DiscardUnknownKeeps(s, t, ok); }
      case MarkRow(t, ok) =>
        if PcOf(s, t).made { MarkMadeKeeps(s, t, ok); } else { MarkRefusedKeeps(s, t, ok); }
      case FinishRow(t, ok) => FinishKeeps(s, t, ok);
    }
  }

  lemma CreateKeeps(s: State, t: nat, made: bool)
    requires Inv(s) && At(s, t) && PcOf(s, t).Reading? && PcOf(s, t).todo != [] && PcOf(s, t).todo[0] in s.rows
    ensures Inv(CreateStep(s, t, made))
  {
    var pc, cfg := PcOf(s, t), s.threads[t].cfg;
    var row, rest := pc.todo[0], pc.todo[1..];
    if s.rows[row].name in cfg.registered {
      if made {
        MadeKeeps(s, t);
      } else if cfg.discard {
        RefusedKeeps(s, t, Discarding(pc.workload, pc.lock, row, true, rest, pc.jobs));
      } else {
        RefusedKeeps(s, t, Marking(pc.workload, pc.lock, row, false, rest, pc.jobs));
      }
    } else if cfg.discard {
      RefusedKeeps(s, t, Discarding(pc.workload, pc.lock, row, false, rest, pc.jobs));
    } else {
      UnknownKeptKeeps(s, t);
    }
  }

  /** Every event keeps the invariant. */
  lemma StepKeeps(s: State, e: Event)
    requires Inv(s) && Enabled(s, e)
    ensures Inv(Step(s, e))
  {
    match e {
      case Insert(_, _) => InsertKeeps(s, e);
      case AddPending(_) => SendKeeps(s, e);
      case PushWork(_) => SendKeeps(s, e);
      case PushStop(_) => SendKeeps(s, e);
      case ClaimRows(_, _, _) => ClaimEventKeeps(s, e);
      case Create(t, made) => CreateKeeps(s, t, made);
      case Execute(t, succeeded) => ExecuteKeeps(s, t, succeeded);
      case SelectRows(_, _, _) => StatementKeeps(s, e);
      case ReleaseRows(_, _) => StatementKeeps(s, e);
      case DiscardRow(_, _) => StatementKeeps(s, e);
      case MarkRow(_, _) => StatementKeeps(s, e);
      case FinishRow(_, _) => StatementKeeps(s, e);
      case _ => LocalKeeps(s, e);
    }
  }

  lemma {:induction false} RunKeeps(s: State, es: seq<Event>)
    requires Inv(s) && IsRun(s, es)
    ensures Inv(After(s, es))
    decreases |es|
  {
    if es != [] {
      RunKeeps(s, es[..|es| - 1]);
      StepKeeps(After(s, es[..|es| - 1]), es[|es| - 1]);
    }
  }

  /** The invariant holds in every reachable state, under every interleaving and every failure. */
  lemma ReachableInv(s: State)
    requires Reachable(s)
    ensures Inv(s)
  {
    var start, es :| Initial(start) && IsRun(start, es) && After(start, es) == s;
    InitialInv(start);
    RunKeeps(start, es);
  }
}
