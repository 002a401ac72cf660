/** What happens to a thread once its process has been told to stop. */
module Shutdown {
  import opened LockIds
  import opened Protocol
  import opened Invariant
  import opened Preservation
  import Safety

  /** The events a thread performs itself. */
  predicate IsOwn(e: Event, t: nat) {
    match e
    case Insert(_, _) => false
    case AddPending(_) => false
    case PushWork(_) => false
    case PushStop(_) => false
    case Deactivate(_) => false
    case _ => e.t == t
  }

  function OwnCount(es: seq<Event>, t: nat): nat {
    if es == [] then 0 else OwnCount(es[..|es| - 1], t) + if IsOwn(es[|es| - 1], t) then 1 else 0
  }

  function ClaimCount(es: seq<Event>, t: nat): nat {
    if es == [] then 0
    else ClaimCount(es[..|es| - 1], t) + if es[|es| - 1].ClaimRows? && es[|es| - 1].t == t then 1 else 0
  }

  /** A thread past its test of m_active can still start one batch. */
  function ClaimsLeft(pc: Pc): nat {
    if pc.Waiting? || pc.Draining? || pc.Claiming? then 1 else 0
  }

  /** An upper bound on the steps from a place in the current batch to the end of it. */
  function Ahead(pc: Pc): nat {
    match pc
    case Releasing(_, _) => 2
    case Executing(_, _, jobs) => 2 + 2 * |jobs|
    case Finishing(_, _, jobs, _) => 1 + 2 * |jobs|
    case Reading(_, _, todo, jobs) => 3 + 2 * |jobs| + 5 * |todo|
    case Discarding(_, _, _, _, todo, jobs) => 7 + 2 * |jobs| + 5 * |todo|
    case Marking(_, _, _, _, todo, jobs) => 6 + 2 * |jobs| + 5 * |todo|
    case Selecting(w, _, _) => 4 + 5 * w
    case Claiming(w) => 5 + 5 * w
    case Draining(w) => 6 + 5 * w
    case _ => 0
  }

  /** An upper bound on the steps a thread of a stopping process takes before it exits. */
  function Rank(th: Thread): nat {
    match th.pc
    case Exited => 0
    case Top => 1
    case Waiting => 7 + 6 * |th.queue|
    case Draining(_) => Ahead(th.pc) + 6 * |th.queue|
    case _ => Ahead(th.pc)
  }

  lemma OthersKeepPc(s: State, e: Event, t: nat)
    requires Enabled(s, e) && At(s, t) && !IsOwn(e, t)
    ensures At(Step(s, e), t) && PcOf(Step(s, e), t) == PcOf(s, t)
    ensures !(e.PushWork? && e.t == t) && !(e.PushStop? && e.t == t) ==>
      Step(s, e).threads[t].queue == s.threads[t].queue
  {
  }

  lemma CfgStays(s: State, e: Event, t: nat)
    requires Enabled(s, e) && At(s, t)
    ensures At(Step(s, e), t) && Step(s, e).threads[t].cfg == s.threads[t].cfg
  {
  }

  lemma ActiveStays(s: State, e: Event)
    requires Enabled(s, e)
    ensures Step(s, e).active == if e.Deactivate? then s.active[e.worker := false] else s.active
  {
  }

  lemma StaysInactive(s: State, e: Event, t: nat)
    requires Enabled(s, e) && At(s, t)
    ensures At(Step(s, e), t) && Step(s, e).threads[t].cfg == s.threads[t].cfg
    ensures !IsActive(s, t) ==> !IsActive(Step(s, e), t)
  {
    CfgStays(s, e, t);
    ActiveStays(s, e);
  }

  predicate ForRow(e: Event) {
    e.Create? || e.DiscardRow? || e.MarkRow?
  }

  predicate ForBatch(e: Event) {
    e.ReadEnd? || e.Execute? || e.FinishRow? || e.BatchEnd?
  }

  /** A step of the batch: nothing is taken from the queue, and less of the batch is ahead. */
  predicate Advances(th: Thread, th': Thread) {
    && th'.queue == th.queue && th'.adding == th.adding
    && !th.pc.Top? && !th.pc.Waiting? && !th.pc.Draining? && !th.pc.Exited?
    && !th'.pc.Waiting? && !th'.pc.Draining? && !th'.pc.Claiming? && !th'.pc.Exited?
    && if th'.pc.Top? then Ahead(th.pc) >= 2 else Ahead(th'.pc) < Ahead(th.pc)
  }

  lemma CreateAdvances(s: State, t: nat, made: bool)
    requires Enabled(s, Create(t, made))
    ensures Advances(s.threads[t], CreateStep(s, t, made).threads[t])
  {
  }

  lemma DiscardAdvances(s: State, t: nat, ok: bool)
    requires Enabled(s, DiscardRow(t, ok))
    ensures Advances(s.threads[t], DiscardStep(s, t, ok).threads[t])
  {
  }

  lemma MarkAdvances(s: State, t: nat, ok: bool)
    requires Enabled(s, MarkRow(t, ok))
    ensures Advances(s.threads[t], MarkStep(s, t, ok).threads[t])
  {
  }

  lemma RowAdvances(s: State, e: Event)
    requires Enabled(s, e) && ForRow(e)
    ensures Advances(s.threads[e.t], Step(s, e).threads[e.t])
  {
    match e {
      case Create(t, made) => CreateAdvances(s, t, made);
      case DiscardRow(t, ok) => DiscardAdvances(s, t, ok);
      case MarkRow(t, ok) => MarkAdvances(s, t, ok);
    }
  }

  lemma BatchAdvances(s: State, e: Event)
    requires Enabled(s, e) && ForBatch(e)
    ensures Advances(s.threads[e.t], Step(s, e).threads[e.t])
  {
  }

  lemma SelectAdvances(s: State, t: nat, ok: bool, stored: bool)
    requires Enabled(s, SelectRows(t, ok, stored))
    ensures Advances(s.threads[t], SelectStep(s, t, ok, stored).threads[t])
  {
  }

  predicate ForClaim(e: Event) {
    e.ClaimRows? || e.SelectRows? || e.ReleaseRows?
  }

  lemma ClaimAdvances(s: State, e: Event)
    requires Enabled(s, e) && ForClaim(e)
    ensures Advances(s.threads[e.t], Step(s, e).threads[e.t])
  {
    if e.SelectRows? { SelectAdvances(s, e.t, e.ok, e.stored); }
  }

  /** Every step between the claim and the end of the batch advances. */
  lemma StepAdvances(s: State, e: Event)
    requires Enabled(s, e) && (ForRow(e) || ForBatch(e) || ForClaim(e))
    ensures Advances(s.threads[e.t], Step(s, e).threads[e.t])
  {
    if ForRow(e) {
      RowAdvances(s, e);
    } else if ForBatch(e) {
      BatchAdvances(s, e);
    } else {
      ClaimAdvances(s, e);
    }
  }

  lemma OwnStepRank(s: State, e: Event, t: nat)
    requires Enabled(s, e) && At(s, t) && !IsActive(s, t) && IsOwn(e, t)
    ensures Rank(Step(s, e).threads[t]) < Rank(s.threads[t])
  {
    if ForRow(e) || ForBatch(e) || ForClaim(e) { StepAdvances(s, e); }
  }

  lemma OwnStepClaims(s: State, e: Event, t: nat)
    requires Enabled(s, e) && At(s, t) && !IsActive(s, t) && IsOwn(e, t)
    ensures (if e.ClaimRows? then 1 else 0) + ClaimsLeft(PcOf(Step(s, e), t)) <= ClaimsLeft(PcOf(s, t))
  {
  }

  /** After m_active is cleared, a thread claims at most once more, whatever is still queued for it. */
  lemma {:induction false} AtMostOneMoreBatch(s: State, es: seq<Event>, t: nat)
    requires IsRun(s, es) && At(s, t) && !IsActive(s, t)
    ensures At(After(s, es), t) && !IsActive(After(s, es), t)
    ensures ClaimCount(es, t) + ClaimsLeft(PcOf(After(s, es), t)) <= ClaimsLeft(PcOf(s, t))
    decreases |es|
  {
    if es != [] {
      var front, e := es[..|es| - 1], es[|es| - 1];
      AtMostOneMoreBatch(s, front, t);
      StaysInactive(After(s, front), e, t);
      if IsOwn(e, t) { OwnStepClaims(After(s, front), e, t); } else { OthersKeepPc(After(s, front), e, t); }
    }
  }

  /** Without further messages, a thread of a stopping process takes at most Rank more steps ... */
  lemma {:induction false} ExitBound(s: State, es: seq<Event>, t: nat)
    requires IsRun(s, es) && At(s, t) && !IsActive(s, t)
    requires forall e :: e in es ==> !(e.PushWork? && e.t == t) && !(e.PushStop? && e.t == t)
    ensures At(After(s, es), t) && !IsActive(After(s, es), t)
    ensures OwnCount(es, t) + Rank(After(s, es).threads[t]) <= Rank(s.threads[t])
    decreases |es|
  {
    if es != [] {
      var front, e := es[..|es| - 1], es[|es| - 1];
      ExitBound(s, front, t);
      assert e in es;
      StaysInactive(After(s, front), e, t);
      if IsOwn(e, t) { OwnStepRank(After(s, front), e, t); } else { OthersKeepPc(After(s, front), e, t); }
    }
  }

  /** ... and is never stuck before it exits, given a lock id that is not in use; so the join returns. */
  lemma NeverStuck(s: State, t: nat, stamp: Stamp)
    requires Inv(s) && At(s, t) && !PcOf(s, t).Exited?
    requires stamp.Valid() && Text(stamp) !in s.used
    ensures exists e :: IsOwn(e, t) && Enabled(s, e)
  {
    NextEnabled(s, t, stamp);
  }

  lemma NextEnabled(s: State, t: nat, stamp: Stamp)
    requires Inv(s) && At(s, t) && !PcOf(s, t).Exited?
    requires stamp.Valid() && Text(stamp) !in s.used
    ensures var e := NextEvent(s, t, stamp); IsOwn(e, t) && Enabled(s, e)
  {
    assert ThreadOk(s, t);
    var pc := PcOf(s, t);
    if pc.Reading? && pc.todo != [] { assert Holds(pc, pc.todo[0]); }
    if pc.Discarding? || pc.Marking? { assert Holds(pc, pc.row); }
  }

  function NextEvent(s: State, t: nat, stamp: Stamp): Event
    requires At(s, t) && !PcOf(s, t).Exited?
  {
    match PcOf(s, t)
    case Top => Test(t)
    case Waiting => if s.threads[t].queue == [] then Timeout(t) else Pop(t)
    case Draining(_) => if s.threads[t].queue == [] then DrainEnd(t) else Pop(t)
    case Claiming(_) => ClaimRows(t, stamp, true)
    case Selecting(_, _, _) => SelectRows(t, true, true)
    case Releasing(_, _) => ReleaseRows(t, true)
    case Reading(_, _, todo, _) => if todo == [] then ReadEnd(t) else Create(t, true)
    case Discarding(_, _, _, _, _, _) => DiscardRow(t, true)
    case Marking(_, _, _, _, _, _) => MarkRow(t, true)
    case Executing(_, _, jobs) => if jobs == [] then BatchEnd(t) else Execute(t, true)
    case Finishing(_, _, _, _) => FinishRow(t, true)
  }

  /**
   * When every thread has exited, no row is left in hand, and every job object ever built has been executed and
   * its result statement sent: its row is finished, or shows that the result was lost.
   */
  lemma NoJobAbandoned(s: State, id: nat)
    requires Reachable(s)
    requires forall t: nat :: At(s, t) ==> PcOf(s, t).Exited?
    ensures !Safety.Held(s, id)
    ensures id in s.created <==> id in s.executed
    ensures id in s.created ==> id in s.rows && id in s.fate
    ensures id in s.created ==> SettledShape(s.rows[id]) || s.fate[id] == Stranded(ResultLost)
  {
    assert Inv(s) by { ReachableInv(s); }
    if id in s.created { assert CreatedOk(s, id); }
    if id in s.executed { assert MayBeExecuted(s, id); assert RowOk(s, id); }
  }
}
