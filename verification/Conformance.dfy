/**
 * The imperative code of server and workers does what the events of the pipeline say: the server's callbacks step for
 * step, a worker's callbacks in the calls they make; and the protocol part of every pipeline run is a protocol run.
 */
module Conformance {
  import opened JobTable
  import opened Pipeline
  import opened Protocol
  import opened Recovery
  import opened Rest
  import Servers
  import opened WorkerProcesses

  // ----- The server -----

  /** What the count query comes to on the table of `s`. */
  function PollOf(s: System, counted: bool, hasRow: bool): Servers.Poll {
    if !counted then Servers.Failed else if !hasRow then Servers.NoRow else Servers.Counted(|PolledIds(s.p.rows)|)
  }

  /** The server object and the pipeline agree on the pipes and on the next worker. */
  ghost predicate Agree(server: Servers.Server, s: System)
    reads server
  {
    server.Valid() && server.pipes == s.pipes && server.lastWorker == s.last
  }

  /** The idle poll as code and as an event; `pending` is the number in the row of the count query. */
  method Tick(server: Servers.Server, ghost s: System, counted: bool, hasRow: bool, pending: nat, written: bool)
    requires Agree(server, s) && Shape(s) && pending == |PolledIds(s.p.rows)|
    modifies server
    ensures Agree(server, Do(s, SystemEvent.Tick(counted, hasRow, written)))
    ensures server.callbacks == old(server.callbacks) + [Servers.Timeout(PollOf(s, counted, hasRow))]
  {
    var poll :=
      if !counted then Servers.Failed else if !hasRow then Servers.NoRow else Servers.Counted(pending);
    server.IdleJobcheck(poll, written);
    assert pending > 0 <==> PolledIds(s.p.rows) != {};
  }

  /** The same for a datagram. */
  method Datagram(server: Servers.Server, ghost s: System, received: bool, written: bool)
    requires Agree(server, s) && Shape(s)
    modifies server
    ensures Agree(server, Do(s, SystemEvent.Datagram(received, written)))
    ensures server.callbacks == old(server.callbacks) + [Servers.Connect]
  {
    server.OnConnect(received, written);
  }

  /** Nothing else changes what the server has. */
  lemma OthersAgree(s: System, e: SystemEvent)
    requires Shape(s) && CanDo(s, e) && !e.Tick? && !e.Datagram?
    ensures Do(s, e).last == s.last && (!e.Read? ==> Do(s, e).pipes == s.pipes)
  {
  }

  // ----- The protocol -----

  /** The protocol events of the first `i` pipeline events. */
  ghost function Projected(trace: seq<System>, es: seq<SystemEvent>, i: nat): seq<Event>
    requires IsTrace(trace, es) && i <= |es|
  {
    if i == 0 then [] else Projected(trace, es, i - 1) + Inner(trace[i - 1], es[i - 1])
  }

  /** So everything proved of protocol runs holds of the table and the threads in a pipeline run. */
  lemma {:induction false} ProjectedRun(trace: seq<System>, es: seq<SystemEvent>, i: nat)
    requires IsTrace(trace, es) && SystemInv(trace[0]) && i <= |es|
    ensures IsRun(trace[0].p, Projected(trace, es, i))
    ensures After(trace[0].p, Projected(trace, es, i)) == trace[i].p
  {
    if i > 0 {
      ProjectedRun(trace, es, i - 1);
      TraceInv(trace, es, i - 1);
      InnerStep(trace[i - 1], es[i - 1]);
      var inner, before := Inner(trace[i - 1], es[i - 1]), Projected(trace, es, i - 1);
      if inner == [] {
        assert before + inner == before;
      } else {
        assert inner == [inner[0]];
        RunSnoc(trace[0].p, before, inner[0]);
      }
    }
  }

  // ----- The calls of a worker's callbacks -----

  predicate SendsTo(e: Event, members: seq<nat>) {
    (e.AddPending? || e.PushWork?) && e.t in members
  }

  /** The steps of send_work for threads in `members`. */
  function Sent(es: seq<Event>, members: seq<nat>): seq<Event> {
    if es == [] then []
    else Sent(es[..|es| - 1], members) + if SendsTo(es[|es| - 1], members) then [es[|es| - 1]] else []
  }

  lemma SentSnoc(es: seq<Event>, e: Event, members: seq<nat>)
    ensures Sent(es + [e], members) == Sent(es, members) + if SendsTo(e, members) then [e] else []
  {
    assert (es + [e])[..|es|] == es;
  }

  /** The bytes that worker `w` has read. */
  function BytesRead(es: seq<SystemEvent>, w: nat): nat {
    if es == [] then 0
    else
      var e := es[|es| - 1];
      BytesRead(es[..|es| - 1], w) + if e.Read? && e.w == w then e.bytes else 0
  }

  function Zeros(n: nat): (q: seq<nat>)
    ensures |q| == n
  {
    seq(n, _ => 0)
  }

  /** Half-made call: m_pending is raised and the push still to come. */
  predicate Pushing(io: Io) {
    io.FirstPush? || io.LoopPush?
  }

  /** What the sends of a worker look like where its callback stands at `io`. */
  function SendsAt(worker: Worker, sent: nat, io: Io): seq<Event>
    requires worker.threads != [] && (Pushing(io) ==> sent > 0)
  {
    if Pushing(io) then worker.CallsEvents(Zeros(sent - 1)) + [AddPending(worker.threads[0])]
    else worker.CallsEvents(Zeros(sent))
  }

  lemma OneZeroMore(worker: Worker, n: nat)
    requires worker.threads != []
    ensures worker.CallsEvents(Zeros(n + 1)) ==
      worker.CallsEvents(Zeros(n)) + [AddPending(worker.threads[0]), PushWork(worker.threads[0])]
  {
    assert Zeros(n + 1)[..n] == Zeros(n);
  }

  /** Steps of other workers' callbacks, and of threads, are not sends to this worker's threads. */
  lemma ForeignSends(s: System, e: SystemEvent, w: nat)
    requires SystemInv(s) && CanDo(s, e) && w < |s.members|
    requires e.Tick? || e.Datagram? || e.Read? || e.ReadFail? || e.Local? || e.w != w
    ensures forall x :: x in Inner(s, e) ==> !SendsTo(x, s.members[w])
    ensures |Do(s, e).sent| == |s.sent| && Do(s, e).sent[w] == s.sent[w]
  {
    if e.Wake? || e.Push? || e.Next? {
      PickIsFirst(s, e.w);
      assert WorkerOk(s, e.w);
    }
  }

  /** What a callback of the worker itself adds. */
  lemma OwnSends(s: System, e: SystemEvent, w: nat)
    requires SystemInv(s) && CanDo(s, e) && (e.Wake? || e.Push? || e.Next?) && e.w == w
    ensures var first, s' := s.members[w][0], Do(s, e);
      && first in s.members[w] && |s'.sent| == |s.sent| && |s'.io| == |s.io|
      && Inner(s, e) == (if e.Push? then [PushWork(first)] else if Pushing(s'.io[w]) then [AddPending(first)] else [])
      && s'.sent[w] == s.sent[w] + (if Pushing(s'.io[w]) then 1 else 0)
      && (e.Push? <==> Pushing(s.io[w])) && (e.Push? ==> !Pushing(s'.io[w]))
  {
    PickIsFirst(s, w);
    assert WorkerOk(s, w);
  }

  ghost predicate SendsOk(s: System, done: seq<Event>, w: nat, worker: Worker)
    requires w < |s.members| == |s.sent| == |s.io|
  {
    && worker.threads == s.members[w] != []
    && (Pushing(s.io[w]) ==> s.sent[w] > 0)
    && Sent(done, s.members[w]) == SendsAt(worker, s.sent[w], s.io[w])
  }

  lemma PushSendsOk(s: System, done: seq<Event>, w: nat, worker: Worker)
    requires SystemInv(s) && CanDo(s, Push(w)) && w < |s.members| && SendsOk(s, done, w, worker)
    requires |Do(s, Push(w)).io| == |Do(s, Push(w)).sent| == |s.members|
    ensures SendsOk(Do(s, Push(w)), done + Inner(s, Push(w)), w, worker)
  {
    OwnSends(s, Push(w), w);
    SentSnoc(done, PushWork(s.members[w][0]), s.members[w]);
    OneZeroMore(worker, s.sent[w] - 1);
  }

  lemma RaiseSendsOk(s: System, e: SystemEvent, done: seq<Event>, w: nat, worker: Worker)
    requires SystemInv(s) && CanDo(s, e) && (e.Wake? || e.Next?) && e.w == w && SendsOk(s, done, w, worker)
    requires |Do(s, e).io| == |Do(s, e).sent| == |s.members|
    ensures SendsOk(Do(s, e), done + Inner(s, e), w, worker)
  {
    OwnSends(s, e, w);
    if Inner(s, e) == [] {
      assert done + Inner(s, e) == done;
    } else {
      SentSnoc(done, AddPending(s.members[w][0]), s.members[w]);
    }
  }

  lemma SendsStep(s: System, e: SystemEvent, done: seq<Event>, w: nat, worker: Worker)
    requires SystemInv(s) && CanDo(s, e) && w < |s.members| && SendsOk(s, done, w, worker)
    ensures SystemInv(Do(s, e)) && Do(s, e).members == s.members
    ensures SendsOk(Do(s, e), done + Inner(s, e), w, worker)
  {
    DoKeeps(s, e);
    InnerStep(s, e);
    if e.Push? && e.w == w {
      PushSendsOk(s, done, w, worker);
    } else if (e.Wake? || e.Next?) && e.w == w {
      RaiseSendsOk(s, e, done, w, worker);
    } else {
      ForeignSends(s, e, w);
      var inner := Inner(s, e);
      if inner == [] {
        assert done + inner == done;
      } else {
        SentSnoc(done, inner[0], s.members[w]);
        assert done + inner == done + [inner[0]];
      }
      PushingStays(s, e, w);
    }
  }

  lemma PushingStays(s: System, e: SystemEvent, w: nat)
    requires SystemInv(s) && CanDo(s, e) && w < |s.io|
    requires !((e.Wake? || e.Push? || e.Next?) && e.w == w)
    ensures |Do(s, e).io| == |s.io| && !Pushing(Do(s, e).io[w]) == !Pushing(s.io[w])
    ensures Pushing(s.io[w]) ==> Do(s, e).io[w] == s.io[w]
  {
  }

  lemma BytesStep(s: System, e: SystemEvent, w: nat)
    requires Shape(s) && CanDo(s, e) && w < |s.io|
    ensures |Do(s, e).io| == |s.io| == |Do(s, e).sent| == |s.sent|
    ensures Do(s, e).sent[w] + Owed(Do(s, e).io[w]) ==
      s.sent[w] + Owed(s.io[w]) + if e.Read? && e.w == w then e.bytes else 0
  {
  }

  lemma {:induction false} SendsInRun(trace: seq<System>, es: seq<SystemEvent>, i: nat, w: nat, worker: Worker)
    requires IsTrace(trace, es) && SystemInitial(trace[0]) && i <= |es|
    requires w < |trace[0].members| && worker.threads == trace[0].members[w]
    ensures SystemInv(trace[i]) && trace[i].members == trace[0].members
    ensures SendsOk(trace[i], Projected(trace, es, i), w, worker)
  {
    if i == 0 {
      SystemInitialInv(trace[0]);
    } else {
      SendsInRun(trace, es, i - 1, w, worker);
      SendsStep(trace[i - 1], es[i - 1], Projected(trace, es, i - 1), w, worker);
    }
  }

  lemma {:induction false} BytesInRun(trace: seq<System>, es: seq<SystemEvent>, i: nat, w: nat)
    requires IsTrace(trace, es) && SystemInitial(trace[0]) && i <= |es| && w < |trace[0].io|
    ensures |trace[i].io| == |trace[i].sent| == |trace[0].io|
    ensures trace[i].sent[w] + Owed(trace[i].io[w]) == BytesRead(es[..i], w)
  {
    if i > 0 {
      BytesInRun(trace, es, i - 1, w);
      BytesStep(trace[i - 1], es[i - 1], w);
      assert es[..i][..i - 1] == es[..i - 1];
    }
  }

  /**
   * Whenever a worker is back in its event loop, its callbacks have made the calls that `Worker.OnIoWork` promises:
   * one `send_work` for each byte read so far, in its two steps, every one to the thread that the scan picks.
   */
  lemma CallbacksConform(trace: seq<System>, es: seq<SystemEvent>, w: nat, worker: Worker)
    requires IsTrace(trace, es) && SystemInitial(trace[0])
    requires w < |trace[0].members| && worker.threads == trace[0].members[w]
    ensures w < |trace[|es|].io|
    ensures trace[|es|].io[w].Ready? ==>
      Sent(Projected(trace, es, |es|), worker.threads) == worker.CallsEvents(Zeros(BytesRead(es, w)))
  {
    SendsInRun(trace, es, |es|, w, worker);
    BytesInRun(trace, es, |es|, w);
    assert es[..|es|] == es;
  }
}
