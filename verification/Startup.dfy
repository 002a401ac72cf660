/**
 * Starting the workers one at a time, and who holds which end of which pipe. A fork copies every descriptor the
 * server has open, so whether a read sees end of file depends on processes the channel does not know about.
 */
module Startup {

  /** The two pipes of a channel: orders to worker `i`, and the start-up signal from it. */
  datatype Pipe = ToWorker(i: nat) | FromWorker(i: nat)

  datatype End = End(pipe: Pipe, write: bool)

  function BothEnds(p: Pipe): set<End> {
    {End(p, false), End(p, true)}
  }

  // ----- The channel's operations on the descriptors of the process that calls them -----

  function Opened(ends: set<End>, i: nat): set<End> {
    ends + BothEnds(ToWorker(i)) + BothEnds(FromWorker(i))
  }

  function ChildInited(ends: set<End>, i: nat): set<End> {
    ends - {End(ToWorker(i), true), End(FromWorker(i), false)}
  }

  function ParentInited(ends: set<End>, i: nat): set<End> {
    ends - {End(ToWorker(i), false), End(FromWorker(i), true)}
  }

  /** A worker's channel as one process sees it; `ends` are all descriptors that process has open. */
  class WorkerChannel {
    const i: nat
    var child: bool
    var ends: set<End>

    constructor (i: nat, ends: set<End>)
      ensures this.i == i && !child && this.ends == ends
    {
      this.i := i;
      child := false;
      this.ends := ends;
    }

    /** `first` and `second` tell which of the two pipe() calls works; the second is made only after the first. */
    method Open(first: bool, second: bool) returns (ok: bool)
      modifies this`ends
      ensures ok <==> first && second
      ensures ends == old(ends)
        + (if first then {End(ToWorker(i), false), End(ToWorker(i), true)} else {})
        + (if first && second then {End(FromWorker(i), false), End(FromWorker(i), true)} else {})
    {
      if !first { return false; }
      ends := ends + BothEnds(ToWorker(i));
      if !second { return false; }
      ends := ends + BothEnds(FromWorker(i));
      return true;
    }

    method ChildInit()
      modifies this
      ensures child && ends == old(ends) - {End(ToWorker(i), true), End(FromWorker(i), false)}
    {
      child := true;
      ends := ends - {End(ToWorker(i), true)};
      ends := ends - {End(FromWorker(i), false)};
    }

    method ParentInit()
      modifies this
      ensures !child && ends == old(ends) - {End(ToWorker(i), false), End(FromWorker(i), true)}
    {
      child := false;
      ends := ends - {End(ToWorker(i), false)};
      ends := ends - {End(FromWorker(i), true)};
    }

    /** `bytes` is what read() returned once it came back. */
    method WaitForChildInit(bytes: int) returns (ok: bool)
      requires bytes >= -1
      modifies this`ends
      ensures ok <==> bytes != -1
      ensures ends == if ok then old(ends) - {End(FromWorker(i), false)} else old(ends)
    {
      if bytes == -1 { return false; }
      ends := ends - {End(FromWorker(i), false)};
      return true;
    }
  }

  // ----- The fork sequence -----

  /** A child process: its descriptors, and whether it has closed its start-up pipe or exited. */
  datatype Child = Child(ends: set<End>, inited: bool, ready: bool, exited: bool)

  datatype Phase = Opening | Forking | Closing | Waiting | Gone

  /** The server works on worker `cur`; `confirmed` are the workers for which waitForChildInit returned true. */
  datatype State = State(cur: nat, phase: Phase, server: set<End>, children: map<nat, Child>, confirmed: set<nat>)

  datatype Event =
    | OpenPipes
    | OpenFails(first: bool)
    | Fork
    | ParentCloses           // parent_init
    | WaitTrue               // the read sees end of file
    | WaitFails              // the read is interrupted
    | ServerExits
    | ChildCloses(i: nat)    // child_init
    | ChildReady(i: nat)     // modules loaded, start-up pipe closed
    | ChildExits(i: nat)

  predicate Holds(s: State, e: End) {
    e in s.server || exists i :: i in s.children && e in s.children[i].ends
  }

  ghost predicate Enabled(s: State, e: Event) {
    match e
    case OpenPipes => s.phase == Opening
    case OpenFails(_) => s.phase == Opening
    case Fork => s.phase == Forking && s.cur !in s.children
    case ParentCloses => s.phase == Closing
    case WaitTrue => s.phase == Waiting && !Holds(s, End(FromWorker(s.cur), true))
    case WaitFails => s.phase == Waiting
    case ServerExits => s.phase != Gone
    case ChildCloses(i) => i in s.children && !s.children[i].exited && !s.children[i].inited
    case ChildReady(i) => i in s.children && !s.children[i].exited && s.children[i].inited && !s.children[i].ready
    case ChildExits(i) => i in s.children && !s.children[i].exited
  }

  function Step(s: State, e: Event): State {
    match e
    case OpenPipes => s.(server := Opened(s.server, s.cur), phase := Forking)
    case OpenFails(first) =>
      s.(server := if first then s.server + BothEnds(ToWorker(s.cur)) else s.server, cur := s.cur + 1)
    case Fork => s.(children := s.children[s.cur := Child(s.server, false, false, false)], phase := Closing)
    case ParentCloses => s.(server := ParentInited(s.server, s.cur), phase := Waiting)
    case WaitTrue =>
      s.(server := s.server - {End(FromWorker(s.cur), false)}, confirmed := s.confirmed + {s.cur},
         cur := s.cur + 1, phase := Opening)
    case WaitFails => s.(cur := s.cur + 1, phase := Opening)
    case ServerExits => s.(server := {}, phase := Gone)
    case ChildCloses(i) =>
      if i !in s.children then s
      else s.(children := s.children[i := s.children[i].(ends := ChildInited(s.children[i].ends, i), inited := true)])
    case ChildReady(i) =>
      if i !in s.children then s
      else
        var child := s.children[i];
        s.(children := s.children[i := child.(ends := child.ends - {End(FromWorker(i), true)}, ready := true)])
    case ChildExits(i) =>
      if i !in s.children then s
      else s.(children := s.children[i := s.children[i].(ends := {}, exited := true)])
  }

  /** What each event of the server does to its own descriptors, and to its place in the sequence. */
  lemma ServerExactly(s: State, e: Event)
    requires Enabled(s, e)
    ensures var i, s' := s.cur, Step(s, e);
      match e
      case OpenPipes =>
        && s'.server == s.server + {End(ToWorker(i), false), End(ToWorker(i), true)}
                                 + {End(FromWorker(i), false), End(FromWorker(i), true)}
        && s'.cur == i && s'.confirmed == s.confirmed
      case OpenFails(first) =>
        && s'.server == (if first then s.server + {End(ToWorker(i), false), End(ToWorker(i), true)} else s.server)
        && s'.cur == i + 1 && s'.confirmed == s.confirmed
      case ParentCloses =>
        && s'.server == s.server - {End(ToWorker(i), false), End(FromWorker(i), true)}
        && s'.cur == i && s'.confirmed == s.confirmed
      case WaitTrue =>
        && s'.server == s.server - {End(FromWorker(i), false)}
        && s'.cur == i + 1 && s'.confirmed == s.confirmed + {i}
      case WaitFails => s'.server == s.server && s'.cur == i + 1 && s'.confirmed == s.confirmed
      case ServerExits => s'.server == {} && s'.confirmed == s.confirmed
      case _ => s'.server == s.server && s'.cur == i && s'.confirmed == s.confirmed
  {
  }

  /** And of the children: a fork copies all the server has, then each child acts on its own descriptors. */
  lemma ChildrenExactly(s: State, e: Event, i: nat)
    requires Enabled(s, e)
    ensures i in Step(s, e).children <==> i in s.children || (e == Fork && i == s.cur)
    ensures e == Fork ==> Step(s, e).children[s.cur].ends == s.server
    ensures i in s.children ==>
      var ends := s.children[i].ends;
      Step(s, e).children[i].ends ==
      if e == ChildCloses(i) then ends - {End(ToWorker(i), true), End(FromWorker(i), false)}
      else if e == ChildReady(i) then ends - {End(FromWorker(i), true)}
      else if e == ChildExits(i) then {}
      else ends
  {
  }

  ghost predicate IsTrace(trace: seq<State>, es: seq<Event>) {
    && |trace| == |es| + 1
    && (forall k :: 0 <= k < |es| ==> Enabled(trace[k], es[k]) && trace[k + 1] == Step(trace[k], es[k]))
  }

  const START := State(0, Opening, {}, map[], {})

  // ----- Invariant -----

  /** Which ends the server still has of the pipes of worker `j`. */
  predicate ServerEndsOk(s: State, e: End) {
    && e.pipe.i <= s.cur
    && (e.pipe.i == s.cur ==> s.phase != Opening)
    && (e.pipe.FromWorker? && e.write ==> e.pipe.i == s.cur && (s.phase == Forking || s.phase == Closing))
  }

  predicate Unfinished(c: Child) {
    !c.ready && !c.exited
  }

  /** The ends child `i` has: its own start-up writer until it is done, and copies of its elders' order writers. */
  ghost predicate ChildOk(s: State, i: nat)
    requires i in s.children
  {
    var c := s.children[i];
    && (i < s.cur || (i == s.cur && (s.phase == Closing || s.phase == Waiting || s.phase == Gone)))
    && (End(FromWorker(i), true) in c.ends <==> Unfinished(c))
    && (forall e :: e in c.ends ==> e.pipe.i <= i)
    && (forall e :: e in c.ends && e.pipe.FromWorker? && e.write ==> e.pipe.i == i)
    && (End(ToWorker(i), true) in c.ends <==> !c.inited && !c.exited)
    && (forall j :: j < i && j in s.children ==> (End(ToWorker(j), true) in c.ends <==> !c.exited))
  }

  ghost predicate Inv(s: State) {
    && (forall e :: e in s.server ==> ServerEndsOk(s, e))
    && (forall i :: i in s.children ==> ChildOk(s, i))
    && (s.phase == Forking || s.phase == Closing ==> Opened({}, s.cur) <= s.server)
    && (s.phase == Closing || s.phase == Waiting ==> s.cur in s.children)
    && (s.phase != Gone ==> forall i :: i in s.children ==> End(ToWorker(i), true) in s.server)
    && (s.phase == Gone ==> s.server == {})
    && (forall i :: i in s.confirmed ==> i in s.children && !Unfinished(s.children[i]))
  }

  lemma ServerStepKeeps(s: State, e: Event)
    requires Inv(s) && Enabled(s, e) && !e.ChildCloses? && !e.ChildReady? && !e.ChildExits? && !e.Fork? && !e.WaitTrue?
    ensures Inv(Step(s, e))
  {
    var s' := Step(s, e);
    forall i | i in s'.children ensures ChildOk(s', i) { assert ChildOk(s, i); }
  }

  lemma ForkKeeps(s: State)
    requires Inv(s) && Enabled(s, Fork)
    ensures Inv(Step(s, Fork))
  {
    var s' := Step(s, Fork);
    forall i | i in s'.children ensures ChildOk(s', i) { if i != s.cur { assert ChildOk(s, i); } }
  }

  /** While the server waits, its read sees end of file exactly when the worker is ready or has exited. */
  lemma BarrierExact(s: State)
    requires Inv(s) && s.phase == Waiting
    ensures s.cur in s.children
    ensures Enabled(s, WaitTrue) <==> s.children[s.cur].ready || s.children[s.cur].exited
  {
    var w := End(FromWorker(s.cur), true);
    assert ChildOk(s, s.cur);
    assert w !in s.server by { assert w in s.server ==> ServerEndsOk(s, w); }
    forall i | i in s.children && i != s.cur ensures w !in s.children[i].ends { assert ChildOk(s, i); }
  }

  lemma WaitKeeps(s: State)
    requires Inv(s) && Enabled(s, WaitTrue)
    ensures Inv(Step(s, WaitTrue))
  {
    var s' := Step(s, WaitTrue);
    BarrierExact(s);
    forall i | i in s'.children ensures ChildOk(s', i) { assert ChildOk(s, i); }
  }

  /** A child acts on its own descriptors only. */
  lemma ChildMoves(s: State, s': State, i: nat)
    requires Inv(s) && i in s.children && i in s'.children
    requires s' == s.(children := s.children[i := s'.children[i]])
    requires ChildOk(s', i) && (Unfinished(s'.children[i]) ==> Unfinished(s.children[i]))
    ensures Inv(s')
  {
    assert s'.children.Keys == s.children.Keys;
    forall k | k in s'.children ensures ChildOk(s', k) { assert ChildOk(s, k); }
  }

  lemma ChildClosesKeeps(s: State, i: nat)
    requires Inv(s) && Enabled(s, ChildCloses(i))
    ensures Inv(Step(s, ChildCloses(i)))
  {
    var s' := Step(s, ChildCloses(i));
    assert ChildOk(s, i);
    assert s'.children.Keys == s.children.Keys;
    assert ChildOk(s', i);
    ChildMoves(s, s', i);
  }

  lemma ChildReadyKeeps(s: State, i: nat)
    requires Inv(s) && Enabled(s, ChildReady(i))
    ensures Inv(Step(s, ChildReady(i)))
  {
    var s' := Step(s, ChildReady(i));
    assert ChildOk(s, i);
    assert s'.children.Keys == s.children.Keys;
    assert ChildOk(s', i);
    ChildMoves(s, s', i);
  }

  lemma ChildExitsKeeps(s: State, i: nat)
    requires Inv(s) && Enabled(s, ChildExits(i))
    ensures Inv(Step(s, ChildExits(i)))
  {
    var s' := Step(s, ChildExits(i));
    assert ChildOk(s, i);
    assert s'.children.Keys == s.children.Keys;
    assert ChildOk(s', i);
    ChildMoves(s, s', i);
  }

  lemma StepKeeps(s: State, e: Event)
    requires Inv(s) && Enabled(s, e)
    ensures Inv(Step(s, e))
  {
    match e {
      case Fork => ForkKeeps(s);
      case WaitTrue => WaitKeeps(s);
      case ChildCloses(i) => ChildClosesKeeps(s, i);
      case ChildReady(i) => ChildReadyKeeps(s, i);
      case ChildExits(i) => ChildExitsKeeps(s, i);
      case _ => ServerStepKeeps(s, e);
    }
  }

  lemma {:induction false} TraceInv(trace: seq<State>, es: seq<Event>, k: nat)
    requires IsTrace(trace, es) && trace[0] == START && k <= |es|
    ensures Inv(trace[k])
  {
    if k > 0 {
      TraceInv(trace, es, k - 1);
      StepKeeps(trace[k - 1], es[k - 1]);
    }
  }

  /**
   * The start-up barrier: in every run, the server's wait for a worker can succeed exactly when that worker has
   * finished loading its modules or exited, and every worker the server counts as started is in that state.
   */
  lemma StartupBarrier(trace: seq<State>, es: seq<Event>)
    requires IsTrace(trace, es) && trace[0] == START
    ensures var s := trace[|es|];
      && (s.phase == Waiting ==> s.cur in s.children)
      && (s.phase == Waiting ==> (Enabled(s, WaitTrue) <==> s.children[s.cur].ready || s.children[s.cur].exited))
      && (forall i :: i in s.confirmed ==> i in s.children && (s.children[i].ready || s.children[i].exited))
  {
    TraceInv(trace, es, |es|);
    if trace[|es|].phase == Waiting { BarrierExact(trace[|es|]); }
  }

  // ----- Who can read what -----

  /**
   * The read ends of child `i`. It keeps the one of its own orders until it exits, and the one of its own signals until
   * child_init; it has none of the other children's orders, and none of a confirmed worker's signals.
   */
  ghost predicate ReadsOk(c: Child, i: nat, kids: set<nat>, confirmed: set<nat>) {
    && (End(ToWorker(i), false) in c.ends <==> !c.exited)
    && (End(FromWorker(i), false) in c.ends <==> !c.inited && !c.exited)
    && (c.ready ==> c.inited)
    && (forall j :: j in kids && j != i ==> End(ToWorker(j), false) !in c.ends)
    && (forall j :: j in confirmed && j != i ==> End(FromWorker(j), false) !in c.ends)
  }

  /** The server closes a child's orders with parent_init and its signals once it has been waited for. */
  ghost predicate ServerReadsOk(s: State) {
    && (forall i :: i in s.children ==>
          (End(ToWorker(i), false) in s.server <==> i == s.cur && s.phase == Closing))
    && (s.phase == Waiting ==> End(FromWorker(s.cur), false) in s.server)
    && (forall i :: i in s.confirmed ==> i < s.cur && End(FromWorker(i), false) !in s.server)
  }

  ghost predicate ReadInv(s: State) {
    && (forall i :: i in s.children ==> ReadsOk(s.children[i], i, s.children.Keys, s.confirmed))
    && ServerReadsOk(s)
  }

  lemma AllStarted(s: State)
    requires Inv(s) && s.phase == Opening
    ensures forall i :: i in s.children ==> i < s.cur
  {
    forall i | i in s.children ensures i < s.cur { assert ChildOk(s, i); }
  }

  lemma ReadsOpen(s: State, e: Event)
    requires ReadInv(s) && Enabled(s, e) && (e.OpenPipes? || e.OpenFails?)
    requires forall i :: i in s.children ==> i < s.cur
    ensures ReadInv(Step(s, e))
  {
  }

  lemma ReadsClose(s: State, e: Event)
    requires Inv(s) && ReadInv(s) && Enabled(s, e) && (e.ParentCloses? || e.WaitFails? || e.ServerExits?)
    ensures ReadInv(Step(s, e))
  {
  }

  lemma ReadsFork(s: State)
    requires Inv(s) && ReadInv(s) && Enabled(s, Fork)
    ensures ReadInv(Step(s, Fork))
  {
    var s' := Step(s, Fork);
    forall i | i in s'.children ensures ReadsOk(s'.children[i], i, s'.children.Keys, s'.confirmed) {
      if i != s.cur { assert ChildOk(s, i); }
    }
  }

  lemma ReadsWait(s: State)
    requires Inv(s) && ReadInv(s) && Enabled(s, WaitTrue)
    ensures ReadInv(Step(s, WaitTrue))
  {
    var s' := Step(s, WaitTrue);
    BarrierExact(s);
    forall i | i in s'.children ensures ReadsOk(s'.children[i], i, s'.children.Keys, s'.confirmed) {
      assert ReadsOk(s.children[i], i, s.children.Keys, s.confirmed) && ChildOk(s, i);
    }
  }

  lemma ReadsChild(s: State, s': State, i: nat)
    requires ReadInv(s) && i in s.children && i in s'.children
    requires s' == s.(children := s.children[i := s'.children[i]])
    requires ReadsOk(s'.children[i], i, s.children.Keys, s.confirmed)
    ensures ReadInv(s')
  {
    assert s'.children.Keys == s.children.Keys;
  }

  lemma ReadsChildStep(s: State, e: Event)
    requires ReadInv(s) && Enabled(s, e) && (e.ChildCloses? || e.ChildReady? || e.ChildExits?)
    ensures ReadInv(Step(s, e))
  {
    assert ReadsOk(s.children[e.i], e.i, s.children.Keys, s.confirmed);
    ReadsChild(s, Step(s, e), e.i);
  }

  lemma ReadsStep(s: State, e: Event)
    requires Inv(s) && ReadInv(s) && Enabled(s, e)
    ensures ReadInv(Step(s, e))
  {
    match e {
      case Fork => ReadsFork(s);
      case WaitTrue => ReadsWait(s);
      case ChildCloses(_) => ReadsChildStep(s, e);
      case ChildReady(_) => ReadsChildStep(s, e);
      case ChildExits(_) => ReadsChildStep(s, e);
      case OpenPipes => AllStarted(s); ReadsOpen(s, e);
      case OpenFails(_) => AllStarted(s); ReadsOpen(s, e);
      case _ => ReadsClose(s, e);
    }
  }

  lemma {:induction false} TraceReads(trace: seq<State>, es: seq<Event>, k: nat)
    requires IsTrace(trace, es) && trace[0] == START && k <= |es|
    ensures Inv(trace[k]) && ReadInv(trace[k])
  {
    TraceInv(trace, es, k);
    if k > 0 {
      TraceReads(trace, es, k - 1);
      ReadsStep(trace[k - 1], es[k - 1]);
    }
  }

  /**
   * Over every fork sequence: a worker that has run child_init can read its orders and not its own signals; while the
   * server waits it can read the worker's signals and not its orders; and once that wait is over, nobody but the worker
   * can read its orders, and nobody at all its signals.
   */
  lemma ReadEnds(trace: seq<State>, es: seq<Event>, i: nat)
    requires IsTrace(trace, es) && trace[0] == START && i in trace[|es|].children
    ensures var s := trace[|es|]; var c := s.children[i];
      && (c.inited && !c.exited ==> End(ToWorker(i), false) in c.ends && End(FromWorker(i), false) !in c.ends)
      && (s.phase == Waiting ==>
            End(FromWorker(s.cur), false) in s.server && End(ToWorker(s.cur), false) !in s.server)
      && (i != s.cur || s.phase == Waiting ==>
            End(ToWorker(i), false) !in s.server
            && forall j :: j in s.children && j != i ==> End(ToWorker(i), false) !in s.children[j].ends)
      && (i in s.confirmed ==> !Holds(s, End(FromWorker(i), false)))
  {
    TraceReads(trace, es, |es|);
    var s := trace[|es|];
    assert ChildOk(s, i);
    forall j | j in s.children ensures ReadsOk(s.children[j], j, s.children.Keys, s.confirmed) {}
  }

  /**
   * Orders end for worker `j` (its next read is an end of file, "parent has gone down") exactly when the server is
   * gone and so is every worker started after it, because those hold copies of the pipe.
   */
  lemma OrphanNotice(trace: seq<State>, es: seq<Event>, j: nat)
    requires IsTrace(trace, es) && trace[0] == START
    requires var s := trace[|es|]; j in s.children && s.children[j].inited
    ensures var s := trace[|es|];
      !Holds(s, End(ToWorker(j), true)) <==>
        s.phase == Gone && forall i :: i in s.children && i > j ==> s.children[i].exited
  {
    TraceInv(trace, es, |es|);
    var s, w := trace[|es|], End(ToWorker(j), true);
    assert ChildOk(s, j);
    forall i | i in s.children ensures w in s.children[i].ends <==> i > j && !s.children[i].exited {
      assert ChildOk(s, i);
    }
  }
}
