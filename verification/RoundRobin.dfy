/** The server's choice of the worker to wake. */
module RoundRobin {

  const MESSAGE := 2   // sizeof(msg)

  /** `++m_last_worker`, back to 0 at the end. */
  function NextWorker(last: nat, workers: nat): nat {
    if last + 1 >= workers then 0 else last + 1
  }

  /** The pipe of worker `last` after the write, if that worked. */
  function WritePipe(pipes: seq<nat>, last: nat, written: bool): seq<nat>
    requires last < |pipes|
  {
    if written then pipes[last := pipes[last] + MESSAGE] else pipes
  }
}
