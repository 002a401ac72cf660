# workq: a verified model of the job queue

A Dafny model of the `workq` job server and proofs about it. Web clients insert rows into a `jobs`
table; a server process wakes worker processes through pipes; the threads of the workers claim rows
with one conditional `UPDATE`, run them and write the result. Nothing but the status and lock columns
coordinates the threads, so the main results hold over every run of a state machine that interleaves
any number of threads, with every statement allowed to fail.

`dafny verify dfyconfig.toml` checks everything.

| file | content |
|---|---|
| `Ids.dfy`, `Sums.dfy`, `Options.dfy` | sorted id sets (`ORDER BY id LIMIT n`), sums, optional values |
| `LockIds.dfy` | the text of a lock id, its truncation, its comparison with a number |
| `JobTable.dfy` | the table and the meaning of each SQL statement |
| `Protocol.dfy` | the claim protocol: events, `Enabled`, `Step`, runs |
| `Invariant.dfy`, `Preservation.dfy` | what every event keeps |
| `Safety.dfy`, `Fifo.dfy`, `Shutdown.dfy` | results about whole runs of the protocol |
| `Effects.dfy` | what each event does to rows, queues and flags, and over whole runs |
| `Exclusion.dfy`, `Reuse.dfy` | exclusion and at-most-once execution without the assumption that lock ids are fresh |
| `Shared.dfy` | the shared state as an object, its atomic accesses, and interference between them |
| `WorkQueue.dfy` | `find_jobs` and `run` as imperative code under interference |
| `Dispatch.dfy`, `WorkerProcess.dfy` | `Worker::schedule`, `on_io_work`, `shutdown` under interference |
| `RoundRobin.dfy`, `Server.dfy` | the server's callbacks, wake-ups and back-off |
| `Pipeline.dfy`, `Recovery.dfy` | server, pipes, workers and protocol composed; conservation and recovery |
| `Rest.dfy` | rest is always reached, so recovery does not assume it |
| `Conformance.dfy` | the imperative code of server and workers against the events of the pipeline |
| `Settings.dfy` | the settings loader |
| `Startup.dfy` | pipes, forks and the start-up barrier |

## How it is modelled

- A step of the protocol is one SQL statement (autocommit), one queue operation or one local decision.
  Failed statements, NULL creators, job results and the clock are carried by the events.
  `Protocol.State` also records history (`used`, `fate`, `created`, `executed`, and `lost` per
  thread); no guard reads it apart from the freshness of a lock id.
- Clients insert rows as `pending` with an empty lock and with ids above all ids in the table.
- A claim uses a lock text that no earlier claim used. `LockIds.TextIdentifiesCall` says exactly which
  stamps can share a stored text because of the 40-byte buffer. Exclusion between threads does not need
  this: `Exclusion.ExclusiveAnyway` proves it for runs in which texts may repeat. For at-most-once
  execution `Reuse.dfy` says exactly what a repeated text can do.
- `m_pending` is taken to be 0 at the start; the constructor leaves it unset.
- The imperative code in `WorkQueue.dfy` and `WorkerProcess.dfy` shares one object with everyone else.
  Before each statement, the claiming `UPDATE` included, each queue operation and each access to a counter
  or flag it calls `Others`, of which only the contract is known: any run of steps of anyone else. Local
  decisions (the ends of the two row loops) come without.
  The contracts list the steps the code itself took, event by event, so a body that skips one fails.
- `log10` is any strictly increasing function with value 0 at 1; durations are reals.

What the proofs bring out:

- `Worker::schedule` is commented as choosing the least busy thread. It keeps the largest count above
  10, else index 0. `Dispatch.LeastBusyExactly` says when the comment is true all the same. From the start
  of a process only its first thread ever gets work (`Recovery.OnlyFirstThreadsWork`), so in a worker with
  more threads the comment is true exactly while nothing is pending (`Recovery.LeastBusyInRuns`).
- Rows can be stranded in `loading` or `processing` for good. `Safety.StrandedExactly` names the events
  that do it, `Safety.Classification` what each leaves behind, and `Safety.DeadForever` shows that
  nothing in the system touches such a row again.
- Units a batch asked for and did not get stay in `m_pending` (`Safety.PendingLedger`).
- A top-level scalar below the environment's section is loaded as a setting and wins over the section;
  `SettingsLoader.StrayScalars` says exactly when that changes anything.
- With pids of seven digits, which today's kernels hand out, lock ids lose the last digits of the
  microseconds (`LockIds.LongPidCollides`); with five digits they never do (`LockIds.NoAmbiguity`).
- Each worker holds copies of the order pipes of the workers started before it, so a worker notices the
  loss of its parent only after all later workers are gone (`Startup.OrphanNotice`).

## Model

| member | source | states |
|---|---|---|
| LockIds.TextExactly | workq/worker.cc:309-315 | the stored lock id is pid, address, seconds and microseconds joined with colons, whole up to 39 characters and otherwise its first 39 |
| LockIds.DecDigits | workq/worker.cc:315 | numbers are written in decimal, most significant digit first, with a sign in front of a negative one |
| LockIds.TextIdentifiesCall | workq/worker.cc:309-315 | a stored lock id names one call of `find_jobs` if and only if the whole text has fewer than 39 characters, or 39 of them with microseconds that are 0 or have six digits |
| LockIds.NoAmbiguity | workq/worker.cc:309-315 | with at most five digits of pid, 15 of address and ten of seconds every call has its own text |
| LockIds.LongPidCollides | workq/worker.cc:309-315 | with a seven-digit pid, a 15-digit address, ten-digit seconds and six-digit microseconds another call of the thread in the same second has the same text |
| LockIds.LockIdIsNotZero | workq/worker.h:23 | no lock id is empty and none equals 0 in MySQL's numeric comparison, while the empty lock does |
| LockIds.NumberIsPid | workq/worker.h:23 | compared with a number a lock id counts as the pid in front of it |
| JobTable.ApplyClaim | workq/worker.cc:320-324 | the claiming UPDATE: the lowest claimable ids up to the workload, and only those, become loading under the lock |
| JobTable.Lowest | workq/worker.cc:329-330 | `ORDER BY id LIMIT n`: the ascending prefix of the selected ids |
| JobTable.ClaimExactly | workq/worker.cc:320-324 | a row becomes loading under the lock if and only if it is pending and unlocked with fewer than `workload` such rows below it; no other column and no other row changes |
| JobTable.SelectExactly | workq/worker.cc:329-330 | the SELECT gives, ascending, the rows loading under the lock with fewer than `workload` such rows below them |
| JobTable.UpdatesExactly | workq/worker.cc:334-427 | which columns of which rows the releasing, marking and resolving UPDATEs write |
| Effects.RowsExactly | workq/worker.cc:320-431 | which statement each event sends to the table, and that no other event touches it |
| Effects.ResultRecorded | workq/worker.cc:418-427 | once the statement with its result has worked, a job's row says complete after a success and error after a failure, unlocked, for good |
| Effects.QueueLaw | workq/worker.cc:268-277 | over any run, the messages a thread popped followed by those still queued are the initial ones followed by those pushed to it, in order |
| Effects.QueueExactly | workq/worker.cc:268-277 | send_work appends a unit to its own thread's queue, send_stop a stop message, a pop takes the first, and nothing else changes a queue |
| Effects.TestExactly | workq/worker.cc:391 | a thread leaves its loop exactly if it finds m_active cleared |
| Effects.StopWakes | workq/worker.cc:399-401 | once m_active is cleared, a thread still waiting has every stop message sent since in its queue, so its wait cannot time out |
| Effects.ActiveExactly | workq/worker.cc:485-486 | over any run a process is active if and only if it was at the start and was not told to stop |
| Preservation.StepKeeps | workq/worker.cc:307-437 | every event of every thread, failing or not, keeps the invariant over table, threads, counters and history |
| Preservation.ReachableInv | workq/worker.cc:307-437 | the invariant holds in every reachable state under every interleaving |
| Preservation.SelectsClaimed | workq/worker.cc:329-330 | the SELECT reads back exactly the rows its own UPDATE locked, in ascending order, whatever happened in between |
| Safety.MutualExclusion | workq/worker.cc:320-361 | no row is in the hands of two threads, and a row with a live job is loading or processing under its thread's non-empty lock |
| Exclusion.ExclusiveAnyway | workq/worker.cc:309-335 | the same without fresh lock ids: even if texts repeat, no row is in the hands of two threads, and a row with a live job is in progress under a lock its own thread stamped |
| Reuse.OnceUnlessReread | workq/worker.cc:309-335 | over runs whose lock texts may repeat, no job is executed twice unless some SELECT reads back an executed row of a registered type |
| Reuse.LoadingUntilUpdated | workq/worker.cc:340-376 | from its claim on a row reads loading, and can be read back, if and only if no UPDATE of it has worked since |
| Reuse.RereadRunsAgain | workq/worker.cc:329-431 | such a SELECT does lead to a second execution: with creators and statements working, the thread's own next steps run the row again |
| LockIds.TextIdentifiesOwner | workq/worker.cc:309-315 | truncated or not, equal lock ids come from the same thread of the same process, if pid and address fit |
| LockIds.MachineWidthsFit | workq/worker.cc:309-315 | with a 32-bit pid and a 64-bit address they do |
| LockIds.MachineOwner | workq/worker.cc:309-315 | so for a 32-bit pid and a 64-bit address equal lock ids come from the same thread of the same process |
| Safety.NeverPendingAgain | workq/worker.cc:320-376 | over any run no row disappears, changes its name or returns to pending |
| Safety.AtMostOnce | workq/worker.cc:415-431 | two executions in one run are never of the same job, failed statements included |
| Safety.Classification | workq/worker.cc:331-375 | a row nobody holds is pending, finished and unlocked, or stranded; stranded if and only if still loading or processing, with the columns its reason leaves: after a failed SELECT or a NULL creator the outcome of the release, the discard and the mark fix status and lock |
| Safety.StrandedExactly | workq/worker.cc:331-375 | row by row: a row is stranded for a reason if and only if it was so at the start or one of the listed events stranded that row for that reason |
| Safety.StrandedSet | workq/worker.cc:331-375 | a run adds stranded rows if and only if it contains one of the listed events |
| Safety.DeadForever | workq/worker.cc:320-376 | finished and stranded rows are never changed again in any column |
| Safety.QuiescentRows | workq/worker.cc:415-431 | a row that no thread holds is claimable or ends complete or error with an empty lock if and only if it was not stranded at the start and no event stranded it, whatever became of other rows |
| Safety.PollIsClaimable | workq/worker.h:23 | on rows locked by lock ids or not at all, the numeric comparison in the count query selects exactly the unlocked pending rows |
| Safety.PollAgreesWithClaim | workq/worker.h:23 | in every reachable state the poll counts something if and only if a claim of at least 1 would take something |
| Safety.PendingLedger | workq/worker.cc:268-272 | m_pending is the units sent minus the jobs finished, which is queued work plus work being sent plus the current batch plus lost units; never below the queued work |
| Fifo.QueueStep | workq/worker.cc:320-324 | each event is one operation of an abstract queue: insert appends, a claim removes the first `workload` entries or all, nothing else changes it |
| Fifo.FirstInFirstOut | workq/worker.cc:320-324 | over any run the ids claimed in claim order followed by the waiting ids are the initial waiting ids followed by the inserted ones |
| Fifo.ClaimedOnce | workq/worker.cc:320-324 | over any run the ids claimed and then waiting are strictly increasing, so claimed ids lie below every waiting id and none is claimed twice |
| Fifo.DrainLaw | workq/worker.cc:399-411 | with no inserts exactly max(0, n - W) rows stay pending, W the sum of the workloads of the successful claims |
| Shutdown.AtMostOneMoreBatch | workq/worker.cc:391-412 | after m_active is cleared a thread claims at most once more |
| Shutdown.ExitBound | workq/worker.cc:482-495 | without further messages the thread takes a bounded number of its own steps before it exits |
| Shutdown.NeverStuck | workq/worker.cc:257-262 | a thread that has not exited always has a step, so the join returns |
| Shutdown.NoJobAbandoned | workq/worker.cc:415-431 | when all threads have exited no row is in hand, and exactly the jobs built have been executed, each finished unless its result statement failed |
| WorkQueues.WorkQueue.FindJobs | workq/worker.cc:307-382 | under interference before every statement: at the point where the claiming UPDATE takes effect, the rows found are exactly the lowest waiting rows up to the workload, in order; the jobs are those of a registered type whose creator returned one; the steps taken are exactly those of the branch taken; without a result nothing stays in hand |
| WorkQueues.WorkQueue.FindEventsAre | workq/worker.cc:320-335 | the thread's steps in a call, for each way the call can go |
| WorkQueues.WorkQueue.ReadRow | workq/worker.cc:340-376 | once round the row loop: which of the two UPDATEs are sent, by type, creator and setting, what they make of the row's status and lock, and that the row becomes the next job exactly when a job was made |
| SharedState.OthersKeepRow | workq/worker.cc:320-361 | whatever the others do, they never change a row that a thread holds |
| SharedState.ExtendsMeans | workq/worker.cc:307-437 | what the contracts of the imperative code say: since the call the actor's steps are those listed, in that order, and no others |
| WorkQueues.WorkQueue.RunBatch | workq/worker.cc:415-432 | the jobs are executed and recorded one after the other; when the thread is back at its main loop each has been executed, and each whose UPDATE worked says complete or error, by its result, without a lock |
| WorkQueues.WorkQueue.JobEventsAt | workq/worker.cc:415-431 | job number k of a batch is executed and recorded by the thread's steps 2k and 2k + 1 |
| WorkQueues.WorkQueue.Drain | workq/worker.cc:394-409 | the workload is the number of work messages popped, until the queue is found empty; a stop message discards it; nothing else ends the drain but more than `patience` messages |
| WorkQueues.WorkQueue.Run | workq/worker.cc:384-437 | the thread's steps are exactly one test of m_active and one pass per clock reading; it leaves exactly at a test that finds m_active cleared, holding no row, and otherwise only when the clock readings or the patience run out |
| WorkQueues.WorkQueue.TestsInRun | workq/worker.cc:391 | m_active is tested once for each pass |
| Dispatch.SelectedIsBusiest | workq/worker.cc:206-232 | the scan picks index 0 when no count exceeds 10, else the first position of the greatest count |
| Dispatch.AboveTen | workq/worker.cc:216-226 | the same with the threshold 10 written out, at 10 and 11 |
| Dispatch.LeastBusyExactly | workq/worker.cc:208-231 | the thread picked is a least busy one if and only if all counts are equal, when some count exceeds 10, or thread 0 is a least busy one, when none does |
| Dispatch.BusierChosen | workq/worker.cc:208-231 | two inputs, past the threshold and below it, on which a busier thread is picked |
| Recovery.LeastBusyInRuns | workq/worker.cc:208-231 | in every run the thread picked is a least busy one if and only if the worker has one thread or its first thread has nothing pending |
| WorkerProcesses.Worker.Scan | workq/worker.cc:216-226 | the loop picks that thread, going by counters read one by one while the threads change them |
| WorkerProcesses.Worker.Schedule | workq/worker.cc:206-232 | one unit, in the two steps of send_work, to the thread the scan picks |
| WorkerProcesses.Worker.OnIoWork | workq/worker.cc:180-199 | under interference: exactly as many send_work calls as bytes were read, each for the thread the scan picks; at end of file or on an error one call and a shutdown |
| WorkerProcesses.Worker.CallsEventsAt | workq/worker.cc:268-272 | call number k raises m_pending and then pushes, both for the thread chosen for it |
| WorkerProcesses.Worker.Shutdown | workq/worker.cc:482-495 | m_active is cleared and then every thread, in order, sent exactly one stop message; from then on no thread waits without one; when the joins have returned all threads have exited, and every job they had in hand at any point of the run has been executed and its row is finished unless its result statement failed |
| WorkerProcesses.ExitedFinishes | workq/worker.cc:415-431 | a thread that exits has executed every job it ever had in hand, and each row is finished unless its result statement failed |
| Pipeline.DoKeeps | workq/server.cc:222-253 | every event of server, pipes, workers and threads keeps the balance of bytes and calls, the round-robin position and the idleness of all but the first threads |
| Conformance.ProjectedRun | workq/worker.cc:180-437 | the protocol part of every pipeline run is a run of the claim protocol |
| Conformance.CallbacksConform | workq/worker.cc:180-199 | back in its event loop, a worker's callbacks have made exactly the calls that the code of `on_io_work` makes, one per byte read |
| Conformance.Tick | workq/server.cc:157-188 | the server's code and the poll event of the pipeline have the same effect on pipes and next worker, with the count taken from the table |
| Conformance.Datagram | workq/server.cc:137-151 | the same for a datagram |
| Conformance.OthersAgree | workq/server.cc:222-253 | no other event changes the next worker, and only a read changes a pipe |
| Recovery.WakesExactly | workq/server.cc:137-188 | a datagram wakes a worker if and only if it was received, a poll if and only if the query worked and an unlocked pending row exists |
| Recovery.ReadsExactly | workq/worker.cc:182-187 | a read takes at least one and at most 80 of the bytes in the pipe |
| Recovery.SignalConservation | workq/worker.cc:180-199 | however reads split the stream, send_work calls plus bytes in the pipe are twice the successful wake-ups, with one extra call only after end of file or a read error |
| Recovery.OnlyFirstThreadsWork | workq/worker.cc:206-232 | in every run all threads but the first of each worker never get, claim or hold anything |
| Recovery.RoundRobin | workq/server.cc:222-253 | after k calls m_last_worker is k mod n and worker w was chosen (k + n - 1 - w) div n times |
| Recovery.RoundRobinFair | workq/server.cc:222-253 | no worker is ever chosen more than once more often than another |
| Recovery.HealthyStep | workq/server.cc:232-246 | units under way change only by +2 for a wake-up and by minus the workload of a claim |
| Recovery.WakeUpsDrain | workq/server.cc:222-253 | from rest to rest k wake-ups leave exactly max(0, n - 2k) rows pending, however they are split and batched |
| Recovery.PollingRecovers | workq/server.cc:157-188 | without inserts or failures, idle ticks numbering at least half the waiting rows leave none at rest, wherever they fall |
| Rest.ServingCloser | workq/worker.cc:180-199 | a distance from rest: every productive event of server, pipes, callbacks and threads lowers it, idling leaves it, a wake-up adds a constant |
| Rest.EffortBound | workq/worker.cc:384-437 | a run has only so many productive events unless the server wakes more workers |
| Rest.Progress | workq/worker.cc:384-437 | before rest some productive event can always happen |
| Rest.ReachesRest | workq/server.cc:157-188 | from any point of a run productive events alone lead to rest |
| Rest.NothingLeftToDo | workq/server.cc:157-188 | after ticks numbering half the waiting rows, a run with nothing productive left to do has claimed them all; rest is not assumed |
| Rest.RecoversFromStart | workq/server.cc:157-188 | the same for runs from a fresh start with all processes active |
| Rest.AlwaysRecovers | workq/server.cc:157-188 | after that many ticks every run can go on, without another one, to a state in which no row waits |
| Servers.IncreaseFar | workq/server.cc:189-205 | while d + 1 < max, max^2 - d^2 exceeds max, so a tick gains more than log10(max) or reaches max |
| Servers.BackoffRange | workq/server.cc:189-205 | empty ticks never lower the duration and never pass max |
| Servers.BackoffConverges | workq/server.cc:189-205 | for 0 <= d < max, ceil((max - d) / log10(max)) empty ticks reach exactly max, one tick when max <= 1, and later ticks stay there |
| Servers.TickExactly | workq/server.cc:189-205 | one empty tick adds the absolute value of log10(max^2 - d^2), or goes to the maximum when that comes within one unit of it; from the maximum on nothing changes |
| Servers.BackoffExactly | workq/server.cc:189-205 | n empty ticks stay below max - 1 if and only if start plus gains does, and then end exactly there |
| Servers.TotalGainIs | workq/server.cc:189-205 | those gains, tick by tick |
| Servers.NotReachedEarly | workq/server.cc:189-205 | no tick gains more than log10(max^2), so a far maximum takes its number of ticks |
| Servers.DurationRange | workq/server.cc:137-205 | over every sequence of callbacks the duration stays between min and the larger of min and max |
| Servers.AfterCallback | workq/server.cc:137-188 | after any callbacks a datagram or a positive count sets the duration to the minimum, a result without a row leaves it, a count of 0 or a failed query lengthens it by one step |
| Servers.SinceReset | workq/server.cc:137-188 | at any time the duration is the minimum with the empty-tick step applied as often as polls have found nothing since the last reset |
| Servers.QuietRunConverges | workq/server.cc:177-187 | after any run, enough polls in a row that find nothing bring the duration to max |
| Servers.Server.IdleJobcheck | workq/server.cc:157-188 | for each outcome of the count query: new duration, armed interval, bytes in the pipes and next worker |
| Servers.Server.OnConnect | workq/server.cc:137-151 | a datagram sets duration and armed interval to the minimum, and wakes the next worker if it was received |
| Servers.Server.IncreaseTimeout | workq/server.cc:189-205 | the new duration written out, and the timer rearmed to it |
| Servers.Server.Schedule | workq/server.cc:222-253 | two bytes to the current worker if the write works, then the next worker in any case |
| SettingsLoader.RoundTrip | workq/settings.cc:60-114 | flattening a document of sections and loading it gives the right-biased merge of the environment's sections |
| SettingsLoader.MergeLookup | workq/settings.cc:60-114 | what the merge is: a key has the value of its last mention in the last section of the environment that mentions it, and is missing if none does |
| SettingsLoader.CTextIs | workq/settings.cc:83-85 | keys and values end at the first NUL |
| SettingsLoader.LoadsAbsorbed | workq/settings.cc:60-114 | for documents with top-level scalars as well, exactly the merge in which such a scalar belongs to the section above it |
| SettingsLoader.StrayScalars | workq/settings.cc:80-105 | the loader gives the merge of the sections overridden by the scalars below them that no later section redefines; that is the intended table if and only if each of these repeats a setting with its value, and has the intended keys if and only if every scalar below an environment section repeats a key |
| SettingsLoader.StrayScalarIsLoaded | workq/settings.cc:80-105 | a concrete family of documents: a section and a scalar below it load as the section with the scalar set over it |
| SettingsLoader.Settings.LoadFromFile | workq/settings.cc:38-120 | the event loop computes the automaton's table up to the end of the stream or a parser failure, reports success unless the file cannot be opened, and leaves the readers' table alone |
| SettingsLoader.SeenUnended | workq/settings.cc:61-63 | if the parser fails before the end of the stream, all it delivered counts |
| SettingsLoader.SeenAll | workq/settings.cc:66-70 | otherwise everything up to the end of the stream, and nothing behind it |
| SettingsLoader.Settings.Commit | workq/settings.cc:235-240 | the loaded table becomes the readers' table and the loaded one is empty |
| SettingsLoader.LoadAndCommit | workqd.cc:187-197 | readers see the merge exactly if the file could be opened and verification passed, and what they saw before otherwise |
| Startup.BarrierExact | workq/channel.cc:42-53 | while the server waits, its read sees end of file if and only if the worker has closed its start-up pipe or exited |
| Startup.StartupBarrier | workq/server.cc:80-132 | over every fork sequence a wait can succeed exactly then, and every worker counted as started is in that state |
| Startup.OrphanNotice | workq/worker.cc:187-193 | a worker's order pipe ends if and only if the server and every worker forked after it are gone |
| Startup.ServerExactly | workq/server.cc:80-132 | each step of `start_worker`: the descriptors the server opens and closes, which worker is next and which counts as started |
| Startup.ChildrenExactly | workq/channel.cc:26-33 | a fork copies the server's descriptors; each child then closes only its own, at child_init, when ready and at exit |
| Startup.ReadEnds | workq/channel.cc:26-53 | over every fork sequence: a worker past child_init can read its orders and not its signals; the waiting server the other way round; after the wait nobody but the worker can read its orders and nobody its signals |
| Startup.WorkerChannel.Open | workq/channel.cc:22-25 | both pipes are opened, or the first failure is reported with what it leaves open |
| Startup.WorkerChannel.ChildInit | workq/channel.cc:26-33 | the child closes the write end of its orders and the read end of its signals |
| Startup.WorkerChannel.ParentInit | workq/channel.cc:34-41 | the server closes the other two ends |
| Startup.WorkerChannel.WaitForChildInit | workq/channel.cc:42-53 | true unless the read failed, and then the read end is closed |

## Left out

- WorkQueues.WorkQueue.Run: followed for as many rounds as clock readings are given, and a drain for at most `patience` messages, because the loops have no bound of their own; the protocol's runs have none.
- SharedState.Shared.Others: its body takes no step; callers rely on its contract only, which allows any run of the others' steps.
- WorkerProcesses.Worker.Shutdown: waits for the threads at most `patience` times; `Shutdown.ExitBound` and `Shutdown.NeverStuck` bound what a thread has left to do.
- Rest.ReachesRest: given enough clock readings with unused lock texts, in processes that stay active; that a thread able to go on is eventually scheduled is left to the operating system.
- Shutdown.NeverStuck: job code is assumed to return; nothing is said about a job that hangs.
- Lock ids that do collide: `LockIds` says when they can, `Exclusion` and `Reuse` what then still holds; reading back exactly the claimed rows, the counters and the recovery results assume they do not.
- The 32-bit width of m_pending and of `count` in the settings loader.
- The decrement of m_pending is one step with the UPDATE of the same job; no other thread reads it in between except the scan, which only ever sees it for thread 0.
- Delivery of read callbacks and signals by libev, signal handling, sockets, daemonizing, pid and log files: only the callbacks, as events.
- A full pipe that blocks the server, and partial writes (a two-byte write to a pipe is atomic).
- The MySQL client, reconnects, column decoding and adaptor registry: statements are atomic and either work or fail without effect.
- Rows inserted with other columns or ids below existing ones, and rows deleted or reset by hand.
- `Settings::verify`, whose flag the last key decides (its answer is a parameter of `LoadAndCommit`), the numeric getters (`atoi`, `atof`), YAML tokenising, nested values, sequences and aliases.
- Job modules and child processes: execution is an arbitrary success or failure.
- Worker restart, which the server does not do, and killed workers in the protocol; their rows would stay as the statements so far left them.
- json, webviz, packaging and build files.
