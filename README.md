# Worker core of a single-node container orchestrator, in Dafny

This project models the worker of a small container orchestrator written in
Go. The worker keeps a FIFO queue of task snapshots and a registry (`Db`)
from task id to the latest task record. Each step dequeues one snapshot,
checks the requested state change against a fixed five-state transition table,
and starts or stops the task's container through a Docker adapter. The outcome
is written back to the registry. Beside this loop, a telemetry collector reads
memory, disk, CPU and load figures from the host and derives a few statistics.

Modules:

- `Tasks` (`task.dfy`): the lifecycle states, the transition table
  `StateTransitionMap`, `Contains` and `ValidStateTransition`, and the task and
  config records. It also holds `NewConfig`, the restart-policy stub `Convert`,
  and the `DockerResult` record.
- `DockerRuntime` (`docker.dfy`): the adapter's `Run` (pull, create, start,
  attach to logs) and `Stop` (stop, remove). The engine is an `Engine` value
  that says, call by call, whether the call fails and with what message, and
  which id a create returns. Each method returns its result together with the
  calls it made. Both are proved against a generic short-circuit
  specification (`Attempted`, `FirstFailure`, `Conclude`).
- `Workers` (`worker.dfy`): class `Worker`, with fields `queue: seq<Task>`
  and `db: map<TaskId, Task>`, and the methods `AddTask`, `RunTask`,
  `StartTask`, `StopTask` and `ListTasks`. `Process` and `StepCalls` specify one `RunTask`
  step on values and `Drain` specifies a run of steps. Lemmas state what a
  step does to the registry.
- `HostStats` (`stats.dfy`): the memory, disk and CPU accessors, with uint64
  wrap-around written out and CPU usage given as an integer ratio. It also
  holds `GetStats`, whose four providers are inputs (a reading, or `None`
  when the read failed).

Three behaviours of the code are worth stating up front:

- On a failed start the registry keeps the queued snapshot's container id;
  nothing clears it (worker/worker.go:72-76). When only the log attach fails,
  the container the engine created and started is left running, and no
  record names it (`StartLeavesOrphan`).
- A snapshot whose id is not yet in the registry is stored first. Its move
  is then checked against the snapshot itself (worker/worker.go:43-49). So a
  new `Scheduled` snapshot is started, and a new `Running` snapshot gets the
  "no handler" error. A new `Pending`, `Completed` or `Failed` snapshot is
  refused, and it stays stored.
- No step leaves a `Scheduled` record in the registry: a first-seen
  `Scheduled` snapshot is stored as it is (worker/worker.go:46), but the start
  then overwrites it with `Running` or `Failed` (`ProcessNeverStoresScheduled`).
  The `Scheduled` row of the table (task/task.go:32) is consulted only for a
  first-seen `Scheduled` snapshot, and then only for Scheduled to Scheduled
  (`FirstSeenScheduled`). So a move from `Scheduled` to `Running` or `Failed`
  is never taken. The worker's class invariant `Valid()` carries the first
  fact together with "every record is filed under its own id"; `StartTask`
  and `StopTask` need it only outside the entry they overwrite
  (`ValidOutside`), since a step calls them after its first write.

## Model

| member | source | states |
|---|---|---|
| `Tasks.Contains` | task/task.go:38-46 | returns true exactly when the state occurs in the slice |
| `Tasks.ValidStateTransition` | task/task.go:48-50 | true exactly when the destination is in the source's table row |
| `Tasks.TransitionTable` | task/task.go:30-36 | lists every legal pair: Pending to Scheduled; Scheduled to Scheduled, Running or Failed; Running to Running, Completed or Failed; nothing else |
| `Tasks.TerminalStatesHaveNoExit` | task/task.go:34-35 | no move out of Completed or Failed is valid, whatever the destination |
| `Tasks.PendingOnlyToScheduled` | task/task.go:31 | from Pending, Scheduled is the only valid destination, so Pending to Pending is refused |
| `Tasks.SelfTransitions` | task/task.go:31-35 | a self-move is valid exactly for Scheduled and Running |
| `Tasks.NewConfig` | task/task.go:68-75 | copies name and image; cpu, memory, disk, env, exposed ports, command, restart policy and runtime are zero or empty, whatever the task holds |
| `Tasks.NewConfigSeesOnlyNameAndImage` | task/task.go:68-75 | two tasks with the same name and image give the same config |
| `Tasks.Convert` | task/task.go:112-116 | every restart-policy string maps to the "always" mode |
| `DockerRuntime.NewDocker` | task/task.go:100-108 | the adapter carries exactly the config it was built from and the given engine client |
| `DockerRuntime.AttemptedShortCircuits` | task/task.go:138-184 | the calls made are a prefix of the plan; all but the last succeeded; the plan is completed exactly when no call fails; otherwise the last call made is the one whose error is reported |
| `DockerRuntime.Run` | task/task.go:134-189 | makes pull, create, start and log-attach in that order and stops at the first failure; the create call carries the image, env, exposed ports, the "always" restart policy, the memory limit and publish-all-ports; start and logs use the created id |
| `DockerRuntime.RunResultCases` | task/task.go:138-188 | a start succeeds exactly when all four calls do, with container id = the created id, action "start", result "success"; otherwise the error is the first failing call's, including a log-attach failure after a successful start, and id, action and result are empty |
| `DockerRuntime.Stop` | task/task.go:191-213 | calls stop, then remove with volumes removed, links kept and no force; a failed stop skips the remove |
| `DockerRuntime.StopResultCases` | task/task.go:196-212 | a failed stop is reported and nothing else is called; a failed remove is reported; on success the id is the given one and the action is "stop" |
| `Workers.Worker.constructor` | main.go:19-22 | a new worker has an empty queue and an empty registry |
| `Workers.Worker.AddTask` | worker/worker.go:104-106 | the snapshot is appended at the tail; the earlier elements keep their order; the registry is untouched |
| `Workers.Worker.RunTask` | worker/worker.go:31-63 | on an empty queue nothing changes, no engine call is made and there is no error; otherwise the head is removed, the registry and result are those of `Process` and the engine calls are those of `StepCalls`; keeps the class invariant |
| `Workers.Worker.StartTask` | worker/worker.go:65-84 | returns the adapter's start result and makes exactly the adapter's short-circuited start calls; writes only the task's entry: the snapshot with start time set, and either Failed or Running in the created container; restores the class invariant whatever that entry held before |
| `Workers.Worker.StopTask` | worker/worker.go:86-102 | returns the adapter's stop result unchanged and makes exactly the adapter's short-circuited stop calls; writes only the task's entry: the snapshot with finish time set and state Completed, whether or not the stop succeeded; restores the class invariant whatever that entry held before |
| `Workers.Worker.ListTasks` | worker/worker.go:108-116 | returns one copy of each registry record: as many records as entries, every record listed is a stored one and every stored record is listed; in the visiting order, each id is visited once and its record is the stored one |
| `Workers.RequestStart` | worker/handlers.go:13-34 | the task carried by a start event joins the tail of the queue as it is |
| `Workers.RequestStop` | worker/handlers.go:67-82 | an unknown id is reported and nothing is queued; a known id enqueues a copy of its record with state Completed |
| `Workers.Tick` | main.go:37-44 | one loop tick runs one step exactly when the queue is not empty |
| `Workers.ProcessWritesOnlyItsEntry` | worker/worker.go:43-47 | a step writes only the dequeued id's entry, and that entry exists afterwards |
| `Workers.ProcessKeepsKeyedById` | worker/worker.go:43-101 | if every record is stored under its own id before a step, the same holds after it |
| `Workers.ProcessNeverStoresScheduled` | worker/worker.go:43-101 | if no record is Scheduled before a step, none is after it |
| `Workers.StepCallsNone` | worker/worker.go:49-60 | a refused move and an allowed move with no handler make no engine call; a step that calls the engine made an allowed move to Scheduled or Completed |
| `Workers.StartLeavesOrphan` | worker/worker.go:65-77 | when pull, create and start succeed but the log attach fails, the created container was started, yet the record is Failed and keeps the snapshot's own container id |
| `Workers.FirstSeenScheduled` | worker/worker.go:43-52 | a first-seen Scheduled snapshot is checked against itself, so the table's Scheduled row is read for Scheduled to Scheduled, and the step starts it |
| `Workers.ProcessNewId` | worker/worker.go:43-59 | a new id is stored before validation; new Pending, Completed or Failed snapshots stay stored and are refused; a new Running one stays stored with no handler; a new Scheduled one ends Running or Failed |
| `Workers.ProcessRefused` | worker/worker.go:49-60 | a move the table refuses leaves the registry as it was; the error names both states |
| `Workers.ProcessTerminalIsFinal` | worker/worker.go:49-60 | a record in Completed or Failed is never changed by a step |
| `Workers.ProcessUnhandled` | worker/worker.go:50-57 | a valid move to anything but Scheduled or Completed runs no handler and reports it; the registry only gets the first-write entry |
| `Workers.ProcessStart` | worker/worker.go:65-84 | a valid move to Scheduled sets the start time; a failure leaves the snapshot Failed, with its own container id; a success leaves it Running in the engine's container |
| `Workers.ProcessStop` | worker/worker.go:86-102 | a valid move to Completed stores the snapshot as Completed with its finish time set, whatever the stop returned |
| `Workers.DrainKeys` | worker/worker.go:31-63 | after draining a queue, the registry's ids are the old ids plus the ids of the drained snapshots: none lost, none invented |
| `Workers.DrainSize` | worker/worker.go:31-63 | draining a queue into an empty registry leaves exactly one entry per distinct id in the queue |
| `Workers.DrainTerminalIsFinal` | worker/worker.go:49-60 | a record in a terminal state survives any sequence of steps unchanged |
| `HostStats.MemTotalKb` | worker/stats.go:18-20 | the snapshot's total memory; after a collection, the provider's figure, or 0 when /proc/meminfo could not be read (`GetStats` states it) |
| `HostStats.MemAvailableKb` | worker/stats.go:22-24 | the snapshot's available memory; after a collection, the provider's figure, or 0 when the read failed (`GetStats` states it) |
| `HostStats.DiskTotal` | worker/stats.go:34-36 | the disk's All figure; after a collection, the provider's, or 0 when the read failed (`GetStats` states it) |
| `HostStats.DiskFree` | worker/stats.go:38-40 | the disk's Free figure, as for `DiskTotal` |
| `HostStats.DiskUsed` | worker/stats.go:42-44 | the disk's Used figure, as for `DiskTotal` |
| `HostStats.MemUsedKb` | worker/stats.go:26-28 | used memory added to available memory gives the total modulo 2^64; it equals total minus available when available is at most total, and wraps around otherwise |
| `HostStats.MemUsedPercent` | worker/stats.go:30-32 | the truncated quotient of available by total (requires a non-zero total, as the division panics otherwise) |
| `HostStats.MemUsedPercentIsZeroOrOne` | worker/stats.go:30-32 | when available is at most total, the value is 1 if nothing is used and 0 otherwise: the available share, not the used one |
| `HostStats.CpuUsage` | worker/stats.go:46-56 | the divisor is never zero: a zero total gives 0 instead of a division |
| `HostStats.CpuUsageMeaning` | worker/stats.go:46-56 | exactly 0 when all eight counters are 0; otherwise, without wrap-around, non-idle time over total time, a fraction between 0 and 1 |
| `HostStats.CpuUsageExample` | worker/stats.go:46-56 | idle 50, iowait 10, user 20, system 10 gives 30 over 90 |
| `HostStats.GetMemoryInfo` | worker/stats.go:88-96 | the reading when it succeeded; otherwise the zero reading and an error naming /proc/meminfo; an error exactly when the read failed |
| `HostStats.GetDiskInfo` | worker/stats.go:98-106 | the same for the root file system |
| `HostStats.GetCpuStats` | worker/stats.go:108-116 | the same for /proc/stat |
| `HostStats.GetLoadAvg` | worker/stats.go:118-126 | the same for /proc/loadavg |
| `HostStats.GetStats` | worker/stats.go:58-126 | each reading is the provider's value, or that provider's zero value when it failed, whatever the others did; memory total and available and disk total, free and used pass through, so a failed memory read leaves a total of 0; the task count stays 0; the errors are the collected ones |
| `HostStats.CollectedErrorsShape` | worker/stats.go:59-85 | one error per failing provider, naming what it failed to read, and none for the others; at most four |
| `HostStats.CollectedErrorsOrdered` | worker/stats.go:59-85 | the errors come in the order the providers are queried: memory, disk, CPU, load |

## Left out

- Concurrency: the queue, registry and stats are shared without locks by the worker loop, the telemetry loop and the HTTP handlers. Every operation here is one sequential step.
- The Docker client itself: a failed client construction, whose error `NewDocker` discards (task/task.go:101), is not modelled. Nor are the 30-second contexts and the copying of the pull output and the container logs to the console. Each engine call is reduced to its outcome.
- The CPU limit `NanoCPUs` (a float64 product, task/task.go:152) is not part of the create call.
- Float arithmetic: the task's CPU share and the load averages are carried as reals and not computed with.
- CpuUsage: the float division is given as the ratio it divides. Rounding of large counters to float64 is not modelled.
- CpuUsageMeaning: says nothing about counters whose sums reach 2^64. `CpuUsage` still wraps them as uint64 addition does.
- `time.Now()` is the `now` parameter, and a timestamp is either unset or set to an instant. UUID generation is not modelled, and a task id is an opaque byte sequence.
- Go's `State` is an `int`, so a decoded task may carry a value outside the five states. The table has no row for such a value. Only the five states are modelled.
- Registry entries are pointers in Go. Every write stores a fresh copy, so they are modelled as values.
- `CollectStats` (worker/worker.go:23-29) is not modelled. It is an endless loop with a sleep. Its assignment `w.Stats, w.Stats.TaskCount = GetStats(), w.TaskCount` evaluates the old `w.Stats` pointer before assigning, and that pointer is nil on the first pass, so the first collection panics. `GetStats` leaves the task count at zero.
- MemUsedPercent: requires a non-zero total, because Go's integer division panics on zero. That case is reachable: after a failed /proc/meminfo read `GetStats` stores a total of 0, and the accessor would then panic. The panic itself is not modelled.
- Console output: the `fmt.Printf` and `log.Printf` lines of `Run`, `Stop`, `StartTask`, `StopTask`, `RunTask` and the worker loop are not modelled.
- The table's fallback to an empty row for a state missing from it (`TransitionRow`) is never used here: only the five states are modelled, and all five have rows.
- The endless `runTasks` loop in main.go is modelled as a single `Tick`.
- The HTTP layer (worker/api.go, worker/helpers.go, and the JSON handling in worker/handlers.go) is not modelled. The exceptions are the queueing logic of the start and stop requests (`RequestStart`, `RequestStop`).
- Only the fields this code reads are modelled from /proc/meminfo (total and available). The reads of /proc and of the disk are inputs.
- The stats accessors on a worker whose `Stats` is still nil (before the first collection) would panic in Go. That case is not modelled.
