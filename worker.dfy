/**
 * The worker: a FIFO queue of task snapshots waiting to be applied and a
 * registry (`db`) from task id to the latest persisted task record. One
 * `RunTask` step takes the head snapshot, checks the requested move against
 * the persisted state and, for a start or a stop, calls the runtime and
 * records the outcome.
 *
 * `Process` specifies one step on values; the class methods are proved
 * against it, and the lemmas below state what a step and a sequence of steps
 * do to the registry.
 */
module Workers {
  import opened Wrappers
  import opened Tasks
  import opened DockerRuntime

  type Registry = map<TaskId, Task>

  /** Every record is filed under its own id. */
  predicate KeyedById(db: Registry) {
    forall id :: id in db ==> db[id].id == id
  }

  /** No record is in the Scheduled state. */
  predicate NoneScheduled(db: Registry) {
    forall id :: id in db ==> db[id].state != Scheduled
  }

  /** The record a start leaves: failed, or running in the container the engine created. */
  function StartedRecord(t: Task, now: int, res: DockerResult): Task {
    if res.error.Some? then t.(startTime := At(now), state := Failed)
    else t.(startTime := At(now), containerId := res.containerId, state := Running)
  }

  /** The record a stop leaves, whether or not the runtime managed to stop the container. */
  function StoppedRecord(t: Task, now: int): Task {
    t.(finishTime := At(now), state := Completed)
  }

  /** The persisted record `queued` is checked against: the stored one, or `queued` itself when its id is new. */
  function Persisted(db: Registry, queued: Task): Task {
    if queued.id in db then db[queued.id] else queued
  }

  /**
   * One step on the dequeued snapshot `queued`: the registry after it and
   * the step's result. `client` is what the engine answers and `now` the
   * clock's reading.
   */
  function Process(db: Registry, queued: Task, client: Engine, now: int): (Registry, DockerResult) {
    var persisted := Persisted(db, queued);
    var stored := db[queued.id := persisted];
    if !CanTransition(persisted.state, queued.state) then
      (stored, ErrorResult(InvalidTransition(persisted.state, queued.state)))
    else if queued.state == Scheduled then
      var res := RunResult(NewConfig(queued), client);
      (db[queued.id := StartedRecord(queued, now, res)], res)
    else if queued.state == Completed then
      (db[queued.id := StoppedRecord(queued, now)], StopResult(queued.containerId, client))
    else
      (stored, ErrorResult(NoHandler))
  }

  /**
   * The engine calls one step makes: none when the move is refused or has no
   * handler, the short-circuited start sequence for a move to Scheduled, and
   * the short-circuited stop sequence for a move to Completed.
   */
  function StepCalls(db: Registry, queued: Task, client: Engine): seq<Call> {
    var persisted := Persisted(db, queued);
    if !CanTransition(persisted.state, queued.state) then []
    else if queued.state == Scheduled then Attempted(RunPlan(NewConfig(queued), client), client)
    else if queued.state == Completed then Attempted(StopPlan(queued.containerId), client)
    else []
  }

  class Worker {
    var name: string
    var queue: seq<Task>
    var db: Registry
    var taskCount: int

    /** The registry files every record under its own id and holds no Scheduled record. */
    ghost predicate Valid()
      reads this
    {
      KeyedById(db) && NoneScheduled(db)
    }

    /** The class invariant, except perhaps for the entry of `id`. */
    ghost predicate ValidOutside(id: TaskId)
      reads this
    {
      forall k :: k in db && k != id ==> db[k].id == k && db[k].state != Scheduled
    }

    constructor (name: string)
      ensures Valid()
      ensures this.name == name && queue == [] && db == map[] && taskCount == 0
    {
      this.name := name;
      queue := [];
      db := map[];
      taskCount := 0;
    }

    /** Appends a snapshot at the tail of the queue; the registry is untouched. */
    method AddTask(t: Task)
      requires Valid()
      modifies this`queue
      ensures Valid()
      ensures queue == old(queue) + [t]
    {
      queue := queue + [t];
    }

    /**
     * Takes at most one snapshot off the queue and applies it. An empty queue
     * is a no-op with no error.
     */
    method RunTask(client: Engine, now: int) returns (res: DockerResult, ghost made: seq<Call>)
      requires Valid()
      modifies this`queue, this`db
      ensures Valid()
      ensures old(queue) == [] ==> queue == [] && db == old(db) && res == NoResult && made == []
      ensures old(queue) != [] ==>
        && queue == old(queue)[1..]
        && (db, res) == Process(old(db), old(queue)[0], client, now)
        && made == StepCalls(old(db), old(queue)[0], client)
    {
      made := [];
      if queue == [] {
        return NoResult, [];
      }
      ghost var db0 := db;
      var queued := queue[0];
      queue := queue[1..];
      var persisted: Task;
      if queued.id in db {
        persisted := db[queued.id];
      } else {
        persisted := queued;
        db := db[queued.id := queued];
      }
      var ok := ValidStateTransition(persisted.state, queued.state);
      if ok {
        match queued.state
        case Scheduled =>
          res, made := StartTask(queued, client, now);
          assert db == db0[queued.id := StartedRecord(queued, now, res)];
        case Completed =>
          res, made := StopTask(queued, client, now);
          assert db == db0[queued.id := StoppedRecord(queued, now)];
        case _ =>
          res := ErrorResult(NoHandler);
          assert db == db0[queued.id := persisted];
      } else {
        res := ErrorResult(InvalidTransition(persisted.state, queued.state));
        assert db == db0[queued.id := persisted];
      }
      ProcessKeepsKeyedById(db0, queued, client, now);
      ProcessNeverStoresScheduled(db0, queued, client, now);
    }

    /** Starts the container of `t` and records the outcome under `t`'s id. */
    method StartTask(t: Task, client: Engine, now: int) returns (res: DockerResult, ghost made: seq<Call>)
      requires ValidOutside(t.id)
      modifies this`db
      ensures Valid()
      ensures res == RunResult(NewConfig(t), client)
      ensures made == Attempted(RunPlan(NewConfig(t), client), client)
      ensures db == old(db)[t.id := StartedRecord(t, now, res)]
    {
      var stamped := t.(startTime := At(now));
      var cfg := NewConfig(stamped);
      var d := NewDocker(cfg, client);
      res, made := Run(d);
      if res.error.Some? {
        db := db[t.id := stamped.(state := Failed)];
        return;
      }
      db := db[t.id := stamped.(containerId := res.containerId, state := Running)];
    }

    /** Stops the container of `t` and records `t` as completed, whatever the runtime answered. */
    method StopTask(t: Task, client: Engine, now: int) returns (res: DockerResult, ghost made: seq<Call>)
      requires ValidOutside(t.id)
      modifies this`db
      ensures Valid()
      ensures res == StopResult(t.containerId, client)
      ensures made == Attempted(StopPlan(t.containerId), client)
      ensures db == old(db)[t.id := StoppedRecord(t, now)]
    {
      var cfg := NewConfig(t);
      var d := NewDocker(cfg, client);
      res, made := Stop(d, t.containerId);
      db := db[t.id := t.(finishTime := At(now), state := Completed)];
    }

    /**
     * One copy of every record in the registry, in the order the keys are
     * visited (Go leaves that order unspecified; so does this model).
     * `order` is the sequence of ids visited.
     */
    method ListTasks() returns (tasks: seq<Task>, ghost order: seq<TaskId>)
      ensures |tasks| == |db| && |order| == |db|
      ensures forall i :: 0 <= i < |tasks| ==> tasks[i] in db.Values
      ensures forall id :: id in db ==> db[id] in tasks
      ensures forall i :: 0 <= i < |order| ==> order[i] in db && tasks[i] == db[order[i]]
      ensures forall i, j :: 0 <= i < j < |order| ==> order[i] != order[j]
      ensures forall id :: id in db ==> id in order
    {
      tasks, order := [], [];
      var m := db;
      var rest := m.Keys;
      while rest != {}
        invariant Listing(m, rest, order, tasks)
        decreases rest
      {
        var id :| id in rest;
        ListingStep(m, rest, order, tasks, id);
        tasks := tasks + [m[id]];
        order := order + [id];
        rest := rest - {id};
      }
      forall id | id in m
        ensures m[id] in tasks
      {
        var i :| 0 <= i < |order| && order[i] == id;
        assert tasks[i] == m[id];
      }
    }
  }

  /**
   * The state of a listing part-way through: `rest` holds the ids still to
   * visit, and `order` the ids visited so far, each once, with `tasks[i]` the
   * record of `order[i]`.
   */
  ghost predicate Listing(m: Registry, rest: set<TaskId>, order: seq<TaskId>, tasks: seq<Task>) {
    && rest <= m.Keys
    && |tasks| == |order|
    && |order| + |rest| == |m|
    && (forall i :: 0 <= i < |order| ==> order[i] in m && order[i] !in rest && tasks[i] == m[order[i]])
    && (forall i, j :: 0 <= i < j < |order| ==> order[i] != order[j])
    && (forall id :: id in m && id !in rest ==> id in order)
  }

  /** Visiting one more id keeps the listing consistent. */
  lemma ListingStep(m: Registry, rest: set<TaskId>, order: seq<TaskId>, tasks: seq<Task>, id: TaskId)
    requires Listing(m, rest, order, tasks) && id in rest
    ensures Listing(m, rest - {id}, order + [id], tasks + [m[id]])
  {
    assert |rest - {id}| == |rest| - 1;
    assert id !in order;
  }

  /** The start request of the control plane: the event's task joins the queue as it is. */
  method RequestStart(w: Worker, te: TaskEvent)
    requires w.Valid()
    modifies w`queue
    ensures w.Valid()
    ensures w.queue == old(w.queue) + [te.task]
  {
    w.AddTask(te.task);
  }

  /** The stop request of the control plane: a copy of the persisted record, marked Completed, joins the queue. */
  method RequestStop(w: Worker, id: TaskId) returns (found: bool)
    requires w.Valid()
    modifies w`queue
    ensures w.Valid()
    ensures found <==> id in w.db
    ensures found ==> w.queue == old(w.queue) + [w.db[id].(state := Completed)]
    ensures !found ==> w.queue == old(w.queue)
  {
    if id !in w.db {
      return false;
    }
    var cp := w.db[id].(state := Completed);
    w.AddTask(cp);
    found := true;
  }

  /** One tick of the worker loop: run one step if the queue is not empty. */
  method Tick(w: Worker, client: Engine, now: int) returns (ran: bool, res: DockerResult)
    requires w.Valid()
    modifies w`queue, w`db
    ensures w.Valid()
    ensures ran <==> old(w.queue) != []
    ensures !ran ==> w.queue == [] && w.db == old(w.db) && res == NoResult
    ensures ran ==> w.queue == old(w.queue)[1..] && (w.db, res) == Process(old(w.db), old(w.queue)[0], client, now)
  {
    ran := |w.queue| != 0;
    res := NoResult;
    if ran {
      ghost var made;
      res, made := w.RunTask(client, now);
    }
  }

  /** A step writes the entry of the dequeued id, and no other; that entry exists afterwards. */
  lemma ProcessWritesOnlyItsEntry(db: Registry, queued: Task, client: Engine, now: int)
    ensures var (db', _) := Process(db, queued, client, now);
      && db'.Keys == db.Keys + {queued.id}
      && forall id :: id in db && id != queued.id ==> db'[id] == db[id]
  {
  }

  lemma ProcessKeepsKeyedById(db: Registry, queued: Task, client: Engine, now: int)
    requires KeyedById(db)
    ensures KeyedById(Process(db, queued, client, now).0)
  {
  }

  /**
   * A step never stores a Scheduled record: a start leaves Running or
   * Failed, and any other move that stores the snapshot as it came is one
   * whose target is not Scheduled. So the Scheduled row of the table is never
   * reached from a stored record.
   */
  lemma ProcessNeverStoresScheduled(db: Registry, queued: Task, client: Engine, now: int)
    requires NoneScheduled(db)
    ensures NoneScheduled(Process(db, queued, client, now).0)
  {
  }

  /** A refused move, or an allowed one with no handler, calls the engine not at all. */
  lemma StepCallsNone(db: Registry, queued: Task, client: Engine)
    ensures !CanTransition(Persisted(db, queued).state, queued.state) ==> StepCalls(db, queued, client) == []
    ensures queued.state != Scheduled && queued.state != Completed ==> StepCalls(db, queued, client) == []
    ensures StepCalls(db, queued, client) != [] ==>
      CanTransition(Persisted(db, queued).state, queued.state) && queued.state in {Scheduled, Completed}
  {
  }

  /**
   * A start whose container was created and started but whose logs could not
   * be attached is recorded as Failed under the snapshot's own container id,
   * while the engine was asked to start the created container: that container
   * is left running and the registry does not name it.
   */
  lemma StartLeavesOrphan(db: Registry, queued: Task, client: Engine, now: int)
    requires CanTransition(Persisted(db, queued).state, queued.state) && queued.state == Scheduled
    requires client.pullError.None? && client.createError.None? && client.startError.None?
    requires client.logsError.Some?
    ensures ContainerStart(client.createdId) in StepCalls(db, queued, client)
    ensures var db' := Process(db, queued, client, now).0;
      db'[queued.id].state == Failed && db'[queued.id].containerId == queued.containerId
  {
    var p := RunPlan(NewConfig(queued), client);
    UnfoldFour(p[0], p[1], p[2], p[3], client);
    RunResultCases(NewConfig(queued), client);
    assert StepCalls(db, queued, client) == p;
  }

  /**
   * The one way the Scheduled row of the table is consulted: a first-seen
   * Scheduled snapshot is stored and checked against itself, Scheduled to
   * Scheduled is allowed, and the step starts it.
   */
  lemma FirstSeenScheduled(db: Registry, queued: Task, client: Engine, now: int)
    requires queued.id !in db && queued.state == Scheduled
    ensures Persisted(db, queued).state == Scheduled && CanTransition(Scheduled, Scheduled)
    ensures StepCalls(db, queued, client) == Attempted(RunPlan(NewConfig(queued), client), client)
    ensures Process(db, queued, client, now).1 == RunResult(NewConfig(queued), client)
  {
  }

  /**
   * A snapshot whose id is new is stored as it is before the move is checked,
   * and checked against itself: a new Pending, Completed or Failed snapshot
   * stays stored and is refused; a new Running one stays stored and has no
   * handler; a new Scheduled one is started.
   */
  lemma ProcessNewId(db: Registry, queued: Task, client: Engine, now: int)
    requires queued.id !in db
    ensures var (db', res) := Process(db, queued, client, now);
      && (queued.state in {Pending, Completed, Failed} ==>
            db' == db[queued.id := queued] && res == ErrorResult(InvalidTransition(queued.state, queued.state)))
      && (queued.state == Running ==> db' == db[queued.id := queued] && res == ErrorResult(NoHandler))
      && (queued.state == Scheduled ==> db'[queued.id].state in {Running, Failed})
  {
  }

  /**
   * A move the table refuses leaves the registry as it was and reports both
   * states, e.g. a Pending task asked to run without being scheduled.
   */
  lemma ProcessRefused(db: Registry, queued: Task, client: Engine, now: int)
    requires queued.id in db && !CanTransition(db[queued.id].state, queued.state)
    ensures Process(db, queued, client, now) == (db, ErrorResult(InvalidTransition(db[queued.id].state, queued.state)))
  {
    assert db[queued.id := db[queued.id]] == db;
  }

  /** A record in a terminal state is never changed again. */
  lemma ProcessTerminalIsFinal(db: Registry, queued: Task, client: Engine, now: int)
    requires queued.id in db && IsTerminal(db[queued.id].state)
    ensures Process(db, queued, client, now).0 == db
  {
    TerminalStatesHaveNoExit(db[queued.id].state, queued.state);
  }

  /**
   * A move the table allows to a state that is neither Scheduled nor
   * Completed (such as Scheduled to Running, or any move to Failed) runs no
   * handler and reports it.
   */
  lemma ProcessUnhandled(db: Registry, queued: Task, client: Engine, now: int)
    requires CanTransition(Persisted(db, queued).state, queued.state)
    requires queued.state != Scheduled && queued.state != Completed
    ensures var (db', res) := Process(db, queued, client, now);
      db' == db[queued.id := Persisted(db, queued)] && res == ErrorResult(NoHandler)
  {
  }

  /**
   * An allowed move to Scheduled starts the task. On failure the record is
   * the snapshot, stamped and Failed, keeping the snapshot's container id;
   * on success it is Running in the container the engine created.
   */
  lemma ProcessStart(db: Registry, queued: Task, client: Engine, now: int)
    requires CanTransition(Persisted(db, queued).state, queued.state) && queued.state == Scheduled
    ensures var (db', res) := Process(db, queued, client, now);
      && res == RunResult(NewConfig(queued), client)
      && db'[queued.id].startTime == At(now)
      && db'[queued.id].finishTime == queued.finishTime
      && (res.error.Some? ==> db'[queued.id] == queued.(startTime := At(now), state := Failed))
      && (res.error.None? ==>
            db'[queued.id] == queued.(startTime := At(now), containerId := client.createdId, state := Running))
  {
    RunResultCases(NewConfig(queued), client);
  }

  /**
   * An allowed move to Completed stops the task; the record becomes the
   * snapshot stamped and Completed even when the stop failed, and the
   * runtime's result is returned as it is.
   */
  lemma ProcessStop(db: Registry, queued: Task, client: Engine, now: int)
    requires CanTransition(Persisted(db, queued).state, queued.state) && queued.state == Completed
    ensures var (db', res) := Process(db, queued, client, now);
      && res == StopResult(queued.containerId, client)
      && db'[queued.id] == queued.(finishTime := At(now), state := Completed)
  {
  }

  /** The ids of the snapshots in `q`. */
  function Ids(q: seq<Task>): set<TaskId> {
    if q == [] then {} else {q[0].id} + Ids(q[1..])
  }

  /**
   * The registry after processing every snapshot of `q` in order, step `i`
   * seeing engine `clients[i]` and clock reading `times[i]`.
   */
  function Drain(db: Registry, q: seq<Task>, clients: seq<Engine>, times: seq<int>): Registry
    requires |clients| == |q| && |times| == |q|
    decreases |q|
  {
    if q == [] then db
    else Drain(Process(db, q[0], clients[0], times[0]).0, q[1..], clients[1..], times[1..])
  }

  /**
   * Draining the queue leaves one entry per distinct id, old or submitted:
   * nothing is lost and nothing is duplicated.
   */
  lemma {:induction false} DrainKeys(db: Registry, q: seq<Task>, clients: seq<Engine>, times: seq<int>)
    requires |clients| == |q| && |times| == |q|
    ensures Drain(db, q, clients, times).Keys == db.Keys + Ids(q)
    decreases |q|
  {
    if q != [] {
      var db' := Process(db, q[0], clients[0], times[0]).0;
      ProcessWritesOnlyItsEntry(db, q[0], clients[0], times[0]);
      assert db'.Keys == db.Keys + {q[0].id};
      DrainKeys(db', q[1..], clients[1..], times[1..]);
      assert Ids(q) == {q[0].id} + Ids(q[1..]);
    }
  }

  /** Starting from an empty registry, draining leaves exactly as many entries as distinct ids were queued. */
  lemma DrainSize(q: seq<Task>, clients: seq<Engine>, times: seq<int>)
    requires |clients| == |q| && |times| == |q|
    ensures |Drain(map[], q, clients, times)| == |Ids(q)|
  {
    var m := Drain(map[], q, clients, times);
    DrainKeys(map[], q, clients, times);
    assert m.Keys == Ids(q);
    assert |m| == |m.Keys|;
  }

  /** Records in a terminal state come out of a drain unchanged. */
  lemma {:induction false} DrainTerminalIsFinal(db: Registry, q: seq<Task>, clients: seq<Engine>, times: seq<int>, id: TaskId)
    requires |clients| == |q| && |times| == |q|
    requires id in db && IsTerminal(db[id].state)
    ensures id in Drain(db, q, clients, times) && Drain(db, q, clients, times)[id] == db[id]
    decreases |q|
  {
    if q != [] {
      var db' := Process(db, q[0], clients[0], times[0]).0;
      ProcessWritesOnlyItsEntry(db, q[0], clients[0], times[0]);
      if q[0].id == id {
        ProcessTerminalIsFinal(db, q[0], clients[0], times[0]);
      }
      DrainTerminalIsFinal(db', q[1..], clients[1..], times[1..], id);
    }
  }
}
