/**
 * The task package: the lifecycle states of a task and the table of legal
 * moves between them, the task and config records, the projection from a
 * task to the config handed to the container runtime, and the result record
 * every runtime call returns.
 */
module Tasks {
  import opened Wrappers

  /** The five lifecycle states, in declaration order (Pending is Go's zero value). */
  datatype State = Pending | Scheduled | Running | Completed | Failed

  /** The adjacency table: for each source state, the destinations it may move to. */
  const StateTransitionMap: map<State, seq<State>> :=
    map[
      Pending := [Scheduled],
      Scheduled := [Scheduled, Running, Failed],
      Running := [Running, Completed, Failed],
      Completed := [],
      Failed := []
    ]

  /** The row of the table for `src`; a state missing from the map has the empty row. */
  function TransitionRow(src: State): seq<State> {
    if src in StateTransitionMap then StateTransitionMap[src] else []
  }

  /** Specification of a legal move: `dst` appears in the table row of `src`. */
  predicate CanTransition(src: State, dst: State) {
    dst in TransitionRow(src)
  }

  predicate IsTerminal(s: State) {
    s == Completed || s == Failed
  }

  /** Linear search of `states` for `state`, returning as soon as it is found. */
  method Contains(states: seq<State>, state: State) returns (found: bool)
    ensures found <==> state in states
  {
    for i := 0 to |states|
      invariant state !in states[..i]
    {
      if states[i] == state {
        return true;
      }
    }
    return false;
  }

  /** Looks the move up in the table. */
  method ValidStateTransition(src: State, dst: State) returns (ok: bool)
    ensures ok <==> CanTransition(src, dst)
  {
    var row := if src in StateTransitionMap then StateTransitionMap[src] else [];
    ok := Contains(row, dst);
  }

  /** The table, written out pair by pair: exactly these seven moves are legal. */
  lemma TransitionTable(src: State, dst: State)
    ensures CanTransition(src, dst) <==>
      || (src == Pending && dst == Scheduled)
      || (src == Scheduled && (dst == Scheduled || dst == Running || dst == Failed))
      || (src == Running && (dst == Running || dst == Completed || dst == Failed))
  {
  }

  /** Completed and Failed have no way out. */
  lemma TerminalStatesHaveNoExit(src: State, dst: State)
    requires IsTerminal(src)
    ensures !CanTransition(src, dst)
  {
  }

  /** A pending task can only be scheduled; in particular Pending to Pending is refused. */
  lemma PendingOnlyToScheduled(dst: State)
    ensures CanTransition(Pending, dst) <==> dst == Scheduled
  {
  }

  /** Re-applying the same state is legal exactly for Scheduled and Running. */
  lemma SelfTransitions(s: State)
    ensures CanTransition(s, s) <==> s == Scheduled || s == Running
  {
  }

  /** A task identifier, a UUID in the source; modelled as an opaque byte string whose length is not constrained. */
  type TaskId = seq<bv8>

  /** A timestamp: Go's zero time.Time, or a set instant. */
  datatype Time = Unset | At(instant: int)

  /** A task record. `cpu` carries Go's float64 as a real; no float arithmetic is done on it. */
  datatype Task = Task(
    id: TaskId,
    containerId: string,
    name: string,
    state: State,
    image: string,
    cpu: real,
    memory: int,
    disk: int,
    exposedPorts: set<string>,
    portBindings: map<string, string>,
    restartPolicy: RestartPolicy,
    startTime: Time,
    finishTime: Time)

  /** A request to move a task to a new state; the control plane enqueues its embedded task. */
  datatype TaskEvent = TaskEvent(id: TaskId, state: State, timestamp: Time, task: Task)

  /** The restart policy as the task states it (a free string). */
  type RestartPolicy = string

  /** Docker's restart-policy modes. */
  datatype RestartPolicyMode =
    | RestartPolicyDisabled
    | RestartPolicyAlways
    | RestartPolicyOnFailure
    | RestartPolicyUnlessStopped

  datatype Runtime = Runtime(containerId: string)

  /** The configuration handed to the container runtime. */
  datatype Config = Config(
    name: string,
    attachStdin: bool,
    attachStdout: bool,
    attachStderr: bool,
    exposedPorts: set<string>,
    cmd: seq<string>,
    image: string,
    cpu: real,
    memory: int,
    disk: int,
    env: seq<string>,
    restartPolicy: RestartPolicy,
    runtime: Runtime)

  /** Go's zero Config. */
  const EmptyConfig := Config("", false, false, false, {}, [], "", 0.0, 0, 0, [], "", Runtime(""))

  /**
   * Projects a task to its config. Only the name and the image are carried
   * over; every other field is left at its zero value, whatever the task holds.
   */
  function NewConfig(t: Task): (c: Config)
    ensures c.name == t.name && c.image == t.image
    ensures c.cpu == 0.0 && c.memory == 0 && c.disk == 0
    ensures c.env == [] && c.exposedPorts == {} && c.cmd == []
    ensures c.restartPolicy == "" && c.runtime == Runtime("")
    ensures !c.attachStdin && !c.attachStdout && !c.attachStderr
  {
    EmptyConfig.(name := t.name, image := t.image)
  }

  /** Two tasks that agree on name and image get the same config. */
  lemma NewConfigSeesOnlyNameAndImage(t1: Task, t2: Task)
    requires t1.name == t2.name && t1.image == t2.image
    ensures NewConfig(t1) == NewConfig(t2)
  {
  }

  /** The conversion of a policy string to a Docker mode is a stub: it always answers "always". */
  function Convert(rp: RestartPolicy): (m: RestartPolicyMode)
    ensures m == RestartPolicyAlways
  {
    RestartPolicyAlways
  }

  /** The errors a runtime result can carry. */
  datatype Error =
    | EngineError(message: string)          // an error answered by the container engine
    | InvalidTransition(from: State, to: State)  // the table refuses the requested move
    | NoHandler                             // the table allows the move but the worker has no handler for it

  /** The outcome of one runtime call, or of one worker step. */
  datatype DockerResult = DockerResult(error: Option<Error>, action: string, containerId: string, result: string)

  /** Go's zero DockerResult: no error and empty strings. */
  const NoResult := DockerResult(None, "", "", "")

  /** A result that only carries an error. */
  function ErrorResult(e: Error): DockerResult {
    NoResult.(error := Some(e))
  }

  /** A successful result for `action` on container `id`. */
  function Succeeded(action: string, id: string): DockerResult {
    DockerResult(None, action, id, "success")
  }
}
