/**
 * The container-runtime adapter: `Run` pulls, creates, starts and attaches to
 * a container, `Stop` stops and removes one. Each is a fixed sequence of
 * engine calls in which the first failing call ends the sequence. The engine
 * itself is not modelled: an `Engine` value says, call by call, what it
 * answers, and the adapter returns the calls it made beside its result.
 */
module DockerRuntime {
  import opened Wrappers
  import opened Tasks

  /**
   * What the engine answers: for each kind of call, the error it fails with
   * (None when the call succeeds), and the id a successful create returns.
   */
  datatype Engine = Engine(
    pullError: Option<string>,
    createError: Option<string>,
    createdId: string,
    startError: Option<string>,
    logsError: Option<string>,
    stopError: Option<string>,
    removeError: Option<string>)

  datatype RestartPolicyConfig = RestartPolicyConfig(name: RestartPolicyMode)

  /** Resource limits passed to create; the CPU limit (a float product) is not modelled. */
  datatype Resources = Resources(memory: int)

  datatype ContainerConfig = ContainerConfig(image: string, tty: bool, env: seq<string>, exposedPorts: set<string>)

  datatype HostConfig = HostConfig(restartPolicy: RestartPolicyConfig, resources: Resources, publishAllPorts: bool)

  datatype RemoveOptions = RemoveOptions(removeVolumes: bool, removeLinks: bool, force: bool)

  /** One call to the engine, with the arguments it is given. */
  datatype Call =
    | ImagePull(image: string)
    | ContainerCreate(config: ContainerConfig, host: HostConfig, name: string)
    | ContainerStart(id: string)
    | ContainerLogs(id: string)
    | ContainerStop(id: string)
    | ContainerRemove(id: string, options: RemoveOptions)

  /** A runtime adapter: an engine client and the config it runs. */
  datatype Docker = Docker(client: Engine, config: Config)

  /** Builds an adapter for `c`; the client, built from the environment in the source, is a parameter. */
  function NewDocker(c: Config, client: Engine): (d: Docker)
    ensures d.config == c && d.client == client
  {
    Docker(client, c)
  }

  /** The engine's answer to call `c`: the error it fails with, or None. */
  function Answer(e: Engine, c: Call): Option<string> {
    match c
    case ImagePull(_) => e.pullError
    case ContainerCreate(_, _, _) => e.createError
    case ContainerStart(_) => e.startError
    case ContainerLogs(_) => e.logsError
    case ContainerStop(_) => e.stopError
    case ContainerRemove(_, _) => e.removeError
  }

  /** The four calls of a start, in order, if none fails. */
  function RunPlan(c: Config, e: Engine): seq<Call> {
    var cc := ContainerConfig(c.image, false, c.env, c.exposedPorts);
    var hc := HostConfig(RestartPolicyConfig(Convert(c.restartPolicy)), Resources(c.memory), true);
    [ImagePull(c.image), ContainerCreate(cc, hc, c.name), ContainerStart(e.createdId), ContainerLogs(e.createdId)]
  }

  /** The options a stop removes the container with: volumes yes, links no, not forced. */
  const StopRemoveOptions := RemoveOptions(true, false, false)

  /** The two calls of a stop, in order, if none fails. */
  function StopPlan(id: string): seq<Call> {
    [ContainerStop(id), ContainerRemove(id, StopRemoveOptions)]
  }

  /** The calls a short-circuiting sequence makes: the plan up to and including its first failing call. */
  function Attempted(plan: seq<Call>, e: Engine): seq<Call> {
    if plan == [] then []
    else if Answer(e, plan[0]).Some? then [plan[0]]
    else [plan[0]] + Attempted(plan[1..], e)
  }

  /** The error of the first planned call that fails, if any does. */
  function FirstFailure(plan: seq<Call>, e: Engine): Option<string> {
    if plan == [] then None
    else if Answer(e, plan[0]).Some? then Answer(e, plan[0])
    else FirstFailure(plan[1..], e)
  }

  /** The result of a short-circuiting sequence: its first failure as an error, else `success`. */
  function Conclude(plan: seq<Call>, e: Engine, success: DockerResult): DockerResult {
    match FirstFailure(plan, e)
    case Some(m) => ErrorResult(EngineError(m))
    case None => success
  }

  /** The result a start ends with. */
  function RunResult(c: Config, e: Engine): DockerResult {
    Conclude(RunPlan(c, e), e, Succeeded("start", e.createdId))
  }

  /** The result a stop of container `id` ends with. */
  function StopResult(id: string, e: Engine): DockerResult {
    Conclude(StopPlan(id), e, Succeeded("stop", id))
  }

  /**
   * The calls made form a prefix of the plan; every call but the last one
   * made succeeded; the sequence is complete exactly when no planned call
   * fails, and otherwise the last call made is the one whose error is reported.
   */
  lemma {:induction false} AttemptedShortCircuits(plan: seq<Call>, e: Engine)
    ensures Attempted(plan, e) <= plan
    ensures forall i :: 0 <= i < |Attempted(plan, e)| - 1 ==> Answer(e, Attempted(plan, e)[i]).None?
    ensures FirstFailure(plan, e).None? <==> (forall i :: 0 <= i < |plan| ==> Answer(e, plan[i]).None?)
    ensures FirstFailure(plan, e).None? ==> Attempted(plan, e) == plan
    ensures FirstFailure(plan, e).Some? ==>
      Attempted(plan, e) != [] && Answer(e, Attempted(plan, e)[|Attempted(plan, e)| - 1]) == FirstFailure(plan, e)
  {
    if plan != [] && Answer(e, plan[0]).None? {
      AttemptedShortCircuits(plan[1..], e);
      var rest := Attempted(plan[1..], e);
      assert Attempted(plan, e) == [plan[0]] + rest;
      forall i | 0 <= i < |plan|
        ensures i > 0 ==> plan[i] == plan[1..][i - 1]
      {
      }
    }
  }

  /** Attempted and FirstFailure on a plan of four calls, unfolded. */
  lemma UnfoldFour(a: Call, b: Call, c: Call, d: Call, e: Engine)
    ensures Attempted([a, b, c, d], e) ==
      if Answer(e, a).Some? then [a]
      else if Answer(e, b).Some? then [a, b]
      else if Answer(e, c).Some? then [a, b, c]
      else [a, b, c, d]
    ensures FirstFailure([a, b, c, d], e) ==
      if Answer(e, a).Some? then Answer(e, a)
      else if Answer(e, b).Some? then Answer(e, b)
      else if Answer(e, c).Some? then Answer(e, c)
      else Answer(e, d)
  {
    assert [a, b, c, d][1..] == [b, c, d];
    assert [b, c, d][1..] == [c, d];
    UnfoldTwo(c, d, e);
    assert [a] + [b] == [a, b] && [a] + [b, c] == [a, b, c] && [a] + [b, c, d] == [a, b, c, d];
    assert [b] + [c] == [b, c] && [b] + [c, d] == [b, c, d];
  }

  /** Attempted and FirstFailure on a plan of two calls, unfolded. */
  lemma UnfoldTwo(a: Call, b: Call, e: Engine)
    ensures Attempted([a, b], e) == if Answer(e, a).Some? then [a] else [a, b]
    ensures FirstFailure([a, b], e) == if Answer(e, a).Some? then Answer(e, a) else Answer(e, b)
  {
    assert [a, b][1..] == [b];
    assert [b][1..] == [];
    assert Attempted([b], e) == [b] by {
      assert Attempted([], e) == [];
    }
    assert FirstFailure([b], e) == Answer(e, b) by {
      assert FirstFailure([], e) == None;
    }
    assert [a] + [b] == [a, b];
  }

  /**
   * A start fails exactly when one of its four calls fails; it then reports
   * the error of the first failing call and carries no container id, action
   * or result. A failure to attach to the logs after a successful start is
   * reported like the others.
   */
  lemma RunResultCases(c: Config, e: Engine)
    ensures var r := RunResult(c, e);
      && (r.error.None? <==> e.pullError.None? && e.createError.None? && e.startError.None? && e.logsError.None?)
      && (r.error.None? ==> r == Succeeded("start", e.createdId))
      && (r.error.Some? ==> r.containerId == "" && r.action == "" && r.result == "")
      && (e.pullError.Some? ==> r.error == Some(EngineError(e.pullError.value)))
      && (e.pullError.None? && e.createError.Some? ==> r.error == Some(EngineError(e.createError.value)))
      && (e.pullError.None? && e.createError.None? && e.startError.Some? ==>
            r.error == Some(EngineError(e.startError.value)))
      && (e.pullError.None? && e.createError.None? && e.startError.None? && e.logsError.Some? ==>
            r.error == Some(EngineError(e.logsError.value)))
  {
    var p := RunPlan(c, e);
    UnfoldFour(p[0], p[1], p[2], p[3], e);
  }

  /**
   * A stop whose stop call fails reports that error and never asks for the
   * removal; one whose removal fails reports the removal's error; a
   * successful stop names the container it was given.
   */
  lemma StopResultCases(id: string, e: Engine)
    ensures var r := StopResult(id, e);
      && (e.stopError.Some? ==> r == ErrorResult(EngineError(e.stopError.value)) && Attempted(StopPlan(id), e) == [ContainerStop(id)])
      && (e.stopError.None? && e.removeError.Some? ==> r == ErrorResult(EngineError(e.removeError.value)))
      && (e.stopError.None? && e.removeError.None? ==> r == Succeeded("stop", id))
  {
    UnfoldTwo(ContainerStop(id), ContainerRemove(id, StopRemoveOptions), e);
  }

  /** Pull, create, start, attach to the logs: each step may fail and abort the rest. */
  method Run(d: Docker) returns (res: DockerResult, made: seq<Call>)
    ensures made == Attempted(RunPlan(d.config, d.client), d.client)
    ensures res == RunResult(d.config, d.client)
  {
    var e, c := d.client, d.config;
    ghost var plan := RunPlan(c, e);
    UnfoldFour(plan[0], plan[1], plan[2], plan[3], e);
    made := [ImagePull(c.image)];
    if e.pullError.Some? {
      return ErrorResult(EngineError(e.pullError.value)), made;
    }
    var rp := RestartPolicyConfig(Convert(c.restartPolicy));
    var r := Resources(c.memory);
    var cc := ContainerConfig(c.image, false, c.env, c.exposedPorts);
    var hc := HostConfig(rp, r, true);
    made := made + [ContainerCreate(cc, hc, c.name)];
    if e.createError.Some? {
      return ErrorResult(EngineError(e.createError.value)), made;
    }
    var id := e.createdId;
    made := made + [ContainerStart(id)];
    if e.startError.Some? {
      return ErrorResult(EngineError(e.startError.value)), made;
    }
    made := made + [ContainerLogs(id)];
    if e.logsError.Some? {
      return ErrorResult(EngineError(e.logsError.value)), made;
    }
    res := Succeeded("start", id);
  }

  /** Stop container `id`, then remove it; a failed stop skips the removal. */
  method Stop(d: Docker, id: string) returns (res: DockerResult, made: seq<Call>)
    ensures made == Attempted(StopPlan(id), d.client)
    ensures res == StopResult(id, d.client)
  {
    var e := d.client;
    UnfoldTwo(ContainerStop(id), ContainerRemove(id, StopRemoveOptions), e);
    made := [ContainerStop(id)];
    if e.stopError.Some? {
      return ErrorResult(EngineError(e.stopError.value)), made;
    }
    made := made + [ContainerRemove(id, StopRemoveOptions)];
    if e.removeError.Some? {
      return ErrorResult(EngineError(e.removeError.value)), made;
    }
    res := Succeeded("stop", id);
  }
}
