/** `ContainerEngine` of src/docker.rs as a state machine. The world is the
    state of the environment's container and the log of the requests the
    engine has made; a `Daemon` decides which requests fail and how each
    `docker` process ends. */
module Docker {
  import opened Util
  import opened Format
  import opened Resolution

  /** `DockerError`. The daemon's error values are kept as their text. */
  datatype DockerError =
    | ConnectingToDaemon(error: string)
    | ListingContainers(error: string)
    | RemovingContainer(error: string)
    | StartingContainer(error: string)
    | StoppingContainer(error: string)
    | EnterExecFailure(reason: string)
    | CommandErrorCode(cmd: string, stderr: string)
    | CommandKilled(cmd: string)
    | CommandFailed(cmd: string)

  /** The state of the environment's container. */
  datatype Status = Absent | Created | Running | Stopped

  /** What the engine asks for: a daemon API call (list, remove, start,
      stop), a `docker` process whose output is captured (`Run`), or the
      interactive `docker exec` that enters the environment (`Attach`). */
  datatype Request = List | Remove | Start | Stop | Run(args: seq<string>) | Attach(args: seq<string>)

  datatype World = World(status: Status, trace: seq<Request>)

  /** How a `docker` process ended: it could not be spawned, or it exited
      with a status code (none when a signal ended it) and its output. */
  datatype Exit = SpawnFailed | Exited(code: Option<int>, stdout: string, stderr: string)

  /** Everything outside the engine.
      - `connectError`: the failure of `Docker::connect_with_local_defaults`, if any;
      - `refusal`: the error the daemon answers an API call with, if any;
      - `exit`: how a `docker` process ends;
      - `split`, `join`: `shell_words::split` and `shell_words::join`. */
  datatype Daemon = Daemon(
    connectError: Option<string>,
    refusal: (Request, World) -> Option<string>,
    exit: (Request, World) -> Exit,
    split: string -> seq<string>,
    join: seq<string> -> string)

  /** The outcome of one engine operation and the world after it. */
  datatype Step<T> = Step(result: Result<T, DockerError>, world: World)

  /** `ContainerEngine`: the environment whose container it manages. */
  datatype Engine = Engine(env: Environment)

  const ContainerEngineName := "docker"

  // ---------------------------------------------------------------- naming

  /** `ContainerEngine::new`: the container is named `berth-<name>-<hash>`
      after the environment it is given, and connecting can fail. */
  function New(env: Environment, hash: Environment -> u64, d: Daemon): (r: Result<Engine, DockerError>)
    ensures r.Err? <==> d.connectError.Some?
    ensures r.Err? ==> r.error == ConnectingToDaemon(d.connectError.value)
    ensures r.Ok? ==> r.value.env == env.(name := Identity(env.name, hash(env)))
  {
    var named := env.(name := Identity(env.name, hash(env)));
    match d.connectError
    case Some(e) => Err(ConnectingToDaemon(e))
    case None => Ok(Engine(named))
  }

  /** The engine names the container on top of the name resolution already
      gave the environment, so the container's name carries the prefix twice,
      then the environment's name, then two hashes. */
  lemma ContainerNameNested(env: Environment, hash: Environment -> u64, d: Daemon, h0: u64)
    requires env.name == Identity(env.originalName, h0)
    requires New(env, hash, d).Ok?
    ensures var name := New(env, hash, d).value.env.name;
            && name[..12] == "berth-berth-"
            && name[12..12 + |env.originalName|] == env.originalName
            && |name| == 12 + |env.originalName| + 34
  {
    var name := New(env, hash, d).value.env.name;
    IdentityParts(env.originalName, h0);
    IdentityParts(env.name, hash(env));
    assert name[6..6 + |env.name|] == env.name;
    assert name[6..6 + |env.name|][..6] == "berth-";
    assert name[12..12 + |env.originalName|] == env.name[6..6 + |env.originalName|];
  }

  // ---------------------------------------------------------- arguments

  /** `to_shell`: each string split into shell words, all concatenated. */
  function ToShell(xs: seq<string>, split: string -> seq<string>): seq<string>
  {
    if xs == [] then [] else split(xs[0]) + ToShell(xs[1..], split)
  }

  /** Splitting two lists of option strings one after the other gives the
      words of their concatenation. */
  lemma {:induction false} ToShellAppend(xs: seq<string>, ys: seq<string>, split: string -> seq<string>)
    ensures ToShell(xs + ys, split) == ToShell(xs, split) + ToShell(ys, split)
  {
    if xs == [] {
      assert xs + ys == ys;
    } else {
      assert (xs + ys)[1..] == xs[1..] + ys;
      ToShellAppend(xs[1..], ys, split);
    }
  }

  /** The text of a `docker` command line, as the errors report it. */
  function CommandText(args: seq<string>, d: Daemon): string
  {
    ContainerEngineName + " " + d.join(args)
  }

  /** `create_container`'s arguments: the container's name, the create
      options, the image, and a command that keeps the container alive. */
  function CreateArgs(eng: Engine, d: Daemon): (r: seq<string>)
    ensures var options := ToShell(eng.env.createOptions, d.split);
            && |r| == 3 + |options| + 4
            && r[..3] == ["create", "--name", eng.env.name]
            && r[3..3 + |options|] == options
            && r[3 + |options|..] == [eng.env.image, "tail", "-f", "/dev/null"]
  {
    var options := ToShell(eng.env.createOptions, d.split);
    var r := ["create", "--name", eng.env.name] + options + [eng.env.image, "tail", "-f", "/dev/null"];
    assert r[3 + |options|..] == [eng.env.image, "tail", "-f", "/dev/null"];
    r
  }

  /** The arguments of a `docker exec` in the container: `exec`, the options,
      the container's name, then the command's words. */
  function ExecArgs(name: string, options: seq<string>, cmd: string, d: Daemon): (r: seq<string>)
    ensures var opts := ToShell(options, d.split);
            && |r| == 2 + |opts| + |d.split(cmd)|
            && r[0] == "exec"
            && r[1..1 + |opts|] == opts
            && r[1 + |opts|] == name
            && r[2 + |opts|..] == d.split(cmd)
  {
    var opts := ToShell(options, d.split);
    var r := ["exec"] + opts + [name] + d.split(cmd);
    assert r[2 + |opts|..] == d.split(cmd);
    r
  }

  /** One `exec` request per setup command, in order. */
  function ExecRequests(eng: Engine, cmds: seq<string>, d: Daemon): (r: seq<Request>)
    ensures |r| == |cmds|
  {
    if cmds == [] then []
    else [Run(ExecArgs(eng.env.name, eng.env.execOptions, cmds[0], d))] + ExecRequests(eng, cmds[1..], d)
  }

  /** The `i`-th request is the `exec` of the `i`-th command. */
  lemma {:induction false} ExecRequestsAt(eng: Engine, cmds: seq<string>, d: Daemon)
    ensures forall i | 0 <= i < |cmds| ::
              ExecRequests(eng, cmds, d)[i] == Run(ExecArgs(eng.env.name, eng.env.execOptions, cmds[i], d))
  {
    if cmds != [] {
      ExecRequestsAt(eng, cmds[1..], d);
      forall i | 1 <= i < |cmds|
        ensures ExecRequests(eng, cmds, d)[i] == Run(ExecArgs(eng.env.name, eng.env.execOptions, cmds[i], d))
      {
        assert cmds[i] == cmds[1..][i - 1];
      }
    }
  }

  // ------------------------------------------------------- daemon requests

  /** The world with one more request logged. */
  function Log(w: World, req: Request): (r: World)
    ensures r.status == w.status && r.trace == w.trace + [req]
  {
    w.(trace := w.trace + [req])
  }

  /** What a successful request does to the container. */
  function Effect(s: Status, req: Request): Status
  {
    match req
    case Remove => Absent
    case Start => Running
    case Stop => Stopped
    case Run(args) => if |args| > 0 && args[0] == "create" then Created else s
    case _ => s
  }

  /** One daemon API call, its failure wrapped by `wrap`. */
  function Api(req: Request, w: World, d: Daemon, wrap: string -> DockerError): (r: Step<()>)
    ensures r.world.trace == w.trace + [req]
    ensures r.result.Ok? <==> d.refusal(req, w).None?
    ensures r.result.Ok? ==> r.world.status == Effect(w.status, req)
    ensures r.result.Err? ==> r.world.status == w.status && r.result.error == wrap(d.refusal(req, w).value)
  {
    match d.refusal(req, w)
    case Some(e) => Step(Err(wrap(e)), Log(w, req))
    case None => Step(Ok(()), Log(w, req).(status := Effect(w.status, req)))
  }

  /** The `state` the daemon lists a container with. */
  function StateName(s: Status): string
  {
    match s
    case Absent => ""
    case Created => "created"
    case Running => "running"
    case Stopped => "exited"
  }

  /** `get_container_info`: the listed state of the container, if it exists. */
  function ContainerInfo(w: World, d: Daemon): (r: Step<Option<string>>)
    ensures r.world == Log(w, List)
    ensures r.result.Ok? <==> d.refusal(List, w).None?
    ensures r.result.Err? ==> r.result.error == ListingContainers(d.refusal(List, w).value)
    ensures r.result.Ok? ==> (r.result.value.Some? <==> w.status != Absent)
  {
    match d.refusal(List, w)
    case Some(e) => Step(Err(ListingContainers(e)), Log(w, List))
    case None => Step(Ok(if w.status == Absent then None else Some(StateName(w.status))), Log(w, List))
  }

  /** `is_container_running`: the container is listed as `running`. */
  function IsContainerRunning(w: World, d: Daemon): (r: Step<bool>)
    ensures r.world == Log(w, List)
    ensures r.result.Ok? <==> d.refusal(List, w).None?
    ensures r.result.Ok? ==> (r.result.value <==> w.status == Running)
  {
    var info := ContainerInfo(w, d);
    match info.result
    case Err(e) => Step(Err(e), info.world)
    case Ok(c) => Step(Ok(c == Some("running")), info.world)
  }

  /** `does_environment_exist`: the container is listed at all. */
  function DoesEnvironmentExist(w: World, d: Daemon): (r: Step<bool>)
    ensures r.world == Log(w, List)
    ensures r.result.Ok? <==> d.refusal(List, w).None?
    ensures r.result.Ok? ==> (r.result.value <==> w.status != Absent)
  {
    var info := ContainerInfo(w, d);
    match info.result
    case Err(e) => Step(Err(e), info.world)
    case Ok(c) => Step(Ok(c.Some?), info.world)
  }

  /** `delete_container_if_exists` with the error a refused removal is
      reported as: list, and remove only a listed container. */
  function DeleteWith(w: World, d: Daemon, wrap: string -> DockerError): (r: Step<()>)
    ensures d.refusal(List, w).Some? ==> r == Step(Err(ListingContainers(d.refusal(List, w).value)), Log(w, List))
    ensures d.refusal(List, w).None? && w.status == Absent ==> r == Step(Ok(()), Log(w, List))
    ensures d.refusal(List, w).None? && w.status != Absent ==> r == Api(Remove, Log(w, List), d, wrap)
    ensures r.result.Ok? ==> r.world.status == Absent
  {
    var exists_ := DoesEnvironmentExist(w, d);
    match exists_.result
    case Err(e) => Step(Err(e), exists_.world)
    case Ok(present) =>
      if present then Api(Remove, exists_.world, d, wrap)
      else Step(Ok(()), exists_.world)
  }

  /** `delete_container_if_exists` as written: a refused removal is reported
      as a failure to stop the container. */
  function DeleteContainerIfExistsAsWritten(w: World, d: Daemon): (r: Step<()>)
    ensures r.result.Ok? ==> r.world.status == Absent
    ensures r.result.Ok? <==> d.refusal(List, w).None? && (w.status != Absent ==> d.refusal(Remove, Log(w, List)).None?)
    ensures d.refusal(List, w).Some? ==> r.result == Err(ListingContainers(d.refusal(List, w).value))
    ensures d.refusal(List, w).None? && w.status != Absent && d.refusal(Remove, Log(w, List)).Some? ==>
              r.result == Err(StoppingContainer(d.refusal(Remove, Log(w, List)).value))
    ensures r.world.trace == w.trace + (if d.refusal(List, w).None? && w.status != Absent then [List, Remove] else [List])
  {
    DeleteWith(w, d, e => StoppingContainer(e))
  }

  /** `delete_container_if_exists`, a refused removal reported as
      `RemovingContainer`. */
  function DeleteContainerIfExists(w: World, d: Daemon): (r: Step<()>)
    ensures r.result.Ok? ==> r.world.status == Absent
    ensures r.result.Ok? <==> d.refusal(List, w).None? && (w.status != Absent ==> d.refusal(Remove, Log(w, List)).None?)
    ensures r.result.Err? ==> r.result.error.ListingContainers? || r.result.error.RemovingContainer?
    ensures r.world.trace == w.trace + (if d.refusal(List, w).None? && w.status != Absent then [List, Remove] else [List])
  {
    DeleteWith(w, d, e => RemovingContainer(e))
  }

  /** A refused removal: as written it reads as a failed stop; corrected, it
      names the removal. */
  lemma RemovalFailureMislabelled(w: World, d: Daemon)
    requires d.refusal(List, w).None? && w.status != Absent && d.refusal(Remove, Log(w, List)).Some?
    ensures DeleteContainerIfExistsAsWritten(w, d).result.error.StoppingContainer?
    ensures DeleteContainerIfExists(w, d).result.error.RemovingContainer?
  {
  }

  /** `delete_container_if_exists` as the program has it, or corrected. */
  function DeleteContainer(rev: Revision, w: World, d: Daemon): Step<()>
  {
    match rev
    case AsWritten => DeleteContainerIfExistsAsWritten(w, d)
    case Corrected => DeleteContainerIfExists(w, d)
  }

  /** `start_container`. */
  function StartContainer(w: World, d: Daemon): (r: Step<()>)
    ensures r.world.trace == w.trace + [Start]
    ensures r.result.Ok? <==> d.refusal(Start, w).None?
    ensures r.result.Ok? ==> r.world.status == Running
    ensures r.result.Err? ==> r.world.status == w.status && r.result.error == StartingContainer(d.refusal(Start, w).value)
  {
    Api(Start, w, d, e => StartingContainer(e))
  }

  /** `stop_container`. */
  function StopContainer(w: World, d: Daemon): (r: Step<()>)
    ensures r.world.trace == w.trace + [Stop]
    ensures r.result.Ok? <==> d.refusal(Stop, w).None?
    ensures r.result.Ok? ==> r.world.status == Stopped
    ensures r.result.Err? ==> r.world.status == w.status && r.result.error == StoppingContainer(d.refusal(Stop, w).value)
  {
    Api(Stop, w, d, e => StoppingContainer(e))
  }

  // ---------------------------------------------------- docker processes

  /** The captured output of a `docker` process. */
  datatype Output = Output(stdout: string, stderr: string)

  /** The error, if any, of a `docker` process that ran to its end: killed
      by a signal, or exited with a code other than 0. */
  function ExitError(cmd: string, exit: Exit): (r: Option<DockerError>)
    requires exit.Exited?
    ensures r.None? <==> exit.code == Some(0)
    ensures exit.code.None? ==> r == Some(CommandKilled(cmd))
    ensures exit.code.Some? && exit.code.value != 0 ==> r == Some(CommandErrorCode(cmd, exit.stderr))
  {
    match exit.code
    case None => Some(CommandKilled(cmd))
    case Some(c) => if c == 0 then None else Some(CommandErrorCode(cmd, exit.stderr))
  }

  /** `run_docker_command_with_output`. */
  function RunWithOutput(args: seq<string>, w: World, d: Daemon): (r: Step<Output>)
    ensures r.world.trace == w.trace + [Run(args)]
    ensures r.result.Ok? <==> d.exit(Run(args), w).Exited? && d.exit(Run(args), w).code == Some(0)
    ensures r.result.Ok? ==> r.result.value == Output(d.exit(Run(args), w).stdout, d.exit(Run(args), w).stderr)
    ensures r.result.Ok? ==> r.world.status == Effect(w.status, Run(args))
    ensures r.result.Err? ==> r.world.status == w.status
    ensures d.exit(Run(args), w).SpawnFailed? ==> r.result == Err(CommandFailed(CommandText(args, d)))
  {
    var cmd := CommandText(args, d);
    var exit := d.exit(Run(args), w);
    var logged := Log(w, Run(args));
    if exit.SpawnFailed? then Step(Err(CommandFailed(cmd)), logged)
    else
      match ExitError(cmd, exit)
      case Some(e) => Step(Err(e), logged)
      case None => Step(Ok(Output(exit.stdout, exit.stderr)), logged.(status := Effect(w.status, Run(args))))
  }

  /** `create_container`: succeeds exactly when `docker create` exits with
      status 0, and otherwise fails with the process's error. */
  function CreateContainer(eng: Engine, w: World, d: Daemon): (r: Step<()>)
    ensures r.world.trace == w.trace + [Run(CreateArgs(eng, d))]
    ensures var exit := d.exit(Run(CreateArgs(eng, d)), w);
            r.result.Ok? <==> exit.Exited? && exit.code == Some(0)
    ensures r.result.Ok? ==> r.world.status == Created
    ensures r.result.Err? ==> r.world.status == w.status
    ensures var exit := d.exit(Run(CreateArgs(eng, d)), w);
            var cmd := CommandText(CreateArgs(eng, d), d);
            r.result.Err? ==> Some(r.result.error) == (if exit.SpawnFailed? then Some(CommandFailed(cmd)) else ExitError(cmd, exit))
  {
    var s := RunWithOutput(CreateArgs(eng, d), w, d);
    Step(if s.result.Ok? then Ok(()) else Err(s.result.error), s.world)
  }

  /** The requests for a non-empty prefix of `cmds`: the first command's,
      then those for the rest of the prefix. */
  lemma ExecRequestsCons(eng: Engine, cmds: seq<string>, k: nat, d: Daemon)
    requires k < |cmds|
    ensures ExecRequests(eng, cmds[..k + 1], d) ==
              [Run(ExecArgs(eng.env.name, eng.env.execOptions, cmds[0], d))] + ExecRequests(eng, cmds[1..][..k], d)
  {
    assert cmds[..k + 1][0] == cmds[0] && cmds[..k + 1][1..] == cmds[1..][..k];
  }

  /** The setup commands from `cmds` on, stopping at the first that fails:
      on failure the log holds the requests up to and including the failing
      one. */
  function ExecFrom(eng: Engine, cmds: seq<string>, w: World, d: Daemon): (r: Step<()>)
    ensures r.world.status == w.status
    ensures r.result.Ok? ==> r.world.trace == w.trace + ExecRequests(eng, cmds, d)
    ensures r.result.Err? ==> && |w.trace| < |r.world.trace| <= |w.trace| + |cmds|
                              && r.world.trace == w.trace + ExecRequests(eng, cmds[..|r.world.trace| - |w.trace|], d)
    decreases |cmds|
  {
    if cmds == [] then Step(Ok(()), w)
    else
      var args := ExecArgs(eng.env.name, eng.env.execOptions, cmds[0], d);
      var s := RunWithOutput(args, w, d);
      if s.result.Err? then
        ExecRequestsCons(eng, cmds, 0, d);
        Step(Err(s.result.error), s.world)
      else
        var rest := ExecFrom(eng, cmds[1..], s.world, d);
        if rest.result.Ok? then
          ExecFromStepOk(eng, cmds, w, s.world, rest.world, d);
          rest
        else
          ExecFromStepErr(eng, cmds, w, s.world, rest.world, d);
          rest
  }

  /** How one successful setup command and the log of the rest make up the
      log of all of them. */
  lemma ExecFromStepOk(eng: Engine, cmds: seq<string>, w: World, mid: World, last: World, d: Daemon)
    requires cmds != []
    requires mid.trace == w.trace + [Run(ExecArgs(eng.env.name, eng.env.execOptions, cmds[0], d))]
    requires last.trace == mid.trace + ExecRequests(eng, cmds[1..], d)
    ensures last.trace == w.trace + ExecRequests(eng, cmds, d)
  {
    var head := [Run(ExecArgs(eng.env.name, eng.env.execOptions, cmds[0], d))];
    assert ExecRequests(eng, cmds, d) == head + ExecRequests(eng, cmds[1..], d);
    assert last.trace == w.trace + (head + ExecRequests(eng, cmds[1..], d));
  }

  /** How one successful setup command and the log of a failing rest make up
      the log of a failing whole. */
  lemma ExecFromStepErr(eng: Engine, cmds: seq<string>, w: World, mid: World, last: World, d: Daemon)
    requires cmds != []
    requires mid.trace == w.trace + [Run(ExecArgs(eng.env.name, eng.env.execOptions, cmds[0], d))]
    requires |mid.trace| < |last.trace| <= |mid.trace| + |cmds[1..]|
    requires last.trace == mid.trace + ExecRequests(eng, cmds[1..][..|last.trace| - |mid.trace|], d)
    ensures |w.trace| < |last.trace| <= |w.trace| + |cmds|
    ensures last.trace == w.trace + ExecRequests(eng, cmds[..|last.trace| - |w.trace|], d)
  {
    var head := [Run(ExecArgs(eng.env.name, eng.env.execOptions, cmds[0], d))];
    var m := |last.trace| - |mid.trace|;
    ExecRequestsCons(eng, cmds, m, d);
    assert last.trace == w.trace + (head + ExecRequests(eng, cmds[1..][..m], d));
  }

  /** The `docker exec` of setup command `cmd` in world `w`. */
  function ExecRun(eng: Engine, cmd: string, w: World, d: Daemon): Step<Output>
  {
    RunWithOutput(ExecArgs(eng.env.name, eng.env.execOptions, cmd, d), w, d)
  }

  /** The world the `i`-th of `cmds` runs in when every earlier one succeeded. */
  function ExecWorld(eng: Engine, cmds: seq<string>, i: nat, w: World, d: Daemon): World
    requires i <= |cmds|
  {
    World(w.status, w.trace + ExecRequests(eng, cmds[..i], d))
  }

  /** Once the first command has succeeded, the worlds of the rest are the
      worlds of the later commands of the whole list. */
  lemma ExecWorldShift(eng: Engine, cmds: seq<string>, i: nat, w: World, d: Daemon)
    requires i < |cmds| - 1
    ensures var mid := World(w.status, w.trace + [Run(ExecArgs(eng.env.name, eng.env.execOptions, cmds[0], d))]);
            && cmds[1..][i] == cmds[i + 1]
            && ExecWorld(eng, cmds[1..], i, mid, d) == ExecWorld(eng, cmds, i + 1, w, d)
  {
    ExecRequestsCons(eng, cmds, i, d);
  }

  /** Whether the `i`-th of `cmds` exits with status 0 in the world its
      predecessors leave. */
  predicate ExecOk(eng: Engine, cmds: seq<string>, i: nat, w: World, d: Daemon)
    requires i < |cmds|
  {
    ExecRun(eng, cmds[i], ExecWorld(eng, cmds, i, w, d), d).result.Ok?
  }

  /** The `k`-th of `cmds` fails with `e` after every earlier one succeeded. */
  predicate ExecFailsAt(eng: Engine, cmds: seq<string>, k: int, e: DockerError, w: World, d: Daemon)
  {
    && 0 <= k < |cmds|
    && (forall i | 0 <= i < k :: ExecOk(eng, cmds, i, w, d))
    && ExecRun(eng, cmds[k], ExecWorld(eng, cmds, k, w, d), d).result == Err(e)
  }

  /** After a successful first command, the outcome of each later command is
      that of the same command in the rest of the list. */
  lemma ExecRunsShift(eng: Engine, cmds: seq<string>, w: World, d: Daemon)
    requires cmds != []
    ensures var mid := World(w.status, w.trace + [Run(ExecArgs(eng.env.name, eng.env.execOptions, cmds[0], d))]);
            forall i | 0 <= i < |cmds| - 1 ::
              ExecRun(eng, cmds[1..][i], ExecWorld(eng, cmds[1..], i, mid, d), d) ==
              ExecRun(eng, cmds[i + 1], ExecWorld(eng, cmds, i + 1, w, d), d)
  {
    forall i | 0 <= i < |cmds| - 1 {
      ExecWorldShift(eng, cmds, i, w, d);
    }
  }

  /** The first command runs in the world the setup starts in, and a
      successful one leaves the container as it was. */
  lemma ExecFirst(eng: Engine, cmds: seq<string>, w: World, d: Daemon)
    requires cmds != []
    ensures ExecWorld(eng, cmds, 0, w, d) == w
    ensures var s := RunWithOutput(ExecArgs(eng.env.name, eng.env.execOptions, cmds[0], d), w, d);
            s.result.Ok? ==> s.world == World(w.status, w.trace + [Run(ExecArgs(eng.env.name, eng.env.execOptions, cmds[0], d))])
  {
    assert cmds[..0] == [];
  }

  /** The setup commands succeed exactly when each exits with status 0 in
      the world its predecessors leave. */
  lemma {:induction false} ExecFromSucceeds(eng: Engine, cmds: seq<string>, w: World, d: Daemon)
    ensures ExecFrom(eng, cmds, w, d).result.Ok? <==> forall i | 0 <= i < |cmds| :: ExecOk(eng, cmds, i, w, d)
    decreases |cmds|
  {
    if cmds != [] {
      ExecFirst(eng, cmds, w, d);
      var s := RunWithOutput(ExecArgs(eng.env.name, eng.env.execOptions, cmds[0], d), w, d);
      if s.result.Ok? {
        var mid := s.world;
        ExecFromSucceeds(eng, cmds[1..], mid, d);
        ExecRunsShift(eng, cmds, w, d);
        if forall i | 0 <= i < |cmds| - 1 :: ExecOk(eng, cmds[1..], i, mid, d) {
          forall i | 0 <= i < |cmds| ensures ExecOk(eng, cmds, i, w, d) {
            if i > 0 {
              assert ExecOk(eng, cmds[1..], i - 1, mid, d);
            }
          }
        } else {
          var i :| 0 <= i < |cmds| - 1 && !ExecOk(eng, cmds[1..], i, mid, d);
          assert !ExecOk(eng, cmds, i + 1, w, d);
        }
      } else {
        assert !ExecOk(eng, cmds, 0, w, d);
      }
    }
  }

  /** On failure the log says which setup command failed: every earlier one
      succeeded, and the error is the failing command's. */
  lemma {:induction false} ExecFromFailure(eng: Engine, cmds: seq<string>, w: World, d: Daemon)
    requires ExecFrom(eng, cmds, w, d).result.Err?
    ensures var r := ExecFrom(eng, cmds, w, d);
            ExecFailsAt(eng, cmds, |r.world.trace| - |w.trace| - 1, r.result.error, w, d)
    decreases |cmds|
  {
    var r := ExecFrom(eng, cmds, w, d);
    ExecFirst(eng, cmds, w, d);
    var args := ExecArgs(eng.env.name, eng.env.execOptions, cmds[0], d);
    var s := RunWithOutput(args, w, d);
    if s.result.Err? {
      assert r == Step(Err(s.result.error), s.world);
    } else {
      var mid := s.world;
      assert r == ExecFrom(eng, cmds[1..], mid, d);
      ExecFromFailure(eng, cmds[1..], mid, d);
      var k := |r.world.trace| - |mid.trace| - 1;
      ExecWorldShift(eng, cmds, k, w, d);
      forall i | 0 <= i < k + 1 ensures ExecOk(eng, cmds, i, w, d) {
        if i > 0 {
          ExecWorldShift(eng, cmds, i - 1, w, d);
          assert ExecOk(eng, cmds[1..], i - 1, mid, d);
        }
      }
    }
  }

  /** The outcome of the setup commands, both ways. */
  lemma SetupOutcome(eng: Engine, cmds: seq<string>, w: World, d: Daemon)
    ensures var r := ExecFrom(eng, cmds, w, d);
            && (r.result.Ok? <==> forall i | 0 <= i < |cmds| :: ExecOk(eng, cmds, i, w, d))
            && (r.result.Err? ==> ExecFailsAt(eng, cmds, |r.world.trace| - |w.trace| - 1, r.result.error, w, d))
  {
    ExecFromSucceeds(eng, cmds, w, d);
    if ExecFrom(eng, cmds, w, d).result.Err? {
      ExecFromFailure(eng, cmds, w, d);
    }
  }

  /** `exec_setup_commands`: one `docker exec` per setup command, in order,
      up to the first that fails, which decides the error. */
  function ExecSetupCommands(eng: Engine, w: World, d: Daemon): (r: Step<()>)
    ensures r.world.status == w.status
    ensures r.result.Ok? ==> r.world.trace == w.trace + ExecRequests(eng, eng.env.execCmds, d)
    ensures r.result.Err? ==> && |w.trace| < |r.world.trace| <= |w.trace| + |eng.env.execCmds|
                              && r.world.trace == w.trace + ExecRequests(eng, eng.env.execCmds[..|r.world.trace| - |w.trace|], d)
    ensures r.result.Ok? <==> forall i | 0 <= i < |eng.env.execCmds| :: ExecOk(eng, eng.env.execCmds, i, w, d)
    ensures r.result.Err? ==> ExecFailsAt(eng, eng.env.execCmds, |r.world.trace| - |w.trace| - 1, r.result.error, w, d)
  {
    SetupOutcome(eng, eng.env.execCmds, w, d);
    ExecFrom(eng, eng.env.execCmds, w, d)
  }

  /** `create_new_environment`: remove any old container, create, start,
      then run the setup commands, stopping at the first failure. */
  function CreateNewEnvironment(rev: Revision, eng: Engine, w: World, d: Daemon): (r: Step<()>)
    ensures r.result.Ok? ==> r.world.status == Running
    ensures var deleted := DeleteContainer(rev, w, d);
            var created := CreateContainer(eng, deleted.world, d);
            var started := StartContainer(created.world, d);
            && (deleted.result.Err? ==> r == deleted)
            && (deleted.result.Ok? && created.result.Err? ==> r == created)
            && (deleted.result.Ok? && created.result.Ok? && started.result.Err? ==> r == started)
            && (r.result.Ok? <==> && deleted.result.Ok? && created.result.Ok? && started.result.Ok?
                                  && ExecSetupCommands(eng, started.world, d).result.Ok?)
            && (r.result.Ok? ==> r.world.trace == started.world.trace + ExecRequests(eng, eng.env.execCmds, d))
            && (deleted.result.Ok? && created.result.Ok? && started.result.Ok? ==>
                  r == ExecSetupCommands(eng, started.world, d))
  {
    var deleted := DeleteContainer(rev, w, d);
    if deleted.result.Err? then deleted
    else
      var created := CreateContainer(eng, deleted.world, d);
      if created.result.Err? then created
      else
        var started := StartContainer(created.world, d);
        if started.result.Err? then started
        else ExecSetupCommands(eng, started.world, d)
  }

  /** On success the engine has asked for exactly: a listing, a removal if a
      container was listed, the creation, the start and one exec per setup
      command, in that order. */
  lemma CreateNewEnvironmentTrace(rev: Revision, eng: Engine, w: World, d: Daemon)
    requires CreateNewEnvironment(rev, eng, w, d).result.Ok?
    ensures CreateNewEnvironment(rev, eng, w, d).world.trace ==
              w.trace + (if w.status != Absent then [List, Remove] else [List])
              + [Run(CreateArgs(eng, d)), Start] + ExecRequests(eng, eng.env.execCmds, d)
  {
    var deleted := DeleteContainer(rev, w, d);
    var created := CreateContainer(eng, deleted.world, d);
    var started := StartContainer(created.world, d);
    assert started.world.trace == deleted.world.trace + [Run(CreateArgs(eng, d)), Start];
  }

  // ------------------------------------------------------------ entering

  /** Why entering failed, judged by the exit status of `docker exec`: 125,
      126 and 127 are docker's own failures, no status means a signal, and
      every other status (130 after Ctrl+C included) is the user's session
      ending. */
  function EnterFailure(code: Option<int>): (r: Option<string>)
    ensures r.None? <==> code.Some? && code.value != 125 && code.value != 126 && code.value != 127
  {
    match code
    case Some(c) =>
      if c == 125 then Some("Docker exec failed to run")
      else if c == 126 then Some("Command cannot execute")
      else if c == 127 then Some("Command not found")
      else None
    case None => Some("Container was exited by signal")
  }

  /** Each failure has its own reason. */
  lemma EnterFailureReasonsDistinct(c1: Option<int>, c2: Option<int>)
    requires EnterFailure(c1).Some? && EnterFailure(c2).Some?
    ensures EnterFailure(c1) == EnterFailure(c2) <==> c1 == c2
  {
    var r1, r2 := EnterFailure(c1).value, EnterFailure(c2).value;
    if c1 != c2 {
      assert r1[0] != r2[0] || r1[|r1| - 1] != r2[|r2| - 1] || |r1| != |r2|;
    }
  }

  /** `is_anyone_connected`: `ls /dev/pts` in the container lists more than
      two entries. */
  function IsAnyoneConnected(eng: Engine, w: World, d: Daemon): (r: Step<bool>)
    ensures r.world.trace == w.trace + [Run(["exec", eng.env.name, "ls", "/dev/pts"])]
    ensures r.world.status == w.status
    ensures var exit := d.exit(Run(["exec", eng.env.name, "ls", "/dev/pts"]), w);
            r.result.Ok? <==> exit.Exited? && exit.code == Some(0)
    ensures r.result.Ok? ==>
              (r.result.value <==> LineCount(d.exit(Run(["exec", eng.env.name, "ls", "/dev/pts"]), w).stdout) > 2)
  {
    var s := RunWithOutput(["exec", eng.env.name, "ls", "/dev/pts"], w, d);
    match s.result
    case Err(e) => Step(Err(e), s.world)
    case Ok(out) => Step(Ok(LineCount(out.stdout) > 2), s.world)
  }

  /** The arguments of the interactive `docker exec` that enters the
      environment. */
  function EnterArgs(eng: Engine, d: Daemon): seq<string>
  {
    ExecArgs(eng.env.name, eng.env.entryOptions, eng.env.entryCmd, d)
  }

  /** After the session: stop the container if it is running and nobody else
      is attached to it. */
  function StopIfUnused(eng: Engine, w: World, d: Daemon): (r: Step<()>)
    ensures r.result.Ok? ==> r.world.status == w.status || r.world.status == Stopped
    ensures var running := IsContainerRunning(w, d);
            var connected := IsAnyoneConnected(eng, running.world, d);
            && (running.result.Err? ==> r.result.Err?)
            && (running.result.Ok? && !running.result.value ==> r == Step(Ok(()), running.world))
            && (running.result.Ok? && running.result.value && connected.result.Ok? && connected.result.value ==>
                  r == Step(Ok(()), connected.world))
            && (running.result.Ok? && running.result.value && connected.result.Ok? && !connected.result.value ==>
                  r == StopContainer(connected.world, d))
  {
    var running := IsContainerRunning(w, d);
    match running.result
    case Err(e) => Step(Err(e), running.world)
    case Ok(isRunning) =>
      if !isRunning then Step(Ok(()), running.world)
      else
        var connected := IsAnyoneConnected(eng, running.world, d);
        match connected.result
        case Err(e) => Step(Err(e), connected.world)
        case Ok(anyone) => if anyone then Step(Ok(()), connected.world) else StopContainer(connected.world, d)
  }

  /** `enter_environment`. */
  function EnterEnvironment(eng: Engine, w: World, d: Daemon): (r: Step<()>)
    ensures r.result.Ok? ==> r.world.status == w.status || r.world.status == Stopped
    ensures var exit := d.exit(Attach(EnterArgs(eng, d)), w);
            var attached := Log(w, Attach(EnterArgs(eng, d)));
            && (exit.SpawnFailed? ==> r == Step(Err(CommandFailed(CommandText(EnterArgs(eng, d), d))), attached))
            && (exit.Exited? && EnterFailure(exit.code).Some? ==>
                  r == Step(Err(EnterExecFailure(EnterFailure(exit.code).value)), attached))
            && (exit.Exited? && EnterFailure(exit.code).None? ==> r == StopIfUnused(eng, attached, d))
  {
    var args := EnterArgs(eng, d);
    var exit := d.exit(Attach(args), w);
    var attached := Log(w, Attach(args));
    if exit.SpawnFailed? then Step(Err(CommandFailed(CommandText(args, d))), attached)
    else
      match EnterFailure(exit.code)
      case Some(reason) => Step(Err(EnterExecFailure(reason)), attached)
      case None => StopIfUnused(eng, attached, d)
  }

  /** After a session that ended normally and a successful check, the
      container is stopped exactly when it was running and `ls /dev/pts`
      listed at most two entries. */
  lemma EnterStopsIffUnused(eng: Engine, w: World, d: Daemon)
    requires d.exit(Attach(EnterArgs(eng, d)), w).Exited?
    requires EnterFailure(d.exit(Attach(EnterArgs(eng, d)), w).code).None?
    requires EnterEnvironment(eng, w, d).result.Ok?
    ensures var attached := Log(w, Attach(EnterArgs(eng, d)));
            var ls := Run(["exec", eng.env.name, "ls", "/dev/pts"]);
            var listed := Log(attached, List);
            var r := EnterEnvironment(eng, w, d);
            (Stop in r.world.trace[|w.trace|..]) <==>
              w.status == Running && LineCount(d.exit(ls, listed).stdout) <= 2
  {
    var attached := Log(w, Attach(EnterArgs(eng, d)));
    var listed := Log(attached, List);
    var ls := Run(["exec", eng.env.name, "ls", "/dev/pts"]);
    var r := EnterEnvironment(eng, w, d);
    var tail := r.world.trace[|w.trace|..];
    if w.status == Running {
      var connected := IsAnyoneConnected(eng, listed, d);
      if LineCount(d.exit(ls, listed).stdout) <= 2 {
        assert tail == [Attach(EnterArgs(eng, d)), List, ls, Stop];
      } else {
        assert tail == [Attach(EnterArgs(eng, d)), List, ls];
      }
    } else {
      assert tail == [Attach(EnterArgs(eng, d)), List];
    }
  }
}
