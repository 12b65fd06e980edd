/** src/main.rs: the `build` and `up` flows and what `main` does when they
    fail and when the container is to be cleaned up. */
module App {
  import opened Util
  import opened ConfigTypes
  import opened Resolution
  import opened Cli
  import opened Configuration
  import opened Docker

  /** The errors `main` returns: those of the command line, of resolution and
      of the engine, and an action's error wrapped by the error of the stop
      that followed it. */
  datatype AppError =
    | CliFailure(cli: CliError)
    | ConfigFailure(config: ConfigError)
    | DockerFailure(docker: DockerError)
    | Wrapped(error: AppError, context: DockerError)

  /** What `main` ends with, and the world it leaves. */
  datatype Outcome = Outcome(result: Result<(), AppError>, world: World)

  /** `build`: a fresh environment, then the container stopped. */
  function BuildFlow(rev: Revision, eng: Engine, w: World, d: Daemon): (r: Step<()>)
    ensures r.result.Ok? ==> r.world.status == Stopped
    ensures CreateNewEnvironment(rev, eng, w, d).result.Err? ==> r == CreateNewEnvironment(rev, eng, w, d)
    ensures CreateNewEnvironment(rev, eng, w, d).result.Ok? ==> r == StopContainer(CreateNewEnvironment(rev, eng, w, d).world, d)
  {
    var created := CreateNewEnvironment(rev, eng, w, d);
    if created.result.Err? then created else StopContainer(created.world, d)
  }

  /** Enters the environment once the step before has succeeded. */
  function ThenEnter(eng: Engine, s: Step<()>, d: Daemon): (r: Step<()>)
    ensures s.result.Err? ==> r == s
    ensures s.result.Ok? ==> r == EnterEnvironment(eng, s.world, d)
  {
    if s.result.Err? then s else EnterEnvironment(eng, s.world, d)
  }

  /** `up`: a container that does not exist yet is created as a fresh
      environment, an existing one is only started; either way the user is
      then put inside it. */
  function UpFlow(rev: Revision, eng: Engine, w: World, d: Daemon): (r: Step<()>)
    ensures d.refusal(List, w).Some? ==>
              r == Step(Err(ListingContainers(d.refusal(List, w).value)), Log(w, List))
    ensures d.refusal(List, w).None? && w.status == Absent ==>
              r == ThenEnter(eng, CreateNewEnvironment(rev, eng, Log(w, List), d), d)
    ensures d.refusal(List, w).None? && w.status != Absent ==>
              r == ThenEnter(eng, StartContainer(Log(w, List), d), d)
    ensures r.result.Ok? ==> r.world.status == Running || r.world.status == Stopped
  {
    var exists_ := DoesEnvironmentExist(w, d);
    match exists_.result
    case Err(e) => Step(Err(e), exists_.world)
    case Ok(present) =>
      if !present then ThenEnter(eng, CreateNewEnvironment(rev, eng, exists_.world, d), d)
      else ThenEnter(eng, StartContainer(exists_.world, d), d)
  }

  /** The optional cleanup at the end of `main`: the container is deleted if
      it exists. */
  function Cleanup(rev: Revision, cleanup: bool, w: World, d: Daemon): (r: Outcome)
    ensures !cleanup ==> r == Outcome(Ok(()), w)
    ensures cleanup ==> r.world == DeleteContainer(rev, w, d).world
    ensures cleanup ==> (r.result.Ok? <==> DeleteContainer(rev, w, d).result.Ok?)
    ensures cleanup ==> (r.result.Ok? <==> d.refusal(List, w).None? && (w.status != Absent ==> d.refusal(Remove, Log(w, List)).None?))
    ensures cleanup && r.result.Ok? ==> r.world.status == Absent
    ensures r.result.Err? ==> r.result.error == DockerFailure(DeleteContainer(rev, w, d).result.error)
  {
    if cleanup then
      var deleted := DeleteContainer(rev, w, d);
      match deleted.result
      case Err(e) => Outcome(Err(DockerFailure(e)), deleted.world)
      case Ok(_) => Outcome(Ok(()), deleted.world)
    else Outcome(Ok(()), w)
  }

  /** The action's result: `up` or `build`. */
  function Perform(rev: Revision, action: Action, eng: Engine, w: World, d: Daemon): Step<()>
    requires action != View
  {
    if action == Up then UpFlow(rev, eng, w, d) else BuildFlow(rev, eng, w, d)
  }

  /** `main` from the action on: a failed action is followed by a stop; if
      the stop fails too, the action's error is returned wrapped by the
      stop's; otherwise the failure is dropped and `main` carries on to the
      cleanup. */
  function Finish(rev: Revision, action: Action, cleanup: bool, eng: Engine, w: World, d: Daemon): (r: Outcome)
    requires action != View
    ensures var acted := Perform(rev, action, eng, w, d);
            var stopped := StopContainer(acted.world, d);
            && (acted.result.Ok? ==> r == Cleanup(rev, cleanup, acted.world, d))
            && (acted.result.Err? && stopped.result.Err? ==>
                  r == Outcome(Err(Wrapped(DockerFailure(acted.result.error), stopped.result.error)), stopped.world))
            && (acted.result.Err? && stopped.result.Ok? ==> r == Cleanup(rev, cleanup, stopped.world, d))
    ensures r.result.Err? ==> r.result.error.DockerFailure? || r.result.error.Wrapped?
  {
    var acted := Perform(rev, action, eng, w, d);
    match acted.result
    case Ok(_) => Cleanup(rev, cleanup, acted.world, d)
    case Err(failure) =>
      var stopped := StopContainer(acted.world, d);
      match stopped.result
      case Err(stopError) => Outcome(Err(Wrapped(DockerFailure(failure), stopError)), stopped.world)
      case Ok(_) => Cleanup(rev, cleanup, stopped.world, d)
  }

  /** A failed action whose container then stops, followed by no cleanup or
      a successful one, ends `main` successfully: the action's error is lost. */
  lemma RecoveredFailureIsDropped(rev: Revision, action: Action, cleanup: bool, eng: Engine, w: World, d: Daemon)
    requires action != View
    requires Perform(rev, action, eng, w, d).result.Err?
    requires StopContainer(Perform(rev, action, eng, w, d).world, d).result.Ok?
    requires cleanup ==> DeleteContainer(rev, StopContainer(Perform(rev, action, eng, w, d).world, d).world, d).result.Ok?
    ensures Finish(rev, action, cleanup, eng, w, d).result == Ok(())
  {
  }

  /** An error returned from `main` after a failed action always names the
      action's error, wrapped in the stop's. */
  lemma ReturnedFailureKeepsCause(rev: Revision, action: Action, cleanup: bool, eng: Engine, w: World, d: Daemon)
    requires action != View
    requires Perform(rev, action, eng, w, d).result.Err?
    requires Finish(rev, action, cleanup, eng, w, d).result.Err?
    ensures var r := Finish(rev, action, cleanup, eng, w, d).result.error;
            r.Wrapped? ==> r.error == DockerFailure(Perform(rev, action, eng, w, d).result.error)
  {
  }

  /** When `main` succeeds with cleanup asked for, no container is left; a
      successful build without cleanup leaves it stopped. */
  lemma FinishLeaves(rev: Revision, action: Action, cleanup: bool, eng: Engine, w: World, d: Daemon)
    requires action != View
    requires Finish(rev, action, cleanup, eng, w, d).result.Ok?
    ensures cleanup ==> Finish(rev, action, cleanup, eng, w, d).world.status == Absent
    ensures !cleanup && action == Build ==> Finish(rev, action, cleanup, eng, w, d).world.status == Stopped
  {
  }

  /** `main` once the environment is resolved: connect the engine, then
      act; a failed connection asks nothing of the daemon. */
  function Connected(rev: Revision, app: AppConfig, env: Environment, host: Host, d: Daemon, w: World): (r: Outcome)
    requires app.action != View
    ensures d.connectError.Some? ==> r == Outcome(Err(DockerFailure(ConnectingToDaemon(d.connectError.value))), w)
    ensures d.connectError.None? ==> r == Finish(rev, app.action, app.cleanup, New(env, host.hash, d).value, w, d)
    ensures r.result.Err? ==> r.result.error.DockerFailure? || r.result.error.Wrapped?
  {
    var eng := New(env, host.hash, d);
    if eng.Err? then Outcome(Err(DockerFailure(eng.error)), w)
    else Finish(rev, app.action, app.cleanup, eng.value, w, d)
  }

  /** `main` once the command line is read: resolve the environment,
      connect the engine, then act. Nothing is asked of the daemon until the
      environment is resolved and the engine connected. */
  function LaunchWith(rev: Revision, app: AppConfig, cfg: TomlConfiguration, doc: Document,
                      order: seq<string>, host: Host, d: Daemon, w: World): (r: Outcome)
    requires app.action != View
    requires Enumerates(order, cfg.environments)
    ensures var found := FindEnvironment(rev, cfg, doc, order, app, host);
            && (found.Err? ==> r == Outcome(Err(ConfigFailure(found.error)), w))
            && (found.Ok? ==> r == Connected(rev, app, found.value, host, d, w))
    ensures r.world != w ==> Accepted(cfg) && app.environment in cfg.environments && d.connectError.None?
    ensures r.result.Err? && r.result.error.ConfigFailure? ==> r.world == w
  {
    var found := FindEnvironment(rev, cfg, doc, order, app, host);
    if found.Err? then Outcome(Err(ConfigFailure(found.error)), w)
    else Connected(rev, app, found.value, host, d, w)
  }

  /** `main`: the command line, the configuration, the engine, then the
      action. Resolution works on the parsed configuration `cfg` of the chosen
      file, with its span index `doc`. A failure before the action leaves the
      world as it was. The program as written is `Launch(AsWritten, ...)`. */
  function Launch(rev: Revision, flags: Flags, vars: AppEnvVar, files: Files, cfg: TomlConfiguration, doc: Document,
                  order: seq<string>, host: Host, d: Daemon, w: World): (r: Outcome)
    requires !(flags.view && flags.build) && !flags.view
    requires Enumerates(order, cfg.environments)
    ensures NewAppConfig(flags, vars, files).Err? ==>
              r == Outcome(Err(CliFailure(NewAppConfig(flags, vars, files).error)), w)
    ensures NewAppConfig(flags, vars, files).Ok? ==>
              r == LaunchWith(rev, NewAppConfig(flags, vars, files).value, cfg, doc, order, host, d, w)
    ensures r.world != w ==> NewAppConfig(flags, vars, files).Ok? && Accepted(cfg) && flags.environment in cfg.environments
    ensures r.world != w ==> d.connectError.None?
    ensures r.result.Err? && r.result.error.ConfigFailure? ==> r.world == w
  {
    var app := NewAppConfig(flags, vars, files);
    if app.Err? then Outcome(Err(CliFailure(app.error)), w)
    else LaunchWith(rev, app.value, cfg, doc, order, host, d, w)
  }
}
