/** src/cli.rs: the action chosen by the command-line flags and the
    configuration file the program will read. */
module Cli {
  import opened Util
  import opened Paths

  datatype Action = Up | Build | View

  /** `CliError`, without the parser's own `BadInput`. */
  datatype CliError =
    | NoConfigAtProvidedPath(path: string)
    | NoConfigInStandardLocation

  /** What the program runs with. */
  datatype AppConfig = AppConfig(configPath: string, action: Action, cleanup: bool, environment: string)

  /** The parsed command line. `--build` and `--view` belong to one argument
      group, so the parser never yields both. */
  datatype Flags = Flags(configPath: Option<string>, cleanup: bool, build: bool, view: bool, environment: string)

  /** The file-system questions asked about candidate configuration paths. */
  datatype Files = Files(isPresent: string -> bool, isFile: string -> bool)

  /** The action of `AppConfig::new`: `--view` views, `--build` builds, and
      with neither flag the environment is brought up. */
  function SelectAction(view: bool, build: bool): (r: Action)
    requires !(view && build)
    ensures r == View <==> view
    ensures r == Build <==> build
    ensures r == Up <==> !view && !build
  {
    if view then View else if build then Build else Up
  }

  /** The flags that ask for an action. */
  function ActionFlags(a: Action): (r: (bool, bool))
    ensures !(r.0 && r.1)
  {
    match a
    case View => (true, false)
    case Build => (false, true)
    case Up => (false, false)
  }

  /** Flags and actions correspond one to one. */
  lemma ActionRoundTrip(a: Action, view: bool, build: bool)
    requires !(view && build)
    ensures SelectAction(ActionFlags(a).0, ActionFlags(a).1) == a
    ensures ActionFlags(SelectAction(view, build)) == (view, build)
  {
  }

  const XdgConfigHome := "XDG_CONFIG_HOME"
  const Home := "HOME"

  /** The standard location under the directory held in variable `name`, if
      that variable is set and the location exists. */
  function StandardCandidate(vars: AppEnvVar, name: string, files: Files): (r: Option<string>)
    ensures r.Some? <==> Var(vars, name).Some? && files.isPresent(StandardConfigPath(Var(vars, name).value))
    ensures r.Some? ==> r.value == StandardConfigPath(Var(vars, name).value)
  {
    match Var(vars, name)
    case None => None
    case Some(dir) =>
      var path := StandardConfigPath(dir);
      if files.isPresent(path) then Some(path) else None
  }

  /** `set_config_path`: an explicit path must exist and be a file; otherwise
      the standard location under `$XDG_CONFIG_HOME` is preferred to the one
      under `$HOME`, and either needs only to exist. */
  function SetConfigPath(given: Option<string>, vars: AppEnvVar, files: Files): (r: Result<string, CliError>)
    ensures given.Some? ==>
              if files.isPresent(given.value) && files.isFile(given.value) then r == Ok(given.value)
              else r == Err(NoConfigAtProvidedPath(given.value))
    ensures given.None? && Var(vars, XdgConfigHome).Some? &&
            files.isPresent(StandardConfigPath(Var(vars, XdgConfigHome).value)) ==>
              r == Ok(StandardConfigPath(Var(vars, XdgConfigHome).value))
    ensures given.None? && StandardCandidate(vars, XdgConfigHome, files).None? ==>
              if Var(vars, Home).Some? && files.isPresent(StandardConfigPath(Var(vars, Home).value))
              then r == Ok(StandardConfigPath(Var(vars, Home).value))
              else r == Err(NoConfigInStandardLocation)
    ensures r.Ok? ==> files.isPresent(r.value)
  {
    match given
    case Some(path) =>
      if files.isPresent(path) && files.isFile(path) then Ok(path) else Err(NoConfigAtProvidedPath(path))
    case None =>
      match StandardCandidate(vars, XdgConfigHome, files)
      case Some(path) => Ok(path)
      case None =>
        match StandardCandidate(vars, Home, files)
        case Some(path) => Ok(path)
        case None => Err(NoConfigInStandardLocation)
  }

  /** `AppConfig::new` after the command line has been parsed. */
  function NewAppConfig(flags: Flags, vars: AppEnvVar, files: Files): (r: Result<AppConfig, CliError>)
    requires !(flags.view && flags.build)
    ensures r.Ok? <==> SetConfigPath(flags.configPath, vars, files).Ok?
    ensures r.Ok? ==> && r.value.configPath == SetConfigPath(flags.configPath, vars, files).value
                      && r.value.action == SelectAction(flags.view, flags.build)
                      && r.value.cleanup == flags.cleanup
                      && r.value.environment == flags.environment
    ensures r.Err? ==> r.error == SetConfigPath(flags.configPath, vars, files).error
  {
    var action := SelectAction(flags.view, flags.build);
    var path :- SetConfigPath(flags.configPath, vars, files);
    Ok(AppConfig(path, action, flags.cleanup, flags.environment))
  }
}
