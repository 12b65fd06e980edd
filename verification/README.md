# berth, modelled in Dafny

berth starts development environments described in a TOML file. Each
environment is a Docker container. This project models berth's core as pure
Dafny functions over immutable data and proves properties of them:

- **Resolution.** `find_environment_from_configuration` takes the parsed
  file, a map of `environment` tables and a map of `preset` tables. It checks
  that every referenced preset exists and that each single-valued field has
  at most one source. It then merges the presets into the environments,
  validates every environment, and builds the requested one:
  - options are expanded;
  - the Dockerfile path is resolved;
  - the image name is derived from the file's digest;
  - the identity name `berth-<name>-<hash>` is formed.
- **`Environment::view`.** Writes a resolved environment back as a TOML table.
- **`ContainerEngine`.** Holds the engine's requests to the Docker daemon and
  to the `docker` command line. The daemon is a state machine: the container
  is `Absent`, `Created`, `Running` or `Stopped`, and every request is
  recorded in a trace. A `Daemon` value decides which requests fail and what
  each spawned command prints and exits with.
- **`main`.** The `up` and `build` flows; the stop that follows a failed
  action; the wrapped error when that stop fails too; and the optional
  cleanup.
- **Command line.** The action chosen by the flags, and where the
  configuration file is looked for.
- **`AppEnvVar`** and the `unexpected` conversions of `Option` and `Result`.

Two functions of the program are defective (see "## Findings"). Every
operation that reaches one of them takes a `Revision`. `AsWritten` follows
berth as it is: `Launch(AsWritten, ...)` is `main`. `Corrected` swaps in the
fixed function and changes nothing else. Each lemma states which revision it
covers; most hold for both.

Modules follow the program's files:

| module | file | covers |
|---|---|---|
| `Util` | util.dfy | `AppEnvVar`, `unexpected`, `Option`/`Result` |
| `Format` | format.dfy | decimal, `{:016x}`, byte hex, ASCII lower case, line counting |
| `StringOrder` | string_order.dfy | the sorted preset names |
| `Paths` | paths.dfy | absolute paths, `join`, the standard config location |
| `ConfigTypes` | config_types.dfy | `TomlEnvironment`, `TomlPreset`, `ConfigError`, the span index `Document` |
| `Presets` | presets.dfy | `check_presets_exist`, `valid_unique_fields`, `merge_presets` |
| `Validation` | validation.dfy | `validate_environments` |
| `Resolution` | resolution.dfy | `create_environment`, `validate_dockerfile`, `generate_image_name` |
| `EnvView` | env_view.dfy | `Environment::view` |
| `Configuration` | configuration.dfy | the whole pipeline |
| `Cli` | cli.dfy | `AppConfig::new`, `set_config_path` |
| `Docker` | docker.dfy | `ContainerEngine` |
| `App` | app.dfy | `build`, `up`, `main` |

The model treats several things as inputs:

- **Hashing.** `DefaultHasher` and SHA-256 are fields of the `Host` oracle.
  So are `envmnt::expand`, parent-directory lookup, `exists`, `is_file`,
  `canonicalize` and file reading.
- **Shell words.** `shell_words::split` and `join` are fields of the `Daemon`
  oracle.
- **Spans.** The TOML library's span lookups form a `Document`. Each lookup
  answers `None` when the chained `get`s of the program would.
- **Map order.** The iteration order of Rust's `HashMap` is a parameter
  `order` that enumerates the map's keys. The pipeline's properties hold
  for every such order.

## Model

| member | source | states |
|---|---|---|
| Util.OptionUnexpected | src/util.rs:76-89 | `Some(x)` becomes `Ok(x)`; `None` becomes the unexpected-None error, and only `None` fails |
| Util.ResultUnexpected | src/util.rs:59-73 | `Ok(x)` is kept; `Err(e)` becomes an unexpected error carrying `e`'s text, and only `Err` fails |
| Util.UnexpectedKeepsValues | src/util.rs:59-89 | The conversions lose no successful value: the original can be rebuilt from a successful result, and a failure comes only from a failure |
| Util.Var | src/util.rs:22-24 | A variable has a value exactly when it is in the map, and the value is the map's |
| Util.SetVar | src/util.rs:17-20 | After `set_var(k, v)`, `var(k)` is `v`; every other variable reads as before; the key set gains only `k` |
| Util.SetVarOverwrites | src/util.rs:17-20 | Setting a key twice is the same as setting it to the second value |
| Util.SetVarCommutes | src/util.rs:17-20 | Settings of different keys commute |
| Format.DecimalRoundTrip | src/configuration.rs:294 | The number in an `instance {}` label reads back as the number written |
| Format.DecimalInjective | src/configuration.rs:314 | Different instance numbers print differently |
| Format.Hex16 | src/configuration.rs:491-493 | `{:016x}` of a 64-bit hash is 16 lower-case hex digits that read back as the hash |
| Format.HexRoundTrip | src/configuration.rs:493 | Zero-padded hex of a number that fits the width reads back as the number |
| Format.HexBytes | src/configuration.rs:560-565 | The digest prints as two lower-case hex digits per byte, each pair reading back as its byte |
| Format.AsciiLower | src/configuration.rs:563 | Lower-casing keeps the length, maps each character on its own, and leaves no upper-case letter |
| Format.AsciiLowerIdempotent | src/configuration.rs:563 | Lower-casing twice is lower-casing once |
| Format.LineCountOfTerminated | src/docker.rs:222 | Output made of `n` newline-terminated lines counts as `n` lines |
| Format.Utf8Length | src/configuration.rs:448 | The UTF-8 length of a text is between its character count and four times it, and equals the character count exactly when every character is ASCII |
| Format.Utf8LengthAppend | src/configuration.rs:448 | The UTF-8 length of a concatenation is the sum of the lengths |
| Paths.Join | src/configuration.rs:506-516 | Joining onto an absolute path yields that path, and joining onto an absolute base stays absolute |
| Paths.JoinRelative | src/configuration.rs:509-515 | A relative Dockerfile path is placed under the config file's directory with one separator |
| Paths.StandardConfigPathShape | src/cli.rs:107-110 | The standard location is `<dir>/.config/berth/config.toml` |
| StringOrder.SortedNames | src/configuration.rs:301-302 | The preset names are listed once each, and the list is exactly as long as the set |
| StringOrder.SortedNamesSorted | src/configuration.rs:301-302 | The listed names are in strictly increasing order |
| StringOrder.LeastUnique | src/configuration.rs:302 | A set of names has at most one least element, so the sorted order is determined |
| ConfigTypes.Located | src/configuration.rs:246-248 | A span lookup succeeds exactly when the span exists; a missing span is the unexpected-None error |
| ConfigTypes.EntrySpan | src/configuration.rs:263-280 | A field's span runs from the start of its key to the end of its value, and fails exactly when the entry is missing |
| Presets.FirstUnknown | src/configuration.rs:231-232 | Finds a referenced preset the file does not define, or reports that there is none. The one found is the first unknown reference of the list |
| Presets.CheckPresetsExist | src/configuration.rs:229-260 | Passes the configuration on unchanged exactly when every environment's presets exist. Otherwise the error is `UnknownPreset`, or unexpected when the span is missing. With all spans available, the error is `UnknownPreset` for some missing reference |
| Presets.CheckPresetsExistSound | src/configuration.rs:229-260 | For any iteration order, the check passes exactly when every environment's references are known, and it reports an unknown preset when spans are available |
| Presets.NumberedLabelsDistinct | src/configuration.rs:294-316 | The `instance k` labels of the duplicate report are pairwise different |
| Presets.CountSettingIsCardinality | src/configuration.rs:299-318 | Walking the sorted preset names counts exactly the presets of the file that set the field |
| Presets.Setters | src/configuration.rs:301-318 | The presets among a list that set the field: as many as are counted, and a name is kept exactly when its preset sets the field |
| Presets.SettersSorted | src/configuration.rs:301-318 | Keeping only the setters of a strictly sorted list leaves it strictly sorted |
| Presets.SortedSetters | src/configuration.rs:301-318 | The presets of the file that set the field, in strictly increasing name order, each exactly once |
| Presets.CollectPresetSources | src/configuration.rs:304-318 | One label is appended per preset that sets the field. With spans available it always succeeds; its only failure is the unexpected-None error |
| Presets.CollectedExtends | src/configuration.rs:304-318 | Collecting only appends: the labels already collected stay in front, and the `instance k` numbering continues from them |
| Presets.CollectedSpans | src/configuration.rs:304-318 | The appended labels point, in order, at the entries for the field of the presets that set it |
| Presets.PresetSources | src/configuration.rs:299-318 | Collecting over the file's presets in sorted order adds one numbered label per preset that sets the field, each pointing at that preset's entry in sorted-name order |
| Presets.PresetSourcesCount | src/configuration.rs:299-318 | Collecting over the file's presets adds exactly as many labels as there are presets that set the field |
| Presets.OwnSource | src/configuration.rs:285-297 | The environment contributes one label, `instance 1`, exactly when it sets the field itself, and that label points at its own entry for the field |
| Presets.Sources | src/configuration.rs:282-318 | The labels number the field's sources: first the environment's own entry if it sets the field, then the entry of each preset of the file that sets it, in sorted-name order |
| Presets.CheckUnique | src/configuration.rs:282-351 | A field passes exactly when it has at most one source. A duplicate report lists sources + 1 labels: the sources, numbered and located as collected, then `Preset(s) causing duplicate` at the `presets` entry |
| Presets.UniqueSourcesByField | src/configuration.rs:353-357 | An environment is unique when each of `entry_cmd`, `image` and `dockerfile` is |
| Presets.CheckEnvironmentUnique | src/configuration.rs:353-357 | An environment passes exactly when all three fields have at most one source |
| Presets.ValidUniqueFields | src/configuration.rs:262-359 | With spans available, the check passes exactly when every environment has unique sources. It returns the configuration unchanged, and fails only with a duplicate report or an unexpected error |
| Presets.UnreferencedPresetCounts | src/configuration.rs:301-318 | A preset no environment references still counts as a source: an environment with its own image fails when any preset in the file sets one |
| Presets.ApplyPreset | src/configuration.rs:366-382 | A preset's non-empty scalar replaces the environment's value, and each list gains the preset's entries at its end |
| Presets.MergePresets | src/configuration.rs:361-387 | Merging succeeds exactly when every reference is known, and then yields every environment with its presets applied |
| Presets.Merged | src/configuration.rs:361-387 | The merged map has the same environments, each merged with its own presets |
| Presets.OverrideIsLastNonEmpty | src/configuration.rs:363-376 | A merged scalar is the last non-empty preset value, or the environment's own value when no preset sets it |
| Presets.OverrideAppend | src/configuration.rs:363-376 | Applying presets one list after another equals applying their concatenation |
| Presets.MergeFromScalars | src/configuration.rs:361-387 | After merging, each scalar is the override of the preset values in list order |
| Presets.MergeFromLists | src/configuration.rs:361-387 | After merging, each list is the environment's own followed by the presets' lists in order |
| Presets.MergeFromSpec | src/configuration.rs:361-387 | After merging, each scalar is the override of the preset values in list order, and each list is the environment's own followed by the presets' lists in order |
| Presets.OverrideOfSingleSource | src/configuration.rs:262-387 | With at most one non-empty source, the override yields that source |
| Validation.Problem | src/configuration.rs:402-433 | An environment is rejected exactly when it is invalid: a missing entry command first, then a missing image and Dockerfile, then both set |
| Validation.ProblemsDistinct | src/configuration.rs:407-427 | The three validation messages differ |
| Validation.ValidateEnvironments | src/configuration.rs:389-437 | Passes the map on unchanged exactly when every enumerated environment is valid; otherwise it reports one invalid environment |
| Validation.ValidateAll | src/configuration.rs:401-436 | For any iteration order, validation passes exactly when every environment is valid, whichever is requested |
| Validation.InvalidReported | src/configuration.rs:389-437 | Any invalid environment in the map makes validation fail with `EnvironmentValidation` when its table is located |
| Resolution.Identity | src/configuration.rs:491-493 | The identity name has length 6 + name + 1 + 16 |
| Resolution.IdentityParts | src/configuration.rs:493 | The identity name is `berth-`, the name, `-`, then 16 hex digits reading back as the hash |
| Resolution.IdentityInjective | src/configuration.rs:493 | Different names or hashes give different identity names |
| Resolution.ExpandAll | src/configuration.rs:455-467 | Expansion acts element-wise and keeps the list's length |
| Resolution.ResolveDockerfilePath | src/configuration.rs:499-516 | An absolute path is kept; a relative one is joined to the config file's parent; with no parent the error is `FailedToInteractWithDockerfile` |
| Resolution.ValidateDockerfileAsWritten | src/configuration.rs:498-540 | As written: a missing file is reported at the environment's own `dockerfile` entry, and is an unexpected error when that entry is absent |
| Resolution.DockerfileSpan | src/configuration.rs:518-528 | The span for a missing Dockerfile exists whenever the environment's table does |
| Resolution.ValidateDockerfile | src/configuration.rs:498-540 | Succeeds only with a path that exists and is a file. With the environment's table present, a missing Dockerfile is always `InvalidDockerfilePath` |
| Resolution.InheritedDockerfileMisreported | src/configuration.rs:518-528 | When the environment's table has no `dockerfile` entry, the as-written check fails unexpectedly and the corrected one reports the missing file at the table |
| Resolution.MissingDockerfileFails | src/configuration.rs:498-540 | In either revision, a resolved Dockerfile path that does not exist fails the check when the environment's table is located |
| Resolution.Chunks | src/configuration.rs:550-558 | Reading in 1024-byte chunks covers the whole file: the chunks concatenate to its contents, and each is non-empty and at most the buffer size |
| Resolution.GenerateImageName | src/configuration.rs:542-566 | Failing to canonicalize or read gives `FailedToInteractWithDockerfile`; once both succeed the name is always produced: `berth-`, the lower-cased name, `-`, then the digest of the file's bytes in hex |
| Resolution.ImageNameShape | src/configuration.rs:560-565 | A derived image name has a fixed length, ends in the digest's hex, and contains no upper-case letter |
| Resolution.ImageAndDockerfile | src/configuration.rs:469-476 | A provided image is kept without a Dockerfile. Otherwise a Dockerfile check failure or an image-name failure is returned as is, and success pairs the derived image name with the checked path, which exists and is a file |
| Resolution.CreateEnvironment | src/configuration.rs:439-496 | A missing environment gives `EnvironmentSearch` spanning the text's UTF-8 length. Otherwise creation succeeds exactly when the image and Dockerfile step does, and returns its error. The result keeps the requested name as original name and takes the identity name; only the three option lists are expanded |
| EnvView.Insert | src/configuration.rs:577-608 | After inserting, the key holds the new value, every other key is unchanged, and no key is duplicated |
| EnvView.View | src/configuration.rs:570-622 | The view's table is named by the original name and holds each key at most once |
| EnvView.ViewLookup | src/configuration.rs:576-609 | Every key of the view holds what the reference definition prescribes |
| EnvView.ViewKeys | src/configuration.rs:576-609 | `image` appears exactly when non-empty without a Dockerfile, `dockerfile` exactly when present, `entry_cmd` always, each list exactly when non-empty, `cp_cmds` never, and never both image and Dockerfile |
| EnvView.ViewRoundTrip | src/configuration.rs:570-622 | Reading the view back recovers the entry command, the image or Dockerfile, and every list except `cp_cmds` |
| EnvView.ViewIsValid | src/configuration.rs:570-622 | The view of a resolved environment passes validation |
| Cli.SelectAction | src/cli.rs:82-87 | `view` alone gives View, `build` alone gives Build, neither gives Up |
| Cli.ActionRoundTrip | src/cli.rs:82-87 | Flags and actions correspond one to one |
| Cli.StandardCandidate | src/cli.rs:106-124 | A standard location is a candidate exactly when its variable is set and the file exists |
| Cli.SetConfigPath | src/cli.rs:97-127 | An explicit path is accepted exactly when it exists and is a file. Otherwise the XDG location wins over the HOME one, each needing only to exist, else `NoConfigInStandardLocation` |
| Cli.NewAppConfig | src/cli.rs:82-95 | The configuration succeeds exactly when a config path is found, and carries the selected action, cleanup flag and environment |
| Configuration.FindEnvironment | src/configuration.rs:198-205 | A resolved environment implies every environment of the file is accepted (known presets, unique sources, valid once merged) and the requested one exists. The result is the merged environment's creation, with the Dockerfile check the revision names |
| Configuration.EarlyStagesAccept | src/configuration.rs:229-359 | With spans available, known references and single sources, the first two stages return the file unchanged |
| Configuration.LaterStages | src/configuration.rs:198-205 | Once the first two stages return the file unchanged, resolution is the validation of the merged environments, then the creation of the requested one |
| Configuration.AcceptedResolves | src/configuration.rs:198-205 | For an accepted file with spans available, resolution is decided by the last stage alone |
| Configuration.UnknownPresetReported | src/configuration.rs:229-259 | Any unknown preset reference, in any environment, fails resolution with `UnknownPreset` |
| Configuration.InvalidEnvironmentRejected | src/configuration.rs:389-437 | An environment invalid after merging fails resolution even when another is requested, with `EnvironmentValidation` when spans are available |
| Configuration.InvalidEnvironmentReport | src/configuration.rs:389-437 | With spans available and single sources, an environment invalid after merging fails resolution with `EnvironmentValidation` |
| Configuration.MissingEnvironmentReported | src/configuration.rs:439-453 | A well-formed file without the requested environment fails with `EnvironmentSearch` spanning the text's UTF-8 length |
| Configuration.MergedSingleSource | src/configuration.rs:262-387 | With unique sources, the merge keeps the single source's value, whether the environment's own or a preset's |
| Configuration.ResolvedFromSingleSource | src/configuration.rs:439-493 | The resolved environment has the requested original name, the identity name, and its one source's entry command; an image of its own means no Dockerfile |
| Configuration.InheritedConfigMerges | src/configuration.rs:361-387 | An environment inheriting only a Dockerfile from a preset merges to that Dockerfile with its own entry command |
| Configuration.InheritedConfigAccepted | src/configuration.rs:229-437 | That file passes the existence, uniqueness and validation stages |
| Configuration.InheritedResolution | src/configuration.rs:469-472 | Resolving the inheriting environment with its Dockerfile missing fails, in either revision, with exactly the Dockerfile check's error |
| Configuration.InheritedDockerfileExample | src/configuration.rs:518-528 | For that file with its Dockerfile missing, berth as written fails with the unexpected None error, while the corrected resolution reports `InvalidDockerfilePath` at the environment's table |
| Docker.New | src/docker.rs:59-73 | The engine's name is `berth-<name>-<hash>` over the environment it is given; a daemon connection failure is `ConnectingToDaemon` |
| Docker.ContainerNameNested | src/docker.rs:59-67 | Given a resolved environment, the container name starts `berth-berth-`, then the original name, and has the length of two nested identities |
| Docker.ToShellAppend | src/docker.rs:82-87 | Splitting a list of option strings distributes over concatenation |
| Docker.CreateArgs | src/docker.rs:183-192 | The create command is `create --name <name>`, the split create options, then `<image> tail -f /dev/null` |
| Docker.ExecArgs | src/docker.rs:194-206 | A setup command is `exec`, the split exec options, the container name, then the split command |
| Docker.ExecRequests | src/docker.rs:194-209 | One request per setup command |
| Docker.ExecRequestsAt | src/docker.rs:194-209 | The `i`-th request is the `exec` of the `i`-th setup command, in declaration order |
| Docker.ContainerInfo | src/docker.rs:133-149 | Listing fails exactly when the daemon refuses, with `ListingContainers`, and finds a container exactly when one exists |
| Docker.IsContainerRunning | src/docker.rs:151-156 | The container counts as running exactly when its state is running |
| Docker.DoesEnvironmentExist | src/docker.rs:158-160 | The environment exists exactly when a container is listed |
| Docker.DeleteWith | src/docker.rs:162-170 | Removal is requested only when a container is listed; success leaves no container |
| Docker.DeleteContainerIfExistsAsWritten | src/docker.rs:162-170 | As written: success leaves no container, and happens exactly when listing and any needed removal are accepted. A refused listing is `ListingContainers`; a refused removal is reported as `StoppingContainer` |
| Docker.DeleteContainerIfExists | src/docker.rs:162-170 | Succeeds exactly when listing succeeds and any needed removal succeeds, leaving no container. Failures are listing or removal errors; the requests are `List`, then `Remove` when a container exists |
| Docker.RemovalFailureMislabelled | src/docker.rs:162-170 | A refused removal reads as a stop failure as written, and as a removal failure when corrected |
| Docker.StartContainer | src/docker.rs:172-181 | Issues one start request. It succeeds exactly when the daemon accepts, leaving the container running; a refusal is `StartingContainer` and leaves the container as it was |
| Docker.StopContainer | src/docker.rs:211-217 | Issues one stop request. It succeeds exactly when the daemon accepts, leaving the container stopped; a refusal is `StoppingContainer` and leaves the container as it was |
| Docker.ExitError | src/docker.rs:239-253 | Exit code 0 succeeds; no code is `CommandKilled`; any other code is `CommandErrorCode` carrying stderr |
| Docker.RunWithOutput | src/docker.rs:228-255 | The command succeeds exactly when it exits with 0, returning its output; a spawn failure is `CommandFailed` with the command text; a failure leaves the container as it was |
| Docker.CreateContainer | src/docker.rs:183-192 | Issues exactly the create command and succeeds exactly when it exits with status 0, leaving a created container. Otherwise the container is unchanged and the error is the spawn failure or the exit status's error |
| Docker.ExecFrom | src/docker.rs:194-209 | Setup issues the commands in order. On success all were issued; on failure, a non-empty prefix was, ending at the failing one. The container's state is untouched |
| Docker.ExecFromSucceeds | src/docker.rs:194-209 | Setup succeeds exactly when every command exits with status 0 in the world its predecessors leave |
| Docker.ExecFromFailure | src/docker.rs:194-209 | On failure, every command before the last one issued succeeded, and the error is the last command's spawn failure or exit status error |
| Docker.SetupOutcome | src/docker.rs:194-209 | Both directions of the setup outcome together |
| Docker.ExecSetupCommands | src/docker.rs:194-209 | The environment's setup commands run in order, stop at the first failure and leave the container's state alone. Success means every command exited with status 0; failure names the failing command and its error |
| Docker.CreateNewEnvironment | src/docker.rs:75-80 | Delete, create, start, then setup, each step's failure returned as is. Success happens exactly when all four succeed and leaves the container running. The delete is the revision's: berth uses the as-written one |
| Docker.CreateNewEnvironmentTrace | src/docker.rs:75-80 | A successful creation issues `List` (and `Remove` if a container existed), `create`, `Start`, then each setup command |
| Docker.EnterFailure | src/docker.rs:110-118 | Entering fails exactly for no exit code or codes 125, 126 and 127; 0, 130 and every other code succeed |
| Docker.EnterFailureReasonsDistinct | src/docker.rs:110-124 | Each failing exit condition has its own reason |
| Docker.IsAnyoneConnected | src/docker.rs:219-226 | Runs `exec <name> ls /dev/pts`; someone is connected exactly when that prints more than two lines |
| Docker.StopIfUnused | src/docker.rs:126-128 | Stops the container only if it is running and nobody is connected, asking in that order |
| Docker.EnterEnvironment | src/docker.rs:89-131 | After attaching, a spawn failure or failing exit code is reported; otherwise the unused container is stopped |
| Docker.EnterStopsIffUnused | src/docker.rs:126-128 | After a successful enter, a stop was requested exactly when the container was running and `ls /dev/pts` showed at most two lines |
| App.BuildFlow | src/main.rs:28-33 | `build` creates a new environment and then stops it; a successful build leaves the container stopped |
| App.UpFlow | src/main.rs:35-48 | `up` creates a new environment when no container exists, otherwise only starts it, then enters. A successful `up` leaves it running or stopped |
| App.Cleanup | src/main.rs:78-80 | Without cleanup nothing happens. With cleanup the revision's delete runs: it succeeds exactly when listing and any needed removal are accepted, leaves no container, and a failure is the deletion's error |
| App.Finish | src/main.rs:65-84 | A failed action is followed by a stop. If the stop fails, the action's error is returned wrapped in the stop's; otherwise the failure is dropped and cleanup follows. Every failure is a Docker failure or a wrapped one |
| App.RecoveredFailureIsDropped | src/main.rs:72-84 | A failed action whose stop and cleanup succeed ends `main` with success |
| App.ReturnedFailureKeepsCause | src/main.rs:72-76 | A wrapped error always carries the action's own error |
| App.FinishLeaves | src/main.rs:72-84 | A successful run with cleanup leaves no container; a successful build without cleanup leaves it stopped |
| App.Connected | src/main.rs:63-84 | A failed connection is `ConnectingToDaemon` and touches nothing; otherwise the action runs and finishes as `main` does |
| App.LaunchWith | src/main.rs:61-84 | A resolution failure is returned as a configuration failure and touches nothing; otherwise the resolved environment is connected and acted on. The daemon is reached only for an accepted file holding the environment, once connected |
| App.Launch | src/main.rs:51-84 | A command-line failure is returned and touches nothing; otherwise `main` continues with the parsed configuration. Nothing reaches the daemon unless the command line and configuration succeeded, every environment was accepted and the daemon connected |

## Left out

- TOML parsing (src/configuration.rs:207-226) is not modelled: the parsed maps and the span index are inputs. The classification of parser messages depends on the library's text.
- Reading the configuration file (`Configuration::new`) is I/O and is not modelled.
- `ContainerEngine::run_docker_command` is only `run_docker_command_with_output` without the output; the model uses the latter.
- The bollard and process calls are not modelled. The `Daemon` value decides their outcomes, and their error payloads are kept as text.
- `ContainerEngine::get_container_info` filters by a name that Docker matches as a substring, so another container whose name contains this one's could be listed. The model lists exactly the engine's own container.
- `shell_words::split(..).unwrap()` panics on unbalanced quotes. The model's `split` is total.
- `String::from_utf8(..).unwrap()` on command output is not modelled: output is already text.
- `envmnt::expand`, `DefaultHasher` and SHA-256 are uninterpreted. Only where they are applied and how their results are formatted is modelled.
- Format.AsciiLower: `to_lowercase` is modelled on ASCII letters only; Unicode case mapping is not.
- Cli.SetConfigPath: reads `XDG_CONFIG_HOME` and `HOME` from an `AppEnvVar` map; the program reads the process environment.
- Cli.NewAppConfig: command-line parsing, the `BadInput` error and the help/version exit are left to the argument parser. The model requires `--view` and `--build` not to be set together, as the parser guarantees.
- App.Launch: the `view` action is not dispatched, because `main` offers only `up` and `build`. `main` also names `DockerHandler` and `cli::Commands`, which the engine and `Action` now replace.
- Logging, the spinner and miette's report rendering are terminal output and are not modelled.
- The choice among several failing environments depends on `HashMap` order. It is a parameter; each lemma holds for every order, and none names the first error.
- `Environment::view` stops at the table; printing TOML text is the library's work.

## Findings

| source | as written | input that shows it | evidently intended | confidence | as-written member | corrected member |
|---|---|---|---|---|---|---|
| src/configuration.rs:518-528 | The span of a missing Dockerfile is looked up at `environment.<name>.dockerfile`. A path inherited from a preset has no such entry, so the lookup fails with an unexpected None error | Environment `E` with `entry_cmd = "sh"` and `presets = ["P"]`; preset `P` with `dockerfile = "/Dockerfile"`, a file that does not exist | Report `InvalidDockerfilePath` ("Could not find dockerfile"), here at the environment's table | not executed | Resolution.ValidateDockerfileAsWritten (with Resolution.InheritedDockerfileMisreported and Configuration.InheritedDockerfileExample) | Resolution.ValidateDockerfile |
| src/docker.rs:162-170 | A failed `remove_container` is wrapped as `StoppingContainer`, and `RemovingContainer` is never used | A listed container whose removal the daemon refuses | Report `RemovingContainer` ("Failed to remove container") | not executed | Docker.DeleteContainerIfExistsAsWritten (with Docker.RemovalFailureMislabelled) | Docker.DeleteContainerIfExists |

Both corrected members are reached through `Revision.Corrected`:
`Resolution.CheckDockerfile` and `Docker.DeleteContainer` pick the as-written
or the corrected function, and the whole pipeline, from `App.Launch` down,
passes the revision on. With `AsWritten` the model is berth as it is.

Two behaviours look odd but are modelled as written, because the code is
consistent about them:

- `valid_unique_fields` counts every preset in the file that sets a field,
  referenced or not (`Presets.UnreferencedPresetCounts`).
- `ContainerEngine::new` prefixes an identity name that `create_environment`
  has already formed, so container names start with `berth-berth-`
  (`Docker.ContainerNameNested`).
