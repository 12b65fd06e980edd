/** `Configuration::find_environment_from_configuration` of
    src/configuration.rs: the parsed file passes five stages in turn, each
    failing with the first problem it meets, and the requested environment
    comes out resolved. */
module Configuration {
  import opened Util
  import opened Format
  import opened ConfigTypes
  import opened Presets
  import opened Validation
  import opened Resolution
  import opened Cli

  /** Every environment of the file only references presets the file
      defines, draws each single-valued field from at most one source, and is
      valid once merged. */
  predicate Accepted(cfg: TomlConfiguration)
  {
    forall n | n in cfg.environments ::
      && ReferencesKnown(cfg, n)
      && UniqueSources(cfg, n)
      && Valid(MergeEnvironment(cfg.environments[n], cfg.presets))
  }

  /** `find_environment_from_configuration` after parsing; `order` is the
      order in which the environment map is iterated. The program as written
      is `FindEnvironment(AsWritten, ...)`; `Corrected` reports a missing
      inherited Dockerfile instead of failing unexpectedly. */
  function FindEnvironment(rev: Revision, cfg: TomlConfiguration, doc: Document, order: seq<string>, app: AppConfig, host: Host): (r: Result<Environment, ConfigError>)
    requires Enumerates(order, cfg.environments)
    ensures r.Ok? ==> Accepted(cfg) && app.environment in cfg.environments
    ensures r.Ok? ==> r == CreateEnvironment(rev, Merged(cfg), app.environment, app.configPath, doc, host)
  {
    var c1 :- CheckPresetsExist(cfg, doc, order);
    var c2 :- ValidUniqueFields(c1, doc, order);
    var envs :- MergePresets(c2);
    ValidateAll(envs, doc, order);
    var valid :- ValidateEnvironments(envs, doc, order);
    assert Accepted(cfg) by {
      forall n | n in cfg.environments
        ensures UniqueSources(cfg, n)
      {
        var i :| 0 <= i < |order| && order[i] == n;
      }
    }
    CreateEnvironment(rev, valid, app.environment, app.configPath, doc, host)
  }

  /** With spans available, a file whose references are known and whose
      fields are single-sourced passes the first two stages unchanged. */
  lemma EarlyStagesAccept(cfg: TomlConfiguration, doc: Document, order: seq<string>)
    requires Enumerates(order, cfg.environments) && Locates(doc, cfg)
    requires forall m | m in cfg.environments :: ReferencesKnown(cfg, m)
    requires forall m | m in cfg.environments :: UniqueSources(cfg, m)
    ensures CheckPresetsExist(cfg, doc, order) == Ok(cfg)
    ensures ValidUniqueFields(cfg, doc, order) == Ok(cfg)
  {
    CheckPresetsExistSound(cfg, doc, order);
  }

  /** Once the first two stages accept the file unchanged, resolution is the
      validation of the merged environments followed by the last stage. */
  lemma LaterStages(rev: Revision, cfg: TomlConfiguration, doc: Document, order: seq<string>, app: AppConfig, host: Host)
    requires Enumerates(order, cfg.environments)
    requires CheckPresetsExist(cfg, doc, order) == Ok(cfg) && ValidUniqueFields(cfg, doc, order) == Ok(cfg)
    ensures forall n | n in cfg.environments :: ReferencesKnown(cfg, n)
    ensures var v := ValidateEnvironments(Merged(cfg), doc, order);
            FindEnvironment(rev, cfg, doc, order, app, host) ==
              if v.Err? then Err(v.error) else CreateEnvironment(rev, Merged(cfg), app.environment, app.configPath, doc, host)
  {
    forall n | n in cfg.environments ensures ReferencesKnown(cfg, n) {
      var i :| 0 <= i < |order| && order[i] == n;
    }
    assert MergePresets(cfg) == Ok(Merged(cfg));
  }

  /** Resolution of a well-formed file is decided by the last stage alone. */
  lemma AcceptedResolves(rev: Revision, cfg: TomlConfiguration, doc: Document, order: seq<string>, app: AppConfig, host: Host)
    requires Enumerates(order, cfg.environments) && Locates(doc, cfg) && Accepted(cfg)
    ensures FindEnvironment(rev, cfg, doc, order, app, host) ==
              CreateEnvironment(rev, Merged(cfg), app.environment, app.configPath, doc, host)
  {
    EarlyStagesAccept(cfg, doc, order);
    LaterStages(rev, cfg, doc, order, app, host);
    ValidateAll(Merged(cfg), doc, order);
  }

  /** A reference to a preset the file does not define fails resolution with
      `UnknownPreset`, whichever environment makes it and whichever is asked
      for. */
  lemma UnknownPresetReported(rev: Revision, cfg: TomlConfiguration, doc: Document, order: seq<string>, app: AppConfig, host: Host, n: string, p: string)
    requires Enumerates(order, cfg.environments) && Locates(doc, cfg)
    requires n in cfg.environments && p in cfg.environments[n].presets && p !in cfg.presets
    ensures var r := FindEnvironment(rev, cfg, doc, order, app, host);
            r.Err? && r.error.UnknownPreset? && r.error.msg == UnknownPresetMessage
  {
    CheckPresetsExistSound(cfg, doc, order);
    assert !ReferencesKnown(cfg, n);
    var r1 := CheckPresetsExist(cfg, doc, order);
    var i :| 0 <= i < |order| && IsUnknownPresetError(cfg, doc, order[i], r1.error);
  }

  /** An environment that is invalid after merging fails resolution, even
      when another environment is requested; with spans available the
      failure is an `EnvironmentValidation` report. */
  lemma InvalidEnvironmentRejected(rev: Revision, cfg: TomlConfiguration, doc: Document, order: seq<string>, app: AppConfig, host: Host, n: string)
    requires Enumerates(order, cfg.environments)
    requires forall m | m in cfg.environments :: ReferencesKnown(cfg, m)
    requires n in cfg.environments && ReferencesKnown(cfg, n) && !Valid(MergeEnvironment(cfg.environments[n], cfg.presets))
    ensures FindEnvironment(rev, cfg, doc, order, app, host).Err?
    ensures Locates(doc, cfg) && (forall m | m in cfg.environments :: UniqueSources(cfg, m)) ==>
              FindEnvironment(rev, cfg, doc, order, app, host).error.EnvironmentValidation?
  {
    if Locates(doc, cfg) && (forall m | m in cfg.environments :: UniqueSources(cfg, m)) {
      InvalidEnvironmentReport(rev, cfg, doc, order, app, host, n);
    }
  }

  /** With spans available and every field single-sourced, the invalid
      environment is reported by validation. */
  lemma InvalidEnvironmentReport(rev: Revision, cfg: TomlConfiguration, doc: Document, order: seq<string>, app: AppConfig, host: Host, n: string)
    requires Enumerates(order, cfg.environments) && Locates(doc, cfg)
    requires forall m | m in cfg.environments :: ReferencesKnown(cfg, m)
    requires forall m | m in cfg.environments :: UniqueSources(cfg, m)
    requires n in cfg.environments && ReferencesKnown(cfg, n) && !Valid(MergeEnvironment(cfg.environments[n], cfg.presets))
    ensures var r := FindEnvironment(rev, cfg, doc, order, app, host);
            r.Err? && r.error.EnvironmentValidation?
  {
    EarlyStagesAccept(cfg, doc, order);
    LaterStages(rev, cfg, doc, order, app, host);
    InvalidReported(Merged(cfg), doc, order, n);
  }

  /** A well-formed file without the requested environment fails with
      `EnvironmentSearch` over the whole text, measured in UTF-8 bytes. */
  lemma MissingEnvironmentReported(rev: Revision, cfg: TomlConfiguration, doc: Document, order: seq<string>, app: AppConfig, host: Host)
    requires Enumerates(order, cfg.environments) && Locates(doc, cfg) && Accepted(cfg)
    requires app.environment !in cfg.environments
    ensures FindEnvironment(rev, cfg, doc, order, app, host) ==
              Err(EnvironmentSearch(SearchMessage(app.environment), Range(0, Utf8Length(doc.content))))
  {
    AcceptedResolves(rev, cfg, doc, order, app, host);
  }

  /** With at most one source per field, the merge keeps that source's value:
      the environment's own value when it has one, otherwise the value of the
      one referenced preset that sets the field. */
  lemma MergedSingleSource(cfg: TomlConfiguration, n: string, f: Scalar)
    requires n in cfg.environments && ReferencesKnown(cfg, n) && UniqueSources(cfg, n)
    ensures var e := cfg.environments[n];
            var m := MergeEnvironment(e, cfg.presets);
            && (EnvScalar(e, f) != "" ==> EnvScalar(m, f) == EnvScalar(e, f))
            && (forall p | p in e.presets && PresetScalar(cfg.presets[p], f) != "" ::
                  EnvScalar(m, f) == PresetScalar(cfg.presets[p], f))
  {
    var e := cfg.environments[n];
    var values := PresetValues(e.presets, cfg.presets, f);
    var s := SettingPresets(cfg, f);
    assert SourceCount(cfg, n, f) <= 1;
    MergeFromScalars(e, e.presets, cfg.presets);
    assert EnvScalar(MergeEnvironment(e, cfg.presets), f) == Override(EnvScalar(e, f), values);
    forall i | 0 <= i < |values| && values[i] != ""
      ensures e.presets[i] in s
    {
    }
    assert EnvScalar(e, f) != "" ==> forall i | 0 <= i < |values| :: values[i] == "";
    forall i, j | 0 <= i < |values| && 0 <= j < |values| && values[i] != "" && values[j] != ""
      ensures values[i] == values[j]
    {
      var a, b := e.presets[i], e.presets[j];
      assert a in s && b in s;
      assert a != b ==> b in s - {a} && |s - {a}| == |s| - 1;
    }
    OverrideOfSingleSource(EnvScalar(e, f), values);
    forall p | p in e.presets && PresetScalar(cfg.presets[p], f) != ""
      ensures EnvScalar(MergeEnvironment(e, cfg.presets), f) == PresetScalar(cfg.presets[p], f)
    {
      var i :| 0 <= i < |e.presets| && e.presets[i] == p;
      assert values[i] == PresetScalar(cfg.presets[p], f);
    }
  }

  /** The resolved environment's entry command and provided image are those
      of their single source, and an environment that names its own image
      never gets a Dockerfile. */
  lemma ResolvedFromSingleSource(rev: Revision, cfg: TomlConfiguration, doc: Document, order: seq<string>, app: AppConfig, host: Host)
    requires Enumerates(order, cfg.environments)
    ensures var r := FindEnvironment(rev, cfg, doc, order, app, host);
            r.Ok? ==>
            var env := r.value;
            var e := cfg.environments[app.environment];
            && env.originalName == app.environment
            && env.name == Identity(app.environment, host.hash(env.(name := app.environment)))
            && (e.entryCmd != "" ==> env.entryCmd == e.entryCmd)
            && (forall p | p in e.presets && cfg.presets[p].entryCmd != "" :: env.entryCmd == cfg.presets[p].entryCmd)
            && (e.image != "" ==> env.image == e.image && env.dockerfile.None?)
  {
    if FindEnvironment(rev, cfg, doc, order, app, host).Ok? {
      var n := app.environment;
      MergedSingleSource(cfg, n, EntryCmd);
      MergedSingleSource(cfg, n, Image);
    }
  }
  /** A file whose environment `E` sets only its entry command and takes
      its Dockerfile from preset `P`. */
  function InheritedConfig(): TomlConfiguration
  {
    TomlConfiguration(
      map["E" := TomlEnvironment("sh", "", "", [], [], [], [], [], ["P"])],
      map["P" := TomlPreset("", "", "/Dockerfile", [], [], [], [], [])])
  }

  lemma InheritedConfigMerges()
    ensures "E" in InheritedConfig().environments && ReferencesKnown(InheritedConfig(), "E")
    ensures MergeEnvironment(InheritedConfig().environments["E"], InheritedConfig().presets) ==
              TomlEnvironment("sh", "", "/Dockerfile", [], [], [], [], [], ["P"])
  {
    var cfg := InheritedConfig();
    var e := cfg.environments["E"];
    assert ["P"][1..] == [];
    assert MergeFrom(e, ["P"], cfg.presets) == MergeFrom(ApplyPreset(e, cfg.presets["P"]), [], cfg.presets);
  }

  lemma InheritedConfigAccepted()
    ensures Accepted(InheritedConfig())
    ensures Merged(InheritedConfig())["E"] == TomlEnvironment("sh", "", "/Dockerfile", [], [], [], [], [], ["P"])
  {
    var cfg := InheritedConfig();
    InheritedConfigMerges();
    forall f: Scalar ensures SourceCount(cfg, "E", f) <= 1 {
      if f == Dockerfile {
        assert SettingPresets(cfg, f) == {"P"};
      } else {
        assert SettingPresets(cfg, f) == {};
      }
    }
    assert cfg.environments.Keys == {"E"};
  }

  lemma InheritedConfigLocated(doc: Document)
    requires doc.table("E").Some?
    requires doc.presetReference("E", "P").Some?
    requires doc.entry(EnvironmentSection, "E", "entry_cmd").Some?
    requires doc.entry(EnvironmentSection, "E", "presets").Some?
    requires doc.entry(PresetSection, "P", "dockerfile").Some?
    ensures Locates(doc, InheritedConfig())
  {
    var cfg := InheritedConfig();
    assert cfg.environments.Keys == {"E"} && cfg.presets.Keys == {"P"};
    forall n, f | n in cfg.environments && EnvScalar(cfg.environments[n], f) != ""
      ensures doc.entry(EnvironmentSection, n, ScalarKey(f)).Some?
    {
      assert f == EntryCmd;
    }
    forall n, f | n in cfg.presets && PresetScalar(cfg.presets[n], f) != ""
      ensures doc.entry(PresetSection, n, ScalarKey(f)).Some?
    {
      assert f == Dockerfile;
    }
  }

  /** The file above resolves `E` to the failure of its Dockerfile check. */
  lemma InheritedResolution(rev: Revision, doc: Document, app: AppConfig, host: Host)
    requires doc.table("E").Some?
    requires doc.presetReference("E", "P").Some?
    requires doc.entry(EnvironmentSection, "E", "entry_cmd").Some?
    requires doc.entry(EnvironmentSection, "E", "presets").Some?
    requires doc.entry(PresetSection, "P", "dockerfile").Some?
    requires app.environment == "E"
    requires host.expand("/Dockerfile") == "/Dockerfile" && !host.isPresent("/Dockerfile")
    ensures CheckDockerfile(rev, "/Dockerfile", "E", app.configPath, doc, host).Err?
    ensures FindEnvironment(rev, InheritedConfig(), doc, ["E"], app, host) ==
              Err(CheckDockerfile(rev, "/Dockerfile", "E", app.configPath, doc, host).error)
  {
    var cfg := InheritedConfig();
    InheritedConfigLocated(doc);
    InheritedConfigAccepted();
    assert cfg.environments.Keys == {"E"};
    AcceptedResolves(rev, cfg, doc, ["E"], app, host);
    var e := Merged(cfg)["E"];
    var path := CheckDockerfile(rev, "/Dockerfile", "E", app.configPath, doc, host);
    assert ResolveDockerfilePath("/Dockerfile", app.configPath, host) == Ok("/Dockerfile");
    MissingDockerfileFails(rev, "/Dockerfile", "E", app.configPath, doc, host);
    assert Resolution.ImageAndDockerfile(rev, e, "E", app.configPath, doc, host) == Err(path.error);
  }

  /** The file above, with a span index that holds every item the file
      spells out: the file is accepted, and the document has no `dockerfile`
      entry under `E`. When the inherited Dockerfile is missing, resolution as
      written fails with an unexpected error, while the corrected resolution
      reports the missing Dockerfile at the environment's table. */
  lemma InheritedDockerfileExample(doc: Document, app: AppConfig, host: Host)
    requires doc.table("E") == Some(Range(0, 1))
    requires doc.presetReference("E", "P").Some?
    requires doc.entry(EnvironmentSection, "E", "entry_cmd").Some?
    requires doc.entry(EnvironmentSection, "E", "presets").Some?
    requires doc.entry(PresetSection, "P", "dockerfile").Some?
    requires doc.entry(EnvironmentSection, "E", "dockerfile").None?
    requires app.environment == "E"
    requires host.expand("/Dockerfile") == "/Dockerfile" && !host.isPresent("/Dockerfile")
    ensures Locates(doc, InheritedConfig()) && Accepted(InheritedConfig())
    ensures FindEnvironment(AsWritten, InheritedConfig(), doc, ["E"], app, host) == Err(Unexpected(UnexpectedNone))
    ensures FindEnvironment(Corrected, InheritedConfig(), doc, ["E"], app, host) ==
              Err(InvalidDockerfilePath(DockerfileNotFound, Range(0, 1)))
  {
    InheritedConfigLocated(doc);
    InheritedConfigAccepted();
    InheritedDockerfileMisreported("/Dockerfile", "E", app.configPath, doc, host);
    InheritedResolution(AsWritten, doc, app, host);
    InheritedResolution(Corrected, doc, app, host);
  }
}
