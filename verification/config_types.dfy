/** The deserialised configuration file (`TomlEnvironment`, `TomlPreset`,
    `TomlConfiguration` of src/configuration.rs), the span index that
    `toml_edit` keeps for the same text, and the errors resolution reports. */
module ConfigTypes {
  import opened Util

  /** One `[environment.<name>]` table. Every field is optional in the file and
      defaults to the empty string or the empty list. */
  datatype TomlEnvironment = TomlEnvironment(
    entryCmd: string,
    image: string,
    dockerfile: string,
    entryOptions: seq<string>,
    cpCmds: seq<string>,
    execCmds: seq<string>,
    execOptions: seq<string>,
    createOptions: seq<string>,
    presets: seq<string>)

  /** One `[preset.<name>]` table: an environment without a `presets` list. */
  datatype TomlPreset = TomlPreset(
    entryCmd: string,
    image: string,
    dockerfile: string,
    entryOptions: seq<string>,
    cpCmds: seq<string>,
    execCmds: seq<string>,
    execOptions: seq<string>,
    createOptions: seq<string>)

  /** The whole file: environments and presets by name. */
  datatype TomlConfiguration = TomlConfiguration(
    environments: map<string, TomlEnvironment>,
    presets: map<string, TomlPreset>)

  /** The three single-valued fields, which may come from at most one source. */
  datatype Scalar = EntryCmd | Image | Dockerfile

  /** The field's key as written in the file. */
  function ScalarKey(f: Scalar): string
  {
    match f
    case EntryCmd => "entry_cmd"
    case Image => "image"
    case Dockerfile => "dockerfile"
  }

  function EnvScalar(e: TomlEnvironment, f: Scalar): string
  {
    match f
    case EntryCmd => e.entryCmd
    case Image => e.image
    case Dockerfile => e.dockerfile
  }

  function PresetScalar(p: TomlPreset, f: Scalar): string
  {
    match f
    case EntryCmd => p.entryCmd
    case Image => p.image
    case Dockerfile => p.dockerfile
  }

  /** A byte range `start..end` of the configuration text. */
  datatype Range = Range(start: nat, end: nat)

  /** The two top-level tables of the file. */
  datatype Section = EnvironmentSection | PresetSection

  /** The spans `toml_edit` reports for one `key = value` entry. */
  datatype EntrySpans = EntrySpans(key: Range, value: Range)

  /** The parsed document with its spans. Each lookup answers `None` when the
      document holds no such item, exactly as the chained `get`/`as_table`/
      `span` calls of the program do.
      - `entry(section, name, key)`: the `key` entry of table `<section>.<name>`;
      - `table(name)`: the whole `environment.<name>` table;
      - `presetReference(name, preset)`: the first element of
        `environment.<name>.presets` whose string is `preset`. */
  datatype Document = Document(
    content: string,
    entry: (Section, string, string) -> Option<EntrySpans>,
    table: string -> Option<Range>,
    presetReference: (string, string) -> Option<Range>)

  /** What a document parsed from the same text as `cfg` is bound to contain:
      a table per environment, an element per preset reference, an entry for
      every field with a non-empty value and a `presets` entry for every
      environment that references a preset. */
  ghost predicate Locates(doc: Document, cfg: TomlConfiguration)
  {
    && (forall n | n in cfg.environments :: doc.table(n).Some?)
    && (forall n, p | n in cfg.environments && p in cfg.environments[n].presets ::
          doc.presetReference(n, p).Some?)
    && (forall n, f | n in cfg.environments && EnvScalar(cfg.environments[n], f) != "" ::
          doc.entry(EnvironmentSection, n, ScalarKey(f)).Some?)
    && (forall n, f | n in cfg.presets && PresetScalar(cfg.presets[n], f) != "" ::
          doc.entry(PresetSection, n, ScalarKey(f)).Some?)
    && (forall n | n in cfg.environments && cfg.environments[n].presets != [] ::
          doc.entry(EnvironmentSection, n, "presets").Some?)
  }

  /** A span with the text it labels, as `miette::LabeledSpan`. */
  datatype LabeledSpan = LabeledSpan(text: string, span: Range)

  /** `ConfigError`, plus the `Unexpected` report the resolution steps return
      through the same `miette::Result` when a lookup they rely on fails.
      The parse error `TomlParse` belongs to the parser and is not modelled;
      the named source every variant carries is the same for all of them and
      is left out. */
  datatype ConfigError =
    | EnvironmentValidation(msg: string, span: Range)
    | EnvironmentSearch(msg: string, span: Range)
    | InvalidDockerfilePath(msg: string, span: Range)
    | UnknownPreset(msg: string, span: Range)
    | DuplicateFieldsFromPresets(spans: seq<LabeledSpan>)
    | FailedToInteractWithDockerfile(path: string)
    | Unexpected(report: Util.Unexpected)

  /** `Option::unexpected()?` inside resolution. */
  function Located<T>(o: Option<T>): (r: Result<T, ConfigError>)
    ensures r.Ok? <==> o.Some?
    ensures r.Ok? ==> r.value == o.value
    ensures r.Err? ==> r.error == Unexpected(UnexpectedNone)
  {
    match OptionUnexpected(o)
    case Ok(x) => Ok(x)
    case Err(u) => Err(Unexpected(u))
  }

  /** The span of a whole `key = value` entry: from the key's start to the
      value's end. */
  function EntrySpan(doc: Document, section: Section, name: string, key: string): (r: Result<Range, ConfigError>)
    ensures r.Ok? <==> doc.entry(section, name, key).Some?
    ensures r.Ok? ==> r.value.start == doc.entry(section, name, key).value.key.start
    ensures r.Ok? ==> r.value.end == doc.entry(section, name, key).value.value.end
  {
    var spans :- Located(doc.entry(section, name, key));
    Ok(Range(spans.key.start, spans.value.end))
  }

  /** Each name of `order` is a key of `m`. */
  predicate Within<V>(order: seq<string>, m: map<string, V>)
  {
    forall i | 0 <= i < |order| :: order[i] in m
  }

  /** `order` lists every key of `m` exactly once: one of the orders in which
      a `HashMap` may be iterated. */
  predicate Enumerates<V>(order: seq<string>, m: map<string, V>)
  {
    && Within(order, m)
    && (forall n | n in m :: n in order)
    && (forall i, j | 0 <= i < j < |order| :: order[i] != order[j])
  }
}
