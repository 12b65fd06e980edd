/** `Environment::view` of src/configuration.rs: the resolved environment
    written back as the table `environment.<original name>` of a TOML
    document. The document is kept as the table it holds; printing it as text
    is the TOML library's business. */
module EnvView {
  import opened Util
  import opened ConfigTypes
  import opened Validation
  import opened Resolution

  /** The two kinds of value the view writes. */
  datatype TomlValue = Str(s: string) | Array(items: seq<string>)

  /** The keys an environment table may hold. */
  datatype Key =
    | EntryCmdKey | ImageKey | DockerfileKey | EntryOptionsKey | CpCmdsKey
    | ExecCmdsKey | ExecOptionsKey | CreateOptionsKey | PresetsKey

  /** The key as written in the file. */
  function KeyName(k: Key): string
  {
    match k
    case EntryCmdKey => "entry_cmd"
    case ImageKey => "image"
    case DockerfileKey => "dockerfile"
    case EntryOptionsKey => "entry_options"
    case CpCmdsKey => "cp_cmds"
    case ExecCmdsKey => "exec_cmds"
    case ExecOptionsKey => "exec_options"
    case CreateOptionsKey => "create_options"
    case PresetsKey => "presets"
  }

  datatype Entry = Entry(key: Key, value: TomlValue)

  /** The single table of the view, named by the environment's original name,
      with its entries in insertion order. */
  datatype ViewTable = ViewTable(name: string, entries: seq<Entry>)

  /** The value of `key`, if the table has one. */
  function Lookup(entries: seq<Entry>, key: Key): Option<TomlValue>
  {
    if entries == [] then None
    else if entries[0].key == key then Some(entries[0].value)
    else Lookup(entries[1..], key)
  }

  /** No key appears twice. */
  predicate Distinct(entries: seq<Entry>)
  {
    entries == [] || (Lookup(entries[1..], entries[0].key).None? && Distinct(entries[1..]))
  }

  /** `Table::insert`: a present key has its value replaced where it stands;
      a new key is appended. */
  function Insert(entries: seq<Entry>, key: Key, value: TomlValue): (r: seq<Entry>)
    ensures Lookup(r, key) == Some(value)
    ensures forall k | k != key :: Lookup(r, k) == Lookup(entries, k)
    ensures Distinct(entries) ==> Distinct(r)
  {
    if entries == [] then [Entry(key, value)]
    else if entries[0].key == key then [Entry(key, value)] + entries[1..]
    else
      var rest := Insert(entries[1..], key, value);
      var r := [entries[0]] + rest;
      assert r[1..] == rest;
      r
  }

  /** Inserts the list under `key` only when it is non-empty. */
  function InsertList(entries: seq<Entry>, key: Key, xs: seq<string>): seq<Entry>
  {
    if xs == [] then entries else Insert(entries, key, Array(xs))
  }

  /** The single-valued part of the view: `image` when the environment has
      one and no Dockerfile, `dockerfile` when it has one, `entry_cmd` always. */
  function ScalarEntries(env: Environment): (r: seq<Entry>)
    ensures Distinct(r)
  {
    var t0: seq<Entry> := [];
    var t1 := if env.image != "" && env.dockerfile.None? then Insert(t0, ImageKey, Str(env.image)) else t0;
    var t2 := if env.dockerfile.Some? then Insert(t1, DockerfileKey, Str(env.dockerfile.value)) else t1;
    Insert(t2, EntryCmdKey, Str(env.entryCmd))
  }

  /** The list part of the view: each non-empty option or command list
      except `cp_cmds`. */
  function ListEntries(t: seq<Entry>, env: Environment): (r: seq<Entry>)
    ensures Distinct(t) ==> Distinct(r)
  {
    var t4 := InsertList(t, EntryOptionsKey, env.entryOptions);
    var t5 := InsertList(t4, ExecCmdsKey, env.execCmds);
    var t6 := InsertList(t5, ExecOptionsKey, env.execOptions);
    InsertList(t6, CreateOptionsKey, env.createOptions)
  }

  /** `Environment::view`. */
  function View(env: Environment): (r: ViewTable)
    ensures r.name == env.originalName
    ensures Distinct(r.entries)
  {
    ViewTable(env.originalName, ListEntries(ScalarEntries(env), env))
  }

  /** Reference for the view: the value each key of the table is to hold. */
  function Shown(env: Environment, k: Key): Option<TomlValue>
  {
    match k
    case ImageKey => if env.image != "" && env.dockerfile.None? then Some(Str(env.image)) else None
    case DockerfileKey => if env.dockerfile.Some? then Some(Str(env.dockerfile.value)) else None
    case EntryCmdKey => Some(Str(env.entryCmd))
    case EntryOptionsKey => if env.entryOptions != [] then Some(Array(env.entryOptions)) else None
    case ExecCmdsKey => if env.execCmds != [] then Some(Array(env.execCmds)) else None
    case ExecOptionsKey => if env.execOptions != [] then Some(Array(env.execOptions)) else None
    case CreateOptionsKey => if env.createOptions != [] then Some(Array(env.createOptions)) else None
    case CpCmdsKey => None
    case PresetsKey => None
  }

  predicate IsListKey(k: Key)
  {
    k == EntryOptionsKey || k == ExecCmdsKey || k == ExecOptionsKey || k == CreateOptionsKey
  }

  lemma ScalarLookup(env: Environment, k: Key)
    ensures Lookup(ScalarEntries(env), k) == if IsListKey(k) then None else Shown(env, k)
  {
    var t0: seq<Entry> := [];
    var t1 := if env.image != "" && env.dockerfile.None? then Insert(t0, ImageKey, Str(env.image)) else t0;
    var t2 := if env.dockerfile.Some? then Insert(t1, DockerfileKey, Str(env.dockerfile.value)) else t1;
    if k != EntryCmdKey {
      assert Lookup(ScalarEntries(env), k) == Lookup(t2, k);
      if k != DockerfileKey {
        assert Lookup(t2, k) == Lookup(t1, k);
      }
    }
  }

  lemma ListLookup(t: seq<Entry>, env: Environment, k: Key)
    ensures Lookup(ListEntries(t, env), k) == if IsListKey(k) && Shown(env, k).Some? then Shown(env, k) else Lookup(t, k)
  {
    var t4 := InsertList(t, EntryOptionsKey, env.entryOptions);
    var t5 := InsertList(t4, ExecCmdsKey, env.execCmds);
    var t6 := InsertList(t5, ExecOptionsKey, env.execOptions);
    if k != CreateOptionsKey || env.createOptions == [] {
      assert Lookup(ListEntries(t, env), k) == Lookup(t6, k);
      if k != ExecOptionsKey || env.execOptions == [] {
        assert Lookup(t6, k) == Lookup(t5, k);
        if k != ExecCmdsKey || env.execCmds == [] {
          assert Lookup(t5, k) == Lookup(t4, k);
        }
      }
    }
  }

  /** Every key of the view holds what the reference says. */
  lemma ViewLookup(env: Environment, k: Key)
    ensures Lookup(View(env).entries, k) == Shown(env, k)
  {
    ScalarLookup(env, k);
    ListLookup(ScalarEntries(env), env, k);
  }

  /** What the view shows and hides: each key appears exactly under the
      condition the program writes it, and `cp_cmds` never appears. */
  lemma ViewKeys(env: Environment)
    ensures var t := View(env).entries;
            && (Lookup(t, ImageKey).Some? <==> env.image != "" && env.dockerfile.None?)
            && (Lookup(t, DockerfileKey).Some? <==> env.dockerfile.Some?)
            && Lookup(t, EntryCmdKey) == Some(Str(env.entryCmd))
            && (Lookup(t, EntryOptionsKey).Some? <==> env.entryOptions != [])
            && (Lookup(t, ExecCmdsKey).Some? <==> env.execCmds != [])
            && (Lookup(t, ExecOptionsKey).Some? <==> env.execOptions != [])
            && (Lookup(t, CreateOptionsKey).Some? <==> env.createOptions != [])
            && Lookup(t, CpCmdsKey) == None
            && !(Lookup(t, ImageKey).Some? && Lookup(t, DockerfileKey).Some?)
  {
    forall k: Key ensures Lookup(View(env).entries, k) == Shown(env, k) {
      ViewLookup(env, k);
    }
  }

  /** A string field read back from a table, empty when absent. */
  function StrField(entries: seq<Entry>, key: Key): string
  {
    match Lookup(entries, key)
    case Some(Str(s)) => s
    case _ => ""
  }

  /** A list field read back from a table, empty when absent. */
  function ListOf(entries: seq<Entry>, key: Key): seq<string>
  {
    match Lookup(entries, key)
    case Some(Array(xs)) => xs
    case _ => []
  }

  /** The table read as a configuration environment, absent fields taking
      their defaults. */
  function Reread(t: ViewTable): TomlEnvironment
  {
    TomlEnvironment(
      StrField(t.entries, EntryCmdKey), StrField(t.entries, ImageKey), StrField(t.entries, DockerfileKey),
      ListOf(t.entries, EntryOptionsKey), ListOf(t.entries, CpCmdsKey), ListOf(t.entries, ExecCmdsKey),
      ListOf(t.entries, ExecOptionsKey), ListOf(t.entries, CreateOptionsKey), ListOf(t.entries, PresetsKey))
  }

  /** Reading the view back as a configuration recovers the environment's
      fields: its entry command, its image when it has no Dockerfile, its
      Dockerfile path, and every list but `cp_cmds`, with no presets. */
  lemma ViewRoundTrip(env: Environment)
    ensures Reread(View(env)) == TomlEnvironment(
              env.entryCmd,
              if env.dockerfile.None? then env.image else "",
              if env.dockerfile.Some? then env.dockerfile.value else "",
              env.entryOptions, [], env.execCmds, env.execOptions, env.createOptions, [])
  {
    ViewLookup(env, EntryCmdKey);
    ViewLookup(env, ImageKey);
    ViewLookup(env, DockerfileKey);
    ViewLookup(env, EntryOptionsKey);
    ViewLookup(env, CpCmdsKey);
    ViewLookup(env, ExecCmdsKey);
    ViewLookup(env, ExecOptionsKey);
    ViewLookup(env, CreateOptionsKey);
    ViewLookup(env, PresetsKey);
  }

  /** The view of a resolved environment is itself a valid environment table. */
  lemma ViewIsValid(env: Environment)
    requires env.entryCmd != ""
    requires env.dockerfile.Some? ==> env.dockerfile.value != ""
    requires env.dockerfile.None? ==> env.image != ""
    ensures Valid(Reread(View(env)))
  {
    ViewRoundTrip(env);
  }
}
