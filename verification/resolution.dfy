/** The last stage of resolution in src/configuration.rs: `create_environment`
    turns the requested merged environment into an `Environment`, expanding
    variables in its option lists, resolving its Dockerfile
    (`validate_dockerfile`), naming its image after the Dockerfile's content
    (`generate_image_name`) and giving it a hashed identity. */
module Resolution {
  import opened Util
  import opened Format
  import opened Paths
  import opened ConfigTypes

  /** `Environment`: the resolved environment handed to the container engine. */
  datatype Environment = Environment(
    name: string,
    originalName: string,
    image: string,
    dockerfile: Option<string>,
    entryCmd: string,
    entryOptions: seq<string>,
    execCmds: seq<string>,
    execOptions: seq<string>,
    createOptions: seq<string>,
    cpCmds: seq<string>)

  /** A SHA-256 digest. */
  type Digest = d: seq<byte> | |d| == 32 witness seq(32, _ => 0)

  /** What resolution learns from outside the configuration text.
      - `expand`: `envmnt::expand` with Unix-style `$VAR`/`${VAR}` expansion
        against the process environment;
      - `parent`: `Path::parent`;
      - `isPresent`, `isFile`: `Path::exists`, `Path::is_file`;
      - `canonicalize`: `fs::canonicalize`, `None` when it fails;
      - `read`: the bytes of a file, `None` when opening or reading fails;
      - `sha256`: the SHA-256 digest of a byte string;
      - `hash`: `DefaultHasher` over the derived `Hash` of an environment. */
  datatype Host = Host(
    expand: string -> string,
    parent: string -> Option<string>,
    isPresent: string -> bool,
    isFile: string -> bool,
    canonicalize: string -> Option<string>,
    read: string -> Option<seq<byte>>,
    sha256: seq<byte> -> Digest,
    hash: Environment -> u64)

  // ------------------------------------------------------------------ naming

  /** `format!("{}-{}-{:016x}", "berth", name, h)`, which is also what
      `format!("{}{}-{:016x}", "berth-", name, h)` prints. */
  function Identity(name: string, h: u64): (r: string)
    ensures |r| == 6 + |name| + 1 + 16
  {
    "berth-" + name + "-" + Hex16(h)
  }

  /** An identity can be taken apart again: the prefix, the name it was made
      from, a dash, and sixteen hex digits that read back as the hash. */
  lemma IdentityParts(name: string, h: u64)
    ensures Identity(name, h)[..6] == "berth-"
    ensures Identity(name, h)[6..6 + |name|] == name
    ensures Identity(name, h)[6 + |name|] == '-'
    ensures var digits := Identity(name, h)[6 + |name| + 1..];
            |digits| == 16 && (forall i | 0 <= i < 16 :: IsHexDigit(digits[i])) && ParseHex(digits) == h
  {
    var r := Identity(name, h);
    assert r == "berth-" + name + "-" + Hex16(h);
    assert r[6 + |name| + 1..] == Hex16(h);
  }

  /** Two environments get the same identity only if they have the same name
      and the same hash. */
  lemma IdentityInjective(n1: string, h1: u64, n2: string, h2: u64)
    requires Identity(n1, h1) == Identity(n2, h2)
    ensures n1 == n2 && h1 == h2
  {
    IdentityParts(n1, h1);
    IdentityParts(n2, h2);
  }

  // --------------------------------------------------------- option lists

  /** Variable expansion of each element of an option list. */
  function ExpandAll(expand: string -> string, xs: seq<string>): (r: seq<string>)
    ensures |r| == |xs|
    ensures forall i | 0 <= i < |xs| :: r[i] == expand(xs[i])
  {
    seq(|xs|, i requires 0 <= i < |xs| => expand(xs[i]))
  }

  // ------------------------------------------------------- the Dockerfile

  const DockerfileNotFound := "Could not find dockerfile"

  /** Where a (variable-expanded) Dockerfile path points: an absolute path as
      is, a relative one joined to the configuration file's directory, which
      fails when the configuration path has no parent. */
  function ResolveDockerfilePath(path: string, configPath: string, host: Host): (r: Result<string, ConfigError>)
    ensures IsAbsolute(path) ==> r == Ok(path)
    ensures !IsAbsolute(path) && host.parent(configPath).Some? ==> r == Ok(Join(host.parent(configPath).value, path))
    ensures !IsAbsolute(path) && host.parent(configPath).None? ==> r == Err(FailedToInteractWithDockerfile(path))
  {
    if IsAbsolute(path) then Ok(path)
    else
      match host.parent(configPath)
      case Some(dir) => Ok(Join(dir, path))
      case None => Err(FailedToInteractWithDockerfile(path))
  }

  /** `validate_dockerfile` as written: a path that is not an existing file is
      reported at the `dockerfile` entry of the environment's own table, and
      the lookup of that entry fails when the Dockerfile came from a preset. */
  function ValidateDockerfileAsWritten(dockerfile: string, envName: string, configPath: string, doc: Document, host: Host): (r: Result<string, ConfigError>)
    ensures r.Ok? ==> host.isPresent(r.value) && host.isFile(r.value)
    ensures var p := ResolveDockerfilePath(host.expand(dockerfile), configPath, host);
            && (p.Err? ==> r == p)
            && (p.Ok? && host.isPresent(p.value) && host.isFile(p.value) ==> r == p)
            && (p.Ok? && !(host.isPresent(p.value) && host.isFile(p.value)) ==>
                  r == (var entry := doc.entry(EnvironmentSection, envName, "dockerfile");
                        if entry.Some? then Err(InvalidDockerfilePath(DockerfileNotFound, entry.value.value))
                        else Err(Unexpected(UnexpectedNone))))
  {
    var resolved :- ResolveDockerfilePath(host.expand(dockerfile), configPath, host);
    if !host.isPresent(resolved) || !host.isFile(resolved) then
      var entry :- Located(doc.entry(EnvironmentSection, envName, "dockerfile"));
      Err(InvalidDockerfilePath(DockerfileNotFound, entry.value))
    else Ok(resolved)
  }

  /** Where a missing Dockerfile is reported: the environment's own
      `dockerfile` value, or, when the path came from a preset, the
      environment's table. */
  function DockerfileSpan(doc: Document, envName: string): (r: Result<Range, ConfigError>)
    ensures doc.table(envName).Some? ==> r.Ok?
    ensures r.Err? ==> r.error == Unexpected(UnexpectedNone)
  {
    match doc.entry(EnvironmentSection, envName, "dockerfile")
    case Some(entry) => Ok(entry.value)
    case None => Located(doc.table(envName))
  }

  /** `validate_dockerfile`, with a missing Dockerfile always reported as
      `InvalidDockerfilePath` for an environment the document knows. */
  function ValidateDockerfile(dockerfile: string, envName: string, configPath: string, doc: Document, host: Host): (r: Result<string, ConfigError>)
    ensures r.Ok? ==> host.isPresent(r.value) && host.isFile(r.value)
    ensures var p := ResolveDockerfilePath(host.expand(dockerfile), configPath, host);
            && (p.Err? ==> r == p)
            && (p.Ok? && host.isPresent(p.value) && host.isFile(p.value) ==> r == p)
            && (p.Ok? && !(host.isPresent(p.value) && host.isFile(p.value)) && doc.table(envName).Some? ==>
                  r.Err? && r.error.InvalidDockerfilePath? && r.error.msg == DockerfileNotFound)
  {
    var resolved :- ResolveDockerfilePath(host.expand(dockerfile), configPath, host);
    if !host.isPresent(resolved) || !host.isFile(resolved) then
      var span :- DockerfileSpan(doc, envName);
      Err(InvalidDockerfilePath(DockerfileNotFound, span))
    else Ok(resolved)
  }

  /** A missing Dockerfile whose path the environment inherits from a preset
      has no `dockerfile` entry in the environment's own table: the program
      as written then fails with an unexpected error instead of reporting the
      missing file, which the corrected check reports at the table. */
  lemma InheritedDockerfileMisreported(dockerfile: string, envName: string, configPath: string, doc: Document, host: Host)
    requires ResolveDockerfilePath(host.expand(dockerfile), configPath, host).Ok?
    requires var p := ResolveDockerfilePath(host.expand(dockerfile), configPath, host).value;
             !host.isPresent(p)
    requires doc.entry(EnvironmentSection, envName, "dockerfile").None?
    requires doc.table(envName).Some?
    ensures ValidateDockerfileAsWritten(dockerfile, envName, configPath, doc, host) == Err(Unexpected(UnexpectedNone))
    ensures ValidateDockerfile(dockerfile, envName, configPath, doc, host) ==
              Err(InvalidDockerfilePath(DockerfileNotFound, doc.table(envName).value))
  {
  }

  /** `validate_dockerfile` as the program has it, or corrected. */
  function CheckDockerfile(rev: Revision, dockerfile: string, envName: string, configPath: string, doc: Document, host: Host): Result<string, ConfigError>
  {
    match rev
    case AsWritten => ValidateDockerfileAsWritten(dockerfile, envName, configPath, doc, host)
    case Corrected => ValidateDockerfile(dockerfile, envName, configPath, doc, host)
  }

  /** A Dockerfile path that resolves to nothing on disk fails the check,
      as written and corrected alike. */
  lemma MissingDockerfileFails(rev: Revision, dockerfile: string, envName: string, configPath: string, doc: Document, host: Host)
    requires ResolveDockerfilePath(host.expand(dockerfile), configPath, host).Ok?
    requires !host.isPresent(ResolveDockerfilePath(host.expand(dockerfile), configPath, host).value)
    requires doc.table(envName).Some?
    ensures CheckDockerfile(rev, dockerfile, envName, configPath, doc, host).Err?
  {
    match rev
    case AsWritten =>
      var r := ValidateDockerfileAsWritten(dockerfile, envName, configPath, doc, host);
      assert r.Ok? ==> host.isPresent(r.value);
    case Corrected =>
  }

  // ------------------------------------------------------- the image name

  const ChunkSize := 1024

  function Concat(chunks: seq<seq<byte>>): seq<byte>
  {
    if chunks == [] then [] else chunks[0] + Concat(chunks[1..])
  }

  /** The successive reads of the hashing loop: full buffers of `size` bytes,
      then what is left. */
  function Chunks(data: seq<byte>, size: nat): (r: seq<seq<byte>>)
    requires size > 0
    ensures Concat(r) == data
    ensures forall i | 0 <= i < |r| :: 0 < |r[i]| <= size
    decreases |data|
  {
    if data == [] then []
    else
      var n := if |data| < size then |data| else size;
      var rest := Chunks(data[n..], size);
      assert data[..n] + data[n..] == data;
      [data[..n]] + rest
  }

  /** `generate_image_name`: `berth-<lower-cased name>-<SHA-256 of the
      Dockerfile in hex>`. The file is hashed in 1024-byte reads, which feed
      the hasher exactly the file's bytes. */
  function GenerateImageName(name: string, path: string, host: Host): (r: Result<string, ConfigError>)
    ensures host.canonicalize(path).None? ==> r == Err(FailedToInteractWithDockerfile(path))
    ensures host.canonicalize(path).Some? && host.read(host.canonicalize(path).value).None? ==>
              r == Err(FailedToInteractWithDockerfile(host.canonicalize(path).value))
    ensures host.canonicalize(path).Some? && host.read(host.canonicalize(path).value).Some? ==> r.Ok?
    ensures r.Ok? ==>
              r.value == "berth-" + AsciiLower(name) + "-" + HexBytes(host.sha256(host.read(host.canonicalize(path).value).value))
  {
    match host.canonicalize(path)
    case None => Err(FailedToInteractWithDockerfile(path))
    case Some(canonical) =>
      match host.read(canonical)
      case None => Err(FailedToInteractWithDockerfile(canonical))
      case Some(bytes) =>
        var fed := Concat(Chunks(bytes, ChunkSize));
        Ok("berth-" + AsciiLower(name) + "-" + HexBytes(host.sha256(fed)))
  }

  /** The image name a content hash gives: lower-case, 64 hex digits long in
      its digest part, and the same for names differing only in case. */
  lemma ImageNameShape(name: string, d: Digest)
    ensures var image := "berth-" + AsciiLower(name) + "-" + HexBytes(d);
            && |image| == 6 + |name| + 1 + 64
            && image[6 + |name| + 1..] == HexBytes(d)
            && forall i | 0 <= i < |image| :: !('A' <= image[i] <= 'Z')
  {
    var image := "berth-" + AsciiLower(name) + "-" + HexBytes(d);
    assert image[6 + |name| + 1..] == HexBytes(d);
    forall i | 0 <= i < |image| ensures !('A' <= image[i] <= 'Z') {
      if i < 6 {
        assert image[i] == "berth-"[i];
      } else if i < 6 + |name| {
        assert image[i] == AsciiLower(name)[i - 6];
      } else if i > 6 + |name| {
        assert image[i] == HexBytes(d)[i - 7 - |name|];
      }
    }
  }

  // ----------------------------------------------------- create_environment

  /** The message of a failed search for the requested environment. */
  function SearchMessage(name: string): string
  {
    "Failed to find provided environment '" + name + "' in config"
  }

  /** The image and Dockerfile of a merged environment: a given image is used
      as is; otherwise the Dockerfile is resolved and the image named after
      it, and the first of those two steps to fail decides the error. */
  function ImageAndDockerfile(rev: Revision, e: TomlEnvironment, name: string, configPath: string, doc: Document, host: Host): (r: Result<(string, Option<string>), ConfigError>)
    ensures e.image != "" ==> r == Ok((e.image, None))
    ensures e.image == "" ==>
              var path := CheckDockerfile(rev, e.dockerfile, name, configPath, doc, host);
              && (path.Err? ==> r == Err(path.error))
              && (path.Ok? ==> host.isPresent(path.value) && host.isFile(path.value))
              && (path.Ok? && GenerateImageName(name, path.value, host).Err? ==>
                    r == Err(GenerateImageName(name, path.value, host).error))
              && (path.Ok? && GenerateImageName(name, path.value, host).Ok? ==>
                    r == Ok((GenerateImageName(name, path.value, host).value, Some(path.value))))
  {
    if e.image == "" then
      var path :- CheckDockerfile(rev, e.dockerfile, name, configPath, doc, host);
      var image :- GenerateImageName(name, path, host);
      Ok((image, Some(path)))
    else Ok((e.image, None))
  }

  /** `create_environment`: the requested environment, resolved. A missing
      environment is reported over the whole text, whose end is its length
      in UTF-8 bytes. */
  function CreateEnvironment(rev: Revision, envs: map<string, TomlEnvironment>, name: string, configPath: string, doc: Document, host: Host): (r: Result<Environment, ConfigError>)
    ensures name !in envs ==> r == Err(EnvironmentSearch(SearchMessage(name), Range(0, Utf8Length(doc.content))))
    ensures name in envs ==> (r.Ok? <==> ImageAndDockerfile(rev, envs[name], name, configPath, doc, host).Ok?)
    ensures name in envs && ImageAndDockerfile(rev, envs[name], name, configPath, doc, host).Err? ==>
              r == Err(ImageAndDockerfile(rev, envs[name], name, configPath, doc, host).error)
    ensures r.Ok? ==> name in envs
    ensures r.Ok? ==> r.value.originalName == name
    ensures r.Ok? ==> r.value.name == Identity(name, host.hash(r.value.(name := name)))
    ensures r.Ok? ==> r.value.entryCmd == envs[name].entryCmd
    ensures r.Ok? ==> r.value.execCmds == envs[name].execCmds && r.value.cpCmds == envs[name].cpCmds
    ensures r.Ok? ==> r.value.entryOptions == ExpandAll(host.expand, envs[name].entryOptions)
    ensures r.Ok? ==> r.value.execOptions == ExpandAll(host.expand, envs[name].execOptions)
    ensures r.Ok? ==> r.value.createOptions == ExpandAll(host.expand, envs[name].createOptions)
    ensures r.Ok? && envs[name].image != "" ==> r.value.image == envs[name].image && r.value.dockerfile.None?
    ensures r.Ok? && envs[name].image == "" ==>
              && r.value.dockerfile.Some?
              && host.isPresent(r.value.dockerfile.value) && host.isFile(r.value.dockerfile.value)
              && GenerateImageName(name, r.value.dockerfile.value, host) == Ok(r.value.image)
    ensures name in envs && r.Err? ==> envs[name].image == ""
  {
    if name !in envs then Err(EnvironmentSearch(SearchMessage(name), Range(0, Utf8Length(doc.content))))
    else
      var e := envs[name];
      var entryOptions := ExpandAll(host.expand, e.entryOptions);
      var execOptions := ExpandAll(host.expand, e.execOptions);
      var createOptions := ExpandAll(host.expand, e.createOptions);
      var pair :- ImageAndDockerfile(rev, e, name, configPath, doc, host);
      var env := Environment(name, name, pair.0, pair.1, e.entryCmd, entryOptions, e.execCmds, execOptions, createOptions, e.cpCmds);
      Ok(env.(name := Identity(name, host.hash(env))))
  }
}
