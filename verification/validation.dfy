/** `validate_environments` of src/configuration.rs: after merging, every
    environment of the file, not only the requested one, needs an entry
    command and exactly one of `image` and `dockerfile`. */
module Validation {
  import opened Util
  import opened ConfigTypes

  const MissingEntryCmd := "An environment requires a 'entry_cmd' field"
  const MissingImage := "An environment requires an 'image' or 'dockerfile' field"
  const ImageAndDockerfile := "An environment can only have an 'image' or 'dockerfile' field"

  /** A merged environment the rest of resolution can use. */
  predicate Valid(e: TomlEnvironment)
  {
    e.entryCmd != "" && ((e.image == "") != (e.dockerfile == ""))
  }

  /** What is wrong with a merged environment, checked in the program's
      order: the entry command first, then the image/Dockerfile pair. */
  function Problem(e: TomlEnvironment): (r: Option<string>)
    ensures r.None? <==> Valid(e)
    ensures e.entryCmd == "" ==> r == Some(MissingEntryCmd)
    ensures e.entryCmd != "" && e.image == "" && e.dockerfile == "" ==> r == Some(MissingImage)
    ensures e.entryCmd != "" && e.image != "" && e.dockerfile != "" ==> r == Some(ImageAndDockerfile)
  {
    if e.entryCmd == "" then Some(MissingEntryCmd)
    else if e.image == "" && e.dockerfile == "" then Some(MissingImage)
    else if e.image != "" && e.dockerfile != "" then Some(ImageAndDockerfile)
    else None
  }

  /** The three failures produce three different messages. */
  lemma ProblemsDistinct()
    ensures MissingEntryCmd != MissingImage
    ensures MissingEntryCmd != ImageAndDockerfile
    ensures MissingImage != ImageAndDockerfile
  {
    assert MissingImage[26] != ImageAndDockerfile[26];
  }

  /** `e` is the report for the invalid environment `n`: its problem with the
      span of its table, or an unexpected error if the table has no span. */
  ghost predicate ReportsInvalid(envs: map<string, TomlEnvironment>, doc: Document, n: string, e: ConfigError)
  {
    && n in envs
    && !Valid(envs[n])
    && (if doc.table(n).Some?
        then e == EnvironmentValidation(Problem(envs[n]).value, doc.table(n).value)
        else e == Unexpected(UnexpectedNone))
  }

  /** `validate_environments`, visiting the environments in `order`. A failing
      environment is reported with the span of its whole table. */
  function ValidateEnvironments(envs: map<string, TomlEnvironment>, doc: Document, order: seq<string>): (r: Result<map<string, TomlEnvironment>, ConfigError>)
    requires Within(order, envs)
    ensures r.Ok? <==> forall i | 0 <= i < |order| :: Valid(envs[order[i]])
    ensures r.Ok? ==> r.value == envs
    ensures r.Err? ==> exists i | 0 <= i < |order| :: ReportsInvalid(envs, doc, order[i], r.error)
  {
    if order == [] then Ok(envs)
    else
      var n := order[0];
      match Problem(envs[n])
      case Some(msg) =>
        var span :- Located(doc.table(n));
        Err(EnvironmentValidation(msg, span))
      case None =>
        var rest := ValidateEnvironments(envs, doc, order[1..]);
        assert forall i | 1 <= i < |order| :: order[i] == order[1..][i - 1];
        assert rest.Err? ==> exists i | 0 <= i < |order| :: ReportsInvalid(envs, doc, order[i], rest.error) by {
          if rest.Err? {
            var i :| 0 <= i < |order[1..]| && ReportsInvalid(envs, doc, order[1..][i], rest.error);
            assert order[i + 1] == order[1..][i];
          }
        }
        rest
  }

  /** Over a full enumeration, validation passes exactly when every
      environment of the file is valid; one invalid environment fails it even
      when it is not the one requested. */
  lemma ValidateAll(envs: map<string, TomlEnvironment>, doc: Document, order: seq<string>)
    requires Enumerates(order, envs)
    ensures ValidateEnvironments(envs, doc, order).Ok? <==> forall n | n in envs :: Valid(envs[n])
  {
    if ValidateEnvironments(envs, doc, order).Ok? {
      forall n | n in envs ensures Valid(envs[n]) {
        var i :| 0 <= i < |order| && order[i] == n;
      }
    }
  }

  /** When every environment has a table span, one invalid environment makes
      validation fail with an `EnvironmentValidation` report. */
  lemma InvalidReported(envs: map<string, TomlEnvironment>, doc: Document, order: seq<string>, n: string)
    requires Enumerates(order, envs)
    requires forall m | m in envs :: doc.table(m).Some?
    requires n in envs && !Valid(envs[n])
    ensures var r := ValidateEnvironments(envs, doc, order);
            r.Err? && r.error.EnvironmentValidation?
  {
    ValidateAll(envs, doc, order);
    var r := ValidateEnvironments(envs, doc, order);
    var i :| 0 <= i < |order| && ReportsInvalid(envs, doc, order[i], r.error);
    assert doc.table(order[i]).Some?;
  }
}
