/** Rust's `Option` and `Result`, the environment-variable snapshot
    `AppEnvVar`, and the `unexpected()` conversions of src/util.rs that turn
    a missing value or a library error into a "please report this" error. */
module Util {

  /** Rust's `Option<T>`; failure-compatible so that `:-` plays the role of `?`. */
  datatype Option<+T> = None | Some(value: T) {
    predicate IsFailure() { None? }

    function PropagateFailure<U>(): Option<U>
      requires None?
    {
      None
    }

    function Extract(): T
      requires Some?
    {
      value
    }
  }

  /** Rust's `Result<T, E>`; failure-compatible so that `:-` plays the role of `?`. */
  datatype Result<+T, +E> = Ok(value: T) | Err(error: E) {
    predicate IsFailure() { Err? }

    function PropagateFailure<U>(): Result<U, E>
      requires Err?
    {
      Err(error)
    }

    function Extract(): T
      requires Ok?
    {
      value
    }
  }

  /** The report `unexpected()` builds: an internal error rather than a user
      mistake. The caller's source location it also carries is not modelled. */
  datatype Unexpected = UnexpectedNone | UnexpectedError(message: string)

  /** `UnexpectedExt::unexpected` for `Option`: `Some(x)` passes through,
      `None` becomes the "Unexpected None" report. */
  function OptionUnexpected<T>(o: Option<T>): (r: Result<T, Unexpected>)
    ensures r.Ok? <==> o.Some?
    ensures r.Ok? ==> r.value == o.value
    ensures r.Err? ==> r.error == UnexpectedNone
  {
    match o
    case Some(x) => Ok(x)
    case None => Err(UnexpectedNone)
  }

  /** `UnexpectedExt::unexpected` for `Result`: `Ok(x)` passes through,
      `Err(e)` becomes a report carrying `e`'s display text. */
  function ResultUnexpected<T, E>(res: Result<T, E>, display: E -> string): (r: Result<T, Unexpected>)
    ensures r.Ok? <==> res.Ok?
    ensures r.Ok? ==> r.value == res.value
    ensures res.Err? ==> r.error == UnexpectedError(display(res.error))
  {
    match res
    case Ok(x) => Ok(x)
    case Err(e) => Err(UnexpectedError(display(e)))
  }

  /** Both conversions keep exactly the success values: mapping the converted
      result back to an `Option` gives the `Option` one started from. */
  lemma UnexpectedKeepsValues<T, E>(o: Option<T>, res: Result<T, E>, display: E -> string)
    ensures OptionUnexpected(o).Ok? ==> Some(OptionUnexpected(o).value) == o
    ensures ResultUnexpected(res, display).Ok? ==> res == Ok(ResultUnexpected(res, display).value)
    ensures ResultUnexpected(res, display).Err? ==> res.Err?
  {
  }

  /** The program's copy of its process environment. `AppEnvVar::new` takes a
      snapshot of the process environment; here the snapshot is the argument. */
  datatype AppEnvVar = AppEnvVar(vars: map<string, string>)

  /** `AppEnvVar::var`: the value stored for `key`, if any. */
  function Var(a: AppEnvVar, key: string): (r: Option<string>)
    ensures r.Some? <==> key in a.vars
    ensures r.Some? ==> r.value == a.vars[key]
  {
    if key in a.vars then Some(a.vars[key]) else None
  }

  /** `AppEnvVar::set_var`: insert or overwrite one variable. */
  function SetVar(a: AppEnvVar, key: string, value: string): (r: AppEnvVar)
    ensures Var(r, key) == Some(value)
    ensures forall k :: k != key ==> Var(r, k) == Var(a, k)
    ensures r.vars.Keys == a.vars.Keys + {key}
  {
    AppEnvVar(a.vars[key := value])
  }

  /** Setting a variable twice keeps only the second value. */
  lemma SetVarOverwrites(a: AppEnvVar, key: string, v1: string, v2: string)
    ensures SetVar(SetVar(a, key, v1), key, v2) == SetVar(a, key, v2)
  {
    assert SetVar(SetVar(a, key, v1), key, v2).vars == SetVar(a, key, v2).vars;
  }

  /** Setting two different variables gives the same snapshot in either order. */
  lemma SetVarCommutes(a: AppEnvVar, k1: string, v1: string, k2: string, v2: string)
    requires k1 != k2
    ensures SetVar(SetVar(a, k1, v1), k2, v2) == SetVar(SetVar(a, k2, v2), k1, v1)
  {
    assert SetVar(SetVar(a, k1, v1), k2, v2).vars == SetVar(SetVar(a, k2, v2), k1, v1).vars;
  }

  /** Which reading of a defective function a pipeline follows: the program
      as written, or with the defect corrected. */
  datatype Revision = AsWritten | Corrected
}
