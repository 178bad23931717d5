/** The accessors of Sources/MonadicResult/Result+Get.swift. */
module ResultGet {
  import opened Optionals
  import opened ResultCore
  import opened ResultMap

  /** `isError`. */
  predicate IsError<S, F>(r: Result<S, F>) {
    r.Failure?
  }

  /** `isSuccess`. */
  predicate IsSuccess<S, F>(r: Result<S, F>) {
    r.Success?
  }

  /** `errorOrNil()`: the failure payload, or nil on a success. */
  function ErrorOrNil<S, F>(r: Result<S, F>): (o: Option<F>)
    ensures o.Some? <==> IsError(r)
  {
    if r.Failure? then Some(r.error) else None
  }

  /** `successOrNil()`: the success payload, or nil on a failure. */
  function SuccessOrNil<S, F>(r: Result<S, F>): (o: Option<S>)
    ensures o.Some? <==> IsSuccess(r)
  {
    if r.Success? then Some(r.value) else None
  }

  /** `errorOrDefault(default:)`. */
  function ErrorOrDefault<S, F>(r: Result<S, F>, default: F): F {
    if r.Failure? then r.error else default
  }

  /** `successOrDefault(default:)`. */
  function SuccessOrDefault<S, F>(r: Result<S, F>, default: S): S {
    if r.Success? then r.value else default
  }

  /** `errorOrElse(_:)`: the failure payload, or the transform of the success one. */
  function ErrorOrElse<S, F>(r: Result<S, F>, transform: S -> F): F {
    match r
    case Failure(f) => f
    case Success(s) => transform(s)
  }

  /** `successOrElse(_:)`: the success payload, or the transform of the failure one. */
  function SuccessOrElse<S, F>(r: Result<S, F>, transform: F -> S): S {
    match r
    case Failure(f) => transform(f)
    case Success(s) => s
  }

  // ---- laws ----

  /** Exactly one of `isError` and `isSuccess` holds, and each agrees with its `orNil`. */
  lemma ExactlyOneOfIsErrorIsSuccess<S, F>(r: Result<S, F>)
    ensures IsError(r) != IsSuccess(r)
    ensures IsError(r) ==> ErrorOrNil(r) == Some(r.error)
    ensures IsSuccess(r) ==> SuccessOrNil(r) == Some(r.value)
  {
  }

  /** `orDefault` unwraps `orNil` with the default; `orElse` is a `fold`
      with the identity on its own arm. */
  lemma OrDefaultAndOrElseAgree<S, F>(r: Result<S, F>, ds: S, df: F, st: F -> S, ft: S -> F)
    ensures ErrorOrDefault(r, df) == (match ErrorOrNil(r) case Some(f) => f case None => df)
    ensures SuccessOrDefault(r, ds) == (match SuccessOrNil(r) case Some(s) => s case None => ds)
    ensures ErrorOrElse(r, ft) == Fold(r, (f: F) => f, ft)
    ensures SuccessOrElse(r, st) == Fold(r, st, (s: S) => s)
  {
  }
}
