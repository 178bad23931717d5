/** The transforming combinators of Sources/MonadicResult/Result+Map.swift,
    together with the standard library's synchronous `map`, `mapError` and
    `flatMap`, which the async overloads of that file mirror arm for arm. */
module ResultMap {
  import opened ResultCore

  /** `map`: transforms a success; a failure passes through. */
  function Map<S, F, Out>(r: Result<S, F>, transform: S -> Out): (o: Result<Out, F>)
    ensures o.Failure? <==> r.Failure?
    ensures r.Failure? ==> o.error == r.error
    ensures r.Success? ==> o.value == transform(r.value)
  {
    match r
    case Failure(f) => Failure(f)
    case Success(s) => Success(transform(s))
  }

  /** `mapError`: transforms a failure; a success passes through. */
  function MapError<S, F, Out>(r: Result<S, F>, transform: F -> Out): (o: Result<S, Out>)
    ensures o.Success? <==> r.Success?
    ensures r.Success? ==> o.value == r.value
    ensures r.Failure? ==> o.error == transform(r.error)
  {
    match r
    case Failure(f) => Failure(transform(f))
    case Success(s) => Success(s)
  }

  /** `bimap(success:error:)`: keeps the arm and applies the matching transform. */
  function Bimap<S, F, SOut, FOut>(r: Result<S, F>, successTransform: S -> SOut, failureTransform: F -> FOut): (o: Result<SOut, FOut>)
    ensures o.Success? <==> r.Success?
    ensures r.Success? ==> o.value == successTransform(r.value)
    ensures r.Failure? ==> o.error == failureTransform(r.error)
  {
    match r
    case Failure(f) => Failure(failureTransform(f))
    case Success(s) => Success(successTransform(s))
  }

  /** `fold(failure:success:)`, and the async `fold(success:error:)`, which
      takes the same two transforms in the other order. */
  function Fold<S, F, Out>(r: Result<S, F>, failureTransform: F -> Out, successTransform: S -> Out): Out {
    match r
    case Failure(f) => failureTransform(f)
    case Success(s) => successTransform(s)
  }

  /** `foldError(initial:transform:)`: the transform of a failure, else `initial`. */
  function FoldError<S, F, Out>(r: Result<S, F>, initial: Out, transform: F -> Out): Out {
    if r.Failure? then transform(r.error) else initial
  }

  /** `foldSuccess(initial:transform:)`: the transform of a success, else `initial`. */
  function FoldSuccess<S, F, Out>(r: Result<S, F>, initial: Out, transform: S -> Out): Out {
    if r.Success? then transform(r.value) else initial
  }

  /** `flatMap`: the bind over the success arm; a failure short-circuits. */
  function FlatMap<S, F, Out>(r: Result<S, F>, transform: S -> Result<Out, F>): (o: Result<Out, F>)
    ensures r.Failure? ==> o == Failure(r.error)
  {
    match r
    case Failure(f) => Failure(f)
    case Success(s) => transform(s)
  }

  /** `flatMapError`: the bind over the failure arm; a success passes through. */
  function FlatMapError<S, F, Out>(r: Result<S, F>, transform: F -> Result<S, Out>): (o: Result<S, Out>)
    ensures r.Success? ==> o == Success(r.value)
  {
    match r
    case Failure(f) => transform(f)
    case Success(s) => Success(s)
  }

  /** `flatten`: `flatMap { $0 }` on a success that is itself a `Result`. */
  function Flatten<N, F>(r: Result<Result<N, F>, F>): Result<N, F> {
    FlatMap(r, (inner: Result<N, F>) => inner)
  }

  // ---- laws ----

  /** `map` and `mapError` are functors: identity and composition. */
  lemma MapFunctorLaws<S, F, T, U>(r: Result<S, F>, f: S -> T, g: T -> U, h: F -> T, k: T -> U)
    ensures Map(r, (x: S) => x) == r
    ensures MapError(r, (x: F) => x) == r
    ensures Map(Map(r, f), g) == Map(r, (x: S) => g(f(x)))
    ensures MapError(MapError(r, h), k) == MapError(r, (x: F) => k(h(x)))
  {
  }

  /** `bimap` is `map` followed by `mapError`; `map` is `flatMap` to a success. */
  lemma BimapIsMapThenMapError<S, F, SOut, FOut>(r: Result<S, F>, st: S -> SOut, ft: F -> FOut)
    ensures Bimap(r, st, ft) == MapError(Map(r, st), ft)
    ensures Map(r, st) == FlatMap(r, (x: S) => Success(st(x)))
  {
  }

  /** `fold` applies exactly the matching transform; `foldError` and
      `foldSuccess` are folds with a constant on the other arm. */
  lemma FoldUsesOnlyMatchingTransform<S, F, Out>(r: Result<S, F>, initial: Out, ft: F -> Out, ft2: F -> Out, st: S -> Out, st2: S -> Out)
    ensures r.Failure? ==> Fold(r, ft, st) == Fold(r, ft, st2) == ft(r.error)
    ensures r.Success? ==> Fold(r, ft, st) == Fold(r, ft2, st) == st(r.value)
    ensures FoldError(r, initial, ft) == Fold(r, ft, (_: S) => initial)
    ensures FoldSuccess(r, initial, st) == Fold(r, (_: F) => initial, st)
  {
  }

  /** A failure short-circuits `flatMap` whatever the transform; a success
      short-circuits `flatMapError` in the same way. */
  lemma FlatMapShortCircuits<S, F, Out>(r: Result<S, F>, t1: S -> Result<Out, F>, t2: S -> Result<Out, F>, u1: F -> Result<S, Out>, u2: F -> Result<S, Out>)
    ensures r.Failure? ==> FlatMap(r, t1) == FlatMap(r, t2) == Failure(r.error)
    ensures r.Success? ==> FlatMap(r, t1) == t1(r.value)
    ensures r.Success? ==> FlatMapError(r, u1) == FlatMapError(r, u2) == Success(r.value)
    ensures r.Failure? ==> FlatMapError(r, u1) == u1(r.error)
  {
  }

  /** Right identity and associativity of `flatMap`, and `flatten` after `map`. */
  lemma FlatMapMonadLaws<S, F, T, U>(r: Result<S, F>, f: S -> Result<T, F>, g: T -> Result<U, F>)
    ensures FlatMap(r, (x: S) => Success(x)) == r
    ensures FlatMap(FlatMap(r, f), g) == FlatMap(r, (x: S) => FlatMap(f(x), g))
    ensures Flatten(Map(r, f)) == FlatMap(r, f)
  {
  }

  /** The examples of the documentation: `success(1).flatMapError { _ in
      .success(3) } == success(1)`, `success(success(1)).flatten() == success(1)`,
      `failure(2).flatten() == failure(2)`. */
  lemma FlatMapErrorAndFlattenExamples()
    ensures var r: Result<int, int> := Success(1); FlatMapError<int, int, int>(r, (_: int) => Success(3)) == Success(1)
    ensures var r: Result<Result<int, int>, int> := Success(Success(1)); Flatten(r) == Success(1)
    ensures var r: Result<Result<int, int>, int> := Failure(2); Flatten(r) == Failure(2)
  {
  }
}
