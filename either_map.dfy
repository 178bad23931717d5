/** The transforming combinators of Sources/Either/Either+Map.swift. Each
    async overload there has the body of its sync twin (it only awaits the
    transform), so one function models both. */
module EitherMap {
  import opened EitherCore

  /** `map`: transforms the right payload; a left passes through. */
  function Map<L, R, Out>(e: Either<L, R>, transform: R -> Out): (r: Either<L, Out>)
    ensures r.Left? <==> e.Left?
    ensures e.Left? ==> r.left == e.left
    ensures e.Right? ==> r.right == transform(e.right)
  {
    match e
    case Left(l) => Left(l)
    case Right(x) => Right(transform(x))
  }

  /** `mapLeft`: transforms the left payload; a right passes through. */
  function MapLeft<L, R, Out>(e: Either<L, R>, transform: L -> Out): (r: Either<Out, R>)
    ensures r.Right? <==> e.Right?
    ensures e.Right? ==> r.right == e.right
    ensures e.Left? ==> r.left == transform(e.left)
  {
    match e
    case Left(l) => Left(transform(l))
    case Right(x) => Right(x)
  }

  /** `bimap(left:right:)`: keeps the arm and applies the matching transform. */
  function Bimap<L, R, LOut, ROut>(e: Either<L, R>, leftTransform: L -> LOut, rightTransform: R -> ROut): (r: Either<LOut, ROut>)
    ensures r.Left? <==> e.Left?
    ensures e.Left? ==> r.left == leftTransform(e.left)
    ensures e.Right? ==> r.right == rightTransform(e.right)
  {
    match e
    case Left(l) => Left(leftTransform(l))
    case Right(x) => Right(rightTransform(x))
  }

  /** `fold(left:right:)`: collapses both arms to one type. */
  function Fold<L, R, Out>(e: Either<L, R>, leftTransform: L -> Out, rightTransform: R -> Out): Out {
    match e
    case Left(l) => leftTransform(l)
    case Right(x) => rightTransform(x)
  }

  /** `foldLeft(initial:transform:)`: the transform of a left payload, else `initial`. */
  function FoldLeft<L, R, Out>(e: Either<L, R>, initial: Out, transform: L -> Out): Out {
    if e.Left? then transform(e.left) else initial
  }

  /** `foldRight(initial:transform:)`: the transform of a right payload, else `initial`. */
  function FoldRight<L, R, Out>(e: Either<L, R>, initial: Out, transform: R -> Out): Out {
    if e.Right? then transform(e.right) else initial
  }

  /** `flatMap`: the monadic bind over the right arm; a left short-circuits. */
  function FlatMap<L, R, Out>(e: Either<L, R>, transform: R -> Either<L, Out>): (r: Either<L, Out>)
    ensures e.Left? ==> r == Left(e.left)
  {
    match e
    case Left(l) => Left(l)
    case Right(x) => transform(x)
  }

  /** `flatMapLeft`: the bind over the left arm; a right passes through. */
  function FlatMapLeft<L, R, Out>(e: Either<L, R>, transform: L -> Either<Out, R>): (r: Either<Out, R>)
    ensures e.Right? ==> r == Right(e.right)
  {
    match e
    case Left(l) => transform(l)
    case Right(x) => Right(x)
  }

  /** `swap`: exchanges the arms and keeps the payload. */
  function Swap<L, R>(e: Either<L, R>): (r: Either<R, L>)
    ensures r.Left? <==> e.Right?
    ensures r.Left? ==> r.left == e.right
    ensures r.Right? ==> r.right == e.left
  {
    match e
    case Left(l) => Right(l)
    case Right(x) => Left(x)
  }

  /** `flatten`: `flatMap { $0 }` on a right payload that is itself an `Either`. */
  function Flatten<L, N>(e: Either<L, Either<L, N>>): Either<L, N> {
    FlatMap(e, (inner: Either<L, N>) => inner)
  }

  // ---- laws ----

  /** `map` with the identity changes nothing. */
  lemma MapIdentity<L, R>(e: Either<L, R>)
    ensures Map(e, (x: R) => x) == e
  {
  }

  /** Two `map`s are one `map` of the composed transform. */
  lemma MapComposition<L, R, S, T>(e: Either<L, R>, f: R -> S, g: S -> T)
    ensures Map(Map(e, f), g) == Map(e, (x: R) => g(f(x)))
  {
  }

  /** `map` is `flatMap` of a transform that always returns a right. */
  lemma MapIsFlatMapToRight<L, R, Out>(e: Either<L, R>, transform: R -> Out)
    ensures Map(e, transform) == FlatMap(e, (x: R) => Right(transform(x)))
  {
  }

  /** `mapLeft` is `map` seen through `swap`. */
  lemma MapLeftIsSwappedMap<L, R, Out>(e: Either<L, R>, transform: L -> Out)
    ensures MapLeft(e, transform) == Swap(Map(Swap(e), transform))
  {
  }

  /** `bimap` is `map` followed by `mapLeft`: exactly the matching transform runs. */
  lemma BimapIsMapThenMapLeft<L, R, LOut, ROut>(e: Either<L, R>, lt: L -> LOut, rt: R -> ROut)
    ensures Bimap(e, lt, rt) == MapLeft(Map(e, rt), lt)
  {
  }

  /** `fold` of a left never consults the right transform, and vice versa. */
  lemma FoldUsesOnlyMatchingTransform<L, R, Out>(e: Either<L, R>, lt1: L -> Out, lt2: L -> Out, rt1: R -> Out, rt2: R -> Out)
    ensures e.Left? ==> Fold(e, lt1, rt1) == Fold(e, lt1, rt2) == lt1(e.left)
    ensures e.Right? ==> Fold(e, lt1, rt1) == Fold(e, lt2, rt1) == rt1(e.right)
  {
  }

  /** `foldLeft` and `foldRight` are `fold` with a constant on the other arm. */
  lemma FoldLeftRightAreFolds<L, R, Out>(e: Either<L, R>, initial: Out, lt: L -> Out, rt: R -> Out)
    ensures FoldLeft(e, initial, lt) == Fold(e, lt, (_: R) => initial)
    ensures FoldRight(e, initial, rt) == Fold(e, (_: L) => initial, rt)
  {
  }

  /** A left short-circuits `flatMap` whatever the transform; on a right
      `flatMap` is the transform itself (left identity). */
  lemma FlatMapShortCircuits<L, R, Out>(e: Either<L, R>, t1: R -> Either<L, Out>, t2: R -> Either<L, Out>)
    ensures e.Left? ==> FlatMap(e, t1) == FlatMap(e, t2) == Left(e.left)
    ensures e.Right? ==> FlatMap(e, t1) == t1(e.right)
  {
  }

  /** Right identity and associativity of `flatMap`. */
  lemma FlatMapMonadLaws<L, R, S, T>(e: Either<L, R>, f: R -> Either<L, S>, g: S -> Either<L, T>)
    ensures FlatMap(e, (x: R) => Right(x)) == e
    ensures FlatMap(FlatMap(e, f), g) == FlatMap(e, (x: R) => FlatMap(f(x), g))
  {
  }

  /** `flatMapLeft` is `flatMap` seen through `swap`; it may switch arm. */
  lemma FlatMapLeftIsSwappedFlatMap<L, R, Out>(e: Either<L, R>, transform: L -> Either<Out, R>)
    ensures FlatMapLeft(e, transform) == Swap(FlatMap(Swap(e), (x: L) => Swap(transform(x))))
  {
  }

  /** `swap` is an involution. */
  lemma SwapInvolution<L, R>(e: Either<L, R>)
    ensures Swap(Swap(e)) == e
  {
  }

  /** `flatten` after `map` is `flatMap`; `right(right(x))` flattens to `right(x)`. */
  lemma FlattenOfMapIsFlatMap<L, R, N>(e: Either<L, R>, transform: R -> Either<L, N>)
    ensures Flatten(Map(e, transform)) == FlatMap(e, transform)
  {
  }

  /** The examples of the test suite: `left(1).map { _ in "foo" } == left(1)`,
      `right(right(2)).flatten() == right(2)`, `left(1).flatten() == left(1)`. */
  lemma MapAndFlattenExamples()
    ensures var e: Either<int, int> := Left(1); Map(e, (_: int) => "foo") == Left(1)
    ensures var e: Either<int, int> := Right(2); Map(e, (_: int) => "foo") == Right("foo")
    ensures var e: Either<int, Either<int, int>> := Right(Right(2)); Flatten(e) == Right(2)
    ensures var e: Either<int, Either<int, int>> := Left(1); Flatten(e) == Left(1)
  {
  }
}
