/** The accessors of Sources/Either/Either+Get.swift. */
module EitherGet {
  import opened Optionals
  import opened EitherCore
  import opened EitherMap

  /** `isLeft`. */
  predicate IsLeft<L, R>(e: Either<L, R>) {
    e.Left?
  }

  /** `isRight`. */
  predicate IsRight<L, R>(e: Either<L, R>) {
    e.Right?
  }

  /** `leftOrNil()`: the left payload, or nil on a right. */
  function LeftOrNil<L, R>(e: Either<L, R>): (r: Option<L>)
    ensures r.Some? <==> IsLeft(e)
  {
    if e.Left? then Some(e.left) else None
  }

  /** `rightOrNil()`: the right payload, or nil on a left. */
  function RightOrNil<L, R>(e: Either<L, R>): (r: Option<R>)
    ensures r.Some? <==> IsRight(e)
  {
    if e.Right? then Some(e.right) else None
  }

  /** `leftOrDefault(default:)`. */
  function LeftOrDefault<L, R>(e: Either<L, R>, default: L): L {
    if e.Left? then e.left else default
  }

  /** `rightOrDefault(default:)`. */
  function RightOrDefault<L, R>(e: Either<L, R>, default: R): R {
    if e.Right? then e.right else default
  }

  /** `leftOrElse(_:)`: the left payload, or the transform of the right one. */
  function LeftOrElse<L, R>(e: Either<L, R>, transform: R -> L): L {
    match e
    case Left(l) => l
    case Right(x) => transform(x)
  }

  /** `rightOrElse(_:)`: the right payload, or the transform of the left one. */
  function RightOrElse<L, R>(e: Either<L, R>, transform: L -> R): R {
    match e
    case Left(l) => transform(l)
    case Right(x) => x
  }

  /** `take()` where `Left == Right`: the payload, whichever arm holds it. */
  function Take<T>(e: Either<T, T>): T {
    match e
    case Left(l) => l
    case Right(x) => x
  }

  // ---- laws ----

  /** Exactly one of `isLeft` and `isRight` holds, and each agrees with its `orNil`. */
  lemma ExactlyOneOfIsLeftIsRight<L, R>(e: Either<L, R>)
    ensures IsLeft(e) != IsRight(e)
    ensures IsLeft(e) ==> LeftOrNil(e) == Some(e.left)
    ensures IsRight(e) ==> RightOrNil(e) == Some(e.right)
  {
  }

  /** The left accessors are the right accessors seen through `swap`. */
  lemma LeftAccessorsAreSwappedRightAccessors<L, R>(e: Either<L, R>, default: L, transform: R -> L)
    ensures LeftOrNil(e) == RightOrNil(Swap(e))
    ensures LeftOrDefault(e, default) == RightOrDefault(Swap(e), default)
    ensures LeftOrElse(e, transform) == RightOrElse(Swap(e), transform)
  {
  }

  /** `orDefault` unwraps `orNil` with the default. */
  lemma OrDefaultUnwrapsOrNil<L, R>(e: Either<L, R>, dl: L, dr: R)
    ensures LeftOrDefault(e, dl) == (match LeftOrNil(e) case Some(l) => l case None => dl)
    ensures RightOrDefault(e, dr) == (match RightOrNil(e) case Some(x) => x case None => dr)
  {
  }

  /** `orElse` is a `fold` with the identity on its own arm, and `orDefault`
      is `orElse` with a constant transform. */
  lemma OrElseIsFold<L, R>(e: Either<L, R>, lt: R -> L, rt: L -> R)
    ensures LeftOrElse(e, lt) == Fold(e, (l: L) => l, lt)
    ensures RightOrElse(e, rt) == Fold(e, rt, (x: R) => x)
    ensures e.Right? ==> LeftOrElse(e, lt) == LeftOrDefault(e, lt(e.right))
  {
  }

  /** `take()` returns the payload whichever arm holds it, so it cannot tell
      `left(v)` from `right(v)`, and it is unchanged by `swap`. */
  lemma TakeIgnoresArm<T>(e: Either<T, T>, v: T)
    ensures Take(Left(v)) == Take(Right(v)) == v
    ensures Take(Swap(e)) == Take(e)
    ensures Take(e) == Fold(e, (x: T) => x, (x: T) => x)
  {
  }
}
