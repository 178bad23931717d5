/** `Either<Left, Right>` of Sources/MonadicEither/Either.swift: a closed
    (`@frozen`) two-armed union. `Left` carries the alternative (or error)
    value, `Right` the main one. Every combinator of the Sources/ edition is a
    function over this datatype, in the module named after its source file. */
module EitherCore {

  datatype Either<L, R> = Left(left: L) | Right(right: R)

  /** The type is frozen: every value is exactly one of the two arms. */
  lemma ExactlyOneArm<L, R>(e: Either<L, R>)
    ensures e.Left? != e.Right?
    ensures (e.Left? && e == Left(e.left)) || (e.Right? && e == Right(e.right))
  {
  }

  /** The constructors are injective, and the tag alone separates `Left(x)`
      from `Right(x)` when both arms carry the same type. */
  lemma ArmsAreInjectiveAndDistinct<T>(a: T, b: T)
    ensures var la: Either<T, T>, lb: Either<T, T> := Left(a), Left(b); la == lb <==> a == b
    ensures var ra: Either<T, T>, rb: Either<T, T> := Right(a), Right(b); ra == rb <==> a == b
    ensures var la: Either<T, T>, ra: Either<T, T> := Left(a), Right(a); la != ra
  {
  }
}
