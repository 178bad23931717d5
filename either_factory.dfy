/** The factories of Sources/MonadicEither/Either+Factory.swift. The body of
    `init(catching:)` uses typed throws (`throws(Left)`), so what it does is
    one `Throwing<Right, Left>` outcome; no other error can escape. */
module EitherFactory {
  import opened Throws
  import opened EitherCore
  import opened EitherMap

  /** `init(catching:)`: a returned value becomes a right, a thrown `Left` a left. */
  function Catching<L, R>(body: Throwing<R, L>): (r: Either<L, R>)
    ensures r.Right? <==> body.Returned?
  {
    match body
    case Returned(v) => Right(v)
    case Threw(e) => Left(e)
  }

  /** `lift(_:)`: the function that maps every `Either` with `transform`. */
  function Lift<L, R, Out>(transform: R -> Out): Either<L, R> -> Either<L, Out> {
    (e: Either<L, R>) => Map(e, transform)
  }

  /** `lift(left:right:)`: the function that bimaps every `Either`. */
  function LiftBimap<L, R, LOut, ROut>(leftTransform: L -> LOut, rightTransform: R -> ROut): Either<L, R> -> Either<LOut, ROut> {
    (e: Either<L, R>) => Bimap(e, leftTransform, rightTransform)
  }

  /** `catching` keeps the payload it captures, on the arm that matches. */
  lemma CatchingCapturesOutcome<L, R>(v: R, err: L)
    ensures Catching<L, R>(Returned(v)) == Right(v)
    ensures Catching<L, R>(Threw(err)) == Left(err)
  {
  }

  /** The lifted functions agree with `map` and `bimap` on every value. */
  lemma LiftIsMap<L, R, Out, LOut>(transform: R -> Out, leftTransform: L -> LOut, e: Either<L, R>)
    ensures Lift(transform)(e) == Map(e, transform)
    ensures LiftBimap(leftTransform, transform)(e) == Bimap(e, leftTransform, transform)
  {
  }
}
