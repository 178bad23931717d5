/** The factories of Sources/MonadicResult/Result+Factory.swift. The body of
    `init(catching:)` uses typed throws (`throws(Failure)`), so what it does is
    one `Throwing<Success, Failure>` outcome. */
module ResultFactory {
  import opened Throws
  import opened ResultCore
  import opened ResultMap

  /** `init(catching:)`: a returned value becomes a success, a thrown error a failure. */
  function Catching<S, F>(body: Throwing<S, F>): (o: Result<S, F>)
    ensures o.Success? <==> body.Returned?
  {
    match body
    case Returned(v) => Success(v)
    case Threw(e) => Failure(e)
  }

  /** `lift(_:)`: the function that maps every `Result` with `transform`. */
  function Lift<S, F, Out>(transform: S -> Out): Result<S, F> -> Result<Out, F> {
    (r: Result<S, F>) => Map(r, transform)
  }

  /** `lift(success:error:)`: the function that bimaps every `Result`. */
  function LiftBimap<S, F, SOut, FOut>(successTransform: S -> SOut, failureTransform: F -> FOut): Result<S, F> -> Result<SOut, FOut> {
    (r: Result<S, F>) => Bimap(r, successTransform, failureTransform)
  }

  /** `catching` keeps the payload it captures, on the arm that matches. */
  lemma CatchingCapturesOutcome<S, F>(v: S, err: F)
    ensures Catching<S, F>(Returned(v)) == Success(v)
    ensures Catching<S, F>(Threw(err)) == Failure(err)
  {
  }

  /** The lifted functions agree with `map` and `bimap` on every value. */
  lemma LiftIsMap<S, F, SOut, FOut>(st: S -> SOut, ft: F -> FOut, r: Result<S, F>)
    ensures Lift(st)(r) == Map(r, st)
    ensures LiftBimap(st, ft)(r) == Bimap(r, st, ft)
  {
  }
}
