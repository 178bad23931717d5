/** The conversions of Sources/Either/Either+Result.swift between
    `Either<Left, Right>` and `Result<Right, Left>`: pure re-tagging, `right`
    with `success` and `left` with `failure`. (The `Left: Error` constraint of
    the source is a compile-time bound with no effect on values.) */
module EitherResult {
  import opened EitherCore
  import opened ResultCore

  /** `Either(result:)`. */
  function FromResult<L, R>(result: Result<R, L>): (e: Either<L, R>)
    ensures e.Right? <==> result.Success?
  {
    match result
    case Success(s) => Right(s)
    case Failure(f) => Left(f)
  }

  /** `Result(either:)`. */
  function ResultFrom<L, R>(either: Either<L, R>): (r: Result<R, L>)
    ensures r.Success? <==> either.Right?
  {
    match either
    case Left(l) => Failure(l)
    case Right(x) => Success(x)
  }

  /** `Either.asResult()`: delegates to `Result(either:)`. */
  function AsResult<L, R>(either: Either<L, R>): Result<R, L> {
    ResultFrom(either)
  }

  /** `Result.asEither()`: delegates to `Either(result:)`. */
  function AsEither<L, R>(result: Result<R, L>): Either<L, R> {
    FromResult(result)
  }

  /** The two conversions are inverse to each other, so neither loses anything. */
  lemma ConversionsRoundTrip<L, R>(e: Either<L, R>, r: Result<R, L>)
    ensures FromResult(ResultFrom(e)) == e
    ensures ResultFrom(FromResult(r)) == r
    ensures AsEither(AsResult(e)) == e && AsResult(AsEither(r)) == r
  {
  }

  /** The payload is kept: `right`/`success` and `left`/`failure` correspond. */
  lemma ConversionsKeepPayload<L, R>(l: L, x: R)
    ensures ResultFrom<L, R>(Left(l)) == Failure(l) && ResultFrom<L, R>(Right(x)) == Success(x)
    ensures FromResult<L, R>(Failure(l)) == Left(l) && FromResult<L, R>(Success(x)) == Right(x)
  {
  }
}
