/** The conversions of Sources/Either/Either+Optional.swift. */
module EitherOptional {
  import opened Optionals
  import opened EitherCore
  import opened EitherGet

  /** `Either(optional:left:)`: a present value becomes a right; an absent one
      becomes a left made by the producer. */
  function FromOptional<L, R>(optional: Option<R>, leftInitial: () -> L): (r: Either<L, R>)
    ensures r.Right? <==> optional.Some?
  {
    match optional
    case None => Left(leftInitial())
    case Some(v) => Right(v)
  }

  /** `Optional.asEither(none:)`: delegates to `Either(optional:left:)`. */
  function AsEither<L, R>(optional: Option<R>, none: () -> L): Either<L, R> {
    FromOptional(optional, none)
  }

  /** `rightOrNil()` undoes the conversion, and an absent value yields the
      producer's result. */
  lemma RightOrNilRecoversOptional<L, R>(optional: Option<R>, leftInitial: () -> L)
    ensures RightOrNil(FromOptional(optional, leftInitial)) == optional
    ensures optional.None? ==> FromOptional(optional, leftInitial) == Left(leftInitial())
    ensures AsEither(optional, leftInitial) == FromOptional(optional, leftInitial)
  {
  }

  /** The producer is consulted only when the value is absent. */
  lemma ProducerUnusedWhenPresent<L, R>(v: R, p1: () -> L, p2: () -> L)
    ensures FromOptional(Some(v), p1) == FromOptional(Some(v), p2) == Right(v)
  {
  }
}
