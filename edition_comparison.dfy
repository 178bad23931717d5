/** The two Either editions side by side: the same values, the same
    combinators, `==` and `take()`, but different `<` across arms and a
    different treatment of errors thrown by a factory body. */
module EditionComparison {
  import opened Optionals
  import opened Throws
  import Legacy = LegacyEither
  import EitherCore
  import EitherMap
  import EitherGet
  import EitherZip
  import EitherEquatable
  import EitherFactory
  import EitherComparable

  /** A value of the older edition as a value of the Sources/ edition. */
  function ToCurrent<L, R>(e: Legacy.Either<L, R>): (r: EitherCore.Either<L, R>)
    ensures r.Left? <==> e.Left?
    ensures r.Left? ==> r.left == e.left
    ensures r.Right? ==> r.right == e.right
  {
    match e
    case Left(l) => EitherCore.Left(l)
    case Right(x) => EitherCore.Right(x)
  }

  /** The mapping, swapping and folding combinators of both editions compute
      the same values. */
  lemma CombinatorsAgree<L, R, OL, OR>(e: Legacy.Either<L, R>, f: L -> OL, g: R -> OR, initial: OL, h: R -> OL)
    ensures ToCurrent(Legacy.Map(e, g)) == EitherMap.Map(ToCurrent(e), g)
    ensures ToCurrent(Legacy.MapLeft(e, f)) == EitherMap.MapLeft(ToCurrent(e), f)
    ensures ToCurrent(Legacy.Bimap(e, f, g)) == EitherMap.Bimap(ToCurrent(e), f, g)
    ensures ToCurrent(Legacy.Swap(e)) == EitherMap.Swap(ToCurrent(e))
    ensures Legacy.Fold(e, f, h) == EitherMap.Fold(ToCurrent(e), f, h)
    ensures Legacy.FoldLeft(e, initial, f) == EitherMap.FoldLeft(ToCurrent(e), initial, f)
    ensures Legacy.FoldRight(e, initial, h) == EitherMap.FoldRight(ToCurrent(e), initial, h)
  {
  }

  /** The binds of both editions agree once the transform's result is read
      in the Sources/ edition, and so do `flatten` and `zip`. */
  lemma BindsAgree<L, R, OL, OR>(e: Legacy.Either<L, R>, t: R -> Legacy.Either<L, OR>, u: L -> Legacy.Either<OL, R>, n: Legacy.Either<L, Legacy.Either<L, R>>, other: Legacy.Either<L, OR>, z: (R, OR) -> OL)
    ensures ToCurrent(Legacy.FlatMap(e, t)) == EitherMap.FlatMap(ToCurrent(e), (x: R) => ToCurrent(t(x)))
    ensures ToCurrent(Legacy.FlatMapLeft(e, u)) == EitherMap.FlatMapLeft(ToCurrent(e), (l: L) => ToCurrent(u(l)))
    ensures ToCurrent(Legacy.Flatten(n)) ==
      EitherMap.Flatten(EitherMap.Map(ToCurrent(n), (inner: Legacy.Either<L, R>) => ToCurrent(inner)))
    ensures ToCurrent(Legacy.Zip(e, other, z)) == EitherZip.Zip2(ToCurrent(e), ToCurrent(other), z)
  {
  }

  /** `==` and `take()` of both editions agree. */
  lemma EqualityAndTakeAgree<L, R, T>(a: Legacy.Either<L, R>, b: Legacy.Either<L, R>, eqL: (L, L) -> bool, eqR: (R, R) -> bool, e: Legacy.Either<T, T>)
    ensures Legacy.Equal(a, b, eqL, eqR) == EitherEquatable.Equal(ToCurrent(a), ToCurrent(b), eqL, eqR)
    ensures Legacy.Take(e) == EitherGet.Take(ToCurrent(e))
  {
  }

  /** Across arms the editions disagree: the older `<` puts `left(a)` before
      `right(b)`, the Sources/ `<` orders them neither way. */
  lemma LessDiffersAcrossArms<L, R>(a: L, b: R, ltL: (L, L) -> bool, ltR: (R, R) -> bool)
    ensures Legacy.Less(Legacy.Left(a), Legacy.Right(b), ltL, ltR)
    ensures !EitherComparable.Less(ToCurrent(Legacy.Left(a)), ToCurrent(Legacy.Right(b)), ltL, ltR)
  {
  }

  /** On a body whose every error is a `Left` (the only kind typed throws
      admits), the older initializer and `init(catching:)` agree. */
  lemma FactoriesAgreeOnTypedErrors<L, R>(outcome: Throwing<R, L>)
    ensures Legacy.Init(outcome, (err: L) => Some(err)).Returned?
    ensures ToCurrent(Legacy.Init(outcome, (err: L) => Some(err)).value) == EitherFactory.Catching(outcome)
  {
  }
}
