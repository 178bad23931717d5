/** The equality of Sources/Either/Either+Equatable.swift. The payloads' own
    `==` are caller-supplied and appear as parameters. Which overload Swift
    picks is decided at compile time: where `Left == Right` the `take()`-based
    `EqualByTake` is the more specific one; elsewhere only `Equal` exists. */
module EitherEquatable {
  import opened PayloadLaws
  import opened EitherCore
  import opened EitherGet

  /** The general `==`: same arm and equal payloads. */
  function Equal<L, R>(a: Either<L, R>, b: Either<L, R>, eqL: (L, L) -> bool, eqR: (R, R) -> bool): (r: bool)
    ensures a.Left? != b.Left? ==> !r
    ensures a.Left? && b.Left? ==> r == eqL(a.left, b.left)
    ensures a.Right? && b.Right? ==> r == eqR(a.right, b.right)
  {
    match (a, b)
    case (Left(x), Left(y)) => eqL(x, y)
    case (Right(x), Right(y)) => eqR(x, y)
    case _ => false
  }

  /** The `==` overload where `Left == Right`: compares `take()`, ignoring the arm. */
  function EqualByTake<T>(a: Either<T, T>, b: Either<T, T>, eq: (T, T) -> bool): bool {
    eq(Take(a), Take(b))
  }

  /** The `!=` overload where `Left == Right`: the negation of `EqualByTake`. */
  function NotEqualByTake<T>(a: Either<T, T>, b: Either<T, T>, eq: (T, T) -> bool): (r: bool)
    ensures r != EqualByTake(a, b, eq)
  {
    !EqualByTake(a, b, eq)
  }

  /** With the payloads' own equality, the general `==` is value equality:
      constructors are injective and different arms are never equal. */
  lemma EqualIsValueEquality<L, R>(a: Either<L, R>, b: Either<L, R>)
    ensures Equal(a, b, (x: L, y: L) => x == y, (x: R, y: R) => x == y) <==> a == b
  {
  }

  /** The general `==` is an equivalence whenever both payload equalities are. */
  lemma EqualKeepsEquivalence<L(!new), R(!new)>(eqL: (L, L) -> bool, eqR: (R, R) -> bool)
    requires IsEquivalence(eqL) && IsEquivalence(eqR)
    ensures IsEquivalence((a: Either<L, R>, b: Either<L, R>) => Equal(a, b, eqL, eqR))
  {
    var eq := (a: Either<L, R>, b: Either<L, R>) => Equal(a, b, eqL, eqR);
    forall a: Either<L, R>, b: Either<L, R>, c: Either<L, R> | eq(a, b) && eq(b, c)
      ensures eq(a, c)
    {
      if a.Left? {
        assert eqL(a.left, b.left) && eqL(b.left, c.left);
      } else {
        assert eqR(a.right, b.right) && eqR(b.right, c.right);
      }
    }
    forall a: Either<L, R>, b: Either<L, R> | eq(a, b)
      ensures eq(b, a)
    {
      if a.Left? {
        assert eqL(a.left, b.left);
      } else {
        assert eqR(a.right, b.right);
      }
    }
    forall a: Either<L, R>
      ensures eq(a, a)
    {
      if a.Left? {
        assert eqL(a.left, a.left);
      } else {
        assert eqR(a.right, a.right);
      }
    }
  }

  /** Where `Left == Right`, values equal by the general `==` are equal by
      `take()` as well, so the `take()`-based `!=` never separates them. */
  lemma GeneralEqualityImpliesTakeEquality<T>(a: Either<T, T>, b: Either<T, T>, eq: (T, T) -> bool)
    ensures Equal(a, b, eq, eq) ==> EqualByTake(a, b, eq) && !NotEqualByTake(a, b, eq)
  {
  }

  /** For any payload equality that is reflexive on `v`, the `take()`-based
      `!=` does not separate `left(v)` from `right(v)`, although the general
      `==` does. */
  lemma TakeInequalityIgnoresArm<T>(v: T, eq: (T, T) -> bool)
    requires eq(v, v)
    ensures var a: Either<T, T>, b: Either<T, T> := Left(v), Right(v);
      !NotEqualByTake(a, b, eq) && !Equal(a, b, eq, eq)
  {
  }

  /** An illustration of `TakeInequalityIgnoresArm` on `Int` payloads: where
      `Left == Right` the chosen overload disagrees with the general one, and
      `left(v) == right(v)` holds by `take()` although the values differ. */
  lemma TakeEqualityIgnoresArm(v: int)
    ensures var a: Either<int, int>, b: Either<int, int> := Left(v), Right(v);
      EqualByTake(a, b, (x: int, y: int) => x == y)
      && !NotEqualByTake(a, b, (x: int, y: int) => x == y)
      && !Equal(a, b, (x: int, y: int) => x == y, (x: int, y: int) => x == y)
      && a != b
  {
  }
}
