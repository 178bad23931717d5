/** The ordering of Sources/Either/Either+Comparable.swift. The payloads'
    own `<` are caller-supplied and appear as parameters. Values in different
    arms are unordered in both directions, so this `<` is not total; where
    `Left == Right` Swift picks the `take()`-based overload instead. */
module EitherComparable {
  import opened PayloadLaws
  import opened EitherCore
  import opened EitherGet
  import opened EitherEquatable

  /** The general `<`: payload order within an arm, `false` across arms. */
  function Less<L, R>(a: Either<L, R>, b: Either<L, R>, ltL: (L, L) -> bool, ltR: (R, R) -> bool): (r: bool)
    ensures a.Left? != b.Left? ==> !r
    ensures a.Left? && b.Left? ==> r == ltL(a.left, b.left)
    ensures a.Right? && b.Right? ==> r == ltR(a.right, b.right)
  {
    match (a, b)
    case (Left(x), Left(y)) => ltL(x, y)
    case (Right(x), Right(y)) => ltR(x, y)
    case _ => false
  }

  /** The `<` overload where `Left == Right`: compares `take()`, ignoring the arm. */
  function LessByTake<T>(a: Either<T, T>, b: Either<T, T>, lt: (T, T) -> bool): bool {
    lt(Take(a), Take(b))
  }

  /** A left and a right are neither ordered nor equal under the general
      operators, whatever the payloads and their relations. */
  lemma ArmsAreIncomparable<L, R>(a: L, b: R, ltL: (L, L) -> bool, ltR: (R, R) -> bool, eqL: (L, L) -> bool, eqR: (R, R) -> bool)
    ensures !Less(Left(a), Right(b), ltL, ltR) && !Less(Right(b), Left(a), ltL, ltR)
    ensures !Equal(Left(a), Right(b), eqL, eqR)
  {
  }

  /** The general `<` is a strict order (irreflexive, transitive) whenever
      both payload orders are. */
  lemma LessKeepsStrictOrder<L(!new), R(!new)>(ltL: (L, L) -> bool, ltR: (R, R) -> bool)
    requires IsStrictOrder(ltL) && IsStrictOrder(ltR)
    ensures IsStrictOrder((a: Either<L, R>, b: Either<L, R>) => Less(a, b, ltL, ltR))
  {
    var lt := (a: Either<L, R>, b: Either<L, R>) => Less(a, b, ltL, ltR);
    forall a: Either<L, R>, b: Either<L, R>, c: Either<L, R> | lt(a, b) && lt(b, c)
      ensures lt(a, c)
    {
      if a.Left? {
        assert ltL(a.left, b.left) && ltL(b.left, c.left);
      } else {
        assert ltR(a.right, b.right) && ltR(b.right, c.right);
      }
    }
    forall a: Either<L, R>
      ensures !lt(a, a)
    {
      if a.Left? {
        assert !ltL(a.left, a.left);
      } else {
        assert !ltR(a.right, a.right);
      }
    }
  }

  /** Whatever the payload orders, the general `<` is not total: `left(a)`
      and `right(b)` are distinct and unordered. */
  lemma LessIsNotTotal<L(!new), R(!new)>(a: L, b: R, ltL: (L, L) -> bool, ltR: (R, R) -> bool)
    ensures !IsStrictTotalOrder((p: Either<L, R>, q: Either<L, R>) => Less(p, q, ltL, ltR))
  {
    var lt := (p: Either<L, R>, q: Either<L, R>) => Less(p, q, ltL, ltR);
    var p: Either<L, R>, q: Either<L, R> := Left(a), Right(b);
    assert p != q && !lt(p, q) && !lt(q, p);
  }

  /** Where `Left == Right` the chosen `<` orders the payloads and ignores the
      arms: `left(1) < right(2)` and `right(1) < left(2)` both hold. */
  lemma TakeOrderIgnoresArm<T>(x: T, y: T, lt: (T, T) -> bool)
    ensures LessByTake(Left(x), Right(y), lt) == LessByTake(Right(x), Left(y), lt) == lt(x, y)
    ensures LessByTake(Left(x), Left(y), lt) == LessByTake(Right(x), Right(y), lt) == lt(x, y)
  {
  }
}
