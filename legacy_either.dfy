/** The older edition of Either in Monads/Either/Sources (Either.swift and its
    async twins in Either+AsyncAwait.swift). It is kept apart from the
    Sources/ edition because two operations differ: its `<` puts every left
    before every right, and its throwing initializer re-throws errors that are
    not of the `Left` type. Each async combinator has its sync twin's body and
    is the same function here. */
module LegacyEither {
  import opened Optionals
  import opened Throws
  import opened PayloadLaws

  datatype Either<L, R> = Left(left: L) | Right(right: R)

  // ---- combinators (Either.swift:16-155, Either+AsyncAwait.swift:5-106) ----

  function Map<L, R, Out>(e: Either<L, R>, transform: R -> Out): (r: Either<L, Out>)
    ensures r.Left? <==> e.Left?
    ensures e.Left? ==> r.left == e.left
    ensures e.Right? ==> r.right == transform(e.right)
  {
    match e
    case Left(l) => Left(l)
    case Right(x) => Right(transform(x))
  }

  function MapLeft<L, R, Out>(e: Either<L, R>, transform: L -> Out): (r: Either<Out, R>)
    ensures r.Right? <==> e.Right?
    ensures e.Right? ==> r.right == e.right
    ensures e.Left? ==> r.left == transform(e.left)
  {
    match e
    case Left(l) => Left(transform(l))
    case Right(x) => Right(x)
  }

  function Bimap<L, R, OutL, OutR>(e: Either<L, R>, leftT: L -> OutL, rightT: R -> OutR): (r: Either<OutL, OutR>)
    ensures r.Left? <==> e.Left?
    ensures e.Left? ==> r.left == leftT(e.left)
    ensures e.Right? ==> r.right == rightT(e.right)
  {
    match e
    case Left(l) => Left(leftT(l))
    case Right(x) => Right(rightT(x))
  }

  function Fold<L, R, T>(e: Either<L, R>, leftT: L -> T, rightT: R -> T): T {
    match e
    case Left(l) => leftT(l)
    case Right(x) => rightT(x)
  }

  /** `foldLeft(rightValue, transform)`: the transform on a left, `rightValue` on a right. */
  function FoldLeft<L, R, T>(e: Either<L, R>, rightValue: T, transform: L -> T): T {
    match e
    case Left(l) => transform(l)
    case Right(_) => rightValue
  }

  /** `foldRight(leftValue, transform)`: `leftValue` on a left, the transform on a right. */
  function FoldRight<L, R, T>(e: Either<L, R>, leftValue: T, transform: R -> T): T {
    match e
    case Left(_) => leftValue
    case Right(x) => transform(x)
  }

  function FlatMap<L, R, Out>(e: Either<L, R>, transform: R -> Either<L, Out>): (r: Either<L, Out>)
    ensures e.Left? ==> r == Left(e.left)
  {
    match e
    case Left(l) => Left(l)
    case Right(x) => transform(x)
  }

  function FlatMapLeft<L, R, Out>(e: Either<L, R>, transform: L -> Either<Out, R>): (r: Either<Out, R>)
    ensures e.Right? ==> r == Right(e.right)
  {
    match e
    case Left(l) => transform(l)
    case Right(x) => Right(x)
  }

  /** The static `flatten`, written as `flatMap` with the identity. */
  function Flatten<L, R>(e: Either<L, Either<L, R>>): (r: Either<L, R>)
    ensures r.Right? <==> e.Right? && e.right.Right?
  {
    FlatMap(e, inner => inner)
  }

  /** The static `lift(_:)`: the function that maps every value. */
  function Lift<L, R, Out>(transform: R -> Out): Either<L, R> -> Either<L, Out> {
    e => Map(e, transform)
  }

  /** The static `lift(left:right:)`: the function that bimaps every value. */
  function LiftBimap<L, R, OutL, OutR>(leftT: L -> OutL, rightT: R -> OutR): Either<L, R> -> Either<OutL, OutR> {
    e => Bimap(e, leftT, rightT)
  }

  /** `zip(_:_:)`: `flatMap` on self around `map` on the other operand. */
  function Zip<L, R, R2, T>(e: Either<L, R>, other: Either<L, R2>, transform: (R, R2) -> T): (r: Either<L, T>)
    ensures r.Right? <==> e.Right? && other.Right?
    ensures e.Left? ==> r == Left(e.left)
    ensures e.Right? && other.Left? ==> r == Left(other.left)
    ensures r.Right? ==> r.right == transform(e.right, other.right)
  {
    FlatMap(e, (x: R) => Map(other, (y: R2) => transform(x, y)))
  }

  /** `swap()`, written as a fold that re-tags each arm with the other. */
  function Swap<L, R>(e: Either<L, R>): (r: Either<R, L>)
    ensures r.Left? <==> e.Right?
    ensures r.Left? ==> r.left == e.right
    ensures r.Right? ==> r.right == e.left
  {
    Fold(e, (l: L) => Right(l), (x: R) => Left(x))
  }

  // ---- accessors (Either.swift:158-207) ----

  /** The `left` property: the payload of a left, nil on a right. */
  function LeftValue<L, R>(e: Either<L, R>): (r: Option<L>)
    ensures r.Some? <==> e.Left?
    ensures r.Some? ==> r.value == e.left
  {
    match e
    case Left(l) => Some(l)
    case Right(_) => None
  }

  /** The `right` property: the payload of a right, nil on a left. */
  function RightValue<L, R>(e: Either<L, R>): (r: Option<R>)
    ensures r.Some? <==> e.Right?
    ensures r.Some? ==> r.value == e.right
  {
    match e
    case Left(_) => None
    case Right(x) => Some(x)
  }

  predicate IsLeft<L, R>(e: Either<L, R>) {
    match e
    case Left(_) => true
    case Right(_) => false
  }

  predicate IsRight<L, R>(e: Either<L, R>) {
    match e
    case Left(_) => false
    case Right(_) => true
  }

  /** `take()` where `Left == Right`: the payload, whichever arm holds it. */
  function Take<T>(e: Either<T, T>): (r: T)
    ensures e == Left(r) || e == Right(r)
  {
    match e
    case Left(v) => v
    case Right(v) => v
  }

  // ---- throwing initializer (Either.swift:210-219) ----

  /** `init(_:) throws`: `outcome` is what the closure did, and `asLeft` is the
      dynamic cast `error as? Left`. A value becomes a right; an error the cast
      accepts becomes a left; any other error is thrown again. */
  function Init<L, R, E>(outcome: Throwing<R, E>, asLeft: E -> Option<L>): (r: Throwing<Either<L, R>, E>)
    ensures r.Threw? <==> outcome.Threw? && asLeft(outcome.error).None?
    ensures r.Threw? ==> r.error == outcome.error
    ensures r.Returned? ==> (r.value.Right? <==> outcome.Returned?)
  {
    match outcome
    case Returned(v) => Returned(Right(v))
    case Threw(err) =>
      match asLeft(err)
      case None => Threw(err)
      case Some(l) => Returned(Left(l))
  }

  // ---- equality and order (Either.swift:221-247) ----

  /** `==`: payload equality within an arm, `false` across arms. */
  function Equal<L, R>(a: Either<L, R>, b: Either<L, R>, eqL: (L, L) -> bool, eqR: (R, R) -> bool): (r: bool)
    ensures a.Left? != b.Left? ==> !r
    ensures a.Left? && b.Left? ==> r == eqL(a.left, b.left)
    ensures a.Right? && b.Right? ==> r == eqR(a.right, b.right)
  {
    match (a, b)
    case (Left(x), Left(y)) => eqL(x, y)
    case (Right(x), Right(y)) => eqR(x, y)
    case _ => false
  }

  /** `<`: payload order within an arm; every left is before every right. */
  function Less<L, R>(a: Either<L, R>, b: Either<L, R>, ltL: (L, L) -> bool, ltR: (R, R) -> bool): (r: bool)
    ensures a.Left? && b.Right? ==> r
    ensures a.Right? && b.Left? ==> !r
    ensures a.Left? && b.Left? ==> r == ltL(a.left, b.left)
    ensures a.Right? && b.Right? ==> r == ltR(a.right, b.right)
  {
    match (a, b)
    case (Left(x), Left(y)) => ltL(x, y)
    case (Right(x), Right(y)) => ltR(x, y)
    case (Left(_), Right(_)) => true
    case (Right(_), Left(_)) => false
  }

  // ---- laws ----

  /** Map, mapLeft and bimap (sync and async) transform only the populated
      arm and keep its tag; the identity transforms change nothing. */
  lemma MapsActOnPopulatedArm<L, R, OL, OR>(e: Either<L, R>, f: L -> OL, g: R -> OR)
    ensures Map(e, g) == if e.Left? then Left(e.left) else Right(g(e.right))
    ensures MapLeft(e, f) == if e.Left? then Left(f(e.left)) else Right(e.right)
    ensures Bimap(e, f, g) == MapLeft(Map(e, g), f)
    ensures Map(e, (x: R) => x) == e && MapLeft(e, (l: L) => l) == e
  {
  }

  /** fold, foldLeft and foldRight (sync and async) apply only the transform
      for the populated arm; `foldLeft` yields `rightValue` on a right and
      `foldRight` yields `leftValue` on a left. */
  lemma FoldsPickTheirArm<L, R, T>(e: Either<L, R>, leftT: L -> T, rightT: R -> T, leftValue: T, rightValue: T)
    ensures Fold(e, leftT, rightT) == if e.Left? then leftT(e.left) else rightT(e.right)
    ensures FoldLeft(e, rightValue, leftT) == Fold(e, leftT, (_: R) => rightValue)
    ensures FoldRight(e, leftValue, rightT) == Fold(e, (_: L) => leftValue, rightT)
  {
  }

  /** flatMap and flatMapLeft (sync and async): the other arm passes through,
      and the populated arm becomes whatever the transform returns. Mapping is
      flat-mapping into a right, and flat-mapping the left is flat-mapping the
      swapped value. */
  lemma FlatMapsShortCircuit<L, R, Out>(e: Either<L, R>, t: R -> Either<L, Out>, u: L -> Either<Out, R>, g: R -> Out)
    ensures e.Right? ==> FlatMap(e, t) == t(e.right)
    ensures e.Left? ==> FlatMapLeft(e, u) == u(e.left)
    ensures Map(e, g) == FlatMap(e, (x: R) => Right(g(x)))
    ensures FlatMapLeft(e, u) == Swap(FlatMap(Swap(e), (l: L) => Swap(u(l))))
  {
    if e.Left? {
      SwapInvolution(u(e.left));
    }
  }

  /** `flatten` is `flatMap` with the identity; `lift` applies `map` and
      `bimap`. */
  lemma FlattenAndLift<L, R, OL, OR>(e: Either<L, R>, n: Either<L, Either<L, R>>, f: L -> OL, g: R -> OR)
    ensures Flatten(n) == (if n.Left? then Left(n.left) else n.right)
    ensures Lift<L, R, OR>(g)(e) == Map(e, g)
    ensures LiftBimap(f, g)(e) == Bimap(e, f, g)
  {
  }

  /** Swapping twice gives back the original value. */
  lemma SwapInvolution<L, R>(e: Either<L, R>)
    ensures Swap(Swap(e)) == e
  {
  }

  /** `take()` ignores the arm, so swapping does not change it. */
  lemma TakeIgnoresSwap<T>(e: Either<T, T>)
    ensures Take(Swap(e)) == Take(e)
  {
  }

  /** The accessors agree with the arm, and exactly one of `isLeft` and
      `isRight` holds. */
  lemma AccessorsAgreeWithArm<L, R>(e: Either<L, R>)
    ensures IsLeft(e) == !IsRight(e)
    ensures IsLeft(e) <==> LeftValue(e).Some?
    ensures IsRight(e) <==> RightValue(e).Some?
    ensures LeftValue(e) == RightValue(Swap(e))
  {
  }

  /** The three outcomes of the throwing initializer. */
  lemma InitOutcomes<L, R, E>(v: R, err: E, asLeft: E -> Option<L>)
    ensures Init(Returned(v), asLeft) == Returned(Right(v))
    ensures asLeft(err).Some? ==> Init<L, R, E>(Threw(err), asLeft) == Returned(Left(asLeft(err).value))
    ensures asLeft(err).None? ==> Init<L, R, E>(Threw(err), asLeft) == Threw(err)
  {
  }

  /** `==` is an equivalence whenever both payload equalities are. */
  lemma EqualKeepsEquivalence<L(!new), R(!new)>(eqL: (L, L) -> bool, eqR: (R, R) -> bool)
    requires IsEquivalence(eqL) && IsEquivalence(eqR)
    ensures IsEquivalence((a: Either<L, R>, b: Either<L, R>) => Equal(a, b, eqL, eqR))
  {
    var eq := (a: Either<L, R>, b: Either<L, R>) => Equal(a, b, eqL, eqR);
    forall a: Either<L, R>
      ensures eq(a, a)
    {
      if a.Left? {
        assert eqL(a.left, a.left);
      } else {
        assert eqR(a.right, a.right);
      }
    }
    forall a: Either<L, R>, b: Either<L, R> | eq(a, b)
      ensures eq(b, a)
    {
      if a.Left? {
        assert eqL(a.left, b.left);
      } else {
        assert eqR(a.right, b.right);
      }
    }
    forall a: Either<L, R>, b: Either<L, R>, c: Either<L, R> | eq(a, b) && eq(b, c)
      ensures eq(a, c)
    {
      if a.Left? {
        assert eqL(a.left, b.left) && eqL(b.left, c.left);
      } else {
        assert eqR(a.right, b.right) && eqR(b.right, c.right);
      }
    }
  }

  /** Unlike the Sources/ edition, this `<` is a strict total order whenever
      both payload orders are: it orders by arm first (left before right) and
      then by payload. */
  lemma LessIsStrictTotalOrder<L(!new), R(!new)>(ltL: (L, L) -> bool, ltR: (R, R) -> bool)
    requires IsStrictTotalOrder(ltL) && IsStrictTotalOrder(ltR)
    ensures IsStrictTotalOrder((a: Either<L, R>, b: Either<L, R>) => Less(a, b, ltL, ltR))
  {
    var lt := (a: Either<L, R>, b: Either<L, R>) => Less(a, b, ltL, ltR);
    forall a: Either<L, R>
      ensures !lt(a, a)
    {
      if a.Left? {
        assert !ltL(a.left, a.left);
      } else {
        assert !ltR(a.right, a.right);
      }
    }
    forall a: Either<L, R>, b: Either<L, R>, c: Either<L, R> | lt(a, b) && lt(b, c)
      ensures lt(a, c)
    {
      if a.Left? && b.Left? && c.Left? {
        assert ltL(a.left, b.left) && ltL(b.left, c.left);
      } else if a.Right? && b.Right? && c.Right? {
        assert ltR(a.right, b.right) && ltR(b.right, c.right);
      }
    }
    forall a: Either<L, R>, b: Either<L, R> | a != b
      ensures lt(a, b) || lt(b, a)
    {
      if a.Left? && b.Left? {
        assert a.left != b.left;
        assert ltL(a.left, b.left) || ltL(b.left, a.left);
      } else if a.Right? && b.Right? {
        assert a.right != b.right;
        assert ltR(a.right, b.right) || ltR(b.right, a.right);
      }
    }
  }

  /** The zip examples: self's left wins over the other operand's left, and
      two rights combine. */
  lemma ZipExamples()
    ensures Zip<int, int, int, int>(Left(1), Left(2), (a, b) => a + b) == Left(1)
    ensures Zip<int, int, int, int>(Right(1), Left(2), (a, b) => a + b) == Left(2)
    ensures Zip<int, int, int, int>(Right(1), Right(2), (a, b) => a + b) == Right(3)
  {
  }
}
