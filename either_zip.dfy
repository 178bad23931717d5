/** The zips of Sources/MonadicEither/Either+Zip.swift: two to five operands
    combined by nested `flatMap`s closed by one `map`, so the result is a right
    only when every operand is, and otherwise carries the payload of the
    leftmost left operand. The async overloads have the same nesting. */
module EitherZip {
  import opened Optionals
  import opened EitherCore
  import opened EitherMap
  import opened EitherGet

  function Zip2<L, R1, R2, Out>(e1: Either<L, R1>, e2: Either<L, R2>, transform: (R1, R2) -> Out): (r: Either<L, Out>)
    ensures LeftOrNil(r) == FirstSome([LeftOrNil(e1), LeftOrNil(e2)])
    ensures r.Right? ==> e1.Right? && e2.Right? && r.right == transform(e1.right, e2.right)
  {
    FirstSomeCons(LeftOrNil(e1), [LeftOrNil(e2)]);
    FirstSomeCons(LeftOrNil(e2), []);
    FlatMap(e1, (x1: R1) => Map(e2, (x2: R2) => transform(x1, x2)))
  }

  function Zip3<L, R1, R2, R3, Out>(e1: Either<L, R1>, e2: Either<L, R2>, e3: Either<L, R3>, transform: (R1, R2, R3) -> Out): (r: Either<L, Out>)
    ensures LeftOrNil(r) == FirstSome([LeftOrNil(e1), LeftOrNil(e2), LeftOrNil(e3)])
    ensures r.Right? ==> e1.Right? && e2.Right? && e3.Right? && r.right == transform(e1.right, e2.right, e3.right)
  {
    FirstSomeCons(LeftOrNil(e1), [LeftOrNil(e2), LeftOrNil(e3)]);
    FirstSomeCons(LeftOrNil(e2), [LeftOrNil(e3)]);
    FirstSomeCons(LeftOrNil(e3), []);
    FlatMap(e1, (x1: R1) =>
      FlatMap(e2, (x2: R2) =>
        Map(e3, (x3: R3) => transform(x1, x2, x3))))
  }

  function Zip4<L, R1, R2, R3, R4, Out>(e1: Either<L, R1>, e2: Either<L, R2>, e3: Either<L, R3>, e4: Either<L, R4>, transform: (R1, R2, R3, R4) -> Out): (r: Either<L, Out>)
    ensures LeftOrNil(r) == FirstSome([LeftOrNil(e1), LeftOrNil(e2), LeftOrNil(e3), LeftOrNil(e4)])
    ensures r.Right? ==> e1.Right? && e2.Right? && e3.Right? && e4.Right? && r.right == transform(e1.right, e2.right, e3.right, e4.right)
  {
    FirstSomeCons(LeftOrNil(e1), [LeftOrNil(e2), LeftOrNil(e3), LeftOrNil(e4)]);
    FirstSomeCons(LeftOrNil(e2), [LeftOrNil(e3), LeftOrNil(e4)]);
    FirstSomeCons(LeftOrNil(e3), [LeftOrNil(e4)]);
    FirstSomeCons(LeftOrNil(e4), []);
    FlatMap(e1, (x1: R1) =>
      FlatMap(e2, (x2: R2) =>
        FlatMap(e3, (x3: R3) =>
          Map(e4, (x4: R4) => transform(x1, x2, x3, x4)))))
  }

  function Zip5<L, R1, R2, R3, R4, R5, Out>(e1: Either<L, R1>, e2: Either<L, R2>, e3: Either<L, R3>, e4: Either<L, R4>, e5: Either<L, R5>, transform: (R1, R2, R3, R4, R5) -> Out): (r: Either<L, Out>)
    ensures LeftOrNil(r) == FirstSome([LeftOrNil(e1), LeftOrNil(e2), LeftOrNil(e3), LeftOrNil(e4), LeftOrNil(e5)])
    ensures r.Right? ==> e1.Right? && e2.Right? && e3.Right? && e4.Right? && e5.Right? && r.right == transform(e1.right, e2.right, e3.right, e4.right, e5.right)
  {
    FirstSomeCons(LeftOrNil(e1), [LeftOrNil(e2), LeftOrNil(e3), LeftOrNil(e4), LeftOrNil(e5)]);
    FirstSomeCons(LeftOrNil(e2), [LeftOrNil(e3), LeftOrNil(e4), LeftOrNil(e5)]);
    FirstSomeCons(LeftOrNil(e3), [LeftOrNil(e4), LeftOrNil(e5)]);
    FirstSomeCons(LeftOrNil(e4), [LeftOrNil(e5)]);
    FirstSomeCons(LeftOrNil(e5), []);
    FlatMap(e1, (x1: R1) =>
      FlatMap(e2, (x2: R2) =>
        FlatMap(e3, (x3: R3) =>
          FlatMap(e4, (x4: R4) =>
            Map(e5, (x5: R5) => transform(x1, x2, x3, x4, x5))))))
  }

  /** The tuple-returning zips: the zip whose transform builds the tuple, so
      the leftmost left wins here too. */
  function Zip2Tuple<L, R1, R2>(e1: Either<L, R1>, e2: Either<L, R2>): (r: Either<L, (R1, R2)>)
    ensures LeftOrNil(r) == FirstSome([LeftOrNil(e1), LeftOrNil(e2)])
    ensures r.Right? <==> e1.Right? && e2.Right?
    ensures r.Right? ==> r.right == (e1.right, e2.right)
  {
    Zip2(e1, e2, (x1: R1, x2: R2) => (x1, x2))
  }

  function Zip3Tuple<L, R1, R2, R3>(e1: Either<L, R1>, e2: Either<L, R2>, e3: Either<L, R3>): (r: Either<L, (R1, R2, R3)>)
    ensures LeftOrNil(r) == FirstSome([LeftOrNil(e1), LeftOrNil(e2), LeftOrNil(e3)])
    ensures r.Right? <==> e1.Right? && e2.Right? && e3.Right?
    ensures r.Right? ==> r.right == (e1.right, e2.right, e3.right)
  {
    Zip3(e1, e2, e3, (x1: R1, x2: R2, x3: R3) => (x1, x2, x3))
  }

  function Zip4Tuple<L, R1, R2, R3, R4>(e1: Either<L, R1>, e2: Either<L, R2>, e3: Either<L, R3>, e4: Either<L, R4>): (r: Either<L, (R1, R2, R3, R4)>)
    ensures LeftOrNil(r) == FirstSome([LeftOrNil(e1), LeftOrNil(e2), LeftOrNil(e3), LeftOrNil(e4)])
    ensures r.Right? <==> e1.Right? && e2.Right? && e3.Right? && e4.Right?
    ensures r.Right? ==> r.right == (e1.right, e2.right, e3.right, e4.right)
  {
    Zip4(e1, e2, e3, e4, (x1: R1, x2: R2, x3: R3, x4: R4) => (x1, x2, x3, x4))
  }

  function Zip5Tuple<L, R1, R2, R3, R4, R5>(e1: Either<L, R1>, e2: Either<L, R2>, e3: Either<L, R3>, e4: Either<L, R4>, e5: Either<L, R5>): (r: Either<L, (R1, R2, R3, R4, R5)>)
    ensures LeftOrNil(r) == FirstSome([LeftOrNil(e1), LeftOrNil(e2), LeftOrNil(e3), LeftOrNil(e4), LeftOrNil(e5)])
    ensures r.Right? <==> e1.Right? && e2.Right? && e3.Right? && e4.Right? && e5.Right?
    ensures r.Right? ==> r.right == (e1.right, e2.right, e3.right, e4.right, e5.right)
  {
    Zip5(e1, e2, e3, e4, e5, (x1: R1, x2: R2, x3: R3, x4: R4, x5: R5) => (x1, x2, x3, x4, x5))
  }

  // ---- laws ----

  /** A left first operand decides the zip whatever the other operands are;
      a right first operand leaves the decision to the next one. */
  lemma Zip2FirstOperandDecides<L, R1, R2, Out>(e1: Either<L, R1>, e2: Either<L, R2>, e2': Either<L, R2>, transform: (R1, R2) -> Out)
    ensures e1.Left? ==> Zip2(e1, e2, transform) == Zip2(e1, e2', transform) == Left(e1.left)
    ensures e1.Right? && e2.Left? ==> Zip2(e1, e2, transform) == Left(e2.left)
    ensures e1.Right? && e2.Right? ==> Zip2(e1, e2, transform) == Right(transform(e1.right, e2.right))
  {
  }

  /** A zip is a right exactly when every operand is a right. */
  lemma {:induction false} ZipIsRightIffAllRight<L, R1, R2, R3, R4, R5, Out>(e1: Either<L, R1>, e2: Either<L, R2>, e3: Either<L, R3>, e4: Either<L, R4>, e5: Either<L, R5>, t3: (R1, R2, R3) -> Out, t4: (R1, R2, R3, R4) -> Out, t5: (R1, R2, R3, R4, R5) -> Out)
    ensures Zip3(e1, e2, e3, t3).Right? <==> e1.Right? && e2.Right? && e3.Right?
    ensures Zip4(e1, e2, e3, e4, t4).Right? <==> e1.Right? && e2.Right? && e3.Right? && e4.Right?
    ensures Zip5(e1, e2, e3, e4, e5, t5).Right? <==> e1.Right? && e2.Right? && e3.Right? && e4.Right? && e5.Right?
  {
    var s3 := [LeftOrNil(e1), LeftOrNil(e2), LeftOrNil(e3)];
    var s4 := s3 + [LeftOrNil(e4)];
    var s5 := s4 + [LeftOrNil(e5)];
    assert s3[0] == LeftOrNil(e1) && s3[1] == LeftOrNil(e2) && s3[2] == LeftOrNil(e3);
    assert s4[3] == LeftOrNil(e4) && s5[4] == LeftOrNil(e5);
    assert s4 == [LeftOrNil(e1), LeftOrNil(e2), LeftOrNil(e3), LeftOrNil(e4)];
    assert s5 == [LeftOrNil(e1), LeftOrNil(e2), LeftOrNil(e3), LeftOrNil(e4), LeftOrNil(e5)];
  }

  /** The tie-break of the test suite: in `right(1).zip(right(2), left("e"))`
      the only left wins, and with several lefts the leftmost one wins. */
  lemma LeftmostLeftWinsExamples(t: (int, int, int) -> int)
    ensures var a: Either<string, int>, b: Either<string, int>, c: Either<string, int> := Right(1), Right(2), Left("e");
      Zip3(a, b, c, t) == Left("e")
    ensures var a: Either<string, int>, b: Either<string, int>, c: Either<string, int> := Left("a"), Left("b"), Right(3);
      Zip3(a, b, c, t) == Left("a")
    ensures var a: Either<string, int>, b: Either<string, int>, c: Either<string, int> := Right(1), Left("b"), Left("c");
      Zip3(a, b, c, t) == Left("b")
  {
  }
}
