/** The zips of Sources/MonadicResult/Result+Zip.swift: nested `flatMap`s
    closed by one `map`, so the result is a success only when every operand is,
    and otherwise carries the leftmost failure. */
module ResultZip {
  import opened Optionals
  import opened ResultCore
  import opened ResultMap
  import opened ResultGet

  function Zip2<F, S1, S2, Out>(r1: Result<S1, F>, r2: Result<S2, F>, transform: (S1, S2) -> Out): (o: Result<Out, F>)
    ensures ErrorOrNil(o) == FirstSome([ErrorOrNil(r1), ErrorOrNil(r2)])
    ensures o.Success? ==> r1.Success? && r2.Success? && o.value == transform(r1.value, r2.value)
  {
    FirstSomeCons(ErrorOrNil(r1), [ErrorOrNil(r2)]);
    FirstSomeCons(ErrorOrNil(r2), []);
    FlatMap(r1, (x1: S1) => Map(r2, (x2: S2) => transform(x1, x2)))
  }

  function Zip3<F, S1, S2, S3, Out>(r1: Result<S1, F>, r2: Result<S2, F>, r3: Result<S3, F>, transform: (S1, S2, S3) -> Out): (o: Result<Out, F>)
    ensures ErrorOrNil(o) == FirstSome([ErrorOrNil(r1), ErrorOrNil(r2), ErrorOrNil(r3)])
    ensures o.Success? ==> r1.Success? && r2.Success? && r3.Success? && o.value == transform(r1.value, r2.value, r3.value)
  {
    FirstSomeCons(ErrorOrNil(r1), [ErrorOrNil(r2), ErrorOrNil(r3)]);
    FirstSomeCons(ErrorOrNil(r2), [ErrorOrNil(r3)]);
    FirstSomeCons(ErrorOrNil(r3), []);
    FlatMap(r1, (x1: S1) =>
      FlatMap(r2, (x2: S2) =>
        Map(r3, (x3: S3) => transform(x1, x2, x3))))
  }

  function Zip4<F, S1, S2, S3, S4, Out>(r1: Result<S1, F>, r2: Result<S2, F>, r3: Result<S3, F>, r4: Result<S4, F>, transform: (S1, S2, S3, S4) -> Out): (o: Result<Out, F>)
    ensures ErrorOrNil(o) == FirstSome([ErrorOrNil(r1), ErrorOrNil(r2), ErrorOrNil(r3), ErrorOrNil(r4)])
    ensures o.Success? ==> r1.Success? && r2.Success? && r3.Success? && r4.Success? && o.value == transform(r1.value, r2.value, r3.value, r4.value)
  {
    FirstSomeCons(ErrorOrNil(r1), [ErrorOrNil(r2), ErrorOrNil(r3), ErrorOrNil(r4)]);
    FirstSomeCons(ErrorOrNil(r2), [ErrorOrNil(r3), ErrorOrNil(r4)]);
    FirstSomeCons(ErrorOrNil(r3), [ErrorOrNil(r4)]);
    FirstSomeCons(ErrorOrNil(r4), []);
    FlatMap(r1, (x1: S1) =>
      FlatMap(r2, (x2: S2) =>
        FlatMap(r3, (x3: S3) =>
          Map(r4, (x4: S4) => transform(x1, x2, x3, x4)))))
  }

  function Zip5<F, S1, S2, S3, S4, S5, Out>(r1: Result<S1, F>, r2: Result<S2, F>, r3: Result<S3, F>, r4: Result<S4, F>, r5: Result<S5, F>, transform: (S1, S2, S3, S4, S5) -> Out): (o: Result<Out, F>)
    ensures ErrorOrNil(o) == FirstSome([ErrorOrNil(r1), ErrorOrNil(r2), ErrorOrNil(r3), ErrorOrNil(r4), ErrorOrNil(r5)])
    ensures o.Success? ==> r1.Success? && r2.Success? && r3.Success? && r4.Success? && r5.Success? && o.value == transform(r1.value, r2.value, r3.value, r4.value, r5.value)
  {
    FirstSomeCons(ErrorOrNil(r1), [ErrorOrNil(r2), ErrorOrNil(r3), ErrorOrNil(r4), ErrorOrNil(r5)]);
    FirstSomeCons(ErrorOrNil(r2), [ErrorOrNil(r3), ErrorOrNil(r4), ErrorOrNil(r5)]);
    FirstSomeCons(ErrorOrNil(r3), [ErrorOrNil(r4), ErrorOrNil(r5)]);
    FirstSomeCons(ErrorOrNil(r4), [ErrorOrNil(r5)]);
    FirstSomeCons(ErrorOrNil(r5), []);
    FlatMap(r1, (x1: S1) =>
      FlatMap(r2, (x2: S2) =>
        FlatMap(r3, (x3: S3) =>
          FlatMap(r4, (x4: S4) =>
            Map(r5, (x5: S5) => transform(x1, x2, x3, x4, x5))))))
  }

  /** The tuple-returning zips: the zip whose transform builds the tuple, so
      the leftmost failure wins here too. */
  function Zip2Tuple<F, S1, S2>(r1: Result<S1, F>, r2: Result<S2, F>): (o: Result<(S1, S2), F>)
    ensures ErrorOrNil(o) == FirstSome([ErrorOrNil(r1), ErrorOrNil(r2)])
    ensures o.Success? <==> r1.Success? && r2.Success?
    ensures o.Success? ==> o.value == (r1.value, r2.value)
  {
    Zip2(r1, r2, (x1: S1, x2: S2) => (x1, x2))
  }

  function Zip3Tuple<F, S1, S2, S3>(r1: Result<S1, F>, r2: Result<S2, F>, r3: Result<S3, F>): (o: Result<(S1, S2, S3), F>)
    ensures ErrorOrNil(o) == FirstSome([ErrorOrNil(r1), ErrorOrNil(r2), ErrorOrNil(r3)])
    ensures o.Success? <==> r1.Success? && r2.Success? && r3.Success?
    ensures o.Success? ==> o.value == (r1.value, r2.value, r3.value)
  {
    Zip3(r1, r2, r3, (x1: S1, x2: S2, x3: S3) => (x1, x2, x3))
  }

  function Zip4Tuple<F, S1, S2, S3, S4>(r1: Result<S1, F>, r2: Result<S2, F>, r3: Result<S3, F>, r4: Result<S4, F>): (o: Result<(S1, S2, S3, S4), F>)
    ensures ErrorOrNil(o) == FirstSome([ErrorOrNil(r1), ErrorOrNil(r2), ErrorOrNil(r3), ErrorOrNil(r4)])
    ensures o.Success? <==> r1.Success? && r2.Success? && r3.Success? && r4.Success?
    ensures o.Success? ==> o.value == (r1.value, r2.value, r3.value, r4.value)
  {
    Zip4(r1, r2, r3, r4, (x1: S1, x2: S2, x3: S3, x4: S4) => (x1, x2, x3, x4))
  }

  function Zip5Tuple<F, S1, S2, S3, S4, S5>(r1: Result<S1, F>, r2: Result<S2, F>, r3: Result<S3, F>, r4: Result<S4, F>, r5: Result<S5, F>): (o: Result<(S1, S2, S3, S4, S5), F>)
    ensures ErrorOrNil(o) == FirstSome([ErrorOrNil(r1), ErrorOrNil(r2), ErrorOrNil(r3), ErrorOrNil(r4), ErrorOrNil(r5)])
    ensures o.Success? <==> r1.Success? && r2.Success? && r3.Success? && r4.Success? && r5.Success?
    ensures o.Success? ==> o.value == (r1.value, r2.value, r3.value, r4.value, r5.value)
  {
    Zip5(r1, r2, r3, r4, r5, (x1: S1, x2: S2, x3: S3, x4: S4, x5: S5) => (x1, x2, x3, x4, x5))
  }

  // ---- laws ----

  /** A failing first operand decides the zip whatever the second one is. */
  lemma Zip2FirstOperandDecides<F, S1, S2, Out>(r1: Result<S1, F>, r2: Result<S2, F>, r2': Result<S2, F>, transform: (S1, S2) -> Out)
    ensures r1.Failure? ==> Zip2(r1, r2, transform) == Zip2(r1, r2', transform) == Failure(r1.error)
    ensures r1.Success? && r2.Failure? ==> Zip2(r1, r2, transform) == Failure(r2.error)
    ensures r1.Success? && r2.Success? ==> Zip2(r1, r2, transform) == Success(transform(r1.value, r2.value))
  {
  }

  /** A zip is a success exactly when every operand is a success. */
  lemma {:induction false} ZipIsSuccessIffAllSuccess<F, S1, S2, S3, S4, S5, Out>(r1: Result<S1, F>, r2: Result<S2, F>, r3: Result<S3, F>, r4: Result<S4, F>, r5: Result<S5, F>, t3: (S1, S2, S3) -> Out, t4: (S1, S2, S3, S4) -> Out, t5: (S1, S2, S3, S4, S5) -> Out)
    ensures Zip3(r1, r2, r3, t3).Success? <==> r1.Success? && r2.Success? && r3.Success?
    ensures Zip4(r1, r2, r3, r4, t4).Success? <==> r1.Success? && r2.Success? && r3.Success? && r4.Success?
    ensures Zip5(r1, r2, r3, r4, r5, t5).Success? <==> r1.Success? && r2.Success? && r3.Success? && r4.Success? && r5.Success?
  {
    var s3 := [ErrorOrNil(r1), ErrorOrNil(r2), ErrorOrNil(r3)];
    var s4 := s3 + [ErrorOrNil(r4)];
    var s5 := s4 + [ErrorOrNil(r5)];
    assert s3[0] == ErrorOrNil(r1) && s3[1] == ErrorOrNil(r2) && s3[2] == ErrorOrNil(r3);
    assert s4[3] == ErrorOrNil(r4) && s5[4] == ErrorOrNil(r5);
    assert s4 == [ErrorOrNil(r1), ErrorOrNil(r2), ErrorOrNil(r3), ErrorOrNil(r4)];
    assert s5 == [ErrorOrNil(r1), ErrorOrNil(r2), ErrorOrNil(r3), ErrorOrNil(r4), ErrorOrNil(r5)];
  }
}
