/** The descriptions of Sources/MonadicEither/Either+String.swift. The
    payloads' `description` and `debugDescription` are caller-supplied. */
module EitherString {
  import opened EitherCore

  /** `description`: `Either.left(<payload>)` or `Either.right(<payload>)`. */
  function Description<L, R>(e: Either<L, R>, describeL: L -> string, describeR: R -> string): (s: string)
    ensures |s| > 12 && s[..7] == "Either." && s[|s| - 1] == ')'
    ensures e.Left? ==> s[..12] == "Either.left("
    ensures e.Right? ==> s[..13] == "Either.right("
  {
    match e
    case Left(l) => "Either.left(" + describeL(l) + ")"
    case Right(x) => "Either.right(" + describeR(x) + ")"
  }

  /** `debugDescription`: the same shape over the payloads' debug descriptions. */
  function DebugDescription<L, R>(e: Either<L, R>, debugL: L -> string, debugR: R -> string): (s: string)
    ensures |s| > 12 && s[..7] == "Either." && s[|s| - 1] == ')'
    ensures e.Left? <==> s[7] == 'l'
    ensures e.Left? ==> s[..12] == "Either.left("
    ensures e.Right? ==> s[..13] == "Either.right("
  {
    Description(e, debugL, debugR)
  }

  /** A left and a right never share a description: the arm names differ at
      the eighth character. */
  lemma ArmsDescribeDifferently<L, R>(a: L, b: R, describeL: L -> string, describeR: R -> string)
    ensures Description(Left(a), describeL, describeR) != Description(Right(b), describeL, describeR)
  {
    var sl := Description(Left(a), describeL, describeR);
    var sr := Description(Right(b), describeL, describeR);
    assert sl[7] == 'l' && sr[7] == 'r';
  }

  /** The payload description is recoverable from the value's description. */
  lemma DescriptionFramesPayload<L, R>(e: Either<L, R>, describeL: L -> string, describeR: R -> string)
    ensures var s := Description(e, describeL, describeR);
      if e.Left? then s[12..|s| - 1] == describeL(e.left) else s[13..|s| - 1] == describeR(e.right)
  {
  }

  /** If the payload descriptions are injective, so is the description: it
      tells every two distinct values apart. */
  lemma DescriptionIsInjective<L, R>(a: Either<L, R>, b: Either<L, R>, describeL: L -> string, describeR: R -> string)
    requires forall x, y :: describeL(x) == describeL(y) ==> x == y
    requires forall x, y :: describeR(x) == describeR(y) ==> x == y
    requires Description(a, describeL, describeR) == Description(b, describeL, describeR)
    ensures a == b
  {
    if a.Left? != b.Left? {
      if a.Left? {
        ArmsDescribeDifferently(a.left, b.right, describeL, describeR);
      } else {
        ArmsDescribeDifferently(b.left, a.right, describeL, describeR);
      }
    } else {
      DescriptionFramesPayload(a, describeL, describeR);
      DescriptionFramesPayload(b, describeL, describeR);
    }
  }
}
