/** The hashing of Sources/Either/Either+Hashable.swift. Swift's `Hasher` is
    seen as the sequence of bytes combined into it; a payload's own
    `hash(into:)` is the caller-supplied sequence of bytes it combines. The
    populated payload alone is hashed: the arm tag is never combined. */
module EitherHashable {
  import opened EitherCore
  import opened EitherGet
  import opened EitherEquatable

  type Byte = bv8

  /** The state of a `Hasher`: everything combined into it so far. */
  class Hasher {
    var combined: seq<Byte>

    constructor ()
      ensures combined == []
    {
      combined := [];
    }

    /** `combine`: appends `bytes` to what the hasher has seen. */
    method Combine(bytes: seq<Byte>)
      modifies this
      ensures combined == old(combined) + bytes
    {
      combined := combined + bytes;
    }
  }

  /** What `hash(into:)` combines for `e`: what the populated payload combines. */
  function HashInput<L, R>(e: Either<L, R>, hashL: L -> seq<Byte>, hashR: R -> seq<Byte>): seq<Byte> {
    match e
    case Left(l) => hashL(l)
    case Right(x) => hashR(x)
  }

  /** `hash(into:)`: the payload hashes itself into the caller's hasher. */
  method HashInto<L, R>(e: Either<L, R>, hasher: Hasher, hashL: L -> seq<Byte>, hashR: R -> seq<Byte>)
    modifies hasher
    ensures hasher.combined == old(hasher.combined) + HashInput(e, hashL, hashR)
  {
    match e
    case Left(l) =>
      hasher.Combine(hashL(l));
    case Right(x) =>
      hasher.Combine(hashR(x));
  }

  /** The arm is not hashed: where `Left == Right`, `left(v)` and `right(v)`
      combine the same bytes, and so does any value and its `swap`. */
  lemma HashIgnoresArm<T>(v: T, e: Either<T, T>, hash: T -> seq<Byte>)
    ensures HashInput(Left(v), hash, hash) == HashInput(Right(v), hash, hash) == hash(v)
    ensures HashInput(e, hash, hash) == hash(Take(e))
  {
  }

  /** Values equal under the general `==` combine the same bytes, provided each
      payload hash agrees with its payload equality. */
  lemma EqualValuesHashAlike<L, R>(a: Either<L, R>, b: Either<L, R>, eqL: (L, L) -> bool, eqR: (R, R) -> bool, hashL: L -> seq<Byte>, hashR: R -> seq<Byte>)
    requires forall x, y :: eqL(x, y) ==> hashL(x) == hashL(y)
    requires forall x, y :: eqR(x, y) ==> hashR(x) == hashR(y)
    requires Equal(a, b, eqL, eqR)
    ensures HashInput(a, hashL, hashR) == HashInput(b, hashL, hashR)
  {
  }

  /** Where `Left == Right`, values equal under the `take()`-based `==` also
      combine the same bytes, so that overload keeps the hashing contract too. */
  lemma TakeEqualValuesHashAlike<T>(a: Either<T, T>, b: Either<T, T>, eq: (T, T) -> bool, hash: T -> seq<Byte>)
    requires forall x, y :: eq(x, y) ==> hash(x) == hash(y)
    requires EqualByTake(a, b, eq)
    ensures HashInput(a, hash, hash) == HashInput(b, hash, hash)
  {
  }
}
