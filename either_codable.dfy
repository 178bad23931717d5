/** The keyed coding of Sources/MonadicEither/Either+Codable.swift. The
    keyed container is a map from key strings to encoded payloads (of the
    coder's type `E`); `isNull` tells which encoded payloads are the coder's
    null. Payload encoders and decoders are caller-supplied and may throw.
    Encoding writes exactly one key; decoding tries `"left"` first, then
    `"right"`, and throws when neither yields a value. */
module EitherCodable {
  import opened Optionals
  import opened Throws
  import opened EitherCore

  /** The raw values of the private `CodingKey` enum. */
  const LeftKey: string := "left"
  const RightKey: string := "right"

  /** What `init(from:)` can throw: its own `NeitherLeftNorRightValueWasEncoded`,
      or the error a payload decoder threw, passed on by `try`. */
  datatype DecodeError<PE> = NeitherLeftNorRightValueWasEncoded | PayloadError(error: PE)

  /** `decodeIfPresent(_:forKey:)`: nil for a missing key and for a key whose
      value is null, otherwise the payload decoder's value or error. */
  function DecodeIfPresent<T, E, PE>(container: map<string, E>, key: string, isNull: E -> bool, decode: E -> Throwing<T, PE>): (r: Throwing<Option<T>, PE>)
    ensures r == Returned(None) <==> key !in container || isNull(container[key])
  {
    if key !in container || isNull(container[key]) then Returned(None)
    else match decode(container[key])
      case Returned(v) => Returned(Some(v))
      case Threw(err) => Threw(err)
  }

  /** The container `encode(to:)` leaves behind, or the payload encoder's error. */
  function Encoding<L, R, E, EE>(e: Either<L, R>, encodeL: L -> Throwing<E, EE>, encodeR: R -> Throwing<E, EE>): Throwing<map<string, E>, EE> {
    match e
    case Left(l) =>
      (match encodeL(l)
       case Returned(v) => Returned(map[LeftKey := v])
       case Threw(err) => Threw(err))
    case Right(x) =>
      (match encodeR(x)
       case Returned(v) => Returned(map[RightKey := v])
       case Threw(err) => Threw(err))
  }

  /** `encode(to:)`: takes a fresh keyed container and writes the payload
      under the key of its arm. */
  method Encode<L, R, E, EE>(e: Either<L, R>, encodeL: L -> Throwing<E, EE>, encodeR: R -> Throwing<E, EE>) returns (out: Throwing<map<string, E>, EE>)
    ensures out == Encoding(e, encodeL, encodeR)
  {
    var container: map<string, E> := map[];
    match e {
    case Left(l) =>
      var encoded := encodeL(l);
      if encoded.Threw? {
        return Threw(encoded.error);
      }
      container := container[LeftKey := encoded.value];
    case Right(x) =>
      var encoded := encodeR(x);
      if encoded.Threw? {
        return Threw(encoded.error);
      }
      container := container[RightKey := encoded.value];
    }
    out := Returned(container);
  }

  /** `init(from:)` as written: the first of `"left"`, `"right"` whose
      `decodeIfPresent` yields a value decides. */
  function Decode<L, R, E, PE>(container: map<string, E>, isNull: E -> bool, decodeL: E -> Throwing<L, PE>, decodeR: E -> Throwing<R, PE>): Throwing<Either<L, R>, DecodeError<PE>> {
    match DecodeIfPresent(container, LeftKey, isNull, decodeL)
    case Threw(err) => Threw(PayloadError(err))
    case Returned(Some(l)) => Returned(Left(l))
    case Returned(None) =>
      match DecodeIfPresent(container, RightKey, isNull, decodeR)
      case Threw(err) => Threw(PayloadError(err))
      case Returned(Some(x)) => Returned(Right(x))
      case Returned(None) => Threw(NeitherLeftNorRightValueWasEncoded)
  }

  /** `init(from:)` deciding by key presence instead of `decodeIfPresent`:
      the payload under the first present key is decoded, null or not, so a
      payload whose encoding is null (a nil `Optional`) is still recovered. */
  function DecodeByPresence<L, R, E, PE>(container: map<string, E>, decodeL: E -> Throwing<L, PE>, decodeR: E -> Throwing<R, PE>): Throwing<Either<L, R>, DecodeError<PE>> {
    if LeftKey in container then
      match decodeL(container[LeftKey])
      case Returned(l) => Returned(Left(l))
      case Threw(err) => Threw(PayloadError(err))
    else if RightKey in container then
      match decodeR(container[RightKey])
      case Returned(x) => Returned(Right(x))
      case Threw(err) => Threw(PayloadError(err))
    else Threw(NeitherLeftNorRightValueWasEncoded)
  }

  // ---- laws ----

  /** Encoding writes only the key of the populated arm. */
  lemma EncodingWritesOnlyItsKey<L, R, E, EE>(e: Either<L, R>, encodeL: L -> Throwing<E, EE>, encodeR: R -> Throwing<E, EE>)
    ensures Encoding(e, encodeL, encodeR).Returned? ==>
      Encoding(e, encodeL, encodeR).value.Keys == {if e.Left? then LeftKey else RightKey}
    ensures Encoding(e, encodeL, encodeR).Threw? <==>
      (if e.Left? then encodeL(e.left).Threw? else encodeR(e.right).Threw?)
  {
  }

  /** Decoding undoes encoding whenever the populated payload round-trips and
      does not encode as null. */
  lemma DecodeEncodeRoundTrip<L, R, E, EE, PE>(e: Either<L, R>, isNull: E -> bool, encodeL: L -> Throwing<E, EE>, encodeR: R -> Throwing<E, EE>, decodeL: E -> Throwing<L, PE>, decodeR: E -> Throwing<R, PE>)
    requires e.Left? ==> encodeL(e.left).Returned? && !isNull(encodeL(e.left).value) && decodeL(encodeL(e.left).value) == Returned(e.left)
    requires e.Right? ==> encodeR(e.right).Returned? && !isNull(encodeR(e.right).value) && decodeR(encodeR(e.right).value) == Returned(e.right)
    ensures Encoding(e, encodeL, encodeR).Returned?
    ensures Decode(Encoding(e, encodeL, encodeR).value, isNull, decodeL, decodeR) == Returned(e)
  {
    assert LeftKey != RightKey;
  }

  /** A payload that encodes as null does not come back: `decodeIfPresent`
      reads the null as a missing key, and with no other key decoding throws
      `NeitherLeftNorRightValueWasEncoded`. */
  lemma NullPayloadIsNotDecoded<L, R, E, EE, PE>(e: Either<L, R>, isNull: E -> bool, encodeL: L -> Throwing<E, EE>, encodeR: R -> Throwing<E, EE>, decodeL: E -> Throwing<L, PE>, decodeR: E -> Throwing<R, PE>)
    requires e.Left? ==> encodeL(e.left).Returned? && isNull(encodeL(e.left).value)
    requires e.Right? ==> encodeR(e.right).Returned? && isNull(encodeR(e.right).value)
    ensures Encoding(e, encodeL, encodeR).Returned?
    ensures Decode(Encoding(e, encodeL, encodeR).value, isNull, decodeL, decodeR) == Threw(NeitherLeftNorRightValueWasEncoded)
  {
    assert LeftKey != RightKey;
  }

  /** The concrete case: `Either<Int?, Int>.left(nil)` with payload coders
      that round-trip every value, the nil included, still fails to decode. */
  lemma NilOptionalLeftDoesNotRoundTrip()
    ensures var e: Either<Option<int>, int> := Left(None);
      var encodeL := (o: Option<int>) => Returned(o);
      var decodeL := (j: Option<int>) => Returned(j);
      var encodeR := (x: int) => Returned(Some(x));
      var decodeR := (j: Option<int>) => if j.Some? then Returned(j.value) else Threw(());
      var isNull := (j: Option<int>) => j.None?;
      && (forall o :: decodeL(encodeL(o).value) == Returned(o))
      && (forall x :: decodeR(encodeR(x).value) == Returned(x))
      && Encoding<Option<int>, int, Option<int>, ()>(e, encodeL, encodeR) == Returned(map[LeftKey := None])
      && Decode(map[LeftKey := None], isNull, decodeL, decodeR) == Threw(NeitherLeftNorRightValueWasEncoded)
  {
  }

  /** Deciding by key presence, decoding undoes encoding for every payload
      that round-trips, null encodings included. */
  lemma {:induction false} DecodeByPresenceRoundTrip<L, R, E, EE, PE>(e: Either<L, R>, encodeL: L -> Throwing<E, EE>, encodeR: R -> Throwing<E, EE>, decodeL: E -> Throwing<L, PE>, decodeR: E -> Throwing<R, PE>)
    requires e.Left? ==> encodeL(e.left).Returned? && decodeL(encodeL(e.left).value) == Returned(e.left)
    requires e.Right? ==> encodeR(e.right).Returned? && decodeR(encodeR(e.right).value) == Returned(e.right)
    ensures Encoding(e, encodeL, encodeR).Returned?
    ensures DecodeByPresence(Encoding(e, encodeL, encodeR).value, decodeL, decodeR) == Returned(e)
  {
    assert LeftKey != RightKey;
  }

  /** Where no present key holds a null, the two decoders agree. */
  lemma DecodersAgreeWithoutNull<L, R, E, PE>(container: map<string, E>, isNull: E -> bool, decodeL: E -> Throwing<L, PE>, decodeR: E -> Throwing<R, PE>)
    requires LeftKey in container ==> !isNull(container[LeftKey])
    requires RightKey in container ==> !isNull(container[RightKey])
    ensures Decode(container, isNull, decodeL, decodeR) == DecodeByPresence(container, decodeL, decodeR)
  {
  }

  /** A `"left"` that yields a value decides alone: whatever `"right"` holds
      is ignored, the result is never a right, and a payload error under
      `"left"` is thrown rather than falling through to `"right"`. */
  lemma LeftKeyHasPriority<L, R, E, PE>(container: map<string, E>, isNull: E -> bool, decodeL: E -> Throwing<L, PE>, decodeR: E -> Throwing<R, PE>)
    requires LeftKey in container && !isNull(container[LeftKey])
    ensures Decode(container, isNull, decodeL, decodeR) == Decode(container - {RightKey}, isNull, decodeL, decodeR)
    ensures Decode(container, isNull, decodeL, decodeR).Returned? ==> Decode(container, isNull, decodeL, decodeR).value.Left?
    ensures decodeL(container[LeftKey]).Returned? ==>
      Decode(container, isNull, decodeL, decodeR) == Returned(Left(decodeL(container[LeftKey]).value))
    ensures decodeL(container[LeftKey]).Threw? ==>
      Decode(container, isNull, decodeL, decodeR) == Threw(PayloadError(decodeL(container[LeftKey]).error))
  {
    assert LeftKey != RightKey;
    assert LeftKey in container - {RightKey} && (container - {RightKey})[LeftKey] == container[LeftKey];
  }

  /** Without a usable `"left"`, a present non-null `"right"` decides; with
      neither, decoding throws `NeitherLeftNorRightValueWasEncoded`. */
  lemma RightKeyThenNeither<L, R, E, PE>(container: map<string, E>, isNull: E -> bool, decodeL: E -> Throwing<L, PE>, decodeR: E -> Throwing<R, PE>)
    requires LeftKey !in container || isNull(container[LeftKey])
    ensures RightKey in container && !isNull(container[RightKey]) ==>
      Decode(container, isNull, decodeL, decodeR) ==
        (match decodeR(container[RightKey])
         case Returned(x) => Returned(Right(x))
         case Threw(err) => Threw(PayloadError(err)))
    ensures RightKey !in container || isNull(container[RightKey]) ==>
      Decode(container, isNull, decodeL, decodeR) == Threw(NeitherLeftNorRightValueWasEncoded)
  {
  }

  /** The example of the documentation: `right("x")` encodes under `"right"`
      only and decodes back to `right("x")`. */
  lemma RightValueExample(isNull: string -> bool, encodeS: string -> Throwing<string, bool>, decodeS: string -> Throwing<string, bool>, encodeI: int -> Throwing<string, bool>, decodeI: string -> Throwing<int, bool>)
    requires encodeS("x").Returned? && !isNull(encodeS("x").value) && decodeS(encodeS("x").value) == Returned("x")
    ensures var e: Either<int, string> := Right("x");
      && Encoding(e, encodeI, encodeS).Returned?
      && Encoding(e, encodeI, encodeS).value.Keys == {RightKey}
      && Decode(Encoding(e, encodeI, encodeS).value, isNull, decodeI, decodeS) == Returned(e)
  {
    var e: Either<int, string> := Right("x");
    EncodingWritesOnlyItsKey(e, encodeI, encodeS);
    DecodeEncodeRoundTrip(e, isNull, encodeI, encodeS, decodeI, decodeS);
  }
}
