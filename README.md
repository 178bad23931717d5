# Monadic-Swift in Dafny

A Dafny model of the Monadic-Swift library. The library provides three generic
sum types and the pure combinators over them:

- `Either<Left, Right>`, in two editions:
  - the current one in `Sources/` (modules `EitherCore`, `EitherMap`,
    `EitherZip`, `EitherGet`, `EitherOn`, `EitherFactory`, `EitherOptional`,
    `EitherResult`, `EitherEquatable`, `EitherComparable`, `EitherHashable`,
    `EitherString`, `EitherCodable`);
  - the older one in `Monads/Either/Sources` (module `LegacyEither`).
    `EditionComparison` relates the two editions.
- Swift's `Result<Success, Failure>` with the library's extensions (modules
  `ResultCore`, `ResultMap`, `ResultZip`, `ResultGet`, `ResultOn`,
  `ResultFactory`).
- `LCE<Loading, Content, Failure>`, the loading/content/error state of an
  asynchronous operation (modules `LCECore`, `LCEMap`, `LCEGet`, `LCEOn`,
  `LCEEquatable`).

Each enum is a `datatype`, and each Swift source file is one module. Shared
pieces:

- `Optionals.Option` models Swift's `Optional`.
- `Throws.Throwing` models a body that returns or throws.
- `PayloadLaws` holds the laws a caller's payload `==` or `<` may satisfy.

Modelling conventions:

- **Async overloads.** Each async overload has its sync twin's body, so one
  function models both. A row below that cites the sync lines stands for the
  async twin as well.
- **Caller capabilities.** Payload `==`, `<`, `description`, hashing, encoding
  and decoding are supplied by the caller, so they are function parameters.
- **Hooks.** The `on…` hooks run a caller body that returns `Void`. Its effect is
  modelled as a change of the caller's state `world`.
- **Hashing.** `hash(into:)` changes a `Hasher` in place. It is modelled
  imperatively: a `Hasher` class whose `combined` field records the bytes
  combined so far.
- **Encoding.** `encode(to:)` fills a mutable keyed container. It is a method
  that builds a local map, proved equal to the specification function
  `Encoding`.
- **Zip.** The n-ary zips are specified against `Optionals.FirstSome`, the
  leftmost present entry of a sequence. A zip reports the failure of its
  leftmost failing operand, and `FirstSome` is that rule as an independent
  reference definition.

Where the code and its documentation disagree, the model follows the code:

- **`<` across arms.** The current edition's `<` is false across arms in both
  directions (`Sources/Either/Either+Comparable.swift:18-19`). Only the older
  edition puts every left before every right.
- **A null payload.** A payload that encodes as null (a nil `Optional`) does
  not decode back, because `decodeIfPresent` reads the null as a missing key
  (see Findings).
- **Payload decode errors.** A payload decode error under a present key is
  propagated by `try`. It is not turned into
  `NeitherLeftNorRightValueWasEncoded`.
- **`isComplete`.** It is true for loading and content and false for error,
  against its own documentation (see Findings).

## Model

| member | source | states |
|---|---|---|
| EitherCore.ExactlyOneArm | Sources/MonadicEither/Either.swift:24-39 | every value is in exactly one of the two arms and equals that arm's constructor applied to its own payload |
| EitherCore.ArmsAreInjectiveAndDistinct | Sources/MonadicEither/Either.swift:31-38 | `left`/`right` are injective; `left(x) != right(x)` when both arms have one type |
| EitherMap.Map | Sources/Either/Either+Map.swift:23-31 | keeps the arm; a left passes through with its payload; a right carries the transform of its payload (async twin 47-55) |
| EitherMap.MapLeft | Sources/Either/Either+Map.swift:71-79 | keeps the arm; a right passes through with its payload; a left carries the transform of its payload (async twin 95-103) |
| EitherMap.Bimap | Sources/Either/Either+Map.swift:124-135 | keeps the arm and carries the matching transform of the payload (async twin 156-167) |
| EitherMap.Fold | Sources/Either/Either+Map.swift:188-199 | no contract of its own; EitherMap.FoldUsesOnlyMatchingTransform states that only the populated arm's transform is used (async 220-231) |
| EitherMap.FoldLeft | Sources/Either/Either+Map.swift:252-255 | no contract of its own; EitherMap.FoldLeftRightAreFolds states it is `fold` with `initial` on a right |
| EitherMap.FoldRight | Sources/Either/Either+Map.swift:300-303 | no contract of its own; EitherMap.FoldLeftRightAreFolds states it is `fold` with `initial` on a left |
| EitherMap.FlatMap | Sources/Either/Either+Map.swift:346-354 | a left short-circuits to the same left (async twin 373-381) |
| EitherMap.FlatMapLeft | Sources/Either/Either+Map.swift:400-408 | a right passes through unchanged (async twin 427-435) |
| EitherMap.Swap | Sources/Either/Either+Map.swift:453-461 | the result is a left iff the input is a right, with the same payload |
| EitherMap.Flatten | Sources/Either/Either+Map.swift:476-478 | no contract of its own; EitherMap.FlattenOfMapIsFlatMap states `flatten ∘ map == flatMap` |
| EitherMap.MapIdentity | Sources/Either/Either+Map.swift:23-31 | `map` with the identity changes nothing |
| EitherMap.MapComposition | Sources/Either/Either+Map.swift:23-31 | two maps are one map of the composed transform |
| EitherMap.MapIsFlatMapToRight | Sources/Either/Either+Map.swift:346-354 | `map(f)` equals `flatMap` of `right ∘ f` |
| EitherMap.MapLeftIsSwappedMap | Sources/Either/Either+Map.swift:71-79 | `mapLeft(f)` equals `swap(map(swap(e), f))` |
| EitherMap.BimapIsMapThenMapLeft | Sources/Either/Either+Map.swift:124-135 | `bimap` applies exactly the matching transform: it is `mapLeft ∘ map` |
| EitherMap.FoldUsesOnlyMatchingTransform | Sources/Either/Either+Map.swift:188-199 | `fold` on a left is the left transform of the payload and never consults the right transform, and vice versa (async 220-231) |
| EitherMap.FoldLeftRightAreFolds | Sources/Either/Either+Map.swift:252-303 | `foldLeft(initial, t)` is `t(l)` on a left and `initial` on a right; `foldRight` mirrors it |
| EitherMap.FlatMapShortCircuits | Sources/Either/Either+Map.swift:346-354 | a left yields itself for every transform; a right yields `t(r)` |
| EitherMap.FlatMapMonadLaws | Sources/Either/Either+Map.swift:346-354 | right identity and associativity of `flatMap` |
| EitherMap.FlatMapLeftIsSwappedFlatMap | Sources/Either/Either+Map.swift:400-408 | `flatMapLeft` is `flatMap` through `swap`, so a left may change arm |
| EitherMap.SwapInvolution | Sources/Either/Either+Map.swift:453-461 | `swap(swap(e)) == e` |
| EitherMap.FlattenOfMapIsFlatMap | Sources/Either/Either+Map.swift:476-478 | `flatten(map(e, f)) == flatMap(e, f)` |
| EitherMap.MapAndFlattenExamples | Sources/Either/Either+Map.swift:476-478 | `left(1).map{"foo"} == left(1)`, `right(right(2)).flatten() == right(2)`, `left(1).flatten() == left(1)` |
| Optionals.FirstSome | Sources/MonadicEither/Either+Zip.swift:214-230 | the leftmost present entry, or none iff every entry is absent (the reference for "leftmost left wins") |
| Optionals.FirstSomeCons | Sources/MonadicEither/Either+Zip.swift:214-230 | the leftmost present entry of `[x] + s` is `x` if present, else that of `s` |
| EitherZip.Zip2 | Sources/MonadicEither/Either+Zip.swift:32-39 | the left payload is that of the leftmost left operand; a right result means both operands are right and carries `t(a, b)` (async 64-71) |
| EitherZip.Zip3 | Sources/MonadicEither/Either+Zip.swift:93-103 | as Zip2, over three operands |
| EitherZip.Zip4 | Sources/MonadicEither/Either+Zip.swift:149-162 | as Zip2, over four operands |
| EitherZip.Zip5 | Sources/MonadicEither/Either+Zip.swift:214-230 | as Zip2, over five operands (async 241-257) |
| EitherZip.Zip2Tuple | Sources/MonadicEither/Either+Zip.swift:81-83 | the left payload is that of the leftmost left operand; right iff both operands are right, with the pair of payloads |
| EitherZip.Zip3Tuple | Sources/MonadicEither/Either+Zip.swift:133-138 | the left payload is that of the leftmost left operand; right iff all three operands are right, with the triple of payloads |
| EitherZip.Zip4Tuple | Sources/MonadicEither/Either+Zip.swift:197-203 | the left payload is that of the leftmost left operand; right iff all four operands are right, with the tuple of payloads |
| EitherZip.Zip5Tuple | Sources/MonadicEither/Either+Zip.swift:268-275 | the left payload is that of the leftmost left operand; right iff all five operands are right, with the tuple of payloads |
| EitherZip.Zip2FirstOperandDecides | Sources/MonadicEither/Either+Zip.swift:32-39 | a left self wins whatever the other operand; right then left gives the other's left; two rights give `right(t(a, b))` |
| EitherZip.ZipIsRightIffAllRight | Sources/MonadicEither/Either+Zip.swift:93-230 | zip3, zip4 and zip5 are right iff every operand is right |
| EitherZip.LeftmostLeftWinsExamples | Sources/MonadicEither/Either+Zip.swift:93-103 | the only left wins; among several lefts the leftmost wins |
| EitherGet.LeftOrNil | Sources/Either/Either+Get.swift:52-55 | present iff `isLeft` |
| EitherGet.RightOrNil | Sources/Either/Either+Get.swift:68-71 | present iff `isRight` |
| EitherGet.IsLeft | Sources/Either/Either+Get.swift:20-23 | no contract of its own; EitherGet.ExactlyOneOfIsLeftIsRight states it holds exactly on a left, and never together with `isRight` |
| EitherGet.IsRight | Sources/Either/Either+Get.swift:36-39 | no contract of its own; EitherGet.ExactlyOneOfIsLeftIsRight states it holds exactly on a right |
| EitherGet.LeftOrDefault | Sources/Either/Either+Get.swift:84-87 | no contract of its own; EitherGet.OrDefaultUnwrapsOrNil states it is `leftOrNil` unwrapped with the default |
| EitherGet.RightOrDefault | Sources/Either/Either+Get.swift:100-103 | no contract of its own; EitherGet.OrDefaultUnwrapsOrNil states it is `rightOrNil` unwrapped with the default |
| EitherGet.LeftOrElse | Sources/Either/Either+Get.swift:116-124 | no contract of its own; EitherGet.OrElseIsFold states it is the left payload or the transform of the right one |
| EitherGet.RightOrElse | Sources/Either/Either+Get.swift:159-167 | no contract of its own; EitherGet.OrElseIsFold states it is the right payload or the transform of the left one |
| EitherGet.Take | Sources/Either/Either+Get.swift:208-216 | no contract of its own; EitherGet.TakeIgnoresArm states it is the payload of either arm |
| EitherGet.ExactlyOneOfIsLeftIsRight | Sources/Either/Either+Get.swift:20-71 | exactly one of `isLeft`, `isRight` holds, and `leftOrNil`/`rightOrNil` return that payload |
| EitherGet.LeftAccessorsAreSwappedRightAccessors | Sources/Either/Either+Get.swift:52-167 | `leftOrNil`, `leftOrDefault`, `leftOrElse` equal the right ones on the swapped value |
| EitherGet.OrDefaultUnwrapsOrNil | Sources/Either/Either+Get.swift:84-103 | `leftOrDefault(d)` is the left payload or `d`; `rightOrDefault` mirrors it |
| EitherGet.OrElseIsFold | Sources/Either/Either+Get.swift:116-167 | `leftOrElse(t)` is `l` on a left and `t(r)` on a right; `rightOrElse` mirrors it (async 137-145, 180-188) |
| EitherGet.TakeIgnoresArm | Sources/Either/Either+Get.swift:208-216 | `take()` returns the payload whichever arm holds it, and is unchanged by `swap` |
| EitherOn.OnLeft | Sources/Either/Either+On.swift:20-23 | returns `self`; the caller's state is untouched on a right (async 36-39) |
| EitherOn.OnRight | Sources/Either/Either+On.swift:52-55 | returns `self`; the caller's state is untouched on a left (async 68-71) |
| EitherOn.OnLeftRunsBodyOnceIffLeft | Sources/Either/Either+On.swift:20-55 | on its arm a hook's effect is one run of the body on the payload; the two hooks commute |
| EitherFactory.Catching | Sources/MonadicEither/Either+Factory.swift:14-20 | right iff the body returned (async 27-33) |
| EitherFactory.CatchingCapturesOutcome | Sources/MonadicEither/Either+Factory.swift:14-20 | a returned `v` gives `right(v)`, a thrown `e` gives `left(e)` |
| EitherFactory.Lift | Sources/MonadicEither/Either+Factory.swift:41-45 | no contract of its own; EitherFactory.LiftIsMap states that the lifted function is `map` |
| EitherFactory.LiftBimap | Sources/MonadicEither/Either+Factory.swift:65-70 | no contract of its own; EitherFactory.LiftIsMap states that the lifted function is `bimap` |
| EitherFactory.LiftIsMap | Sources/MonadicEither/Either+Factory.swift:41-70 | `lift(f)(x) == x.map(f)` and `lift(left:right:)(x) == x.bimap(...)` (async 53-57, 78-83) |
| EitherOptional.FromOptional | Sources/Either/Either+Optional.swift:22-30 | right iff the optional holds a value (async 45-53) |
| EitherOptional.AsEither | Sources/Either/Either+Optional.swift:70-72 | no contract of its own; EitherOptional.RightOrNilRecoversOptional states it equals the initializer |
| EitherOptional.RightOrNilRecoversOptional | Sources/Either/Either+Optional.swift:22-72 | `rightOrNil()` gives back the optional; nil gives `left(p())`; `asEither` equals the initializer |
| EitherOptional.ProducerUnusedWhenPresent | Sources/Either/Either+Optional.swift:27-28 | with a value, the result is `right(v)` whatever the producer |
| EitherResult.FromResult | Sources/Either/Either+Result.swift:20-28 | right iff success |
| EitherResult.ResultFrom | Sources/Either/Either+Result.swift:58-66 | success iff right |
| EitherResult.AsResult | Sources/Either/Either+Result.swift:41-43 | no contract of its own; EitherResult.ConversionsRoundTrip states it equals the `Result` initializer and is inverted by `asEither` |
| EitherResult.AsEither | Sources/Either/Either+Result.swift:79-81 | no contract of its own; EitherResult.ConversionsRoundTrip states it equals the `Either` initializer and is inverted by `asResult` |
| EitherResult.ConversionsRoundTrip | Sources/Either/Either+Result.swift:20-81 | the conversions are mutually inverse, also through `asResult`/`asEither` |
| EitherResult.ConversionsKeepPayload | Sources/Either/Either+Result.swift:20-66 | `left`↔`failure` and `right`↔`success` with the same payload |
| EitherEquatable.Equal | Sources/Either/Either+Equatable.swift:10-21 | within one arm, the payloads' `==`; values in different arms are never equal |
| EitherEquatable.EqualByTake | Sources/Either/Either+Equatable.swift:24-26 | no contract of its own; EitherEquatable.GeneralEqualityImpliesTakeEquality and EitherEquatable.TakeInequalityIgnoresArm relate it to the general `==` |
| EitherEquatable.NotEqualByTake | Sources/Either/Either+Equatable.swift:29-31 | holds exactly when the `take()`-based `==` does not |
| EitherEquatable.EqualIsValueEquality | Sources/Either/Either+Equatable.swift:10-21 | with the payloads' own `==`, `==` holds iff the values are equal |
| EitherEquatable.EqualKeepsEquivalence | Sources/Either/Either+Equatable.swift:10-21 | `==` is reflexive, symmetric and transitive whenever both payload `==` are |
| EitherEquatable.TakeEqualityIgnoresArm | Sources/Either/Either+Equatable.swift:24-26 | where `Left == Right`, `left(1) == right(1)` by `take()`, though the general `==` says false |
| EitherEquatable.GeneralEqualityImpliesTakeEquality | Sources/Either/Either+Equatable.swift:10-31 | values equal by the general `==` are equal by `take()`, so the `take()`-based `!=` never separates them |
| EitherEquatable.TakeInequalityIgnoresArm | Sources/Either/Either+Equatable.swift:24-31 | for any payload `==` reflexive on `v`, `left(v) != right(v)` is false by `take()` while the general `==` is false too |
| EitherComparable.Less | Sources/Either/Either+Comparable.swift:10-21 | within one arm, the payloads' `<`; false across arms in both directions |
| EitherComparable.LessByTake | Sources/Either/Either+Comparable.swift:25-27 | no contract of its own; EitherComparable.TakeOrderIgnoresArm states it compares payloads and ignores arms |
| EitherComparable.ArmsAreIncomparable | Sources/Either/Either+Comparable.swift:18-19 | `left(a)`, `right(b)` are neither `<` each other nor `==` |
| EitherComparable.LessKeepsStrictOrder | Sources/Either/Either+Comparable.swift:10-21 | `<` is irreflexive and transitive whenever both payload `<` are |
| EitherComparable.LessIsNotTotal | Sources/Either/Either+Comparable.swift:18-19 | whatever the payload orders, `<` is not a total order |
| EitherComparable.TakeOrderIgnoresArm | Sources/Either/Either+Comparable.swift:25-27 | where `Left == Right`, `<` compares payloads and ignores arms |
| EitherHashable.Hasher.constructor | Sources/Either/Either+Hashable.swift:9-17 | a fresh hasher has combined nothing |
| EitherHashable.Hasher.Combine | Sources/Either/Either+Hashable.swift:12-15 | models Swift's `Hasher.combine`, which these lines reach through the payload's `hash(into:)`: it appends exactly the given bytes |
| EitherHashable.HashInput | Sources/Either/Either+Hashable.swift:9-17 | no contract of its own; EitherHashable.HashInto states that `hash(into:)` appends exactly these bytes, and EitherHashable.HashIgnoresArm that they are the payload's alone |
| EitherHashable.HashInto | Sources/Either/Either+Hashable.swift:9-17 | `hash(into:)` appends exactly what the populated payload combines, no arm tag |
| EitherHashable.HashIgnoresArm | Sources/Either/Either+Hashable.swift:9-17 | `left(v)` and `right(v)` combine the same bytes: the payload's |
| EitherHashable.EqualValuesHashAlike | Sources/Either/Either+Hashable.swift:9-17 | values equal under `==` combine the same bytes, given payload hashes consistent with payload `==` |
| EitherHashable.TakeEqualValuesHashAlike | Sources/Either/Either+Hashable.swift:9-17 | the same for the `take()`-based `==` |
| EitherString.Description | Sources/MonadicEither/Either+String.swift:9-17 | starts with `Either.left(` on a left and `Either.right(` on a right, and ends with `)` |
| EitherString.DebugDescription | Sources/MonadicEither/Either+String.swift:21-29 | the same shape over the debug descriptions: `Either.left(` or `Either.right(` by arm, closed by `)` |
| EitherString.ArmsDescribeDifferently | Sources/MonadicEither/Either+String.swift:12-15 | a left and a right never share a description |
| EitherString.DescriptionFramesPayload | Sources/MonadicEither/Either+String.swift:12-15 | the payload description sits between `Either.left(`/`Either.right(` and `)` |
| EitherString.DescriptionIsInjective | Sources/MonadicEither/Either+String.swift:9-17 | with injective payload descriptions, distinct values have distinct descriptions |
| EitherCodable.DecodeIfPresent | Sources/MonadicEither/Either+Codable.swift:36-38 | nil exactly when the key is absent or holds null |
| EitherCodable.Encoding | Sources/MonadicEither/Either+Codable.swift:18-28 | no contract of its own; EitherCodable.EncodingWritesOnlyItsKey states it writes only the populated arm's key and fails only on a payload error |
| EitherCodable.Decode | Sources/MonadicEither/Either+Codable.swift:33-43 | no contract of its own; EitherCodable.LeftKeyHasPriority, EitherCodable.RightKeyThenNeither and EitherCodable.DecodeEncodeRoundTrip state its key order, its errors and its round trip |
| EitherCodable.DecodeByPresence | Sources/MonadicEither/Either+Codable.swift:33-43 | no contract of its own; the corrected decoder that decides by key presence, see EitherCodable.DecodeByPresenceRoundTrip |
| EitherCodable.Encode | Sources/MonadicEither/Either+Codable.swift:18-28 | the container written equals `Encoding`, or the payload encoder's error |
| EitherCodable.EncodingWritesOnlyItsKey | Sources/MonadicEither/Either+Codable.swift:22-26 | a left writes only `"left"`, a right only `"right"`; only a payload error fails |
| EitherCodable.DecodeEncodeRoundTrip | Sources/MonadicEither/Either+Codable.swift:18-43 | decoding what was encoded gives the value back, given payload round trips and a non-null payload encoding |
| EitherCodable.NullPayloadIsNotDecoded | Sources/MonadicEither/Either+Codable.swift:23-41 | a payload encoded as null is read back as a missing key, and decoding throws `NeitherLeftNorRightValueWasEncoded` |
| EitherCodable.NilOptionalLeftDoesNotRoundTrip | Sources/MonadicEither/Either+Codable.swift:18-41 | `left(nil)` with an optional payload whose coders round-trip encodes as `{"left": null}` and fails to decode |
| EitherCodable.DecodeByPresenceRoundTrip | Sources/MonadicEither/Either+Codable.swift:18-43 | deciding by key presence, decoding undoes encoding for every round-tripping payload, null encodings included |
| EitherCodable.DecodersAgreeWithoutNull | Sources/MonadicEither/Either+Codable.swift:33-43 | when no present key holds null, the as-written and the corrected decoders agree |
| EitherCodable.LeftKeyHasPriority | Sources/MonadicEither/Either+Codable.swift:36-37 | with a non-null `"left"`, `"right"` is ignored; a decoded payload gives `left` of it, and a payload error is thrown without falling through |
| EitherCodable.RightKeyThenNeither | Sources/MonadicEither/Either+Codable.swift:38-41 | without a non-null `"left"`, a non-null `"right"` decides; with neither, `NeitherLeftNorRightValueWasEncoded` is thrown |
| EitherCodable.RightValueExample | Sources/MonadicEither/Either+Codable.swift:25-26 | `right("x")` encodes under `"right"` alone and decodes back |
| LegacyEither.Map | Monads/Either/Sources/Either.swift:40-47 | keeps the arm; a left passes through; a right carries the transform of its payload (async Either+AsyncAwait.swift:5-12) |
| LegacyEither.MapLeft | Monads/Either/Sources/Either.swift:50-57 | keeps the arm; a right passes through; a left carries the transform of its payload (async 15-22) |
| LegacyEither.Bimap | Monads/Either/Sources/Either.swift:62-72 | keeps the arm and carries the matching transform of the payload (async 27-37) |
| LegacyEither.Fold | Monads/Either/Sources/Either.swift:77-87 | no contract of its own; LegacyEither.FoldsPickTheirArm states it applies the matching transform |
| LegacyEither.FoldLeft | Monads/Either/Sources/Either.swift:92-102 | no contract of its own; LegacyEither.FoldsPickTheirArm states it yields `rightValue` on a right |
| LegacyEither.FoldRight | Monads/Either/Sources/Either.swift:107-117 | no contract of its own; LegacyEither.FoldsPickTheirArm states it yields `leftValue` on a left |
| LegacyEither.FlatMap | Monads/Either/Sources/Either.swift:120-129 | a left short-circuits (async 85-94) |
| LegacyEither.FlatMapLeft | Monads/Either/Sources/Either.swift:132-141 | a right passes through (async 97-106) |
| LegacyEither.Flatten | Monads/Either/Sources/Either.swift:16-20 | right iff the outer and inner values are right |
| LegacyEither.Lift | Monads/Either/Sources/Either.swift:24-28 | no contract of its own; LegacyEither.FlattenAndLift states the lifted function is `map` |
| LegacyEither.LiftBimap | Monads/Either/Sources/Either.swift:32-37 | no contract of its own; LegacyEither.FlattenAndLift states the lifted function is `bimap` |
| LegacyEither.Zip | Monads/Either/Sources/Either.swift:145-150 | right iff both are right; self's left wins, else the other's; a right carries `t(a, b)` |
| LegacyEither.Swap | Monads/Either/Sources/Either.swift:153-155 | exchanges the arms and keeps the payload |
| LegacyEither.LeftValue | Monads/Either/Sources/Either.swift:158-165 | the payload iff a left, else nil |
| LegacyEither.RightValue | Monads/Either/Sources/Either.swift:178-185 | the payload iff a right, else nil |
| LegacyEither.IsLeft | Monads/Either/Sources/Either.swift:168-175 | no contract of its own; LegacyEither.AccessorsAgreeWithArm states it is `!isRight` and holds iff `left` is present |
| LegacyEither.IsRight | Monads/Either/Sources/Either.swift:188-195 | no contract of its own; LegacyEither.AccessorsAgreeWithArm states it holds iff `right` is present |
| LegacyEither.Take | Monads/Either/Sources/Either.swift:200-207 | the value is either `left` or `right` of the result, so the result is the payload of whichever arm |
| LegacyEither.Init | Monads/Either/Sources/Either.swift:211-218 | throws iff the closure threw an error the `Left` cast rejects, and then the same error; a right iff the closure returned |
| LegacyEither.Equal | Monads/Either/Sources/Either.swift:222-231 | within one arm, the payloads' `==`; false across arms |
| LegacyEither.Less | Monads/Either/Sources/Either.swift:235-246 | within one arm, the payloads' `<`; every left is before every right, never the reverse |
| LegacyEither.MapsActOnPopulatedArm | Monads/Either/Sources/Either+AsyncAwait.swift:5-37 | map/mapLeft transform only their arm, bimap is mapLeft ∘ map, identities change nothing |
| LegacyEither.FoldsPickTheirArm | Monads/Either/Sources/Either+AsyncAwait.swift:42-82 | fold applies the matching transform; foldLeft yields `rightValue` on a right, foldRight `leftValue` on a left |
| LegacyEither.FlatMapsShortCircuit | Monads/Either/Sources/Either+AsyncAwait.swift:85-106 | the populated arm becomes the transform's result; map is flatMap into right; flatMapLeft is flatMap through swap |
| LegacyEither.FlattenAndLift | Monads/Either/Sources/Either.swift:16-37 | `flatten` is flatMap with the identity; `lift` is map; `lift(left:right:)` is bimap |
| LegacyEither.SwapInvolution | Monads/Either/Sources/Either.swift:153-155 | `swap(swap(e)) == e` |
| LegacyEither.TakeIgnoresSwap | Monads/Either/Sources/Either.swift:153-207 | `take()` is unchanged by `swap()` |
| LegacyEither.AccessorsAgreeWithArm | Monads/Either/Sources/Either.swift:158-195 | `isLeft == !isRight`; each accessor is present iff its arm holds; `left` is `right` of the swap |
| LegacyEither.InitOutcomes | Monads/Either/Sources/Either.swift:211-218 | return gives `right(v)`; a castable error gives `left(e)`; any other error is re-thrown |
| LegacyEither.EqualKeepsEquivalence | Monads/Either/Sources/Either.swift:222-231 | `==` is an equivalence whenever both payload `==` are |
| LegacyEither.LessIsStrictTotalOrder | Monads/Either/Sources/Either.swift:235-246 | `<` is a strict total order (arm first, then payload) whenever both payload orders are |
| LegacyEither.ZipExamples | Monads/Either/Sources/Either.swift:145-150 | `left(1) zip left(2) == left(1)`, `right(1) zip left(2) == left(2)`, `right(1) zip right(2) == right(3)` under `+` |
| EditionComparison.ToCurrent | Monads/Either/Sources/Either.swift:7-12 | keeps the arm and the payload |
| EditionComparison.CombinatorsAgree | Monads/Either/Sources/Either.swift:40-155 | map, mapLeft, bimap, swap, fold, foldLeft and foldRight of the two editions compute the same values |
| EditionComparison.BindsAgree | Monads/Either/Sources/Either.swift:16-150 | flatMap, flatMapLeft, flatten and zip of the two editions agree, the current zip being the two-operand `zip` |
| EditionComparison.EqualityAndTakeAgree | Monads/Either/Sources/Either.swift:200-231 | `==` and `take()` of the two editions agree |
| EditionComparison.LessDiffersAcrossArms | Monads/Either/Sources/Either.swift:241-244 | the older `<` has `left(a) < right(b)`; the current one does not |
| EditionComparison.FactoriesAgreeOnTypedErrors | Monads/Either/Sources/Either.swift:211-218 | when every error is a `Left`, the older initializer never re-throws and agrees with `init(catching:)` |
| ResultMap.Map | Sources/MonadicResult/Result+Map.swift:23-31 | keeps the arm; a failure passes through; a success carries the transform of its value |
| ResultMap.MapError | Sources/MonadicResult/Result+Map.swift:47-55 | keeps the arm; a success passes through; a failure carries the transform of its error |
| ResultMap.Bimap | Sources/MonadicResult/Result+Map.swift:80-91 | keeps the arm and carries the matching transform of the payload (async 116-127) |
| ResultMap.Fold | Sources/MonadicResult/Result+Map.swift:152-163 | no contract of its own; ResultMap.FoldUsesOnlyMatchingTransform states it applies only the matching transform |
| ResultMap.FoldError | Sources/MonadicResult/Result+Map.swift:220-223 | no contract of its own; ResultMap.FoldUsesOnlyMatchingTransform states it is `fold` with `initial` on a success |
| ResultMap.FoldSuccess | Sources/MonadicResult/Result+Map.swift:268-271 | no contract of its own; ResultMap.FoldUsesOnlyMatchingTransform states it is `fold` with `initial` on a failure |
| ResultMap.FlatMap | Sources/MonadicResult/Result+Map.swift:314-322 | a failure short-circuits |
| ResultMap.FlatMapError | Sources/MonadicResult/Result+Map.swift:341-349 | a success passes through (async 368-376) |
| ResultMap.Flatten | Sources/MonadicResult/Result+Map.swift:392-394 | no contract of its own; ResultMap.FlatMapMonadLaws states `flatten ∘ map == flatMap` |
| ResultMap.MapFunctorLaws | Sources/MonadicResult/Result+Map.swift:23-55 | identity and composition laws of `map` and `mapError` |
| ResultMap.BimapIsMapThenMapError | Sources/MonadicResult/Result+Map.swift:80-91 | `bimap` is `mapError ∘ map`; `map` is `flatMap` into success |
| ResultMap.FoldUsesOnlyMatchingTransform | Sources/MonadicResult/Result+Map.swift:152-271 | fold applies only the matching transform; `foldError`/`foldSuccess` are folds with `initial` on the other arm |
| ResultMap.FlatMapShortCircuits | Sources/MonadicResult/Result+Map.swift:314-349 | a failure ignores flatMap's transform and a success ignores flatMapError's |
| ResultMap.FlatMapMonadLaws | Sources/MonadicResult/Result+Map.swift:314-322 | right identity, associativity, and `flatten ∘ map == flatMap` |
| ResultMap.FlatMapErrorAndFlattenExamples | Sources/MonadicResult/Result+Map.swift:389-394 | `success(1).flatMapError{success(3)} == success(1)`; `success(success(1))` flattens to `success(1)`, `failure(2)` to `failure(2)` |
| ResultZip.Zip2 | Sources/MonadicResult/Result+Zip.swift:32-39 | the error is that of the leftmost failing operand; a success means both succeeded and carries `t(a, b)` |
| ResultZip.Zip3 | Sources/MonadicResult/Result+Zip.swift:93-103 | as Zip2, over three operands |
| ResultZip.Zip4 | Sources/MonadicResult/Result+Zip.swift:149-162 | as Zip2, over four operands |
| ResultZip.Zip5 | Sources/MonadicResult/Result+Zip.swift:214-230 | as Zip2, over five operands |
| ResultZip.Zip2Tuple | Sources/MonadicResult/Result+Zip.swift:81-83 | the error is that of the leftmost failing operand; success iff both succeed, with the pair of values |
| ResultZip.Zip3Tuple | Sources/MonadicResult/Result+Zip.swift:133-138 | the error is that of the leftmost failing operand; success iff all three succeed, with the triple |
| ResultZip.Zip4Tuple | Sources/MonadicResult/Result+Zip.swift:197-203 | the error is that of the leftmost failing operand; success iff all four succeed, with the tuple |
| ResultZip.Zip5Tuple | Sources/MonadicResult/Result+Zip.swift:268-275 | the error is that of the leftmost failing operand; success iff all five succeed, with the tuple |
| ResultZip.Zip2FirstOperandDecides | Sources/MonadicResult/Result+Zip.swift:32-39 | a failing self wins whatever the other operand |
| ResultZip.ZipIsSuccessIffAllSuccess | Sources/MonadicResult/Result+Zip.swift:93-230 | zip3, zip4 and zip5 succeed iff every operand does |
| ResultGet.ErrorOrNil | Sources/MonadicResult/Result+Get.swift:52-55 | present iff `isError` |
| ResultGet.SuccessOrNil | Sources/MonadicResult/Result+Get.swift:68-71 | present iff `isSuccess` |
| ResultGet.IsError | Sources/MonadicResult/Result+Get.swift:20-23 | no contract of its own; ResultGet.ExactlyOneOfIsErrorIsSuccess states it holds exactly on a failure |
| ResultGet.IsSuccess | Sources/MonadicResult/Result+Get.swift:36-39 | no contract of its own; ResultGet.ExactlyOneOfIsErrorIsSuccess states it holds exactly on a success |
| ResultGet.ErrorOrDefault | Sources/MonadicResult/Result+Get.swift:84-87 | no contract of its own; ResultGet.OrDefaultAndOrElseAgree states it is `errorOrNil` unwrapped with the default |
| ResultGet.SuccessOrDefault | Sources/MonadicResult/Result+Get.swift:100-103 | no contract of its own; ResultGet.OrDefaultAndOrElseAgree states it is `successOrNil` unwrapped with the default |
| ResultGet.ErrorOrElse | Sources/MonadicResult/Result+Get.swift:116-124 | no contract of its own; ResultGet.OrDefaultAndOrElseAgree states it is the error or the transform of the value |
| ResultGet.SuccessOrElse | Sources/MonadicResult/Result+Get.swift:159-167 | no contract of its own; ResultGet.OrDefaultAndOrElseAgree states it is the value or the transform of the error |
| ResultGet.ExactlyOneOfIsErrorIsSuccess | Sources/MonadicResult/Result+Get.swift:20-71 | exactly one of `isError`, `isSuccess`; each `orNil` returns its payload |
| ResultGet.OrDefaultAndOrElseAgree | Sources/MonadicResult/Result+Get.swift:84-167 | `orDefault` unwraps `orNil`; `orElse` is the payload or the transform of the other one |
| ResultOn.OnError | Sources/MonadicResult/Result+On.swift:20-23 | returns `self`; state untouched on a success |
| ResultOn.OnSuccess | Sources/MonadicResult/Result+On.swift:52-55 | returns `self`; state untouched on a failure |
| ResultOn.HooksRunBodyOnceOnTheirArm | Sources/MonadicResult/Result+On.swift:20-55 | on its arm a hook's effect is one run of its body |
| ResultFactory.Catching | Sources/MonadicResult/Result+Factory.swift:14-20 | success iff the body returned |
| ResultFactory.CatchingCapturesOutcome | Sources/MonadicResult/Result+Factory.swift:14-20 | `v` gives `success(v)`, a thrown `e` gives `failure(e)` |
| ResultFactory.Lift | Sources/MonadicResult/Result+Factory.swift:28-32 | no contract of its own; ResultFactory.LiftIsMap states the lifted function is `map` |
| ResultFactory.LiftBimap | Sources/MonadicResult/Result+Factory.swift:52-57 | no contract of its own; ResultFactory.LiftIsMap states the lifted function is `bimap` |
| ResultFactory.LiftIsMap | Sources/MonadicResult/Result+Factory.swift:28-57 | `lift(f)` is `map(f)`, `lift(success:error:)` is `bimap` |
| LCECore.ExactlyOneArm | Sources/MonadicLCE/LCE.swift:23-27 | exactly one of loading, content, error |
| LCECore.ArmsAreInjectiveAndDistinct | Sources/MonadicLCE/LCE.swift:24-26 | constructors injective; the three arms differ on one payload |
| LCEMap.MapLoading | Sources/MonadicLCE/LCE+Map.swift:24-35 | keeps the arm; a loading value becomes `loading(transform(l))`; content and error pass through (async 52-63) |
| LCEMap.MapContent | Sources/MonadicLCE/LCE+Map.swift:80-91 | keeps the arm; a content value becomes `content(transform(c))`; loading and error pass through (async 108-119) |
| LCEMap.MapError | Sources/MonadicLCE/LCE+Map.swift:136-147 | keeps the arm; an error value becomes `error(transform(e))`; loading and content pass through (async 164-175) |
| LCEMap.Map | Sources/MonadicLCE/LCE+Map.swift:208-217 | the three-way chain applies exactly the transform of the current arm (async 250-259) |
| LCEMap.Fold | Sources/MonadicLCE/LCE+Map.swift:294-309 | no contract of its own; LCEMap.FoldAppliesCurrentArmTransform states it is the current arm's transform of its payload |
| LCEMap.FlatMapLoading | Sources/MonadicLCE/LCE+Map.swift:384-397 | a loading value becomes `transform(l)`, whatever arm that is; content and error pass through (async 422-435) |
| LCEMap.FlatMapContent | Sources/MonadicLCE/LCE+Map.swift:460-473 | a content value becomes `transform(c)`, whatever arm that is; loading and error pass through (async 498-511) |
| LCEMap.FlatMapError | Sources/MonadicLCE/LCE+Map.swift:536-549 | an error value becomes `transform(e)`, whatever arm that is; loading and content pass through (async 574-587) |
| LCEMap.MapIdentity | Sources/MonadicLCE/LCE+Map.swift:24-147 | each map with the identity changes nothing |
| LCEMap.SingleArmMapsCommute | Sources/MonadicLCE/LCE+Map.swift:208-217 | the order of the chain in the three-way map does not matter |
| LCEMap.FoldLaws | Sources/MonadicLCE/LCE+Map.swift:294-309 | fold after map is fold of the composed transforms; fold with the constructors is the identity |
| LCEMap.FoldAppliesCurrentArmTransform | Sources/MonadicLCE/LCE+Map.swift:294-309 | the fold of a loading, content or error value is the `loading:`, `content:` or `error:` closure applied to its payload |
| LCEMap.FoldUsesOnlyMatchingTransform | Sources/MonadicLCE/LCE+Map.swift:294-309 | transforms that agree on the current payload give the same fold: only the current arm's transform is used |
| LCEMap.MapIsFlatMapIntoSameArm | Sources/MonadicLCE/LCE+Map.swift:384-549 | each map is the flat-map into its own arm; flat-mapping with the arm's constructor changes nothing |
| LCEMap.FlatMapLoadingExamples | Sources/MonadicLCE/LCE+Map.swift:372-382 | loading may move to any arm, other arms stay put |
| LCEGet.IsComplete | Sources/MonadicLCE/LCE+Get.swift:72-75 | as coded: true iff not an error |
| LCEGet.IsCompleteAsDocumented | Sources/MonadicLCE/LCE+Get.swift:60-70 | as documented: true iff not loading |
| LCEGet.IsLoading | Sources/MonadicLCE/LCE+Get.swift:21-24 | no contract of its own; LCEGet.ExactlyOneGetterHolds states it holds exactly on loading |
| LCEGet.IsContent | Sources/MonadicLCE/LCE+Get.swift:38-41 | no contract of its own; LCEGet.ExactlyOneGetterHolds states it holds exactly on content |
| LCEGet.IsError | Sources/MonadicLCE/LCE+Get.swift:55-58 | no contract of its own; LCEGet.ExactlyOneGetterHolds states it holds exactly on error |
| LCEGet.LoadingOrNil | Sources/MonadicLCE/LCE+Get.swift:89-92 | present iff `isLoading`, with the payload |
| LCEGet.ContentOrNil | Sources/MonadicLCE/LCE+Get.swift:106-109 | present iff `isContent`, with the payload |
| LCEGet.ErrorOrNil | Sources/MonadicLCE/LCE+Get.swift:123-126 | present iff `isError`, with the payload |
| LCEGet.ExactlyOneGetterHolds | Sources/MonadicLCE/LCE+Get.swift:21-58 | exactly one of `isLoading`, `isContent`, `isError`, and exactly one `…OrNil` is present |
| LCEGet.IsCompleteContradictsDocumentation | Sources/MonadicLCE/LCE+Get.swift:68-73 | the code reports loading complete and error not complete, against the documented examples |
| LCEGet.DocumentedIsCompleteMeansFinished | Sources/MonadicLCE/LCE+Get.swift:60-70 | code and documentation agree only on content; the documented predicate is content or error |
| LCEOn.OnLoading | Sources/MonadicLCE/LCE+On.swift:21-24 | returns `self`; state untouched unless loading (async 38-41) |
| LCEOn.OnContent | Sources/MonadicLCE/LCE+On.swift:55-58 | returns `self`; state untouched unless content (async 72-75) |
| LCEOn.OnError | Sources/MonadicLCE/LCE+On.swift:89-92 | returns `self`; state untouched unless error (async 106-109) |
| LCEOn.ChainedHooksRunOnlyTheMatchingBody | Sources/MonadicLCE/LCE+On.swift:21-92 | chaining the three hooks runs exactly the current arm's body once |
| LCEEquatable.Equal | Sources/MonadicLCE/LCE+Equtable.swift:10-24 | within one arm, that arm's payload `==`; never true across arms |
| LCEEquatable.EqualIsValueEquality | Sources/MonadicLCE/LCE+Equtable.swift:10-24 | with the payloads' own `==`, `==` holds iff the values are equal |
| LCEEquatable.EqualKeepsEquivalence | Sources/MonadicLCE/LCE+Equtable.swift:10-24 | `==` is an equivalence whenever the three payload `==` are |

## Left out

- Async suspension and scheduling. Each async overload returns what its sync
  twin returns, so one function models both.
- Swift's `Encoder`/`Decoder` machinery. The keyed container is a map from key
  strings to encoded payloads, and the coder's null is the caller-supplied
  `isNull`.
- `decoder.container(keyedBy:)` failing (Either+Codable.swift:34), for
  example on input that is not keyed. `EitherCodable.Decode` starts from a
  keyed container that was obtained.
- The internals of Swift's `Hasher`, such as mixing and finalisation. A hasher
  is the sequence of bytes combined into it.
- Payload `==`, `<`, `description`, `debugDescription`, `hash(into:)`,
  `encode` and `decode`. They are caller-supplied and appear as parameters.
- How often a closure runs. The model shows which closure's result is used,
  not how many times it is evaluated. For example,
  `EitherOptional.ProducerUnusedWhenPresent` shows that the producer's result
  does not matter when a value is present.
- Swift overload resolution between the general and the `take()`-based `==`
  and `<`. This is a compile-time choice, so both are separate functions.
- The `Left: Error` and `Failure: Error` generic bounds. They have no effect on
  values.
- The dynamic cast `error as? Left` in the older edition's initializer. It is
  the caller-supplied `asLeft` parameter.
- Package manifests and the test suite. They are build wiring and evidence,
  not behaviour.
- The standard library's synchronous `Result.map`, `mapError` and `flatMap`.
  They are given the same arm-preserving semantics as the library's async
  overloads.

## Findings

| source | as written | input that shows it | evidently intended | confidence | as-written member | corrected member |
|---|---|---|---|---|---|---|
| Sources/MonadicLCE/LCE+Get.swift:73 | `isComplete` is `isContent \|\| isLoading` | `.loading(1).isComplete` is true and `.error(3).isComplete` is false; the documentation at lines 68-70 says false and true | `isContent \|\| isError`: complete means no longer loading | high, not executed | LCEGet.IsComplete (with LCEGet.IsCompleteContradictsDocumentation) | LCEGet.IsCompleteAsDocumented (with LCEGet.DocumentedIsCompleteMeansFinished) |
| Sources/MonadicEither/Either+Codable.swift:36 | `init(from:)` tests each key with `decodeIfPresent`, which returns nil for an explicit null | `Either<Int?, String>.left(nil)` encodes as `{"left": null}`; decoding it throws `NeitherLeftNorRightValueWasEncoded` | decide by key presence, so every encodable value decodes back | medium, not executed | EitherCodable.Decode (with EitherCodable.NullPayloadIsNotDecoded and EitherCodable.NilOptionalLeftDoesNotRoundTrip) | EitherCodable.DecodeByPresence (with EitherCodable.DecodeByPresenceRoundTrip) |
