/** The getters of Sources/MonadicLCE/LCE+Get.swift. `isComplete` is modelled
    as coded (`IsComplete`); its documentation describes a different
    predicate, `IsCompleteAsDocumented`, and the two are compared below. */
module LCEGet {
  import opened Optionals
  import opened LCECore

  predicate IsLoading<Lo, Co, Fa>(x: LCE<Lo, Co, Fa>) {
    match x
    case Loading(_) => true
    case _ => false
  }

  predicate IsContent<Lo, Co, Fa>(x: LCE<Lo, Co, Fa>) {
    match x
    case Content(_) => true
    case _ => false
  }

  predicate IsError<Lo, Co, Fa>(x: LCE<Lo, Co, Fa>) {
    match x
    case Error(_) => true
    case _ => false
  }

  /** `isComplete` as coded: content or loading. */
  function IsComplete<Lo, Co, Fa>(x: LCE<Lo, Co, Fa>): (r: bool)
    ensures r <==> !IsError(x)
  {
    IsContent(x) || IsLoading(x)
  }

  /** `isComplete` as its documentation describes it: content or error, i.e.
      the operation has finished. */
  function IsCompleteAsDocumented<Lo, Co, Fa>(x: LCE<Lo, Co, Fa>): (r: bool)
    ensures r <==> !IsLoading(x)
  {
    IsContent(x) || IsError(x)
  }

  /** `loadingOrNil()`: the loading payload, or nil. */
  function LoadingOrNil<Lo, Co, Fa>(x: LCE<Lo, Co, Fa>): (r: Option<Lo>)
    ensures r.Some? <==> IsLoading(x)
    ensures r.Some? ==> x == Loading(r.value)
  {
    match x
    case Loading(l) => Some(l)
    case _ => None
  }

  /** `contentOrNil()`: the content payload, or nil. */
  function ContentOrNil<Lo, Co, Fa>(x: LCE<Lo, Co, Fa>): (r: Option<Co>)
    ensures r.Some? <==> IsContent(x)
    ensures r.Some? ==> x == Content(r.value)
  {
    match x
    case Content(c) => Some(c)
    case _ => None
  }

  /** `errorOrNil()`: the error payload, or nil. */
  function ErrorOrNil<Lo, Co, Fa>(x: LCE<Lo, Co, Fa>): (r: Option<Fa>)
    ensures r.Some? <==> IsError(x)
    ensures r.Some? ==> x == Error(r.value)
  {
    match x
    case Error(e) => Some(e)
    case _ => None
  }

  // ---- laws ----

  /** Exactly one of `isLoading`, `isContent` and `isError` holds, and exactly
      one of the three `…OrNil` getters returns a value. */
  lemma ExactlyOneGetterHolds<Lo, Co, Fa>(x: LCE<Lo, Co, Fa>)
    ensures (if IsLoading(x) then 1 else 0) + (if IsContent(x) then 1 else 0) + (if IsError(x) then 1 else 0) == 1
    ensures (if LoadingOrNil(x).Some? then 1 else 0) + (if ContentOrNil(x).Some? then 1 else 0) + (if ErrorOrNil(x).Some? then 1 else 0) == 1
  {
  }

  /** The examples of the documentation of `isComplete`, evaluated against the
      code: loading is reported complete and error is not, the opposite of
      what is documented for both. */
  lemma IsCompleteContradictsDocumentation()
    ensures IsComplete<int, int, int>(Loading(1)) && !IsCompleteAsDocumented<int, int, int>(Loading(1))
    ensures !IsComplete<int, int, int>(Error(3)) && IsCompleteAsDocumented<int, int, int>(Error(3))
    ensures IsComplete<int, int, int>(Content(2)) && IsCompleteAsDocumented<int, int, int>(Content(2))
  {
  }

  /** The documented `isComplete` agrees with the code exactly on content,
      and it reports complete precisely the values that are no longer
      loading. */
  lemma DocumentedIsCompleteMeansFinished<Lo, Co, Fa>(x: LCE<Lo, Co, Fa>)
    ensures IsComplete(x) == IsCompleteAsDocumented(x) <==> IsContent(x)
    ensures IsCompleteAsDocumented(x) <==> IsContent(x) || IsError(x)
  {
  }
}
