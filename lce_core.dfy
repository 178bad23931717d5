/** `LCE<Loading, Content, Failure>` of Sources/MonadicLCE/LCE.swift: the state
    of an asynchronous operation, which is loading, has content, or failed. */
module LCECore {

  /** The three arms of `LCE`; each carries a payload of its own type. */
  datatype LCE<Lo, Co, Fa> = Loading(loading: Lo) | Content(content: Co) | Error(error: Fa)

  /** Every value is exactly one of the three arms, rebuilt from its payload. */
  lemma ExactlyOneArm<Lo, Co, Fa>(x: LCE<Lo, Co, Fa>)
    ensures (if x.Loading? then 1 else 0) + (if x.Content? then 1 else 0) + (if x.Error? then 1 else 0) == 1
    ensures x.Loading? ==> x == Loading(x.loading)
    ensures x.Content? ==> x == Content(x.content)
    ensures x.Error? ==> x == Error(x.error)
  {
  }

  /** With one payload type for all three arms, the constructors are
      injective and the tag alone tells equal payloads apart. */
  lemma ArmsAreInjectiveAndDistinct<T>(a: T, b: T)
    ensures var l: LCE<T, T, T>, c: LCE<T, T, T>, e: LCE<T, T, T> := Loading(a), Content(a), Error(a);
      l != c && c != e && l != e
    ensures var x: LCE<T, T, T>, y: LCE<T, T, T> := Loading(a), Loading(b); x == y <==> a == b
    ensures var x: LCE<T, T, T>, y: LCE<T, T, T> := Content(a), Content(b); x == y <==> a == b
    ensures var x: LCE<T, T, T>, y: LCE<T, T, T> := Error(a), Error(b); x == y <==> a == b
  {
  }
}
