/** The observation hooks of Sources/MonadicResult/Result+On.swift, with the
    caller's side effect modelled as a change of the caller's state `world`. */
module ResultOn {
  import opened ResultCore

  /** `onError(_:)`: runs `body` once on a failure payload, never on a success. */
  function OnError<S, F, W>(r: Result<S, F>, body: (W, F) -> W, world: W): (o: (Result<S, F>, W))
    ensures o.0 == r
    ensures r.Success? ==> o.1 == world
  {
    if r.Failure? then (r, body(world, r.error)) else (r, world)
  }

  /** `onSuccess(_:)`: runs `body` once on a success payload, never on a failure. */
  function OnSuccess<S, F, W>(r: Result<S, F>, body: (W, S) -> W, world: W): (o: (Result<S, F>, W))
    ensures o.0 == r
    ensures r.Failure? ==> o.1 == world
  {
    if r.Success? then (r, body(world, r.value)) else (r, world)
  }

  /** The effect of each hook is exactly one run of its body on its own arm. */
  lemma HooksRunBodyOnceOnTheirArm<S, F, W>(r: Result<S, F>, onFailure: (W, F) -> W, onSuccess: (W, S) -> W, world: W)
    ensures r.Failure? ==> OnError(r, onFailure, world).1 == onFailure(world, r.error)
    ensures r.Success? ==> OnSuccess(r, onSuccess, world).1 == onSuccess(world, r.value)
  {
  }
}
