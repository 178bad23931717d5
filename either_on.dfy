/** The observation hooks of Sources/Either/Either+On.swift. The caller's
    `body` returns nothing; its side effect is modelled as a change of the
    caller's state `world`, so a hook returns the value it was called on and
    the state after the body has run (or not run). */
module EitherOn {
  import opened EitherCore

  /** `onLeft(_:)`: runs `body` once on a left payload, never on a right. */
  function OnLeft<L, R, W>(e: Either<L, R>, body: (W, L) -> W, world: W): (r: (Either<L, R>, W))
    ensures r.0 == e
    ensures e.Right? ==> r.1 == world
  {
    if e.Left? then (e, body(world, e.left)) else (e, world)
  }

  /** `onRight(_:)`: runs `body` once on a right payload, never on a left. */
  function OnRight<L, R, W>(e: Either<L, R>, body: (W, R) -> W, world: W): (r: (Either<L, R>, W))
    ensures r.0 == e
    ensures e.Left? ==> r.1 == world
  {
    if e.Right? then (e, body(world, e.right)) else (e, world)
  }

  /** The effect of `onLeft` is exactly one run of `body` on a left payload,
      and `onLeft`/`onRight` never disturb each other's arm. */
  lemma OnLeftRunsBodyOnceIffLeft<L, R, W>(e: Either<L, R>, body: (W, L) -> W, other: (W, R) -> W, world: W)
    ensures e.Left? ==> OnLeft(e, body, world).1 == body(world, e.left)
    ensures e.Right? ==> OnRight(e, other, world).1 == other(world, e.right)
    ensures OnRight(OnLeft(e, body, world).0, other, OnLeft(e, body, world).1)
         == OnLeft(OnRight(e, other, world).0, body, OnRight(e, other, world).1)
  {
  }
}
