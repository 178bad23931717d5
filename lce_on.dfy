/** The observation hooks of Sources/MonadicLCE/LCE+On.swift, with the
    caller's side effect modelled as a change of the caller's state `world`
    (as for the hooks of Either and Result). */
module LCEOn {
  import opened LCECore

  /** `onLoading(_:)`: runs `body` once on a loading payload. */
  function OnLoading<Lo, Co, Fa, W>(x: LCE<Lo, Co, Fa>, body: (W, Lo) -> W, world: W): (r: (LCE<Lo, Co, Fa>, W))
    ensures r.0 == x
    ensures !x.Loading? ==> r.1 == world
  {
    if x.Loading? then (x, body(world, x.loading)) else (x, world)
  }

  /** `onContent(_:)`: runs `body` once on a content payload. */
  function OnContent<Lo, Co, Fa, W>(x: LCE<Lo, Co, Fa>, body: (W, Co) -> W, world: W): (r: (LCE<Lo, Co, Fa>, W))
    ensures r.0 == x
    ensures !x.Content? ==> r.1 == world
  {
    if x.Content? then (x, body(world, x.content)) else (x, world)
  }

  /** `onError(_:)`: runs `body` once on an error payload. */
  function OnError<Lo, Co, Fa, W>(x: LCE<Lo, Co, Fa>, body: (W, Fa) -> W, world: W): (r: (LCE<Lo, Co, Fa>, W))
    ensures r.0 == x
    ensures !x.Error? ==> r.1 == world
  {
    if x.Error? then (x, body(world, x.error)) else (x, world)
  }

  /** Chaining all three hooks runs exactly the body for the current arm,
      once, on its payload. */
  lemma ChainedHooksRunOnlyTheMatchingBody<Lo, Co, Fa, W>(x: LCE<Lo, Co, Fa>, onL: (W, Lo) -> W, onC: (W, Co) -> W, onE: (W, Fa) -> W, world: W)
    ensures var (x1, w1) := OnLoading(x, onL, world);
            var (x2, w2) := OnContent(x1, onC, w1);
            var (x3, w3) := OnError(x2, onE, w2);
            x3 == x &&
            w3 == match x
                  case Loading(l) => onL(world, l)
                  case Content(c) => onC(world, c)
                  case Error(e) => onE(world, e)
  {
  }
}
