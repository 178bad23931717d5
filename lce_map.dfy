/** The transformations of Sources/MonadicLCE/LCE+Map.swift. Each async
    overload has its sync twin's body and is the same function here. */
module LCEMap {
  import opened LCECore

  /** `mapLoading(_:)`: transforms a loading payload; content and error pass through. */
  function MapLoading<Lo, Co, Fa, Out>(x: LCE<Lo, Co, Fa>, transform: Lo -> Out): (r: LCE<Out, Co, Fa>)
    ensures r.Loading? <==> x.Loading?
    ensures x.Loading? ==> r == Loading(transform(x.loading))
    ensures x.Content? ==> r == Content(x.content)
    ensures x.Error? ==> r == Error(x.error)
  {
    match x
    case Loading(l) => Loading(transform(l))
    case Content(c) => Content(c)
    case Error(e) => Error(e)
  }

  /** `mapContent(_:)`: transforms a content payload; loading and error pass through. */
  function MapContent<Lo, Co, Fa, Out>(x: LCE<Lo, Co, Fa>, transform: Co -> Out): (r: LCE<Lo, Out, Fa>)
    ensures r.Content? <==> x.Content?
    ensures x.Content? ==> r == Content(transform(x.content))
    ensures x.Loading? ==> r == Loading(x.loading)
    ensures x.Error? ==> r == Error(x.error)
  {
    match x
    case Loading(l) => Loading(l)
    case Content(c) => Content(transform(c))
    case Error(e) => Error(e)
  }

  /** `mapError(_:)`: transforms an error payload; loading and content pass through. */
  function MapError<Lo, Co, Fa, Out>(x: LCE<Lo, Co, Fa>, transform: Fa -> Out): (r: LCE<Lo, Co, Out>)
    ensures r.Error? <==> x.Error?
    ensures x.Error? ==> r == Error(transform(x.error))
    ensures x.Loading? ==> r == Loading(x.loading)
    ensures x.Content? ==> r == Content(x.content)
  {
    match x
    case Loading(l) => Loading(l)
    case Content(c) => Content(c)
    case Error(e) => Error(transform(e))
  }

  /** The three-way `map(loading:content:error:)`, written in the source as the
      chain `mapLoading`, then `mapContent`, then `mapError`. */
  function Map<Lo, Co, Fa, LoOut, CoOut, FaOut>(x: LCE<Lo, Co, Fa>, loadingT: Lo -> LoOut, contentT: Co -> CoOut, errorT: Fa -> FaOut): (r: LCE<LoOut, CoOut, FaOut>)
    ensures x.Loading? ==> r == Loading(loadingT(x.loading))
    ensures x.Content? ==> r == Content(contentT(x.content))
    ensures x.Error? ==> r == Error(errorT(x.error))
  {
    MapError(MapContent(MapLoading(x, loadingT), contentT), errorT)
  }

  /** `fold(loading:content:error:)`: the transform for the current arm. */
  function Fold<Lo, Co, Fa, Out>(x: LCE<Lo, Co, Fa>, loadingT: Lo -> Out, contentT: Co -> Out, errorT: Fa -> Out): Out {
    match x
    case Loading(l) => loadingT(l)
    case Content(c) => contentT(c)
    case Error(e) => errorT(e)
  }

  /** `flatMapLoading(_:)`: a loading value becomes whatever the transform
      returns, possibly another arm; content and error pass through. */
  function FlatMapLoading<Lo, Co, Fa, Out>(x: LCE<Lo, Co, Fa>, transform: Lo -> LCE<Out, Co, Fa>): (r: LCE<Out, Co, Fa>)
    ensures x.Loading? ==> r == transform(x.loading)
    ensures x.Content? ==> r == Content(x.content)
    ensures x.Error? ==> r == Error(x.error)
  {
    match x
    case Loading(l) => transform(l)
    case Content(c) => Content(c)
    case Error(e) => Error(e)
  }

  /** `flatMapContent(_:)`: a content value becomes whatever the transform
      returns; loading and error pass through. */
  function FlatMapContent<Lo, Co, Fa, Out>(x: LCE<Lo, Co, Fa>, transform: Co -> LCE<Lo, Out, Fa>): (r: LCE<Lo, Out, Fa>)
    ensures x.Content? ==> r == transform(x.content)
    ensures x.Loading? ==> r == Loading(x.loading)
    ensures x.Error? ==> r == Error(x.error)
  {
    match x
    case Loading(l) => Loading(l)
    case Content(c) => transform(c)
    case Error(e) => Error(e)
  }

  /** `flatMapError(_:)`: an error value becomes whatever the transform
      returns; loading and content pass through. */
  function FlatMapError<Lo, Co, Fa, Out>(x: LCE<Lo, Co, Fa>, transform: Fa -> LCE<Lo, Co, Out>): (r: LCE<Lo, Co, Out>)
    ensures x.Error? ==> r == transform(x.error)
    ensures x.Loading? ==> r == Loading(x.loading)
    ensures x.Content? ==> r == Content(x.content)
  {
    match x
    case Loading(l) => Loading(l)
    case Content(c) => Content(c)
    case Error(e) => transform(e)
  }

  // ---- laws ----

  /** Each single-arm map with the identity changes nothing. */
  lemma MapIdentity<Lo, Co, Fa>(x: LCE<Lo, Co, Fa>)
    ensures MapLoading(x, (l: Lo) => l) == x
    ensures MapContent(x, (c: Co) => c) == x
    ensures MapError(x, (e: Fa) => e) == x
    ensures Map(x, (l: Lo) => l, (c: Co) => c, (e: Fa) => e) == x
  {
  }

  /** The three single-arm maps touch disjoint arms, so the order of the chain
      in the three-way `map` does not matter. */
  lemma SingleArmMapsCommute<Lo, Co, Fa, LoOut, CoOut, FaOut>(x: LCE<Lo, Co, Fa>, loadingT: Lo -> LoOut, contentT: Co -> CoOut, errorT: Fa -> FaOut)
    ensures Map(x, loadingT, contentT, errorT) == MapLoading(MapContent(MapError(x, errorT), contentT), loadingT)
    ensures Map(x, loadingT, contentT, errorT) == MapContent(MapError(MapLoading(x, loadingT), errorT), contentT)
  {
  }

  /** Folding a mapped value is folding with the composed transforms, and
      folding with the three constructors rebuilds the value. */
  lemma FoldLaws<Lo, Co, Fa, LoOut, CoOut, FaOut, Out>(x: LCE<Lo, Co, Fa>, loadingT: Lo -> LoOut, contentT: Co -> CoOut, errorT: Fa -> FaOut,
                                                     f: LoOut -> Out, g: CoOut -> Out, h: FaOut -> Out)
    ensures Fold(Map(x, loadingT, contentT, errorT), f, g, h)
         == Fold(x, (l: Lo) => f(loadingT(l)), (c: Co) => g(contentT(c)), (e: Fa) => h(errorT(e)))
    ensures Fold(x, (l: Lo) => Loading(l), (c: Co) => Content(c), (e: Fa) => Error(e)) == x
  {
  }

  /** `fold` is the current arm's transform of its payload. */
  lemma FoldAppliesCurrentArmTransform<Lo, Co, Fa, Out>(x: LCE<Lo, Co, Fa>, loadingT: Lo -> Out, contentT: Co -> Out, errorT: Fa -> Out)
    ensures x.Loading? ==> Fold(x, loadingT, contentT, errorT) == loadingT(x.loading)
    ensures x.Content? ==> Fold(x, loadingT, contentT, errorT) == contentT(x.content)
    ensures x.Error? ==> Fold(x, loadingT, contentT, errorT) == errorT(x.error)
  {
  }

  /** `fold` applies only the transform of the populated arm: transforms
      that agree on the current payload give the same result. */
  lemma FoldUsesOnlyMatchingTransform<Lo, Co, Fa, Out>(x: LCE<Lo, Co, Fa>, l1: Lo -> Out, l2: Lo -> Out, c1: Co -> Out, c2: Co -> Out, e1: Fa -> Out, e2: Fa -> Out)
    requires x.Loading? ==> l1(x.loading) == l2(x.loading)
    requires x.Content? ==> c1(x.content) == c2(x.content)
    requires x.Error? ==> e1(x.error) == e2(x.error)
    ensures Fold(x, l1, c1, e1) == Fold(x, l2, c2, e2)
  {
  }

  /** Each single-arm map is the matching flat-map into the same arm, and
      flat-mapping with the arm's own constructor changes nothing. */
  lemma MapIsFlatMapIntoSameArm<Lo, Co, Fa, Out>(x: LCE<Lo, Co, Fa>, t: Lo -> Out, u: Co -> Out, v: Fa -> Out)
    ensures MapLoading(x, t) == FlatMapLoading(x, (l: Lo) => Loading(t(l)))
    ensures MapContent(x, u) == FlatMapContent(x, (c: Co) => Content(u(c)))
    ensures MapError(x, v) == FlatMapError(x, (e: Fa) => Error(v(e)))
    ensures FlatMapLoading(x, (l: Lo) => Loading(l)) == x
    ensures FlatMapContent(x, (c: Co) => Content(c)) == x
    ensures FlatMapError(x, (e: Fa) => Error(e)) == x
  {
  }

  /** The documented examples of `flatMapLoading`: a loading value may move
      to any arm, other arms stay put. */
  lemma FlatMapLoadingExamples()
    ensures FlatMapLoading<int, int, int, string>(Loading(1), _ => Loading("foo")) == Loading("foo")
    ensures FlatMapLoading<int, int, int, string>(Loading(1), _ => Content(4)) == Content(4)
    ensures FlatMapLoading<int, int, int, string>(Loading(1), _ => Error(5)) == Error(5)
    ensures FlatMapLoading<int, int, int, string>(Content(2), _ => Error(5)) == Content(2)
    ensures FlatMapLoading<int, int, int, string>(Error(3), _ => Content(4)) == Error(3)
  {
  }
}
