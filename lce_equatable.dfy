/** The equality of Sources/MonadicLCE/LCE+Equtable.swift: payload equality
    within an arm, `false` across arms. The payloads' `==` are parameters. */
module LCEEquatable {
  import opened PayloadLaws
  import opened LCECore

  function Equal<Lo, Co, Fa>(a: LCE<Lo, Co, Fa>, b: LCE<Lo, Co, Fa>, eqL: (Lo, Lo) -> bool, eqC: (Co, Co) -> bool, eqF: (Fa, Fa) -> bool): (r: bool)
    ensures r ==> (a.Loading? && b.Loading?) || (a.Content? && b.Content?) || (a.Error? && b.Error?)
    ensures a.Loading? && b.Loading? ==> r == eqL(a.loading, b.loading)
    ensures a.Content? && b.Content? ==> r == eqC(a.content, b.content)
    ensures a.Error? && b.Error? ==> r == eqF(a.error, b.error)
  {
    match (a, b)
    case (Loading(x), Loading(y)) => eqL(x, y)
    case (Content(x), Content(y)) => eqC(x, y)
    case (Error(x), Error(y)) => eqF(x, y)
    case _ => false
  }

  /** With the payloads' own equality, `==` is value equality. */
  lemma EqualIsValueEquality<Lo, Co, Fa>(a: LCE<Lo, Co, Fa>, b: LCE<Lo, Co, Fa>)
    ensures Equal(a, b, (x: Lo, y: Lo) => x == y, (x: Co, y: Co) => x == y, (x: Fa, y: Fa) => x == y) <==> a == b
  {
  }

  /** `==` is an equivalence whenever the three payload equalities are. */
  lemma EqualKeepsEquivalence<Lo(!new), Co(!new), Fa(!new)>(eqL: (Lo, Lo) -> bool, eqC: (Co, Co) -> bool, eqF: (Fa, Fa) -> bool)
    requires IsEquivalence(eqL) && IsEquivalence(eqC) && IsEquivalence(eqF)
    ensures IsEquivalence((a: LCE<Lo, Co, Fa>, b: LCE<Lo, Co, Fa>) => Equal(a, b, eqL, eqC, eqF))
  {
    var eq := (a: LCE<Lo, Co, Fa>, b: LCE<Lo, Co, Fa>) => Equal(a, b, eqL, eqC, eqF);
    forall a: LCE<Lo, Co, Fa>
      ensures eq(a, a)
    {
      match a
      case Loading(x) => assert eqL(x, x);
      case Content(x) => assert eqC(x, x);
      case Error(x) => assert eqF(x, x);
    }
    forall a: LCE<Lo, Co, Fa>, b: LCE<Lo, Co, Fa> | eq(a, b)
      ensures eq(b, a)
    {
      match a
      case Loading(x) => assert eqL(x, b.loading);
      case Content(x) => assert eqC(x, b.content);
      case Error(x) => assert eqF(x, b.error);
    }
    forall a: LCE<Lo, Co, Fa>, b: LCE<Lo, Co, Fa>, c: LCE<Lo, Co, Fa> | eq(a, b) && eq(b, c)
      ensures eq(a, c)
    {
      match a
      case Loading(x) => assert eqL(x, b.loading) && eqL(b.loading, c.loading);
      case Content(x) => assert eqC(x, b.content) && eqC(b.content, c.content);
      case Error(x) => assert eqF(x, b.error) && eqF(b.error, c.error);
    }
  }
}
