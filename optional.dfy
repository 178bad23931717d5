/** Swift's `Optional<Wrapped>`, the nil-able value the getters return and the
    conversions accept, and the "leftmost present" rule that decides which
    failure a multi-operand zip reports. */
module Optionals {

  /** `Optional<T>`: `.none` (nil) or `.some(value)`. */
  datatype Option<T> = None | Some(value: T)

  /** The leftmost present entry of `s`, or `None` when every entry is absent.
      This is the reference definition against which the zips of both
      two-armed types are proved: a zip fails with the payload of its leftmost
      failing operand. */
  function FirstSome<T>(s: seq<Option<T>>): (r: Option<T>)
    ensures r.None? <==> forall i :: 0 <= i < |s| ==> s[i].None?
    ensures r.Some? ==> exists i :: 0 <= i < |s| && s[i] == r && forall j :: 0 <= j < i ==> s[j].None?
  {
    if |s| == 0 then None
    else if s[0].Some? then s[0]
    else
      var rest := FirstSome(s[1..]);
      assert forall i :: 1 <= i < |s| ==> s[i] == s[1..][i - 1];
      rest
  }

  /** Unfolding `FirstSome` one entry at a time. */
  lemma FirstSomeCons<T>(x: Option<T>, s: seq<Option<T>>)
    ensures FirstSome([x] + s) == if x.Some? then x else FirstSome(s)
  {
    assert ([x] + s)[1..] == s;
  }
}

/** A Swift body that may throw: it either returns a value or throws an error.
    Typed throws (`throws(E)`) fixes the error type; an untyped `throws` is a
    `Throwing<T, E>` whose `E` stands for `any Error`. */
module Throws {

  datatype Throwing<T, E> = Returned(value: T) | Threw(error: E)
}

/** The laws a caller-supplied payload relation may satisfy; the library's
    derived `==` and `<` are proved to keep them. */
module PayloadLaws {

  ghost predicate IsEquivalence<T(!new)>(eq: (T, T) -> bool) {
    && (forall x :: eq(x, x))
    && (forall x, y :: eq(x, y) ==> eq(y, x))
    && (forall x, y, z :: eq(x, y) && eq(y, z) ==> eq(x, z))
  }

  /** A strict partial order: irreflexive and transitive. */
  ghost predicate IsStrictOrder<T(!new)>(lt: (T, T) -> bool) {
    && (forall x :: !lt(x, x))
    && (forall x, y, z :: lt(x, y) && lt(y, z) ==> lt(x, z))
  }

  /** A strict total order: a strict order under which distinct values are comparable. */
  ghost predicate IsStrictTotalOrder<T(!new)>(lt: (T, T) -> bool) {
    && IsStrictOrder(lt)
    && (forall x, y :: x != y ==> lt(x, y) || lt(y, x))
  }
}
