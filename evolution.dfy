/** State transitions and their lifting through a lens. */
module Evolutions {
  import opened Lenses

  /** One state transition. */
  type Evolution<!A> = A -> A

  /** The transition that keeps the value as it is (the seed of a root telescope). */
  function Identity<A>(): Evolution<A>
  {
    a => a
  }

  /** The transition that replaces any value by `v` (what `update(v)` sends). */
  function Constant<A>(v: A): Evolution<A>
  {
    _ => v
  }

  /** Lifts a transition on the focus to a transition on the whole value:
      read the focus, transform it, write it back into the same whole value. */
  function WithLens<U, P>(lens: SimpleLens<U, P>, evolution: Evolution<P>): Evolution<U>
  {
    u => lens.setter(evolution(lens.getter(u)), u)
  }

  /** With set-get, lifting the identity transition changes nothing. */
  lemma LiftIdentity<U(!new), P(!new)>(lens: SimpleLens<U, P>)
    requires SetGet(lens)
    ensures forall u :: WithLens(lens, Identity())(u) == u
  {
  }

  /** With get-set, the focus after a lifted transition is the transformed focus. */
  lemma LiftGetter<U(!new), P(!new)>(lens: SimpleLens<U, P>, e: Evolution<P>)
    requires GetSet(lens)
    ensures forall u :: lens.getter(WithLens(lens, e)(u)) == e(lens.getter(u))
  {
  }

  /** Lifting a constant transition writes the constant into the current whole value. */
  lemma LiftConstant<U, P>(lens: SimpleLens<U, P>, p: P)
    ensures forall u :: WithLens(lens, Constant(p))(u) == lens.setter(p, u)
  {
  }

  /** Lifting through a composed lens is lifting through the inner lens and
      then through the outer one; no law is needed. */
  lemma LiftCompose<U, P, Q>(outer: SimpleLens<U, P>, inner: SimpleLens<P, Q>, e: Evolution<Q>)
    ensures forall u :: WithLens(outer.Compose(inner), e)(u) == WithLens(outer, WithLens(inner, e))(u)
  {
  }

  /** For a lens with get-set and set-set, two lifted transitions in a row are
      the lifting of the two transitions in a row. */
  lemma LiftSequence<U(!new), P(!new)>(lens: SimpleLens<U, P>, e1: Evolution<P>, e2: Evolution<P>)
    requires GetSet(lens) && SetSet(lens)
    ensures forall u :: WithLens(lens, e2)(WithLens(lens, e1)(u)) == WithLens(lens, p => e2(e1(p)))(u)
  {
    forall u ensures WithLens(lens, e2)(WithLens(lens, e1)(u)) == WithLens(lens, p => e2(e1(p)))(u) {
      var p1 := e1(lens.getter(u));
      var u1 := lens.setter(p1, u);
      assert lens.getter(u1) == p1;
      assert lens.setter(e2(p1), u1) == lens.setter(e2(p1), u);
    }
  }
}
