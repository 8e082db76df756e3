/** Bidirectional accessors ("lenses") and their composition. */
module Lenses {

  /** A getter/setter pair focusing on an `A` inside an `S`; writing a `B`
      into an `S` yields a `T`. The constructor stores both functions as given. */
  datatype Lens<!S, T, A, !B> = Lens(getter: S -> A, setter: (B, S) -> T)
  {
    /** The lens that focuses through `this` and then through `inner`.
        The inner setter is given the outer focus of the old whole value. */
    function Compose<C, D>(inner: Lens<A, B, C, D>): Lens<S, T, C, D>
    {
      var outer := this;
      Lens(s => inner.getter(outer.getter(s)),
           (d, s) => outer.setter(inner.setter(d, outer.getter(s)), s))
    }
  }

  /** The common case: the same types are read and written. */
  type SimpleLens<!S, !A> = Lens<S, S, A, A>

  /** Writing back what was read changes nothing. */
  ghost predicate SetGet<S(!new), A(!new)>(l: SimpleLens<S, A>)
  {
    forall s :: l.setter(l.getter(s), s) == s
  }

  /** Reading after a write returns what was written. */
  ghost predicate GetSet<S(!new), A(!new)>(l: SimpleLens<S, A>)
  {
    forall a, s :: l.getter(l.setter(a, s)) == a
  }

  /** The last of two writes wins. */
  ghost predicate SetSet<S(!new), A(!new)>(l: SimpleLens<S, A>)
  {
    forall a1, a2, s :: l.setter(a2, l.setter(a1, s)) == l.setter(a2, s)
  }

  ghost predicate Lawful<S(!new), A(!new)>(l: SimpleLens<S, A>)
  {
    SetGet(l) && GetSet(l) && SetSet(l)
  }

  /** Two lenses that read and write alike at every point. */
  ghost predicate SameLens<S(!new), T, A, B(!new)>(l1: Lens<S, T, A, B>, l2: Lens<S, T, A, B>)
  {
    && (forall s :: l1.getter(s) == l2.getter(s))
    && (forall b, s :: l1.setter(b, s) == l2.setter(b, s))
  }

  /** The identity lens: reads the whole value and replaces it on write. */
  function IdentityLens<A>(): SimpleLens<A, A>
  {
    Lens(a => a, (a, _) => a)
  }

  lemma IdentityLawful<A(!new)>()
    ensures Lawful(IdentityLens<A>())
  {
  }

  /** Reading through a composition reads the outer focus, then the inner one. */
  lemma ComposeGetter<S, T, A, B, C, D>(outer: Lens<S, T, A, B>, inner: Lens<A, B, C, D>, s: S)
    ensures outer.Compose(inner).getter(s) == inner.getter(outer.getter(s))
  {
  }

  /** Writing through a composition installs `d` into the outer focus of the
      old `s`, then installs that into `s`. */
  lemma ComposeSetter<S, T, A, B, C, D>(outer: Lens<S, T, A, B>, inner: Lens<A, B, C, D>, d: D, s: S)
    ensures outer.Compose(inner).setter(d, s) == outer.setter(inner.setter(d, outer.getter(s)), s)
  {
  }

  lemma ComposeSetGet<S(!new), A(!new), C(!new)>(outer: SimpleLens<S, A>, inner: SimpleLens<A, C>)
    requires SetGet(outer) && SetGet(inner)
    ensures SetGet(outer.Compose(inner))
  {
    var l := outer.Compose(inner);
    forall s ensures l.setter(l.getter(s), s) == s {
      var a := outer.getter(s);
      assert inner.setter(inner.getter(a), a) == a;
      assert outer.setter(a, s) == s;
    }
  }

  lemma ComposeGetSet<S(!new), A(!new), C(!new)>(outer: SimpleLens<S, A>, inner: SimpleLens<A, C>)
    requires GetSet(outer) && GetSet(inner)
    ensures GetSet(outer.Compose(inner))
  {
    var l := outer.Compose(inner);
    forall c, s ensures l.getter(l.setter(c, s)) == c {
      var a := inner.setter(c, outer.getter(s));
      assert outer.getter(outer.setter(a, s)) == a;
      assert inner.getter(a) == c;
    }
  }

  /** Set-set of a composition also needs get-set of the outer lens: the second
      write reads the outer focus of the value the first write produced. */
  lemma ComposeSetSet<S(!new), A(!new), C(!new)>(outer: SimpleLens<S, A>, inner: SimpleLens<A, C>)
    requires GetSet(outer) && SetSet(outer) && SetSet(inner)
    ensures SetSet(outer.Compose(inner))
  {
    var l := outer.Compose(inner);
    forall c1, c2, s ensures l.setter(c2, l.setter(c1, s)) == l.setter(c2, s) {
      var a := outer.getter(s);
      var a1 := inner.setter(c1, a);
      var s1 := outer.setter(a1, s);
      assert outer.getter(s1) == a1;
      assert inner.setter(c2, a1) == inner.setter(c2, a);
      assert outer.setter(inner.setter(c2, a), s1) == outer.setter(inner.setter(c2, a), s);
    }
  }

  /** Composing law-abiding lenses gives a law-abiding lens. */
  lemma ComposeLawful<S(!new), A(!new), C(!new)>(outer: SimpleLens<S, A>, inner: SimpleLens<A, C>)
    requires Lawful(outer) && Lawful(inner)
    ensures Lawful(outer.Compose(inner))
  {
    ComposeSetGet(outer, inner);
    ComposeGetSet(outer, inner);
    ComposeSetSet(outer, inner);
  }

  /** Composition is associative, pointwise. */
  lemma ComposeAssociative<S(!new), T, A, B, C, D, E, F(!new)>(
      l1: Lens<S, T, A, B>, l2: Lens<A, B, C, D>, l3: Lens<C, D, E, F>)
    ensures SameLens(l1.Compose(l2).Compose(l3), l1.Compose(l2.Compose(l3)))
  {
  }

  /** The identity lens is a unit of composition on both sides, pointwise. */
  lemma IdentityUnit<S(!new), A(!new)>(l: SimpleLens<S, A>)
    ensures SameLens(IdentityLens<S>().Compose(l), l)
    ensures SameLens(l.Compose(IdentityLens<A>()), l)
  {
  }
}
