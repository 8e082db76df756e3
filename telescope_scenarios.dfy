/** The behaviours the telescope tests exercise, as client methods whose
    results are what a subscriber observes. */
module TelescopeScenarios {
  import opened Lenses
  import opened Evolutions
  import opened Streams
  import opened Telescopes
  import opened LensExamples

  /** A brand-new telescope delivers its initial value with no evolve. */
  method BrandNewEmitsInitial<U(==)>(initialState: U) returns (seen: seq<U>)
    ensures seen == [initialState]
  {
    var t := new Telescope.Of(initialState);
    seen := t.history;
  }

  /** After `update(b)` a subscriber has seen the initial value, then `b`
      unless it equals the initial value. */
  method UpdateEmits<U(==)>(a: U, b: U) returns (seen: seq<U>)
    ensures seen == if a == b then [a] else [a, b]
  {
    var t := new Telescope.Of(a);
    t.Update(b);
    seen := t.history;
  }

  /** Two updates with the same value deliver it once. */
  method RepeatedUpdateEmitsOnce<U(==)>(a: U, b: U) returns (seen: seq<U>)
    ensures seen == if a == b then [a] else [a, b]
  {
    var t := new Telescope.Of(a);
    t.Update(b);
    t.Update(b);
    seen := t.history;
  }

  /** Each evolve is applied once, in call order, to the accumulated value. */
  method EvolvesApplyInOrder<U(==)>(a: U, e1: Evolution<U>, e2: Evolution<U>) returns (final: U, seen: seq<U>)
    ensures final == e2(e1(a))
    ensures seen == Dedup([a, e1(a), e2(e1(a))])
  {
    var t := new Telescope.Of(a);
    t.Evolve(e1);
    ghost var h1 := t.history;
    assert h1 == Dedup([a, e1(a)]) by {
      assert Dedup([a]) == [a] by {
        assert [a][..0] == [];
      }
      assert [a] + [e1(a)] == [a, e1(a)];
      DedupSnoc([a], e1(a));
    }
    t.Evolve(e2);
    final, seen := t.value, t.history;
    assert seen == Dedup([a, e1(a), e2(e1(a))]) by {
      assert [a, e1(a)] + [e2(e1(a))] == [a, e1(a), e2(e1(a))];
      DedupSnoc([a, e1(a)], e2(e1(a)));
    }
  }

  /** The root 2 halved reads 1; updating the root to 4 makes the view observe 2. */
  method MagnifyGetter() returns (seen: seq<real>)
    ensures seen == [1.0, 2.0]
  {
    var t := new Telescope.Of(2.0);
    var part := t.Magnify(Half());
    t.Update(4.0);
    assert t.history == [2.0, 4.0];
    MapDedupPair(Half().getter, 2.0, 4.0);
    seen := part.History();
  }

  /** Writing through the halving lens stores twice the value written. */
  lemma HalfWritesDouble(p: real, u: real)
    ensures Half().setter(p, u) == 2.0 * p
  {
  }

  /** Updating the halving view to 3 makes the root observe 6. */
  method MagnifySetter() returns (seen: seq<real>)
    ensures seen == [2.0, 6.0]
  {
    var t := new Telescope.Of(2.0);
    var part := t.Magnify(Half());
    part.Update(3.0);
    HalfWritesDouble(3.0, 2.0);
    assert t.history == [2.0] + [6.0];
    seen := t.history;
  }

  /** A root change that leaves the focus as it is delivers nothing to the view. */
  method UnfocusedChangeIsSilent<U(==), P(==)>(a: U, b: U, lens: SimpleLens<U, P>) returns (seen: seq<P>)
    requires lens.getter(a) == lens.getter(b)
    ensures seen == [lens.getter(a)]
  {
    var t := new Telescope.Of(a);
    var part := t.Magnify(lens);
    ghost var before := part.History();
    assert before == [lens.getter(a)] by {
      MapDedupSnoc(lens.getter, [], a);
    }
    t.Update(b);
    if a != b {
      assert t.history == [a] + [b];
      MapDedupSnoc(lens.getter, [a], b);
    }
    seen := part.History();
  }

  /** The view keeps no copy of the root value: its evolution reads the root's
      current value, here the one a root update set after the view was made. */
  method LiftedReadsCurrentValue<U(==), P(==)>(a: U, b: U, lens: SimpleLens<U, P>, e: Evolution<P>)
    returns (final: U)
    ensures final == WithLens(lens, e)(b)
  {
    var t := new Telescope.Of(a);
    var part := t.Magnify(lens);
    t.Update(b);
    part.Evolve(e);
    final := t.value;
  }

  /** Two evolves on a view are the two lifted evolutions applied in sequence;
      for a lens with get-set and set-set that is lifting the two in sequence. */
  method TwoViewEvolves<U(==,!new), P(==,!new)>(a: U, lens: SimpleLens<U, P>, e1: Evolution<P>, e2: Evolution<P>)
    returns (final: U)
    requires GetSet(lens) && SetSet(lens)
    ensures final == WithLens(lens, e2)(WithLens(lens, e1)(a))
    ensures final == lens.setter(e2(e1(lens.getter(a))), a)
  {
    var t := new Telescope.Of(a);
    var part := t.Magnify(lens);
    part.Evolve(e1);
    part.Evolve(e2);
    final := t.value;
    LiftSequence(lens, e1, e2);
  }

  /** With get-set, a write through a view is what the view then observes last. */
  method WriteThenRead<U(==,!new), P(==,!new)>(a: U, lens: SimpleLens<U, P>, p: P) returns (latest: P)
    requires GetSet(lens)
    ensures latest == p
  {
    var t := new Telescope.Of(a);
    var part := t.Magnify(lens);
    part.Update(p);
    var seen := part.History();
    ViewHistoryFacts(part);
    latest := seen[|seen| - 1];
  }

  /** With set-get, an identity evolve through a view leaves the root as it
      is and delivers nothing new to its subscribers. */
  method IdentityWriteIsSilent<U(==,!new), P(==,!new)>(a: U, lens: SimpleLens<U, P>) returns (value: U, seen: seq<U>)
    requires SetGet(lens)
    ensures value == a && seen == [a]
  {
    var t := new Telescope.Of(a);
    var part := t.Magnify(lens);
    part.Evolve(Identity());
    LiftIdentity(lens);
    assert t.value == a;
    value, seen := t.value, t.history;
  }

  /** Reading through the halving lens composed with itself reads a quarter. */
  lemma QuarterReadsAQuarter(u: real)
    ensures Half().Compose(Half()).getter(u) == u / 4.0
  {
    ComposeGetter(Half(), Half(), u);
  }

  /** A view of a view through the halving lens twice: updating the root from
      4 to 8 makes it observe 1 then 2. */
  method MagnifyTwiceGetter() returns (seen: seq<real>)
    ensures seen == [1.0, 2.0]
  {
    var t := new Telescope.Of(4.0);
    var half := t.Magnify(Half());
    var quarter := half.Magnify(Half());
    t.Update(8.0);
    assert t.history == [4.0, 8.0];
    QuarterReadsAQuarter(4.0);
    QuarterReadsAQuarter(8.0);
    MapDedupPair(quarter.focus.getter, 4.0, 8.0);
    seen := quarter.History();
  }

  /** Writing through the halving lens composed with itself stores four times
      the value written. */
  lemma QuarterWritesFourTimes(p: real, u: real)
    ensures Half().Compose(Half()).setter(p, u) == 4.0 * p
  {
    ComposeSetter(Half(), Half(), p, u);
  }

  /** Updating that view to 3 makes the root observe 12. */
  method MagnifyTwiceSetter() returns (rootSeen: seq<real>)
    ensures rootSeen == [4.0, 12.0]
  {
    var t := new Telescope.Of(4.0);
    var half := t.Magnify(Half());
    var quarter := half.Magnify(Half());
    quarter.Update(3.0);
    QuarterWritesFourTimes(3.0, 4.0);
    assert t.history == [4.0] + [12.0];
    rootSeen := t.history;
  }
}
