/** The state container: a root telescope that folds evolutions over its
    value, and magnified views that own no value of their own. */
module Telescopes {
  import opened Lenses
  import opened Evolutions
  import opened Streams

  /** The values the root emits: the initial value, then the value reached
      after each evolution. */
  function Emitted<U>(initial: U, es: seq<Evolution<U>>): (r: seq<U>)
    ensures |r| == |es| + 1
    decreases |es|
  {
    if es == [] then [initial] else Emitted(initial, es[..|es| - 1]) + [Fold(initial, es)]
  }

  /** What the root emits is `scan` over the evolutions with the identity
      evolution in front, which delivers the initial value without any evolve. */
  lemma {:induction false} EmittedIsScan<U>(initial: U, es: seq<Evolution<U>>)
    ensures Emitted(initial, es) == Scan(initial, [Identity()] + es)
    decreases |es|
  {
    if es == [] {
      assert [Identity<U>()][1..] == [];
    } else {
      var init, e := es[..|es| - 1], es[|es| - 1];
      EmittedIsScan(initial, init);
      assert [Identity()] + es == ([Identity()] + init) + [e];
      ScanAppend(initial, [Identity()] + init, e);
      FoldPrepend(initial, Identity(), init);
    }
  }

  /** The k-th emitted value is the fold of the first k evolutions; in
      particular the first one is the initial value. */
  lemma {:induction false} EmittedAt<U>(initial: U, es: seq<Evolution<U>>, k: nat)
    requires k <= |es|
    ensures Emitted(initial, es)[k] == Fold(initial, es[..k])
    decreases |es|
  {
    if k == |es| {
      assert es[..k] == es;
    } else {
      var init := es[..|es| - 1];
      EmittedAt(initial, init, k);
      assert init[..k] == es[..k];
    }
  }

  /** One more evolution emits exactly one more value: that evolution applied
      to the value reached so far. */
  lemma EmittedAppend<U>(initial: U, es: seq<Evolution<U>>, e: Evolution<U>)
    ensures Emitted(initial, es + [e]) == Emitted(initial, es) + [e(Fold(initial, es))]
  {
    assert (es + [e])[..|es|] == es;
  }

  /** A root telescope. `value` is the accumulator of `scan` (the latest value,
      which is what a new subscriber is replayed); `history` is what a
      subscriber attached since creation has observed. */
  class Telescope<U(==)>
  {
    var value: U
    var history: seq<U>
    ghost const initial: U
    ghost var evolutions: seq<Evolution<U>>

    ghost predicate Valid()
      reads this
    {
      && value == Fold(initial, evolutions)
      && history == Dedup(Emitted(initial, evolutions))
    }

    /** `Telescope.of(initialState)`. */
    constructor Of(initialState: U)
      ensures Valid()
      ensures initial == initialState && evolutions == []
      ensures value == initialState && history == [initialState]
    {
      initial := initialState;
      evolutions := [];
      value := initialState;
      history := [initialState];
      new;
      assert Emitted(initial, []) == [initialState];
    }

    /** Applies `e` once to the current value; the new value is observed
      unless it equals the current one. */
    method Evolve(e: Evolution<U>)
      requires Valid()
      modifies this
      ensures Valid()
      ensures evolutions == old(evolutions) + [e]
      ensures value == e(old(value))
      ensures history == if value == old(value) then old(history) else old(history) + [value]
    {
      ghost var es := evolutions;
      var next := e(value);
      assert Emitted(initial, es + [e]) == Emitted(initial, es) + [next] by {
        EmittedAppend(initial, es, e);
      }
      assert Fold(initial, es + [e]) == next by {
        FoldAppend(initial, es, e);
      }
      assert Dedup(Emitted(initial, es + [e])) == if value == next then history else history + [next] by {
        EmittedAt(initial, es, |es|);
        assert es[..|es|] == es;
        DedupDelivers(Emitted(initial, es), next);
      }
      if next != value {
        history := history + [next];
      }
      value := next;
      evolutions := evolutions + [e];
    }

    /** `update(v)` is `evolve(_ => v)`. */
    method Update(newState: U)
      requires Valid()
      modifies this
      ensures Valid()
      ensures evolutions == old(evolutions) + [Constant(newState)]
      ensures value == newState
      ensures history == if newState == old(value) then old(history) else old(history) + [newState]
    {
      Evolve(Constant(newState));
    }

    /** A view through `lens`: its observations are this history mapped
      through the getter and deduplicated; its writes are lifted with
      `WithLens` and sent here. */
    method Magnify<P(==)>(lens: SimpleLens<U, P>) returns (m: Magnified<U, P>)
      ensures fresh(m) && m.root == this && m.focus == lens
    {
      m := new Magnified(this, lens);
    }
  }

  /** What an observer of a valid root has seen: no value twice in a row,
      the initial value first and the current value last. */
  lemma HistoryFacts<U>(t: Telescope<U>)
    requires t.Valid()
    ensures t.history != [] && NoStutter(t.history)
    ensures t.history[0] == t.initial
    ensures t.history[|t.history| - 1] == t.value
  {
    var es := t.evolutions;
    DedupNoStutter(Emitted(t.initial, es));
    EmittedAt(t.initial, es, 0);
    EmittedAt(t.initial, es, |es|);
    assert es[..|es|] == es;
  }

  /** A telescope derived from `root` through one or more lenses. It owns no
      value: it observes the root's history through `focus`, the composite
      lens from the root to this view, and sends every write to the root as
      an evolution lifted through `focus`. */
  class Magnified<U(==), P(==)>
  {
    const root: Telescope<U>
    const focus: SimpleLens<U, P>

    constructor (root: Telescope<U>, focus: SimpleLens<U, P>)
      ensures this.root == root && this.focus == focus
    {
      this.root := root;
      this.focus := focus;
    }

    /** What a subscriber of this view attached since the root's creation has observed. */
    function History(): seq<P>
      reads root
    {
      Dedup(MapSeq(focus.getter, root.history))
    }

    /** Sends the lifted evolution to the root: a read-modify-write of the
      root value current when the root applies it. */
    method Evolve(e: Evolution<P>)
      requires root.Valid()
      modifies root
      ensures root.Valid()
      ensures root.evolutions == old(root.evolutions) + [WithLens(focus, e)]
      ensures root.value == focus.setter(e(focus.getter(old(root.value))), old(root.value))
      ensures root.history == if root.value == old(root.value) then old(root.history)
                              else old(root.history) + [root.value]
    {
      root.Evolve(WithLens(focus, e));
    }

    /** `update(v)` on a view writes `v` into the root value current at that time. */
    method Update(newState: P)
      requires root.Valid()
      modifies root
      ensures root.Valid()
      ensures root.evolutions == old(root.evolutions) + [WithLens(focus, Constant(newState))]
      ensures root.value == focus.setter(newState, old(root.value))
      ensures root.history == if root.value == old(root.value) then old(root.history)
                              else old(root.history) + [root.value]
    {
      Evolve(Constant(newState));
    }

    /** A view of this view. It is the view through the composite lens: by
      `LiftCompose` each of its evolutions reaches the root as the evolution
      lifted through `lens` and then through this view, and by
      `ViewOfViewObserves` it observes this view's observations mapped
      through `lens` and deduplicated again. */
    method Magnify<Q(==)>(lens: SimpleLens<P, Q>) returns (m: Magnified<U, Q>)
      ensures fresh(m) && m.root == root && m.focus == focus.Compose(lens)
    {
      m := new Magnified(root, focus.Compose(lens));
    }
  }

  /** A view of a view observes what mapping the outer view's observations
      through the inner getter and deduplicating again gives, for every root
      history. */
  lemma ViewOfViewObserves<U, P, Q>(focus: SimpleLens<U, P>, lens: SimpleLens<P, Q>, hs: seq<U>)
    ensures Dedup(MapSeq(focus.Compose(lens).getter, hs))
         == Dedup(MapSeq(lens.getter, Dedup(MapSeq(focus.getter, hs))))
  {
    DedupMapDedup(lens.getter, MapSeq(focus.getter, hs));
    MapMap(focus.getter, lens.getter, hs);
    assert MapSeq(focus.Compose(lens).getter, hs) == MapSeq(u => lens.getter(focus.getter(u)), hs);
  }

  /** What an observer of a valid view has seen: no value twice in a row,
      the focus of the initial root value first and of the current one last. */
  lemma ViewHistoryFacts<U, P>(m: Magnified<U, P>)
    requires m.root.Valid()
    ensures m.History() != [] && NoStutter(m.History())
    ensures m.History()[0] == m.focus.getter(m.root.initial)
    ensures m.History()[|m.History()| - 1] == m.focus.getter(m.root.value)
  {
    HistoryFacts(m.root);
    DedupNoStutter(MapSeq(m.focus.getter, m.root.history));
    MapAt(m.focus.getter, m.root.history, |m.root.history| - 1);
    assert MapSeq(m.focus.getter, m.root.history)[0] == m.focus.getter(m.root.history[0]) by {
      MapAt(m.focus.getter, m.root.history, 0);
    }
  }
}
