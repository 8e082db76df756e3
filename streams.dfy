/** The values a stream pipeline delivers, as functions over finite sequences:
    `scan` over evolutions, `map` and `distinctUntilChanged`. */
module Streams {
  import opened Evolutions

  /** The value reached by applying the evolutions in order to `seed`: the
      last evolution applied to the value the others reach. */
  function Fold<U>(seed: U, es: seq<Evolution<U>>): U
    decreases |es|
  {
    if es == [] then seed else es[|es| - 1](Fold(seed, es[..|es| - 1]))
  }

  /** What `scan` emits: one accumulator per evolution, each evolution applied
      to the accumulator the previous one produced. */
  function Scan<U>(seed: U, es: seq<Evolution<U>>): (r: seq<U>)
    ensures |r| == |es|
    decreases |es|
  {
    if es == [] then [] else [es[0](seed)] + Scan(es[0](seed), es[1..])
  }

  /** What `map(f)` delivers. */
  function MapSeq<A, B>(f: A -> B, xs: seq<A>): (r: seq<B>)
    ensures |r| == |xs|
    decreases |xs|
  {
    if xs == [] then [] else MapSeq(f, xs[..|xs| - 1]) + [f(xs[|xs| - 1])]
  }

  /** No two consecutive elements are equal. */
  ghost predicate NoStutter<U>(xs: seq<U>)
  {
    forall i :: 0 < i < |xs| ==> xs[i - 1] != xs[i]
  }

  /** What `distinctUntilChanged` does with one incoming value `x`, given the
      values `d` it has delivered so far: pass `x` on unless it equals the
      last one delivered. */
  function Push<U(==)>(d: seq<U>, x: U): (r: seq<U>)
    ensures r != [] && r[|r| - 1] == x
  {
    if d != [] && d[|d| - 1] == x then d else d + [x]
  }

  /** What `distinctUntilChanged` delivers for the inputs `xs`. */
  function Dedup<U(==)>(xs: seq<U>): (r: seq<U>)
    ensures |r| <= |xs|
    ensures r == [] <==> xs == []
    ensures xs != [] ==> r[|r| - 1] == xs[|xs| - 1]
    decreases |xs|
  {
    if xs == [] then [] else Push(Dedup(xs[..|xs| - 1]), xs[|xs| - 1])
  }

  /** Feeding one more input pushes it onto what was delivered so far. */
  lemma DedupSnoc<U>(xs: seq<U>, x: U)
    ensures Dedup(xs + [x]) == Push(Dedup(xs), x)
  {
    assert (xs + [x])[..|xs|] == xs;
  }

  /** A new input is delivered exactly when it differs from the previous input. */
  lemma DedupDelivers<U>(xs: seq<U>, x: U)
    ensures Dedup(xs + [x]) == if xs != [] && xs[|xs| - 1] == x then Dedup(xs) else Dedup(xs) + [x]
  {
    DedupSnoc(xs, x);
  }

  /** The first input is always delivered, and no value is delivered twice in a row. */
  lemma {:induction false} DedupNoStutter<U>(xs: seq<U>)
    ensures xs != [] ==> Dedup(xs)[0] == xs[0]
    ensures NoStutter(Dedup(xs))
    decreases |xs|
  {
    if xs != [] {
      var ys := xs[..|xs| - 1];
      DedupNoStutter(ys);
      if ys != [] {
        assert ys[0] == xs[0];
      }
    }
  }

  /** `distinctUntilChanged` drops repeats only: the values delivered are
      exactly the values received. */
  lemma {:induction false} DedupElements<U>(xs: seq<U>)
    ensures forall x :: x in Dedup(xs) <==> x in xs
    decreases |xs|
  {
    if xs != [] {
      var ys := xs[..|xs| - 1];
      DedupElements(ys);
      assert xs == ys + [xs[|xs| - 1]];
    }
  }

  /** Applying the first evolution to the seed and then the rest is the same
      fold: evolutions are applied from the front, as `scan` does. */
  lemma {:induction false} FoldPrepend<U>(seed: U, e: Evolution<U>, es: seq<Evolution<U>>)
    ensures Fold(seed, [e] + es) == Fold(e(seed), es)
    decreases |es|
  {
    if es == [] {
      assert ([e] + es)[..0] == [];
    } else {
      var init := es[..|es| - 1];
      assert ([e] + es)[..|es|] == [e] + init;
      FoldPrepend(seed, e, init);
    }
  }

  /** The k-th accumulator is the fold of the first k + 1 evolutions: every
      evolution is applied exactly once, in order. */
  lemma {:induction false} ScanAt<U>(seed: U, es: seq<Evolution<U>>, k: nat)
    requires k < |es|
    ensures Scan(seed, es)[k] == Fold(seed, es[..k + 1])
    decreases |es|
  {
    assert es[..k + 1] == [es[0]] + es[1..][..k];
    FoldPrepend(seed, es[0], es[1..][..k]);
    if k > 0 {
      ScanAt(es[0](seed), es[1..], k - 1);
    } else {
      assert es[1..][..0] == [];
    }
  }

  /** One more evolution turns the value reached so far into that evolution
      applied to it. */
  lemma FoldAppend<U>(seed: U, es: seq<Evolution<U>>, e: Evolution<U>)
    ensures Fold(seed, es + [e]) == e(Fold(seed, es))
  {
    assert (es + [e])[..|es|] == es;
  }

  /** One more evolution makes `scan` emit exactly one more value: the new
      evolution applied to the value reached so far. */
  lemma {:induction false} ScanAppend<U>(seed: U, es: seq<Evolution<U>>, e: Evolution<U>)
    ensures Scan(seed, es + [e]) == Scan(seed, es) + [e(Fold(seed, es))]
    decreases |es|
  {
    if es == [] {
      assert [e][1..] == [];
    } else {
      assert (es + [e])[1..] == es[1..] + [e];
      ScanAppend(es[0](seed), es[1..], e);
      FoldPrepend(seed, es[0], es[1..]);
      assert [es[0]] + es[1..] == es;
    }
  }

  /** A sequence without repeats passes through `distinctUntilChanged` unchanged. */
  lemma {:induction false} DedupOfNoStutter<U>(xs: seq<U>)
    requires NoStutter(xs)
    ensures Dedup(xs) == xs
    decreases |xs|
  {
    if xs != [] {
      var ys := xs[..|xs| - 1];
      assert NoStutter(ys) by {
        forall i | 0 < i < |ys| ensures ys[i - 1] != ys[i] {
          assert ys[i - 1] == xs[i - 1] && ys[i] == xs[i];
        }
      }
      DedupOfNoStutter(ys);
      assert ys + [xs[|xs| - 1]] == xs;
    }
  }

  /** Deduplicating twice is deduplicating once. */
  lemma DedupIdempotent<U>(xs: seq<U>)
    ensures Dedup(Dedup(xs)) == Dedup(xs)
  {
    DedupNoStutter(xs);
    DedupOfNoStutter(Dedup(xs));
  }

  lemma MapSnoc<A, B>(f: A -> B, xs: seq<A>, x: A)
    ensures MapSeq(f, xs + [x]) == MapSeq(f, xs) + [f(x)]
  {
    assert (xs + [x])[..|xs|] == xs;
  }

  /** `map(f)` delivers `f` of each input, at the same position. */
  lemma {:induction false} MapAt<A, B>(f: A -> B, xs: seq<A>, i: nat)
    requires i < |xs|
    ensures MapSeq(f, xs)[i] == f(xs[i])
    decreases |xs|
  {
    if i < |xs| - 1 {
      var ys := xs[..|xs| - 1];
      MapAt(f, ys, i);
      assert ys[i] == xs[i];
    }
  }

  /** One more input to `map` followed by `distinctUntilChanged`: the mapped
      value is delivered exactly when it differs from the last value delivered. */
  lemma MapDedupSnoc<A, B>(f: A -> B, xs: seq<A>, x: A)
    ensures Dedup(MapSeq(f, xs + [x])) == Push(Dedup(MapSeq(f, xs)), f(x))
  {
    MapSnoc(f, xs, x);
    DedupSnoc(MapSeq(f, xs), f(x));
  }

  /** Two inputs to `map` followed by `distinctUntilChanged`. */
  lemma MapDedupPair<A, B>(f: A -> B, x: A, y: A)
    ensures Dedup(MapSeq(f, [x, y])) == if f(x) == f(y) then [f(x)] else [f(x), f(y)]
  {
    assert [x, y][..1] == [x] && [x][..0] == [];
    assert MapSeq(f, [x, y]) == [f(x)] + [f(y)];
    assert [f(x)][..0] == [];
    assert Dedup([f(x)]) == [f(x)];
    DedupSnoc([f(x)], f(y));
  }

  /** Mapping commutes with one step of `distinctUntilChanged`, once the
      mapped values are deduplicated. */
  lemma MapPush<A, B>(f: A -> B, d: seq<A>, x: A)
    ensures Dedup(MapSeq(f, Push(d, x))) == Push(Dedup(MapSeq(f, d)), f(x))
  {
    MapSnoc(f, d, x);
    DedupSnoc(MapSeq(f, d), f(x));
    if d != [] {
      MapAt(f, d, |d| - 1);
    }
  }

  /** Deduplicating before `map` changes nothing once the mapped values are
      deduplicated again. */
  lemma {:induction false} DedupMapDedup<A, B>(f: A -> B, xs: seq<A>)
    ensures Dedup(MapSeq(f, Dedup(xs))) == Dedup(MapSeq(f, xs))
    decreases |xs|
  {
    if xs != [] {
      var ys, x := xs[..|xs| - 1], xs[|xs| - 1];
      assert xs == ys + [x];
      DedupMapDedup(f, ys);
      MapPush(f, Dedup(ys), x);
      MapSnoc(f, ys, x);
      DedupSnoc(MapSeq(f, ys), f(x));
    }
  }

  /** Mapping twice is mapping by the composed function. */
  lemma {:induction false} MapMap<A, B, C>(f: A -> B, g: B -> C, xs: seq<A>)
    ensures MapSeq(g, MapSeq(f, xs)) == MapSeq(x => g(f(x)), xs)
    decreases |xs|
  {
    if xs != [] {
      var ys := xs[..|xs| - 1];
      MapMap(f, g, ys);
      MapSnoc(g, MapSeq(f, ys), f(xs[|xs| - 1]));
    }
  }
}
