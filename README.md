# telescopejs core, modelled in Dafny

telescopejs is a small reactive state container built on lenses. A **lens** is a
getter/setter pair that focuses on part of a larger value. An **evolution** is a
state transition `A -> A`. A **telescope** holds one value, delivers each new
value to its subscribers (a value equal to the previous one is not delivered)
and changes only when an evolution is sent to it. `magnify(lens)` derives a
telescope that owns no value. It reads the parent through the getter, and it
turns each of its own evolutions into a parent evolution through the lens.

Modules:

- `Lenses` (`lens.dfy`) models `src/lens.ts`. `Lens<S, T, A, B>` is a datatype
  with the two function fields. `Compose` is its member function.
  `SimpleLens<S, A>` is the `Lens<S, S, A, A>` alias. The two-argument
  `Lens<U, P>` written in `src/evolution.ts` and `src/telescope.ts` is read as
  this alias. The three lens laws are ghost predicates, stated pointwise.
- `Evolutions` (`evolution.dfy`) models `src/evolution.ts`: `Evolution<A>`,
  `WithLens` (that is, `evolutionWithLens`), and the identity and constant
  evolutions that `src/telescope.ts` builds inline.
- `Streams` (`streams.dfy`) gives the values the RxJS operators deliver, as
  functions over finite sequences: `Fold` and `Scan` (`scan`), `MapSeq`
  (`map`) and `Dedup` (`distinctUntilChanged`).
- `Telescopes` (`telescope.dfy`) models `src/telescope.ts`. Class `Telescope`
  is a root telescope. Its `value` is the accumulator of `scan`, which
  `ReplaySubject(1)` replays to a new subscriber. Its `history` is what a
  subscriber attached since creation has observed. `Valid()` ties both to the
  evolutions received so far: `value` is their fold over the initial state,
  and `history` is the deduplicated sequence of values the root emits
  (`Emitted`, which `EmittedIsScan` proves equal to the scan seeded with the
  identity evolution).
  Class `Magnified` is a derived view. It holds the root and the composite
  lens from the root (`focus`), and nothing else.
- `LensExamples` (`lens_examples.dfy`) and `TelescopeScenarios`
  (`telescope_scenarios.dfy`) state the behaviour that `src/lens.spec.ts` and
  `src/telescope.spec.ts` check. The numbers in those tests are reals here.

Deduplication uses Dafny's `==`. For the numbers and strings in the tests this
is the same as the source's `===`. For object values, `===` compares
references, while `==` on a Dafny datatype compares structure.

## Model

| member | source | states |
|---|---|---|
| Lenses.Lens.Compose | src/lens.ts:10-17 | composition builds a new lens from the two, leaving both alone: its getter and setter are defined as in the source; ComposeGetter and ComposeSetter state them pointwise |
| Lenses.IdentityLens | src/lens.spec.ts:4-6 | the identity lens reads the whole value and writes by replacing it; IdentityLawful and IdentityUnit state its properties |
| Lenses.ComposeGetter | src/lens.ts:11-12 | the composed getter reads the outer focus, then the inner focus of that |
| Lenses.ComposeSetter | src/lens.ts:13-14 | the composed setter gives the inner setter the outer focus of the old whole value, then writes the result back into that whole value |
| Lenses.ComposeSetGet | src/lens.ts:10-17 | if both lenses satisfy set-get, so does their composition |
| Lenses.ComposeGetSet | src/lens.ts:10-17 | if both lenses satisfy get-set, so does their composition |
| Lenses.ComposeSetSet | src/lens.ts:10-17 | set-set of the composition follows from set-set of both lenses plus get-set of the outer one |
| Lenses.ComposeLawful | src/lens.ts:10-17 | composing two law-abiding lenses gives a law-abiding lens |
| Lenses.ComposeAssociative | src/lens.ts:10-17 | composition is associative: both groupings read and write alike at every point |
| Lenses.IdentityUnit | src/lens.ts:10-17 | composing with the identity lens on either side reads and writes like the lens itself |
| Lenses.IdentityLawful | src/lens.spec.ts:16-27 | the identity lens satisfies set-get, get-set and set-set |
| LensExamples.Half | src/lens.spec.ts:30-34 | the halving lens of the tests: reads `u / 2`, writes `p` as `p * 2` ignoring the old whole value |
| LensExamples.Third | src/lens.spec.ts:31-35 | the thirding lens of the tests: reads `u / 3`, writes `p` as `p * 3` ignoring the old whole value |
| LensExamples.RemoveLast | src/lens.spec.ts:50 | dropping the last character: an empty string stays empty, otherwise the result followed by the last character is the input |
| LensExamples.Plus | src/lens.spec.ts:48-51 | the '+' string lens: reads the string with '+' appended, writes by dropping the last character |
| LensExamples.Minus | src/lens.spec.ts:49-52 | the '-' string lens: reads the string with '-' appended, writes by dropping the last character |
| LensExamples.IdentityLensExamples | src/lens.spec.ts:8-14 | the identity lens reads 1 as 1, and writing 1 into 2 gives 1 |
| LensExamples.HalfLawful | src/lens.spec.ts:30-34 | the halving lens satisfies the three laws |
| LensExamples.ThirdLawful | src/lens.spec.ts:31-35 | the thirding lens satisfies the three laws |
| LensExamples.SixthComposition | src/lens.spec.ts:29-44 | halving then thirding reads 30 as 5 and writes 5 as 30, matching the two lenses applied one after the other; the composition is law-abiding |
| LensExamples.PlusSetGet | src/lens.spec.ts:48-51 | the '+' string lens satisfies set-get |
| LensExamples.PlusNotGetSet | src/lens.spec.ts:48-51 | the '+' string lens violates get-set: writing "ab" then reading gives "a+" |
| LensExamples.NoncommutativeComposition | src/lens.spec.ts:47-61 | '+' then '-' reads "x" as "x+-" but the other order reads "x-+"; writing "aaa" into "" gives "a", the same as the two setters one after the other |
| Evolutions.Identity | src/telescope.ts:19 | the identity evolution `u => u` the root sends first |
| Evolutions.Constant | src/telescope.ts:40-42 | the evolution `_ => v` that `update(v)` sends |
| Evolutions.WithLens | src/evolution.ts:5-6 | `evolutionWithLens`: read the focus, evolve it, write it back into the same whole value; the Lift lemmas below state what this does |
| Evolutions.LiftIdentity | src/evolution.ts:5-6 | for a lens with set-get, the lifted identity evolution leaves every whole value unchanged |
| Evolutions.LiftGetter | src/evolution.ts:5-6 | for a lens with get-set, the focus after the lifted evolution is the evolution applied to the old focus |
| Evolutions.LiftConstant | src/evolution.ts:5-6 | lifting the constant evolution for `p` writes `p` into the current whole value, which is what `update` on a view sends |
| Evolutions.LiftCompose | src/evolution.ts:5-6 | lifting through a composed lens equals lifting through the inner lens and then through the outer one, with no law needed; this is what a view of a view sends |
| Evolutions.LiftSequence | src/evolution.ts:5-6 | for a lens with get-set and set-set, two lifted evolutions in a row equal the lifting of the two evolutions in a row |
| Streams.Fold | src/telescope.ts:21 | the accumulator of `scan`: the evolutions applied in order to the seed; FoldPrepend and FoldAppend state both ends |
| Streams.Scan | src/telescope.ts:21 | scan emits exactly one value per evolution |
| Streams.ScanAt | src/telescope.ts:21 | the k-th value scan emits is the fold of the first k+1 evolutions, so each one is applied once and in order |
| Streams.FoldPrepend | src/telescope.ts:21 | folding `[e] + es` from a seed is folding `es` from `e(seed)`, so the fold applies evolutions from the front as `scan` does |
| Streams.FoldAppend | src/telescope.ts:21 | one more evolution turns the accumulated value `v` into `e(v)` |
| Streams.ScanAppend | src/telescope.ts:21 | one more evolution makes scan emit exactly one more value, the new evolution applied to the value reached so far |
| Streams.Push | src/telescope.ts:33 | one step of distinctUntilChanged: the result always ends with the new input, which is appended unless it equals the last value delivered |
| Streams.Dedup | src/telescope.ts:33 | distinctUntilChanged delivers nothing exactly when it receives nothing, delivers no more values than it receives, and always delivers the last input last |
| Streams.DedupNoStutter | src/telescope.ts:33 | distinctUntilChanged delivers the first input first and never delivers two equal values in a row |
| Streams.DedupElements | src/telescope.ts:33 | a value is delivered by distinctUntilChanged exactly when it was received |
| Streams.DedupSnoc | src/telescope.ts:33 | one more input is pushed onto what was delivered so far: passed on unless it equals the last value delivered |
| Streams.DedupDelivers | src/telescope.ts:33 | a new input is delivered exactly when it differs from the previous input |
| Streams.DedupOfNoStutter | src/telescope.ts:33 | a sequence with no two equal neighbours passes through unchanged |
| Streams.DedupIdempotent | src/telescope.ts:33 | deduplicating twice is deduplicating once |
| Streams.MapSeq | src/telescope.ts:47 | `map` delivers exactly one value per input |
| Streams.MapAt | src/telescope.ts:47 | `map(f)` delivers `f` of each input at the same position |
| Streams.MapMap | src/telescope.ts:47 | `map(f)` followed by `map(g)` delivers what `map` of the composed function delivers |
| Streams.MapPush | src/telescope.ts:47 | mapping and deduplicating what a deduplicating stage delivered after one more input equals pushing the mapped input onto the mapped and deduplicated earlier output |
| Streams.MapDedupSnoc | src/telescope.ts:47 | after one more input, `map` then `distinctUntilChanged` delivers the mapped value exactly when it differs from the last mapped value delivered |
| Streams.MapDedupPair | src/telescope.ts:47 | for two inputs, `map` then `distinctUntilChanged` delivers both mapped values, or one when they are equal |
| Streams.DedupMapDedup | src/telescope.ts:47 | deduplicating before `map` makes no difference once the mapped values are deduplicated again |
| Telescopes.Emitted | src/telescope.ts:18-21 | the root emits the initial value plus one value per evolution |
| Telescopes.EmittedIsScan | src/telescope.ts:18-21 | what the root emits is exactly `scan` over the evolutions with the identity evolution sent first |
| Telescopes.EmittedAt | src/telescope.ts:18-21 | the k-th emitted value is the fold of the first k evolutions, so the first one is the initial state |
| Telescopes.EmittedAppend | src/telescope.ts:16-21 | an evolution sent to the intake makes the root emit exactly one more value, that evolution applied to the current value |
| Telescopes.Telescope.Of | src/telescope.ts:15-25 | a new root holds the initial state and has already delivered it once, without any evolve |
| Telescopes.Telescope.Evolve | src/telescope.ts:36-38 | the new value is the evolution applied once to the current value; it is delivered unless it equals the current value; the validity invariant is kept |
| Telescopes.Telescope.Update | src/telescope.ts:40-42 | `update(v)` sends the constant evolution for `v`, so the new value is `v` whatever the current value was |
| Telescopes.HistoryFacts | src/telescope.ts:18-33 | a valid root has delivered the initial state first and the current value last, never two equal values in a row |
| Telescopes.Telescope.Magnify | src/telescope.ts:44-49 | magnifying a root creates a new view on that root through the given lens |
| Telescopes.Magnified.constructor | src/telescope.ts:45-48 | a view holds the root and the composite lens from the root, and nothing else |
| Telescopes.Magnified.History | src/telescope.ts:47 | what a view's subscriber observes: the root's delivered values mapped through the focus getter and deduplicated again; ViewHistoryFacts and ViewOfViewObserves state its properties |
| Telescopes.Magnified.Evolve | src/telescope.ts:45-46 | an evolution on a view reaches the root as the lifted evolution, a read-modify-write of the root value current at that time; the root's delivered values follow |
| Telescopes.Magnified.Update | src/telescope.ts:40-42 | `update(p)` on a view writes `p` into the root's current value through the focus |
| Telescopes.Magnified.Magnify | src/telescope.ts:44-49 | magnifying a view gives the view of the same root through the composed lens |
| Telescopes.ViewOfViewObserves | src/telescope.ts:47 | for every root history, the view through the composed lens observes what a view of a view observes: the outer view's values mapped through the inner getter and deduplicated again |
| Telescopes.ViewHistoryFacts | src/telescope.ts:47 | a view observes the focus of the initial root value first and the focus of the current root value last, never two equal values in a row |
| TelescopeScenarios.BrandNewEmitsInitial | src/telescope.spec.ts:6-11 | a brand-new telescope has delivered exactly its initial value |
| TelescopeScenarios.UpdateEmits | src/telescope.spec.ts:13-20 | after `update(b)` the subscriber has seen the initial value, then `b` if it differs |
| TelescopeScenarios.RepeatedUpdateEmitsOnce | src/telescope.ts:33 | two updates with the same value deliver it once |
| TelescopeScenarios.EvolvesApplyInOrder | src/telescope.ts:36-38 | two evolves give `e2(e1(a))`, and the subscriber sees the deduplicated sequence of a, e1(a) and e2(e1(a)) |
| TelescopeScenarios.MagnifyGetter | src/telescope.spec.ts:56-67 | with the halving lens on root 2, updating the root to 4 makes the view observe 1 then 2 |
| TelescopeScenarios.MagnifySetter | src/telescope.spec.ts:69-80 | with the halving lens on root 2, updating the view to 3 makes the root observe 2 then 6 |
| TelescopeScenarios.UnfocusedChangeIsSilent | src/telescope.ts:47 | a root change that leaves the focus equal delivers nothing new to the view |
| TelescopeScenarios.LiftedReadsCurrentValue | src/telescope.ts:46 | the view keeps no copy of the root value: its evolution reads the root's current value, here one set by a root update after the view was made |
| TelescopeScenarios.TwoViewEvolves | src/telescope.ts:46 | two view evolves apply the two lifted evolutions in order; with get-set and set-set this writes `e2(e1(focus))` into the initial root value |
| TelescopeScenarios.WriteThenRead | src/telescope.ts:44-49 | with get-set, the last value a view observes after `update(p)` is `p` |
| TelescopeScenarios.IdentityWriteIsSilent | src/telescope.ts:44-49 | with set-get, an identity evolve through a view leaves the root value unchanged and delivers nothing new |
| TelescopeScenarios.MagnifyTwiceGetter | src/telescope.ts:47 | a view of a view, halving twice, observes 1 then 2 when the root goes from 4 to 8 |
| TelescopeScenarios.MagnifyTwiceSetter | src/telescope.ts:46 | updating that view to 3 makes the root observe 4 then 12 |

## Left out

- The RxJS plumbing at src/telescope.ts:16-23 (`Subject`, `merge`, `NEVER`, `multicast`, `ReplaySubject`, `refCount`) is not modelled. Only the values it delivers are modelled, to a single subscriber attached from creation on, as in every test.
- Subscription lifetime is not modelled. `Subject` drops an evolution sent while nobody is subscribed. After the last subscriber leaves, `refCount` tears the scan down, and the next subscriber restarts it from the initial state, not from the last value. A subscriber attached late starts its own `distinctUntilChanged` from the replayed latest value, which is `value`, the last element of `history` (`HistoryFacts`).
- Re-entrant `evolve` from inside a subscriber callback, and asynchronous delivery, are not modelled. They are event-loop behaviour, not logic in these files.
- `dimap` and `uplift` are exercised in src/telescope.spec.ts:22-54 but have no implementation in src/telescope.ts, so there is nothing to model. src/par.ts (`Pair`) is used only by them and is not part of this model.
- Getters, setters and evolutions are total, pure Dafny functions; in the source they are arbitrary JavaScript closures. A callback that throws inside `scan` (src/telescope.ts:21) or inside `map(lens.getter)` (src/telescope.ts:47) makes RxJS report an error on the stream and stop delivering; that error path is not modelled. A getter with side effects is not modelled either: the view pipe at src/telescope.ts:47 is not multicast, so the source runs `lens.getter` once per subscriber of the view, which only matters when the getter has side effects.
- LensExamples.RemoveLast drops the last element of a Dafny `string`, one Unicode scalar value, while `p.substr(0, p.length - 1)` at src/lens.spec.ts:50 drops one UTF-16 code unit; the two differ only for a string ending in a character outside the Basic Multilingual Plane, which the tests do not use.
- The tests use floating-point `/2` and `/3`. The model uses `real`, so the division is exact.
- Telescopes.Magnified: the source builds a view of a view from nested closures, a lifted evolver and a `map` plus `distinctUntilChanged` pipe. The model represents every view by its composite lens from the root. `LiftCompose` and `ViewOfViewObserves` prove, pointwise and for every root history, that this behaves as the nested closures do.
- The lens constructor storing its arguments unchanged, and `compose` leaving its operands alone, hold by construction: Dafny datatype values are immutable, so no member states them.
