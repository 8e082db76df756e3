/** The concrete lenses the lens tests use. Numbers are reals, so halving and
    thirding are exact. */
module LensExamples {
  import opened Lenses

  /** Reads half of a number; writing `p` stores `2 * p`, ignoring the old value. */
  function Half(): SimpleLens<real, real>
  {
    Lens(u => u / 2.0, (p, _) => p * 2.0)
  }

  function Third(): SimpleLens<real, real>
  {
    Lens(u => u / 3.0, (p, _) => p * 3.0)
  }

  /** `p.substr(0, p.length - 1)`: drops the last character; an empty string stays empty. */
  function RemoveLast(p: string): (r: string)
    ensures p == [] ==> r == []
    ensures p != [] ==> r + [p[|p| - 1]] == p
  {
    if p == [] then [] else p[..|p| - 1]
  }

  /** Reads the string with a '+' appended; writing drops the last character. */
  function Plus(): SimpleLens<string, string>
  {
    Lens(u => u + "+", (p, _) => RemoveLast(p))
  }

  function Minus(): SimpleLens<string, string>
  {
    Lens(u => u + "-", (p, _) => RemoveLast(p))
  }

  lemma IdentityLensExamples()
    ensures IdentityLens<int>().getter(1) == 1
    ensures IdentityLens<int>().setter(1, 2) == 1
  {
  }

  lemma HalfLawful()
    ensures Lawful(Half())
  {
  }

  lemma ThirdLawful()
    ensures Lawful(Third())
  {
  }

  /** Halving then thirding reads 30 as 5, and writing 5 stores 30, as writing
      through the two lenses one after the other does. */
  lemma SixthComposition()
    ensures Half().Compose(Third()).getter(30.0) == Third().getter(Half().getter(30.0)) == 5.0
    ensures Half().Compose(Third()).setter(5.0, 1.0) == Half().setter(Third().setter(5.0, 1.0), 2.0) == 30.0
    ensures Lawful(Half().Compose(Third()))
  {
    HalfLawful();
    ThirdLawful();
    ComposeLawful(Half(), Third());
  }

  /** Writing back what was read restores the string ... */
  lemma PlusSetGet()
    ensures SetGet(Plus())
  {
    forall s: string ensures Plus().setter(Plus().getter(s), s) == s {
      assert (s + "+")[..|s|] == s;
    }
  }

  /** ... but reading after a write does not give back what was written, so
      the string lenses are not law-abiding. */
  lemma PlusNotGetSet()
    ensures !GetSet(Plus())
  {
    assert Plus().getter(Plus().setter("ab", "")) == "a+";
  }

  /** The order of composition matters: '+' then '-' reads "x" as "x+-",
      the other order as "x-+"; writing "aaa" through either drops two characters. */
  lemma NoncommutativeComposition()
    ensures Plus().Compose(Minus()).getter("x") == Minus().getter(Plus().getter("x")) == "x+-"
    ensures Minus().Compose(Plus()).getter("x") == "x-+"
    ensures Plus().Compose(Minus()).setter("aaa", "") == Plus().setter(Minus().setter("aaa", ""), "") == "a"
  {
    assert "x" + "+" + "-" == "x+-";
    assert "x" + "-" + "+" == "x-+";
    assert RemoveLast("aaa") == "aa";
    assert RemoveLast("aa") == "a";
  }
}
