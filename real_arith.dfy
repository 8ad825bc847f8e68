/**
 * Products of a count and a real written as repeated addition, so that facts about
 * evenly spaced positions stay linear for the solver.
 */
module RealArith {
  /** `n * cw`, written as `n` additions. */
  function Times(n: nat, cw: real): real
  {
    if n == 0 then 0.0 else Times(n - 1, cw) + cw
  }

  lemma {:induction false} TimesIsProduct(n: nat, cw: real)
    ensures Times(n, cw) == (n as real) * cw
  {
    if n > 0 {
      TimesIsProduct(n - 1, cw);
      assert ((n - 1) as real) * cw + cw == (n as real) * cw;
    }
  }

  lemma {:induction false} TimesAdd(a: nat, b: nat, cw: real)
    ensures Times(a + b, cw) == Times(a, cw) + Times(b, cw)
    decreases b
  {
    if b > 0 {
      TimesAdd(a, b - 1, cw);
    }
  }

  /** `n` shares of `d / n` make up `d`. */
  lemma SharesMakeWhole(d: real, n: nat)
    requires n > 0
    ensures Times(n, d / (n as real)) == d
  {
    TimesIsProduct(n, d / (n as real));
  }
}
