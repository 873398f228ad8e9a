// Natural multiples of reals, in a form that proofs can take step by step.

module Multiples {
  // n times x, by repeated addition.
  function Times(n: nat, x: real): real {
    if n == 0 then 0.0 else Times(n - 1, x) + x
  }

  lemma {:induction false} TimesIsProduct(n: nat, x: real)
    ensures Times(n, x) == n as real * x
  {
    if n > 0 {
      TimesIsProduct(n - 1, x);
      assert n as real == (n - 1) as real + 1.0;
      assert ((n - 1) as real + 1.0) * x == (n - 1) as real * x + x;
    }
  }
}
