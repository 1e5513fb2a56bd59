/** Python's unbounded `1 << n` and the bits of a non-negative integer. */
module Bits {

  /** `1 << n`. */
  function Pow2(n: nat): (r: nat)
    ensures r >= 1
  {
    if n == 0 then 1 else 2 * Pow2(n - 1)
  }

  /** `(x >> i) & 1`. */
  function BitAt(x: nat, i: nat): (b: nat)
    ensures b < 2
  {
    if i == 0 then x % 2 else BitAt(x / 2, i - 1)
  }

  /** `1 << n` has bit `n` set and every other bit clear. */
  lemma {:induction false} Pow2OneHot(n: nat, i: nat)
    ensures BitAt(Pow2(n), i) == if i == n then 1 else 0
  {
    if i > 0 {
      if n == 0 {
        ZeroBits(i - 1);
      } else {
        Pow2OneHot(n - 1, i - 1);
      }
    }
  }

  lemma {:induction false} ZeroBits(i: nat)
    ensures BitAt(0, i) == 0
  {
    if i > 0 {
      ZeroBits(i - 1);
    }
  }

  /** Distinct shifts give distinct masks. */
  lemma Pow2Injective(m: nat, n: nat)
    ensures Pow2(m) == Pow2(n) ==> m == n
  {
    Pow2OneHot(m, m);
    Pow2OneHot(n, m);
  }
}
