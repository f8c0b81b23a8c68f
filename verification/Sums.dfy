/** Finite sums over the identifiers `0 .. n-1`, used for every conservation law. */
module Sums {

  ghost function Sum(n: nat, f: nat -> int): int {
    if n == 0 then 0 else Sum(n - 1, f) + f(n - 1)
  }

  /** Two summands that agree everywhere below `n` have the same sum. */
  lemma {:induction false} SumEq(n: nat, f: nat -> int, g: nat -> int)
    requires forall i: nat :: i < n ==> f(i) == g(i)
    ensures Sum(n, f) == Sum(n, g)
  {
    if n != 0 { SumEq(n - 1, f, g); }
  }

  /** Changing one summand changes the sum by exactly that difference. */
  lemma {:induction false} SumUpdate(n: nat, f: nat -> int, g: nat -> int, k: nat)
    requires k < n
    requires forall i: nat :: i < n && i != k ==> f(i) == g(i)
    ensures Sum(n, g) == Sum(n, f) - f(k) + g(k)
  {
    if k == n - 1 {
      SumEq(n - 1, f, g);
    } else {
      SumUpdate(n - 1, f, g, k);
    }
  }

  /** Summands that vanish from `m` on can be dropped. */
  lemma {:induction false} SumShrink(m: nat, n: nat, f: nat -> int)
    requires m <= n
    requires forall i: nat :: m <= i < n ==> f(i) == 0
    ensures Sum(n, f) == Sum(m, f)
  {
    if m < n { SumShrink(m, n - 1, f); }
  }

  lemma {:induction false} SumNonNegative(n: nat, f: nat -> int)
    requires forall i: nat :: i < n ==> f(i) >= 0
    ensures Sum(n, f) >= 0
  {
    if n != 0 { SumNonNegative(n - 1, f); }
  }

  /** One term of a sum of non-negative terms is at most the sum. */
  lemma {:induction false} SumAtLeast(n: nat, f: nat -> int, k: nat)
    requires k < n
    requires forall i: nat :: i < n ==> f(i) >= 0
    ensures Sum(n, f) >= f(k)
  {
    if k == n - 1 {
      SumNonNegative(n - 1, f);
    } else {
      SumAtLeast(n - 1, f, k);
    }
  }

  /** Sums add and subtract term by term. */
  lemma {:induction false} SumSplit(n: nat, f: nat -> int, g: nat -> int, h: nat -> int)
    requires forall i: nat :: i < n ==> h(i) == f(i) + g(i)
    ensures Sum(n, h) == Sum(n, f) + Sum(n, g)
  {
    if n != 0 { SumSplit(n - 1, f, g, h); }
  }
}
