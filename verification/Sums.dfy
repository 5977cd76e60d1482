/** Sums over the processes 1, 2, ..., n - 1. */
module Sums {

  function Sum(f: int -> int, n: int): int
    decreases n
  {
    if n <= 1 then 0 else Sum(f, n - 1) + f(n - 1)
  }

  lemma {:induction false} SumAgrees(f: int -> int, g: int -> int, n: int)
    requires forall i | 1 <= i < n :: f(i) == g(i)
    ensures Sum(f, n) == Sum(g, n)
    decreases n
  {
    if n > 1 {
      SumAgrees(f, g, n - 1);
    }
  }

  lemma {:induction false} SumAtMost(f: int -> int, g: int -> int, n: int)
    requires forall i | 1 <= i < n :: f(i) <= g(i)
    ensures Sum(f, n) <= Sum(g, n)
    decreases n
  {
    if n > 1 {
      SumAtMost(f, g, n - 1);
    }
  }

  lemma {:induction false} SumLess(f: int -> int, g: int -> int, n: int, p: int)
    requires forall i | 1 <= i < n :: f(i) <= g(i)
    requires 1 <= p < n && f(p) < g(p)
    ensures Sum(f, n) < Sum(g, n)
    decreases n
  {
    if p == n - 1 {
      SumAtMost(f, g, n - 1);
    } else {
      SumLess(f, g, n - 1, p);
    }
  }

  // The two sums differ by what one process gained.
  lemma {:induction false} SumOneChange(f: int -> int, g: int -> int, n: int, p: int)
    requires 1 <= p < n
    requires forall i | 1 <= i < n && i != p :: f(i) == g(i)
    ensures Sum(g, n) == Sum(f, n) + g(p) - f(p)
    decreases n
  {
    if p == n - 1 {
      SumAgrees(f, g, n - 1);
    } else {
      SumOneChange(f, g, n - 1, p);
    }
  }

  lemma {:induction false} SumNonNegative(f: int -> int, n: int)
    requires forall i | 1 <= i < n :: f(i) >= 0
    ensures Sum(f, n) >= 0
    decreases n
  {
    if n > 1 {
      SumNonNegative(f, n - 1);
    }
  }
}
