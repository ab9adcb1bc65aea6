/** Shared vocabulary: optional values and finite sums. */
module Common {

  datatype Option<+T> = None | Some(value: T)

  /** f(0) + ... + f(n-1). */
  function Sum(f: nat -> int, n: nat): int {
    if n == 0 then 0 else Sum(f, n - 1) + f(n - 1)
  }

  lemma {:induction false} SumAgrees(f: nat -> int, g: nat -> int, n: nat)
    requires forall i: nat :: i < n ==> f(i) == g(i)
    ensures Sum(f, n) == Sum(g, n)
  {
    if n > 0 {
      SumAgrees(f, g, n - 1);
    }
  }

  lemma {:induction false} SumBelow(f: nat -> int, g: nat -> int, n: nat)
    requires forall i: nat :: i < n ==> f(i) <= g(i)
    ensures Sum(f, n) <= Sum(g, n)
  {
    if n > 0 {
      SumBelow(f, g, n - 1);
    }
  }

}
