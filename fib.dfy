// The computation unit: the naive recursive Fibonacci function that each
// connection handler calls on the integer it reads (test.py, lines 5-7).
// Its running time is not modelled, only its value.
module Fib {

  /** fib(n): 1 for every n <= 2 (zero and negative arguments included),
      otherwise the sum of the two previous values. Never less than 1. */
  function Fib(n: int): (r: nat)
    ensures r >= 1
    decreases n
  {
    if n <= 2 then 1 else Fib(n - 1) + Fib(n - 2)
  }

  /** Every argument at or below 2 gives 1, including 0 and negatives. */
  lemma BaseCases(n: int)
    requires n <= 2
    ensures Fib(n) == 1
  {
  }

  /** Above 2 the value is the sum of the two predecessors. */
  lemma Recurrence(n: int)
    requires n > 2
    ensures Fib(n) == Fib(n - 1) + Fib(n - 2)
  {
  }

  /** One step up never decreases the value, from 1 onwards. */
  lemma {:induction false} StepUp(n: int)
    requires n >= 1
    ensures Fib(n) <= Fib(n + 1)
  {
  }

  /** fib is non-decreasing on n >= 1. */
  lemma {:induction false} Monotone(m: int, n: int)
    requires 1 <= m <= n
    ensures Fib(m) <= Fib(n)
    decreases n - m
  {
    if m < n {
      Monotone(m + 1, n);
      StepUp(m);
    }
  }

  /** From 2 onwards fib is strictly increasing. */
  lemma {:induction false} StrictlyIncreasing(n: int)
    requires n >= 2
    ensures Fib(n) < Fib(n + 1)
  {
    assert Fib(n + 1) == Fib(n) + Fib(n - 1);
  }

  /** The value the server answers to the request "10". */
  lemma FibTen()
    ensures Fib(10) == 55
  {
    assert Fib(3) == 2;
    assert Fib(4) == 3;
    assert Fib(5) == 5;
    assert Fib(6) == 8;
    assert Fib(7) == 13;
    assert Fib(8) == 21;
    assert Fib(9) == 34;
  }
}
