/** The infinite generator `fibonacci_sequence`: it keeps the pair (a, b),
    yields a and then steps to (b, a + b). Taking the first n values of it is
    the method `Take`. */
module GeneratorFibonacci {

  /** The Fibonacci numbers, by their recurrence. */
  function Fib(n: nat): nat
  {
    if n < 2 then n else Fib(n - 1) + Fib(n - 2)
  }

  /** The first n values the generator yields. It never stops on its own, so
      any n can be taken. */
  method Take(n: nat) returns (values: seq<int>)
    ensures |values| == n
    ensures forall k :: 0 <= k < n ==> values[k] == Fib(k)
    ensures forall k :: 0 <= k < n ==> values[k] >= 0
    ensures forall i, j :: 0 <= i <= j < n ==> values[i] <= values[j]
  {
    var a, b := 0, 1;
    values := [];
    var k := 0;
    while k < n
      invariant k <= n && |values| == k
      invariant a == Fib(k) && b == Fib(k + 1)
      invariant forall i :: 0 <= i < k ==> values[i] == Fib(i)
    {
      values := values + [a];
      assert Fib(k + 2) == b + a;
      a, b := b, a + b;
      k := k + 1;
    }
    forall i, j | 0 <= i <= j < n
      ensures values[i] <= values[j]
    {
      FibNondecreasing(i, j);
    }
  }

  /** Fib(i) <= Fib(j) whenever i <= j. */
  lemma {:induction false} FibNondecreasing(i: nat, j: nat)
    requires i <= j
    ensures Fib(i) <= Fib(j)
    decreases j - i
  {
    if i < j {
      FibNondecreasing(i + 1, j);
      if i + 1 >= 2 {
        assert Fib(i + 1) == Fib(i) + Fib(i - 1);
      }
    }
  }

  /** The driver: the first ten values. */
  method FirstTen() returns (values: seq<int>)
    ensures values == [0, 1, 1, 2, 3, 5, 8, 13, 21, 34]
  {
    values := Take(10);
    assert Fib(2) == 1 && Fib(3) == 2 && Fib(4) == 3 && Fib(5) == 5;
    assert Fib(6) == 8 && Fib(7) == 13 && Fib(8) == 21 && Fib(9) == 34;
  }
}
