/**
 * The recursive `long long fibonacci(int n)` of the C++ performance demo
 * (CppPerformanceDemo/fibonacci_calc.cpp), the mathematical function it
 * computes, an independent linear reference, and the bound under which its
 * 64-bit arithmetic does not overflow.
 */
module FibonacciCpp {

  newtype int32 = x: int | -0x8000_0000 <= x < 0x8000_0000
  newtype int64 = x: int | -0x8000_0000_0000_0000 <= x < 0x8000_0000_0000_0000

  const Int64Max: int := 0x7FFF_FFFF_FFFF_FFFF

  /**
   * The recursion of the demo over unbounded integers: every `n <= 1`
   * (negative ones included) is returned as is, larger `n` add the two
   * previous values. Each recursive call has a strictly smaller argument.
   */
  function Fibonacci(n: int): (r: int)
    decreases if n < 0 then 0 else n
    ensures n >= 0 ==> r >= 0
    ensures n >= 1 ==> r >= 1
  {
    if n <= 1 then n else Fibonacci(n - 1) + Fibonacci(n - 2)
  }

  /** The value for arguments up to one: the argument itself, including negatives. */
  lemma FibonacciBase(n: int)
    requires n <= 1
    ensures Fibonacci(n) == n
  {
  }

  /**
   * `fibonacci` exactly as the demo writes it, over C++ `int` and `long long`.
   * Signed overflow is undefined behaviour in C++, so the function is only
   * defined where no addition overflows: `n <= 92` (see `Fibonacci93Overflows`
   * for why the bound cannot be raised). The demo calls it with `N = 40`.
   */
  function CppFibonacci(n: int32): (r: int64)
    requires n <= 92
    decreases if n < 0 then 0 else n as int
    ensures r as int == Fibonacci(n as int)
  {
    if n <= 1 then n as int64
    else
      FibonacciFitsInt64(n as int);
      CppFibonacci(n - 1) + CppFibonacci(n - 2)
  }

  /** The demo's own call `fibonacci(40)` and its value. */
  lemma DemoValue()
    ensures CppFibonacci(40) as int == 102334155
  {
    assert Fibonacci(10) == 55 && Fibonacci(11) == 89;
    assert Fibonacci(20) == 6765 && Fibonacci(21) == 10946;
    assert Fibonacci(30) == 832040 && Fibonacci(31) == 1346269;
    assert Fibonacci(40) == 102334155;
  }

  /**
   * An independent linear definition: two accumulators `(a, b)` advanced
   * `steps` times by `(a, b) := (b, a + b)`; the answer is `a`.
   */
  function FibonacciLoop(steps: nat, a: int, b: int): int
    decreases steps
  {
    if steps == 0 then a else FibonacciLoop(steps - 1, b, a + b)
  }

  /** The linear reference, numbered like the recursion (`n <= 1` gives `n`). */
  function LinearFibonacci(n: int): int
  {
    if n <= 1 then n else FibonacciLoop(n, 0, 1)
  }

  /** Advancing the accumulators from position `k` by `steps` lands on position `k + steps`. */
  lemma {:induction false} FibonacciLoopAdvances(steps: nat, k: nat)
    ensures FibonacciLoop(steps, Fibonacci(k), Fibonacci(k + 1)) == Fibonacci(k + steps)
    decreases steps
  {
    if steps > 0 {
      var next := Fibonacci(k) + Fibonacci(k + 1);
      assert next == Fibonacci(k + 2);
      assert FibonacciLoop(steps, Fibonacci(k), Fibonacci(k + 1)) == FibonacciLoop(steps - 1, Fibonacci(k + 1), next);
      FibonacciLoopAdvances(steps - 1, k + 1);
      assert k + 1 + (steps - 1) == k + steps;
    }
  }

  /** The exponential recursion and the linear two-accumulator loop agree on every input. */
  lemma RecursionMatchesLinear(n: int)
    ensures Fibonacci(n) == LinearFibonacci(n)
  {
    if n > 1 {
      FibonacciLoopAdvances(n, 0);
    }
  }

  /** The sequence never decreases from index zero on. */
  lemma {:induction false} FibonacciMonotone(m: int, n: int)
    requires 0 <= m <= n
    ensures Fibonacci(m) <= Fibonacci(n)
    decreases n - m
  {
    if m < n {
      FibonacciMonotone(m, n - 1);
      if n >= 2 {
        assert Fibonacci(n) == Fibonacci(n - 1) + Fibonacci(n - 2);
      }
    }
  }

  /** The values at the edge of the range of integers a double holds exactly. */
  lemma FibonacciAt78And79()
    ensures Fibonacci(78) == 8944394323791464
    ensures Fibonacci(79) == 14472334024676221
  {
    assert Fibonacci(6) == 8 && Fibonacci(7) == 13;
    assert Fibonacci(12) == 144 && Fibonacci(13) == 233;
    assert Fibonacci(18) == 2584 && Fibonacci(19) == 4181;
    assert Fibonacci(24) == 46368 && Fibonacci(25) == 75025;
    assert Fibonacci(30) == 832040 && Fibonacci(31) == 1346269;
    assert Fibonacci(36) == 14930352 && Fibonacci(37) == 24157817;
    assert Fibonacci(42) == 267914296 && Fibonacci(43) == 433494437;
    assert Fibonacci(48) == 4807526976 && Fibonacci(49) == 7778742049;
    assert Fibonacci(54) == 86267571272 && Fibonacci(55) == 139583862445;
    assert Fibonacci(60) == 1548008755920 && Fibonacci(61) == 2504730781961;
    assert Fibonacci(66) == 27777890035288 && Fibonacci(67) == 44945570212853;
    assert Fibonacci(72) == 498454011879264 && Fibonacci(73) == 806515533049393;
  }

  /** The values at the edge of the 64-bit range. */
  lemma FibonacciAt92And93()
    ensures Fibonacci(92) == 7540113804746346429
    ensures Fibonacci(93) == 12200160415121876738
  {
    FibonacciAt78And79();
    assert Fibonacci(84) == 160500643816367088 && Fibonacci(85) == 259695496911122585;
  }

  /** For `n <= 92` the result, and the final sum, are at most the `long long` maximum. */
  lemma FibonacciFitsInt64(n: int)
    requires n <= 92
    ensures Fibonacci(n) <= Int64Max
    ensures n >= 2 ==> Fibonacci(n - 1) + Fibonacci(n - 2) <= Int64Max
  {
    if n >= 0 {
      FibonacciMonotone(n, 92);
      FibonacciAt92And93();
    }
  }

  /** At `n = 93` the final addition exceeds `long long`, so 92 is the largest safe argument. */
  lemma Fibonacci93Overflows()
    ensures Fibonacci(92) + Fibonacci(91) > Int64Max
  {
    FibonacciAt92And93();
  }
}
