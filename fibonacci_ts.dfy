/**
 * The recursive `fibonacci(n: number)` of the Node.js demo
 * (NodeJsFlexibilityDemo/fibonacci_calc.ts). A JavaScript `number` is
 * modelled as an exact `real`; on the integers this model visits the two
 * agree as long as every value is a safe integer (at most 2^53 - 1), which
 * `SafeUpTo78` establishes for the demo's range.
 */
module FibonacciTs {
  import opened FibonacciCpp

  /** `Number.MAX_SAFE_INTEGER`, the largest integer with an exact successor in a double. */
  const MaxSafeInteger: int := 0x1F_FFFF_FFFF_FFFF

  /** The number is integral. */
  predicate IsInteger(x: real)
  {
    x.Floor as real == x
  }

  /** The number is an integer a double holds exactly, as `Number.isSafeInteger` decides. */
  predicate IsSafeInteger(x: real)
  {
    IsInteger(x) && -MaxSafeInteger as real <= x <= MaxSafeInteger as real
  }

  /**
   * `fibonacci` as the demo writes it, over `number`. Any argument `n <= 1`
   * is returned as is; larger ones recurse on `n - 1` and `n - 2`, so in
   * this exact-real model the recursion ends for every argument, integral
   * or not (in doubles it does not for arguments of 2^54 and above). On integral
   * arguments the result is the C++ demo's value on the same argument.
   */
  function TsFibonacci(n: real): (r: real)
    decreases if n <= 1.0 then 0 else n.Floor
    ensures IsInteger(n) ==> r == Fibonacci(n.Floor) as real
    ensures IsInteger(n) ==> IsInteger(r)
  {
    if n <= 1.0 then n
    else
      assert (n - 1.0).Floor == n.Floor - 1 && (n - 2.0).Floor == n.Floor - 2;
      TsFibonacci(n - 1.0) + TsFibonacci(n - 2.0)
  }

  /** The value for arguments up to one, integral or not: the argument itself. */
  lemma TsFibonacciBase(n: real)
    requires n <= 1.0
    ensures TsFibonacci(n) == n
  {
  }

  /**
   * "Identical in logic": on every C++ `int` argument up to 78 the C++ and
   * TypeScript copies return the same value. From 79 on the exact value is
   * no longer a safe integer (`UnsafeFrom79`), so a double may round it.
   */
  lemma AgreesWithCpp(n: int32)
    requires n <= 78
    ensures TsFibonacci(n as int as real) == CppFibonacci(n) as int as real
  {
    assert (n as int as real).Floor == n as int;
  }

  /**
   * For `0 <= k <= 78` the result is a safe integer, so every addition on
   * the way is exact in a double; the demo's `N = 40` is in range.
   */
  lemma SafeUpTo78(k: int)
    requires 0 <= k <= 78
    ensures IsSafeInteger(TsFibonacci(k as real))
  {
    assert (k as real).Floor == k;
    FibonacciMonotone(k, 78);
    FibonacciAt78And79();
  }

  /** From 79 on the result is no longer a safe integer, so 78 is the largest argument computed exactly. */
  lemma UnsafeFrom79(k: int)
    requires k >= 79
    ensures !IsSafeInteger(TsFibonacci(k as real))
  {
    assert (k as real).Floor == k;
    FibonacciMonotone(79, k);
    FibonacciAt78And79();
  }
}
