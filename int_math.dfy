/** The mathematical meaning of the calculator's integer algorithms, on
    unbounded integers: factorial, power, decimal digits, Armstrong numbers,
    divisor sums and perfect numbers. */
module IntMath {

  /** n! */
  function Fact(n: nat): (r: nat)
    ensures 1 <= r
  {
    if n == 0 then 1 else n * Fact(n - 1)
  }

  /** b^e, as `e` multiplications starting from 1. */
  function Pow(b: int, e: nat): int {
    if e == 0 then 1 else Pow(b, e - 1) * b
  }

  /** The number of decimal digits of `n` (0 has one digit). */
  function DigitCount(n: nat): (c: nat)
    ensures 1 <= c
  {
    if n < 10 then 1 else 1 + DigitCount(n / 10)
  }

  /** The sum, over the decimal digits `d` of a positive `n`, of d^k; 0 when n <= 0. */
  function DigitPowerSum(n: int, k: nat): int
    decreases if n <= 0 then 0 else n
  {
    if n <= 0 then 0 else Pow(n % 10, k) + DigitPowerSum(n / 10, k)
  }

  /** An Armstrong number equals the sum of its digits, each raised to the digit count. */
  predicate IsArmstrong(n: nat) {
    1 <= n && n == DigitPowerSum(n, DigitCount(n))
  }

  /** The sum of the integers i in [1, k] that divide `n`. */
  function DivisorSum(n: int, k: int): int
    decreases if k <= 0 then 0 else k
  {
    if k <= 0 then 0 else DivisorSum(n, k - 1) + (if n % k == 0 then k else 0)
  }

  /** A perfect number equals the sum of its proper divisors (those below itself). */
  predicate IsPerfect(n: nat) {
    1 <= n && n == DivisorSum(n, n - 1)
  }

  // ---------------------------------------------------------------- factorial

  lemma {:induction false} FactMonotone(m: nat, n: nat)
    requires m <= n
    ensures Fact(m) <= Fact(n)
  {
    if m < n {
      FactMonotone(m, n - 1);
      assert Fact(n) == n * Fact(n - 1) >= Fact(n - 1);
    }
  }

  /** 12! = 479001600 bounds every factorial up to 12!, so all of them fit in a 32-bit `int`. */
  lemma FactAtMost12(n: nat)
    requires n <= 12
    ensures Fact(n) <= 479001600
  {
    FactMonotone(n, 12);
    assert Fact(12) == 479001600;
  }

  // -------------------------------------------------------------------- power

  /** A negative base only contributes a sign: (-b)^e = b^e for even e, -(b^e) for odd e. */
  lemma {:induction false} PowOfNegation(b: int, e: nat)
    ensures Pow(-b, e) == if e % 2 == 0 then Pow(b, e) else -Pow(b, e)
  {
    if e > 0 {
      PowOfNegation(b, e - 1);
      assert Pow(-b, e) == Pow(-b, e - 1) * -b;
    }
  }

  /** Raising to a fixed power is monotone on non-negative bases. */
  lemma {:induction false} PowMonotoneBase(d: int, c: int, k: nat)
    requires 0 <= d <= c
    ensures 0 <= Pow(d, k) <= Pow(c, k)
  {
    if k > 0 {
      PowMonotoneBase(d, c, k - 1);
      MulMonotone(Pow(d, k - 1), Pow(c, k - 1), d, c);
    }
  }

  lemma MulMonotone(a: int, b: int, c: int, d: int)
    requires 0 <= a <= b && 0 <= c <= d
    ensures 0 <= a * c <= b * d
  {
  }

  /** Powers of a base of at least 1 grow with the exponent. */
  lemma {:induction false} PowMonotoneExponent(b: int, i: nat, j: nat)
    requires 1 <= b && i <= j
    ensures 1 <= Pow(b, i) <= Pow(b, j)
  {
    if i < j {
      PowMonotoneExponent(b, i, j - 1);
      var p := Pow(b, j - 1);
      assert p <= p * b;
    } else if i > 0 {
      PowMonotoneExponent(b, 0, i);
    }
  }

  /** Every power of a base in [-10, 10] with an exponent up to 9 lies within [-10^9, 10^9]. */
  lemma PowSmallBound(b: int, e: nat)
    requires -10 <= b <= 10 && e <= 9
    ensures -1000000000 <= Pow(b, e) <= 1000000000
  {
    var a := if b < 0 then -b else b;
    PowMonotoneBase(a, 10, e);
    PowMonotoneExponent(10, e, 9);
    PowOfNegation(a, e);
    assert Pow(10, 9) == 1000000000;
  }

  // ------------------------------------------------------------------- digits

  /** DigitCount(n) is the c with 10^(c-1) <= n < 10^c. */
  lemma {:induction false} DigitCountBounds(n: nat)
    requires 1 <= n
    ensures Pow(10, DigitCount(n) - 1) <= n < Pow(10, DigitCount(n))
  {
    if n >= 10 {
      DigitCountBounds(n / 10);
    }
  }

  /** A number below 10^k has at most k digits. */
  lemma {:induction false} DigitCountAtMost(n: nat, k: nat)
    requires 1 <= n < Pow(10, k)
    ensures DigitCount(n) <= k
  {
    DigitCountBounds(n);
    if DigitCount(n) > k {
      PowMonotoneExponent(10, k, DigitCount(n) - 1);
    }
  }

  /** Each digit contributes at most 9^k. */
  lemma {:induction false} DigitPowerSumBound(n: nat, k: nat)
    ensures 0 <= DigitPowerSum(n, k) <= DigitCount(n) * Pow(9, k)
  {
    PowMonotoneBase(n % 10, 9, k);
    if n >= 10 {
      DigitPowerSumBound(n / 10, k);
      AddBound(Pow(n % 10, k), DigitPowerSum(n / 10, k), DigitCount(n / 10), Pow(9, k));
    }
  }

  lemma AddBound(t: int, s: int, c: int, p: int)
    requires 0 <= t <= p && 0 <= s <= c * p
    ensures 0 <= t + s <= (c + 1) * p
  {
  }

  /** Below 10^8 the sum of digit powers of Armstrong's definition fits in 31 bits. */
  lemma ArmstrongSumBound(n: nat)
    requires 1 <= n < 100000000
    ensures 0 <= DigitPowerSum(n, DigitCount(n)) <= 344373768
  {
    var c := DigitCount(n);
    assert Pow(10, 8) == 100000000;
    DigitCountAtMost(n, 8);
    DigitPowerSumBound(n, c);
    PowMonotoneExponent(9, c, 8);
    assert Pow(9, 8) == 43046721;
    MulMonotone(c, 8, Pow(9, c), 43046721);
  }

  // ----------------------------------------------------------------- divisors

  /** A divisor of `n` other than `n` itself is at most n/2. */
  lemma NoDivisorAboveHalf(n: int, k: int)
    requires 1 <= n && n / 2 < k < n
    ensures n % k != 0
  {
  }

  /** The sum of divisors up to n/2 already contains every proper divisor. */
  lemma {:induction false} DivisorSumFlat(n: int, k: int)
    requires 1 <= n && n / 2 <= k <= n - 1
    ensures DivisorSum(n, k) == DivisorSum(n, n / 2)
    decreases k
  {
    if k > n / 2 {
      NoDivisorAboveHalf(n, k);
      DivisorSumFlat(n, k - 1);
    }
  }

  /** Summing divisors up to n/2 is summing the proper divisors. */
  lemma ProperDivisorsAtMostHalf(n: int)
    requires 1 <= n
    ensures DivisorSum(n, n / 2) == DivisorSum(n, n - 1)
  {
    DivisorSumFlat(n, n - 1);
  }

  /** The divisors up to k add up to at most k^2. */
  lemma {:induction false} DivisorSumBound(n: int, k: nat)
    ensures 0 <= DivisorSum(n, k) <= k * k
  {
    if k > 0 {
      DivisorSumBound(n, k - 1);
      assert (k - 1) * (k - 1) == k * k - 2 * k + 1;
    }
  }
}
