# Calculator and CalculatorAdvanced, modelled in Dafny

The repository is a small stateful calculator. `Calculator` owns one
floating-point accumulator, `currentValue`. Its `calculate` applies `+`, `-`,
`*` or `/` with an operand. It throws `DivisionByZeroException` for a zero
divisor and `NotSupportedOperationException` for any other operator.
`CalculatorAdvanced` extends it. It truncates the accumulator to a Java `int`
and then either replaces the accumulator (`calculateAdvanced`) or answers a
question about it (`hasCharacteristic`):

- `'!'` computes the factorial, for values in [0, 10] only.
- A digit `d` raises the value to the power `d`.
- `'A'` asks whether the value is an Armstrong number.
- `'P'` asks whether it is a perfect number.

Both questions need the value to be at least 1; otherwise
`NumberNotInAreaException` is thrown.

Files:

- `errors.dfy` (`Errors`): the three exceptions as one tag type, `CalcError`.
  `Outcome` stands in for a `void` method that may throw. `Result<T>` stands in
  for a method that returns a value or throws.
- `java_int.dfy` (`JavaInt`): Java's 32-bit `int`.
  - `Wrap` is two's-complement wrap-around. Lemmas show that wrapping
    intermediate sums and products early does not change the final `int`.
  - `TruncateTowardZero` and `ToInt` model the `(int)` cast of the accumulator.
- `int_math.dfy` (`IntMath`): what the integer algorithms mean on unbounded
  integers (`Fact`, `Pow`, `DigitCount`, `DigitPowerSum`, `IsArmstrong`,
  `DivisorSum`, `IsPerfect`). It also holds lemmas about them: bounds,
  monotonicity, sign, and that proper divisors never exceed n/2.
- `calculator.dfy` (`BasicCalculator`): class `Calculator`, with field
  `currentValue: real` and its methods.
- `calculator_advanced.dfy` (`AdvancedCalculator`): class `CalculatorAdvanced`.
  Dafny has no class inheritance, so the inherited part is a
  `const basic: Calculator`; its accumulator is the one that every advanced
  operation reads and writes. The private helpers are static members of the
  class. The loops (`Power`, `IsArmstrongNumber`, `IsPerfectNumber`) are
  methods, proved against the functions of `IntMath` in 32-bit arithmetic.
  `CalculateFactorial` stays a recursive function.
- `scenarios.dfy` (`Scenarios`): client methods that replay every vector of the
  repository's two JUnit classes. Every assertion follows from the contracts
  alone. One of them also shows that `+` then `-`, and `*` then `/` by a
  nonzero value, restore the accumulator.

Integer width is modelled exactly. Each product and sum in `power`,
`calculateFactorial`, `isArmstrongNumber` and `isPerfectNumber` wraps as a Java
`int` does. The `(int)` cast saturates at the ends of the `int` range. The
contracts of `CalculateFactorial`, `Power`, `IsArmstrongNumber` and
`IsPerfectNumber` state the exact wrapped result. They also state the range in
which that result equals the mathematical one:

- factorial: up to 12!, which covers the whole reachable range [0, 10];
- power: bases in [-10, 10];
- Armstrong: values below 10^8;
- perfect: values below 2^16.

## Model

| member | source | states |
|---|---|---|
| `BasicCalculator.Calculator.constructor` | src/main/java/org/unibl/etf/Calculator.java:19-21 | a new calculator's accumulator is 0.0 |
| `BasicCalculator.Calculator.Calculate` | src/main/java/org/unibl/etf/Calculator.java:38-58 | `+`, `-`, `*` replace the accumulator by its sum, difference or product with the operand; `/` by a nonzero operand replaces it by the quotient; `/` by 0.0 fails with DivisionByZero; every other operator, `!` included, fails with NotSupported; on every failure the accumulator is unchanged |
| `BasicCalculator.Calculator.GetCurrentValue` | src/main/java/org/unibl/etf/Calculator.java:66-68 | returns exactly the accumulator; it has no modifies clause, so it changes nothing |
| `BasicCalculator.Calculator.SetCurrentValue` | src/main/java/org/unibl/etf/Calculator.java:75-77 | the accumulator becomes exactly the given value, so a following get returns it |
| `AdvancedCalculator.CalculatorAdvanced.constructor` | src/main/java/org/unibl/etf/CalculatorAdvanced.java:15 | a new advanced calculator owns a fresh basic calculator whose accumulator is 0.0 |
| `JavaInt.TruncateTowardZero` | src/main/java/org/unibl/etf/CalculatorAdvanced.java:28 | the result is the integer part of the value, with the sign kept: t <= x < t+1 for x >= 0 and t-1 < x <= t for x < 0 (11.4 gives 11, 0.17 and -0.1 give 0) |
| `JavaInt.ToInt` | src/main/java/org/unibl/etf/CalculatorAdvanced.java:28 | the `(int)` cast always gives an `int`; it is the truncation toward zero inside the `int` range and saturates at MIN or MAX outside it |
| `AdvancedCalculator.CalculatorAdvanced.TruncatedValue` | src/main/java/org/unibl/etf/CalculatorAdvanced.java:55 | the advanced operations see the accumulator truncated toward zero, as a Java `int` |
| `AdvancedCalculator.CalculatorAdvanced.CalculateAdvanced` | src/main/java/org/unibl/etf/CalculatorAdvanced.java:27-40 | with n the truncated accumulator: `!` with n in [0,10] sets the accumulator to n!; `!` with any other n fails with NumberNotInArea; a digit d sets it to n^d in 32-bit arithmetic, with no range check on n, and to the exact n^d when -10 <= n <= 10 (so n^0 = 1 always); any other action fails with NotSupported; every failure leaves the accumulator unchanged |
| `AdvancedCalculator.CalculatorAdvanced.HasCharacteristic` | src/main/java/org/unibl/etf/CalculatorAdvanced.java:54-71 | changes nothing; a selector other than `A`/`P` fails with NotSupported whatever the value; `A`/`P` with truncated value below 1 fail with NumberNotInArea; otherwise it answers the 32-bit Armstrong or perfect test, which equals the mathematical property below 10^8 (`A`) or 2^16 (`P`) |
| `AdvancedCalculator.CalculatorAdvanced.CalculateFactorial` | src/main/java/org/unibl/etf/CalculatorAdvanced.java:80-85 | the recursive product of 32-bit `int`s is n! wrapped to 32 bits, and exactly n! for every n up to 12 (0! = 1! = 1) |
| `IntMath.FactAtMost12` | src/main/java/org/unibl/etf/CalculatorAdvanced.java:84 | n! is at most 12! = 479001600 for n <= 12, so the recursive product never wraps on the guarded range [0,10] |
| `AdvancedCalculator.CalculatorAdvanced.Power` | src/main/java/org/unibl/etf/CalculatorAdvanced.java:94-100 | the loop of multiplications from 1 yields base^exponent wrapped to 32 bits, and 1 for a negative exponent |
| `IntMath.PowOfNegation` | src/main/java/org/unibl/etf/CalculatorAdvanced.java:96-98 | repeated multiplication propagates the sign of a negative base: (-b)^e is b^e for even e and -(b^e) for odd e |
| `IntMath.PowSmallBound` | src/main/java/org/unibl/etf/CalculatorAdvanced.java:96-98 | every power of a base in [-10,10] with exponent at most 9 lies within [-10^9, 10^9] |
| `AdvancedCalculator.IsDigit` | src/main/java/org/unibl/etf/CalculatorAdvanced.java:35 | the power actions are exactly the characters of "0123456789"; none of them is `!`, so testing `!` first takes nothing away from the digits |
| `AdvancedCalculator.DigitValue` | src/main/java/org/unibl/etf/CalculatorAdvanced.java:36 | the numeric value of an ASCII digit action is an exponent between 0 and 9 |
| `AdvancedCalculator.DecimalLength` | src/main/java/org/unibl/etf/CalculatorAdvanced.java:113 | the length of the decimal string: the L with 10^(L-1) <= n < 10^L for positive n, one more than the digit count of -n for negative n (the minus sign), and at least 1 |
| `AdvancedCalculator.ArmstrongCheck` | src/main/java/org/unibl/etf/CalculatorAdvanced.java:125 | the value the Armstrong test returns: the wrapped digit-power sum equals the number; false for every negative number, true for every number in [0,9] |
| `AdvancedCalculator.CalculatorAdvanced.IsArmstrongNumber` | src/main/java/org/unibl/etf/CalculatorAdvanced.java:110-126 | the digit-peeling loop answers whether the 32-bit sum of each decimal digit raised to the length of the number's decimal string equals the number; for 1 <= n < 10^8 that is exactly Armstrong's property |
| `AdvancedCalculator.ArmstrongCheckExact` | src/main/java/org/unibl/etf/CalculatorAdvanced.java:113-125 | below 10^8 the wrapped Armstrong test and the mathematical Armstrong property agree in both directions |
| `IntMath.DigitCountBounds` | src/main/java/org/unibl/etf/CalculatorAdvanced.java:113 | the digit count c of a positive n is the c with 10^(c-1) <= n < 10^c |
| `IntMath.DigitCountAtMost` | src/main/java/org/unibl/etf/CalculatorAdvanced.java:113 | a positive number below 10^k has at most k decimal digits |
| `IntMath.DigitPowerSumBound` | src/main/java/org/unibl/etf/CalculatorAdvanced.java:115-124 | the sum of digit powers is between 0 and (digit count) * 9^k |
| `IntMath.ArmstrongSumBound` | src/main/java/org/unibl/etf/CalculatorAdvanced.java:115-124 | below 10^8 the Armstrong sum is at most 8 * 9^8 = 344373768, so it never overflows an `int` |
| `AdvancedCalculator.PerfectCheck` | src/main/java/org/unibl/etf/CalculatorAdvanced.java:143 | the value the perfect-number test returns: for n >= 1 it holds exactly when the wrapped sum of all proper divisors of n equals n, although only divisors up to n/2 are summed; for n <= 0 it holds only for 0 |
| `AdvancedCalculator.CalculatorAdvanced.IsPerfectNumber` | src/main/java/org/unibl/etf/CalculatorAdvanced.java:136-144 | the loop answers whether the 32-bit sum of the i in [1, n/2] dividing n equals n; for 1 <= n < 2^16 that is exactly perfection (n equals the sum of its proper divisors) |
| `AdvancedCalculator.PerfectCheckExact` | src/main/java/org/unibl/etf/CalculatorAdvanced.java:136-144 | below 2^16 the wrapped divisor test and perfection agree in both directions |
| `IntMath.ProperDivisorsAtMostHalf` | src/main/java/org/unibl/etf/CalculatorAdvanced.java:138 | stopping the divisor loop at n/2 loses nothing: the divisors up to n/2 sum to the same as all divisors below n |
| `IntMath.NoDivisorAboveHalf` | src/main/java/org/unibl/etf/CalculatorAdvanced.java:138-139 | no k with n/2 < k < n divides n |
| `IntMath.DivisorSumFlat` | src/main/java/org/unibl/etf/CalculatorAdvanced.java:138 | the divisor sum does not grow between n/2 and n-1 |
| `IntMath.DivisorSumBound` | src/main/java/org/unibl/etf/CalculatorAdvanced.java:138-142 | the divisors up to k add up to between 0 and k^2 |
| `IntMath.FactMonotone` | src/main/java/org/unibl/etf/CalculatorAdvanced.java:84 | the factorial grows with its argument |
| `JavaInt.Wrap` | src/main/java/org/unibl/etf/CalculatorAdvanced.java:97 | a wrapped value is an `int`, differs from the exact result by a multiple of 2^32, and is the exact result whenever that fits |
| `JavaInt.WrapAdd` | src/main/java/org/unibl/etf/CalculatorAdvanced.java:122 | wrapping a partial sum before the next addition gives the same `int` as wrapping once at the end |
| `JavaInt.WrapAddBoth` | src/main/java/org/unibl/etf/CalculatorAdvanced.java:122 | wrapping both addends first gives the same `int` as wrapping their exact sum |
| `JavaInt.WrapMul` | src/main/java/org/unibl/etf/CalculatorAdvanced.java:97 | wrapping a partial product before the next multiplication gives the same `int` as wrapping once at the end |

## Left out

- IEEE-754 doubles. The accumulator is an exact `real`, so there is no
  rounding: the model gives 12.1 * 2 = 24.2 exactly. NaN and the infinities do
  not exist in the model. -0.0 is not distinguished from 0.0. In Java,
  `Double.equals` lets division by -0.0 through; in the model it fails with
  DivisionByZero like 0.0.
- `Character.isDigit` and `Character.getNumericValue` also accept non-ASCII
  Unicode digits. The model accepts only `'0'`..`'9'` as power actions. Any
  other character is NotSupported.
- Null `Double` arguments to `calculate` and `setCurrentValue` cannot be
  expressed: a `real` is always defined.
- The exception class hierarchy and message texts. Only the three error kinds
  are kept.
- Inheritance. `CalculatorAdvanced` reaches `calculate`, `getCurrentValue` and
  `setCurrentValue` through its `basic` calculator rather than as inherited
  methods.
- The Javadoc of `calculateAdvanced` says that powering is limited to [0, 10].
  The code has no such check, and the model follows the code.
- `CalculateFactorial` requires a non-negative argument. On a negative one the
  Java recursion runs until the stack overflows and throws
  `StackOverflowError`, which the model does not represent; the only caller
  passes values in [0, 10].
- The unit-test harness itself (JUnit and Hamcrest, the console output in
  `tearDown`). Its vectors are replayed in `scenarios.dfy`.
