/** The advanced calculator (src/main/java/org/unibl/etf/CalculatorAdvanced.java):
    factorial and power of the accumulator, and the Armstrong and perfect-number
    tests, all on the accumulator truncated to a Java `int`. The Java class
    extends `Calculator`; here it holds its basic calculator as `basic`, whose
    accumulator is the one every operation reads and writes. */
module AdvancedCalculator {
  import opened Errors
  import opened JavaInt
  import opened IntMath
  import opened BasicCalculator

  /** The selectors that `Character.isDigit` accepts, restricted to ASCII.
      No digit is the factorial action, so the order of the two tests is immaterial. */
  predicate IsDigit(c: char): (b: bool)
    ensures b <==> c in "0123456789"
    ensures b ==> c != '!'
  {
    '0' <= c <= '9'
  }

  /** `Character.getNumericValue` on an ASCII digit. */
  function DigitValue(c: char): (d: nat)
    requires IsDigit(c)
    ensures d <= 9
  {
    (c as int - '0' as int) as nat
  }

  /** `String.valueOf(n).length()`: the digits of |n|, plus one for a minus sign. */
  function DecimalLength(n: int): (len: nat)
    ensures 1 <= len
    ensures 1 <= n ==> Pow(10, len - 1) <= n < Pow(10, len)
    ensures n < 0 ==> 2 <= len && Pow(10, len - 2) <= -n < Pow(10, len - 1)
  {
    if n < 0 then
      DigitCountBounds(-n);
      1 + DigitCount(-n)
    else if n == 0 then
      DigitCount(0)
    else
      DigitCountBounds(n);
      DigitCount(n)
  }

  /** What the Java Armstrong test answers: the digit powers are summed in
      wrapping 32-bit arithmetic before the comparison. */
  predicate ArmstrongCheck(n: int): (b: bool)
    ensures n < 0 ==> !b
    ensures 0 <= n <= 9 ==> b
  {
    if 0 < n <= 9 then
      assert DecimalLength(n) == 1 && DigitPowerSum(n / 10, 1) == 0 && Pow(n % 10, 1) == n;
      Wrap(DigitPowerSum(n, DecimalLength(n))) == n
    else
      Wrap(DigitPowerSum(n, DecimalLength(n))) == n
  }

  /** What the Java perfect-number test answers: divisors up to n/2, summed in
      wrapping 32-bit arithmetic. For n <= 0 there are no candidates, whether n/2
      rounds toward zero (Java) or down (Dafny). */
  predicate PerfectCheck(n: int): (b: bool)
    ensures n <= 0 ==> (b <==> n == 0)
    ensures 1 <= n ==> (b <==> Wrap(DivisorSum(n, n - 1)) == n)
  {
    if 1 <= n then ProperDivisorsAtMostHalf(n); Wrap(DivisorSum(n, n / 2)) == n
    else Wrap(DivisorSum(n, n / 2)) == n
  }

  /** Below 10^8 no sum overflows, so the Java test decides Armstrong's property. */
  lemma ArmstrongCheckExact(n: int)
    requires 1 <= n < 100000000
    ensures ArmstrongCheck(n) <==> IsArmstrong(n)
  {
    ArmstrongSumBound(n);
  }

  /** Below 2^16 no sum overflows, and stopping at n/2 misses no proper
      divisor, so the Java test decides perfection. */
  lemma PerfectCheckExact(n: int)
    requires 1 <= n < 65536
    ensures PerfectCheck(n) <==> IsPerfect(n)
  {
    DivisorSumBound(n, n / 2);
    MulMonotone(n / 2, 32767, n / 2, 32767);
    ProperDivisorsAtMostHalf(n);
  }

  class CalculatorAdvanced {
    /** The inherited part: the accumulator lives here. */
    const basic: Calculator

    constructor ()
      ensures fresh(basic) && basic.currentValue == 0.0
    {
      basic := new Calculator();
    }

    /** `(int) (double) getCurrentValue()`: the accumulator truncated toward zero. */
    function TruncatedValue(): (n: int)
      reads basic
      ensures InRange(n)
      ensures (MIN - 1) as real < basic.currentValue < (MAX + 1) as real ==>
                n == TruncateTowardZero(basic.currentValue)
    {
      ToInt(basic.currentValue)
    }

    /** '!' replaces the accumulator by the factorial of its truncation, which
        must lie in [0, 10]; a digit d replaces it by the truncation to the
        power d (wrapped to 32 bits); anything else is not supported. */
    method CalculateAdvanced(action: char) returns (outcome: Outcome)
      modifies basic
      ensures action == '!' && 0 <= old(TruncatedValue()) <= 10 ==>
                outcome == Pass && basic.currentValue == Fact(old(TruncatedValue())) as real
      ensures action == '!' && !(0 <= old(TruncatedValue()) <= 10) ==>
                outcome == Fail(NumberNotInArea)
      ensures IsDigit(action) ==>
                outcome == Pass &&
                basic.currentValue == Wrap(Pow(old(TruncatedValue()), DigitValue(action))) as real
      ensures IsDigit(action) && -10 <= old(TruncatedValue()) <= 10 ==>
                basic.currentValue == Pow(old(TruncatedValue()), DigitValue(action)) as real
      ensures action != '!' && !IsDigit(action) ==> outcome == Fail(NotSupported)
      ensures outcome.Fail? ==> basic.currentValue == old(basic.currentValue)
    {
      var e := TruncatedValue();
      if action == '!' {
        if 0 <= e && e <= 10 {
          basic.SetCurrentValue(CalculateFactorial(e) as real);
          outcome := Pass;
        } else {
          outcome := Fail(NumberNotInArea);
        }
      } else if IsDigit(action) {
        var p := Power(e, DigitValue(action));
        if -10 <= e <= 10 {
          PowSmallBound(e, DigitValue(action));
        }
        basic.SetCurrentValue(p as real);
        outcome := Pass;
      } else {
        outcome := Fail(NotSupported);
      }
    }

    /** 'A' asks whether the truncated accumulator is an Armstrong number and
        'P' whether it is perfect; both need it to be at least 1. Reads only. */
    method HasCharacteristic(value: char) returns (r: Result<bool>)
      ensures value != 'A' && value != 'P' ==> r == Err(NotSupported)
      ensures (value == 'A' || value == 'P') && TruncatedValue() < 1 ==> r == Err(NumberNotInArea)
      ensures value == 'A' && 1 <= TruncatedValue() ==> r == Ok(ArmstrongCheck(TruncatedValue()))
      ensures value == 'P' && 1 <= TruncatedValue() ==> r == Ok(PerfectCheck(TruncatedValue()))
      ensures value == 'A' && 1 <= TruncatedValue() < 100000000 ==>
                r == Ok(IsArmstrong(TruncatedValue()))
      ensures value == 'P' && 1 <= TruncatedValue() < 65536 ==>
                r == Ok(IsPerfect(TruncatedValue()))
    {
      var e := TruncatedValue();
      if value == 'A' {
        if e < 1 {
          r := Err(NumberNotInArea);
        } else {
          var b := IsArmstrongNumber(e);
          r := Ok(b);
        }
      } else if value == 'P' {
        if e < 1 {
          r := Err(NumberNotInArea);
        } else {
          var b := IsPerfectNumber(e);
          r := Ok(b);
        }
      } else {
        r := Err(NotSupported);
      }
    }

    /** The recursive factorial of the source, in wrapping 32-bit arithmetic.
        On a negative argument the Java recursion runs until the stack overflows;
        the only caller passes values in [0, 10]. Exact up to 12!. */
    static function CalculateFactorial(n: int): (r: int)
      requires 0 <= n
      ensures r == Wrap(Fact(n))
      ensures n <= 12 ==> r == Fact(n)
      decreases n
    {
      if n == 0 || n == 1 then 1
      else
        var previous := CalculateFactorial(n - 1);
        assert Wrap(n * previous) == Wrap(Fact(n)) by {
          WrapMul(Fact(n - 1), n);
          assert n * previous == Wrap(Fact(n - 1)) * n;
          assert Fact(n) == Fact(n - 1) * n;
        }
        assert n <= 12 ==> Fact(n) <= MAX by {
          if n <= 12 {
            FactAtMost12(n);
          }
        }
        Wrap(n * previous)
    }

    /** `base` multiplied `exponent` times into 1, each product wrapped to 32 bits. */
    static method Power(base: int, exponent: int) returns (result: int)
      ensures 0 <= exponent ==> result == Wrap(Pow(base, exponent))
      ensures exponent < 0 ==> result == 1
    {
      result := 1;
      var i := 0;
      while i < exponent
        invariant 0 <= i && (i <= exponent || i == 0)
        invariant result == Wrap(Pow(base, i))
      {
        WrapMul(Pow(base, i), base);
        result := Wrap(result * base);
        i := i + 1;
      }
    }

    /** Peels off decimal digits from the right, adding each raised to the
        length of the number's decimal string. */
    static method IsArmstrongNumber(number: int) returns (b: bool)
      ensures b == ArmstrongCheck(number)
      ensures 1 <= number < 100000000 ==> (b <==> IsArmstrong(number))
    {
      var n := number;
      var sum := 0;
      var numberOfDigits := DecimalLength(number);
      ghost var exact := 0;  // the sum without wrap-around
      while n > 0
        invariant sum == Wrap(exact)
        invariant exact + DigitPowerSum(n, numberOfDigits) == DigitPowerSum(number, numberOfDigits)
        decreases n
      {
        var digit := n % 10;
        var digitPower := 1;
        for i := 0 to numberOfDigits
          invariant digitPower == Wrap(Pow(digit, i))
        {
          WrapMul(Pow(digit, i), digit);
          digitPower := Wrap(digitPower * digit);
        }
        WrapAddBoth(exact, Pow(digit, numberOfDigits));
        sum := Wrap(sum + digitPower);
        exact := exact + Pow(digit, numberOfDigits);
        n := n / 10;
      }
      b := sum == number;
      if 1 <= number < 100000000 {
        ArmstrongCheckExact(number);
      }
    }

    /** Adds every i in [1, number / 2] that divides `number`. */
    static method IsPerfectNumber(number: int) returns (b: bool)
      ensures b == PerfectCheck(number)
      ensures 1 <= number < 65536 ==> (b <==> IsPerfect(number))
    {
      var sum := 0;
      var i := 1;
      while i <= number / 2
        invariant 1 <= i && (i <= number / 2 + 1 || i == 1)
        invariant sum == Wrap(DivisorSum(number, i - 1))
      {
        if number % i == 0 {
          WrapAdd(DivisorSum(number, i - 1), i);
          sum := Wrap(sum + i);
        }
        i := i + 1;
      }
      b := sum == number;
      if 1 <= number < 65536 {
        PerfectCheckExact(number);
      }
    }
  }
}
