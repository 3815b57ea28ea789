/** Clients of the two calculators that replay the repository's unit-test
    vectors; each assertion follows from the contracts alone. */
module Scenarios {
  import opened Errors
  import opened BasicCalculator
  import opened IntMath
  import opened AdvancedCalculator

  /** Vectors of src/test/java/org/unibl/etf/CalculatorTest.java. */
  method BasicScenarios() {
    var c := new Calculator();
    var v := c.GetCurrentValue();
    assert v == 0.0;

    c.SetCurrentValue(42.0);
    v := c.GetCurrentValue();
    assert v == 42.0;

    c.SetCurrentValue(2.0);
    var o := c.Calculate(5.0, '+');
    v := c.GetCurrentValue();
    assert o == Pass && v == 7.0;

    c.SetCurrentValue(2.0);
    o := c.Calculate(-10.0, '-');
    assert o == Pass && c.currentValue == 12.0;

    c.SetCurrentValue(2.0);
    o := c.Calculate(4.0, '*');
    assert o == Pass && c.currentValue == 8.0;

    c.SetCurrentValue(2.0);
    o := c.Calculate(10.0, '/');
    assert o == Pass && c.currentValue == 0.2;

    o := c.Calculate(0.0, '/');
    assert o == Fail(DivisionByZero) && c.currentValue == 0.2;

    o := c.Calculate(2.5, '!');
    assert o == Fail(NotSupported) && c.currentValue == 0.2;

    o := c.Calculate(11.24, 'a');
    assert o == Fail(NotSupported) && c.currentValue == 0.2;
  }

  /** The remaining arithmetic vectors of src/test/java/org/unibl/etf/CalculatorTest.java,
      each from an accumulator of 2.0. */
  method MoreArithmeticScenarios() {
    var c := new Calculator();
    c.SetCurrentValue(99.0);
    var v := c.GetCurrentValue();
    assert v == 99.0;

    c.SetCurrentValue(2.0);
    var o := c.Calculate(0.0, '+');
    assert o == Pass && c.currentValue == 2.0;

    c.SetCurrentValue(2.0);
    o := c.Calculate(-5.0, '+');
    assert o == Pass && c.currentValue == -3.0;

    c.SetCurrentValue(2.0);
    o := c.Calculate(3.0, '-');
    assert o == Pass && c.currentValue == -1.0;

    c.SetCurrentValue(2.0);
    o := c.Calculate(0.0, '-');
    assert o == Pass && c.currentValue == 2.0;

    c.SetCurrentValue(2.0);
    o := c.Calculate(12.1, '*');
    assert o == Pass && c.currentValue == 24.2;

    c.SetCurrentValue(2.0);
    o := c.Calculate(-12.56, '*');
    assert o == Pass && c.currentValue == -25.12;

    c.SetCurrentValue(2.0);
    o := c.Calculate(-2.0, '/');
    assert o == Pass && c.currentValue == -1.0;

    c.SetCurrentValue(2.0);
    o := c.Calculate(1.0, '/');
    assert o == Pass && c.currentValue == 2.0;
  }

  /** The remaining rejected operators of src/test/java/org/unibl/etf/CalculatorTest.java. */
  method MoreUnsupportedOperatorScenarios() {
    var c := new Calculator();
    var o := c.Calculate(5.0, '?');
    assert o == Fail(NotSupported) && c.currentValue == 0.0;
    o := c.Calculate(5.0, '#');
    assert o == Fail(NotSupported) && c.currentValue == 0.0;
    o := c.Calculate(3.0, 'z');
    assert o == Fail(NotSupported) && c.currentValue == 0.0;
  }

  /** Adding then subtracting, or multiplying then dividing by a nonzero
      value, gives the accumulator back. */
  method UndoScenarios(c: Calculator, x: real)
    modifies c
  {
    var before := c.currentValue;
    var o := c.Calculate(x, '+');
    o := c.Calculate(x, '-');
    assert c.currentValue == before;
    if x != 0.0 {
      o := c.Calculate(x, '*');
      assert c.currentValue == before * x;
      o := c.Calculate(x, '/');
      DivideUndoesMultiply(before, x);
      assert o == Pass && c.currentValue == before;
    }
  }

  lemma DivideUndoesMultiply(b: real, x: real)
    requires x != 0.0
    ensures (b * x) / x == b
  {
  }

  /** Vectors of src/test/java/org/unibl/etf/CalculatorAdvancedTest.java for
      the factorial and power actions. */
  method AdvancedActionScenarios() {
    var a := new CalculatorAdvanced();
    a.basic.SetCurrentValue(2.0);
    var o := a.CalculateAdvanced('9');
    assert o == Pass && a.basic.currentValue == 512.0;

    a.basic.SetCurrentValue(2.0);
    o := a.CalculateAdvanced('0');
    assert o == Pass && a.basic.currentValue == 1.0;

    a.basic.SetCurrentValue(2.0);
    o := a.CalculateAdvanced('!');
    assert o == Pass && a.basic.currentValue == 2.0;

    a.basic.SetCurrentValue(0.0);
    o := a.CalculateAdvanced('!');
    assert o == Pass && a.basic.currentValue == 1.0;

    a.basic.SetCurrentValue(7.0);
    o := a.CalculateAdvanced('!');
    assert o == Pass && a.basic.currentValue == 5040.0;

    a.basic.SetCurrentValue(10.0);
    o := a.CalculateAdvanced('!');
    assert o == Pass && a.basic.currentValue == 3628800.0;

    a.basic.SetCurrentValue(11.4);
    o := a.CalculateAdvanced('!');
    assert o == Fail(NumberNotInArea) && a.basic.currentValue == 11.4;

    a.basic.SetCurrentValue(-12.0);
    o := a.CalculateAdvanced('!');
    assert o == Fail(NumberNotInArea) && a.basic.currentValue == -12.0;

    a.basic.SetCurrentValue(14.0);
    o := a.CalculateAdvanced('e');
    assert o == Fail(NotSupported) && a.basic.currentValue == 14.0;
  }

  /** The remaining power and rejected-action vectors of
      src/test/java/org/unibl/etf/CalculatorAdvancedTest.java. */
  method MoreAdvancedActionScenarios() {
    var a := new CalculatorAdvanced();
    a.basic.SetCurrentValue(2.0);
    var o := a.CalculateAdvanced('1');
    assert o == Pass && a.basic.currentValue == 2.0;

    a.basic.SetCurrentValue(2.0);
    o := a.CalculateAdvanced('2');
    assert o == Pass && a.basic.currentValue == 4.0;

    a.basic.SetCurrentValue(22.0);
    o := a.CalculateAdvanced('.');
    assert o == Fail(NotSupported) && a.basic.currentValue == 22.0;
  }

  /** The three-digit Armstrong vector of src/test/java/org/unibl/etf/CalculatorAdvancedTest.java. */
  method ThreeDigitArmstrongScenario() {
    var a := new CalculatorAdvanced();
    a.basic.SetCurrentValue(370.0);
    assert a.TruncatedValue() == 370;
    var r := a.HasCharacteristic('A');
    assert DigitCount(370) == 3;
    assert DigitPowerSum(3, 3) == 27;
    assert DigitPowerSum(37, 3) == 343 + 27;
    assert DigitPowerSum(370, 3) == 370;
    assert r == Ok(true);
  }

  /** The two-digit Armstrong vector of src/test/java/org/unibl/etf/CalculatorAdvancedTest.java. */
  method TwoDigitArmstrongScenario() {
    var a := new CalculatorAdvanced();
    a.basic.SetCurrentValue(10.0);
    var r := a.HasCharacteristic('A');
    assert DigitCount(10) == 2 && DigitPowerSum(10, 2) == 1;
    assert r == Ok(false);
  }

  /** Single-digit Armstrong vectors of src/test/java/org/unibl/etf/CalculatorAdvancedTest.java. */
  method SingleDigitArmstrongScenarios() {
    var a := new CalculatorAdvanced();
    a.basic.SetCurrentValue(6.0);
    var r := a.HasCharacteristic('A');
    assert DigitCount(6) == 1 && DigitPowerSum(6, 1) == 6;
    assert r == Ok(true);

    a.basic.SetCurrentValue(1.0);
    r := a.HasCharacteristic('A');
    assert DigitCount(1) == 1 && DigitPowerSum(1, 1) == 1;
    assert r == Ok(true);
  }

  /** Perfect-number vectors of src/test/java/org/unibl/etf/CalculatorAdvancedTest.java. */
  method PerfectScenarios() {
    var a := new CalculatorAdvanced();
    a.basic.SetCurrentValue(6.0);
    var r := a.HasCharacteristic('P');
    assert DivisorSum(6, 5) == 6;
    assert r == Ok(true);

    a.basic.SetCurrentValue(10.0);
    r := a.HasCharacteristic('P');
    assert DivisorSum(10, 9) == 8;
    assert r == Ok(false);

    a.basic.SetCurrentValue(1.0);
    r := a.HasCharacteristic('P');
    assert DivisorSum(1, 0) == 0;
    assert r == Ok(false);
  }

  /** Rejected checks of src/test/java/org/unibl/etf/CalculatorAdvancedTest.java. */
  method CharacteristicErrorScenarios() {
    var a := new CalculatorAdvanced();
    a.basic.SetCurrentValue(0.17);
    var r := a.HasCharacteristic('A');
    assert r == Err(NumberNotInArea) && a.basic.currentValue == 0.17;

    a.basic.SetCurrentValue(0.88);
    r := a.HasCharacteristic('P');
    assert r == Err(NumberNotInArea);

    a.basic.SetCurrentValue(-4.0);
    r := a.HasCharacteristic('P');
    assert r == Err(NumberNotInArea);

    a.basic.SetCurrentValue(0.1);
    r := a.HasCharacteristic('A');
    assert r == Err(NumberNotInArea);

    a.basic.SetCurrentValue(0.5);
    r := a.HasCharacteristic('P');
    assert r == Err(NumberNotInArea);

    a.basic.SetCurrentValue(0.0);
    r := a.HasCharacteristic('J');
    assert r == Err(NotSupported);

    a.basic.SetCurrentValue(15.0);
    r := a.HasCharacteristic('.');
    assert r == Err(NotSupported);
  }
}
