/** The basic calculator: one accumulator and four binary operators on it
    (src/main/java/org/unibl/etf/Calculator.java). The accumulator is an
    exact real; IEEE-754 rounding is not modelled. */
module BasicCalculator {
  import opened Errors

  class Calculator {
    /** The accumulator, the calculator's only state. */
    var currentValue: real

    /** A new calculator starts at 0.0. */
    constructor ()
      ensures currentValue == 0.0
    {
      currentValue := 0.0;
    }

    /** Applies `operator` with right operand `value` to the accumulator.
        Every failure leaves the accumulator as it was. */
    method Calculate(value: real, operator: char) returns (outcome: Outcome)
      modifies this
      ensures operator == '+' ==> outcome == Pass && currentValue == old(currentValue) + value
      ensures operator == '-' ==> outcome == Pass && currentValue == old(currentValue) - value
      ensures operator == '*' ==> outcome == Pass && currentValue == old(currentValue) * value
      ensures operator == '/' && value != 0.0 ==>
                outcome == Pass && currentValue == old(currentValue) / value
      ensures operator == '/' && value == 0.0 ==> outcome == Fail(DivisionByZero)
      ensures operator !in {'+', '-', '*', '/'} ==> outcome == Fail(NotSupported)
      ensures outcome.Fail? ==> currentValue == old(currentValue)
    {
      match operator
      case '+' =>
        currentValue := currentValue + value;
        outcome := Pass;
      case '-' =>
        currentValue := currentValue - value;
        outcome := Pass;
      case '*' =>
        currentValue := currentValue * value;
        outcome := Pass;
      case '/' =>
        if value == 0.0 {
          outcome := Fail(DivisionByZero);
        } else {
          currentValue := currentValue / value;
          outcome := Pass;
        }
      case _ =>
        outcome := Fail(NotSupported);
    }

    /** Reads the accumulator; there is no modifies clause, so nothing changes. */
    method GetCurrentValue() returns (v: real)
      ensures v == currentValue
    {
      v := currentValue;
    }

    /** Overwrites the accumulator with `v` exactly. */
    method SetCurrentValue(v: real)
      modifies this
      ensures currentValue == v
    {
      currentValue := v;
    }
  }
}
