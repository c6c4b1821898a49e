/** Call sequences from python-test/tests/test_calculator.py, replayed on
    the Calculator class: each states the results and the history that
    follow from the contracts of the calculator's methods. */
module CalculatorScenarios {
  import opened Results
  import opened Calculator

  /** add(2, 3) then multiply(4, 5): both are recorded, in order. */
  method HistoryTracking() returns (history: seq<Entry>)
    ensures history == [Op(AddOp, 2.0, 3.0, 5.0), Op(MulOp, 4.0, 5.0, 20.0)]
  {
    var machine := new Calculator();
    var _ := machine.Add(2.0, 3.0);
    var _ := machine.Multiply(4.0, 5.0);
    history := machine.GetHistory();
  }

  /** add(1, 1) then clear_history(): the history is empty again. */
  method ClearAfterAdd() returns (history: seq<Entry>)
    ensures history == []
  {
    var machine := new Calculator();
    var _ := machine.Add(1.0, 1.0);
    machine.ClearHistory();
    history := machine.GetHistory();
  }

  /** Appending to one copy of the history changes neither another copy
      nor the calculator's own history. */
  method HistoryIndependence() returns (first: seq<Entry>, second: seq<Entry>, live: seq<Entry>)
    ensures |first| == 2 && |second| == 1 && |live| == 1
    ensures second == live == [Op(AddOp, 1.0, 1.0, 2.0)]
  {
    var machine := new Calculator();
    var _ := machine.Add(1.0, 1.0);
    first := machine.GetHistory();
    second := machine.GetHistory();
    first := first + [Op(AddOp, 0.0, 0.0, 0.0)];
    live := machine.GetHistory();
  }

  /** add(10, 5), multiply by 2, divide by 3, square: 100, with four entries. */
  method CalculationSequence() returns (result: real, history: seq<Entry>)
    ensures result == 100.0
    ensures history == [Op(AddOp, 10.0, 5.0, 15.0), Op(MulOp, 15.0, 2.0, 30.0),
                        Op(DivOp, 30.0, 3.0, 10.0), Op(PowOp, 10.0, 2.0, 100.0)]
  {
    var machine := new Calculator();
    var sum := machine.Add(10.0, 5.0);
    var product := machine.Multiply(sum, 2.0);
    var quotient := machine.Divide(product, 3.0);
    assert Pow(10.0, 2) == 100.0 by {
      assert Pow(10.0, 1) == 10.0 * Pow(10.0, 0) == 10.0;
    }
    result := machine.Power(quotient.value, 2);
    history := machine.GetHistory();
  }

  /** A division by zero in the middle of a sequence fails, is not recorded,
      and the operations after it still work. */
  method ErrorInSequence() returns (failed: Result<real, CalcError>, result: real, history: seq<Entry>)
    ensures failed == Err(DivideByZero)
    ensures result == 12.0
    ensures history == [Op(AddOp, 5.0, 5.0, 10.0), Op(MulOp, 3.0, 4.0, 12.0)]
  {
    var machine := new Calculator();
    var _ := machine.Add(5.0, 5.0);
    failed := machine.Divide(10.0, 0.0);
    result := machine.Multiply(3.0, 4.0);
    history := machine.GetHistory();
  }

  /** The first ten Fibonacci numbers the tests expect. */
  method FibonacciTen() returns (r: Result<seq<int>, CalcError>)
    ensures r == Ok([0, 1, 1, 2, 3, 5, 8, 13, 21, 34])
  {
    r := Fibonacci(10);
    var s := r.value;
    assert s[0] == 0 && s[1] == 1;
    assert s[2] == s[1] + s[0] == 1;
    assert s[3] == s[2] + s[1] == 2;
    assert s[4] == s[3] + s[2] == 3;
    assert s[5] == s[4] + s[3] == 5;
    assert s[6] == s[5] + s[4] == 8;
    assert s[7] == s[6] + s[5] == 13;
    assert s[8] == s[7] + s[6] == 21;
    assert s[9] == s[8] + s[7] == 34;
    var expected := [0, 1, 1, 2, 3, 5, 8, 13, 21, 34];
    assert forall i :: 0 <= i < 10 ==> s[i] == expected[i];
    assert s == expected;
  }
}
