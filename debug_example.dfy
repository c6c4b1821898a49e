/** The debugging-practice helpers of python-test/debug_example.py:
    `buggy_function`, `complex_calculation` and `fibonacci_debug`. */
module DebugExample {
  import opened Results
  import Calculator
  import Sums

  /** The ZeroDivisionError that `buggy_function` raises. */
  datatype DebugError = ZeroDivision

  /** buggy_function: doubles each number into a running total, but divides
      by zero at index 3. So it returns twice the sum of a list of at most
      three numbers, and fails on any longer list. */
  method BuggyFunction(numbers: seq<real>) returns (r: Result<real, DebugError>)
    ensures |numbers| <= 3 <==> r.Ok?
    ensures |numbers| <= 3 ==> r.value == 2.0 * Sums.Sum(numbers)
    ensures |numbers| > 3 ==> r == Err(ZeroDivision)
  {
    var total := 0.0;
    for i := 0 to |numbers|
      invariant i <= 3
      invariant total == 2.0 * Sums.Sum(numbers[..i])
    {
      if i == 3 {
        return Err(ZeroDivision);
      }
      var result := numbers[i] * 2.0;
      total := total + result;
      assert numbers[..i + 1][..i] == numbers[..i];
    }
    assert numbers[..|numbers|] == numbers;
    return Ok(total);
  }

  /** The value complex_calculation computes for one number:
      num^2 + 2*num for an even number, num^2 - 2*num for an odd one. */
  function Combined(num: int): real
  {
    if num % 2 == 0 then (num * num + 2 * num) as real else (num * num - 2 * num) as real
  }

  /** The three history entries one number adds, in call order:
      the square, the double, then their sum or difference. */
  function StepEntries(num: int): seq<Calculator.Entry>
  {
    var x := num as real;
    [ Calculator.Op(Calculator.PowOp, x, 2.0, x * x),
      Calculator.Op(Calculator.MulOp, x, 2.0, x * 2.0),
      if num % 2 == 0 then Calculator.Op(Calculator.AddOp, x * x, x * 2.0, Combined(num))
      else Calculator.Op(Calculator.SubOp, x * x, x * 2.0, Combined(num)) ]
  }

  /** The history complex_calculation leaves after processing `nums`. */
  function Trace(nums: seq<int>): (h: seq<Calculator.Entry>)
    ensures |h| == 3 * |nums|
  {
    if nums == [] then [] else Trace(nums[..|nums| - 1]) + StepEntries(nums[|nums| - 1])
  }

  lemma TraceSnoc(nums: seq<int>, i: nat)
    requires i < |nums|
    ensures Trace(nums[..i + 1]) == Trace(nums[..i]) + StepEntries(nums[i])
  {
    assert nums[..i + 1][..i] == nums[..i];
  }

  /** The calculator's square and double give back Combined: the cast of
      the integer formula equals the same formula computed over reals. */
  lemma CombinedFromCalculator(num: int)
    ensures Calculator.Pow(num as real, 2) == (num as real) * (num as real)
    ensures var x := num as real;
      Combined(num) == if num % 2 == 0 then Calculator.Pow(x, 2) + x * 2.0
                       else Calculator.Pow(x, 2) - x * 2.0
  {
    var x := num as real;
    assert Calculator.Pow(x, 2) == x * x by {
      assert Calculator.Pow(x, 1) == x * Calculator.Pow(x, 0) == x;
    }
    assert (num * num) as real == x * x;
  }

  /** One pass of complex_calculation's loop: square, double, then add the
      two for an even number or subtract them for an odd one. */
  method ProcessNumber(machine: Calculator.Calculator, num: int) returns (result: real)
    requires machine.Valid()
    modifies machine
    ensures machine.Valid()
    ensures result == Combined(num)
    ensures machine.history == old(machine.history) + StepEntries(num)
  {
    var squared := machine.Power(num as real, 2);
    var doubled := machine.Multiply(num as real, 2.0);
    if num % 2 == 0 {
      result := machine.Add(squared, doubled);
    } else {
      result := machine.Subtract(squared, doubled);
    }
    CombinedFromCalculator(num);
  }

  /** complex_calculation: drives a fresh calculator over [1, 2, 3, 4, 5].
      `log` is that calculator's history at the end, which the source does
      not return; it is here only to state what the calculator recorded. */
  method ComplexCalculation() returns (results: seq<real>, ghost log: seq<Calculator.Entry>)
    ensures results == [-1.0, 8.0, 3.0, 24.0, 15.0]
    ensures |results| == 5 && forall k :: 0 <= k < 5 ==> results[k] == Combined(k + 1)
    ensures log == Trace([1, 2, 3, 4, 5]) && |log| == 15
  {
    var machine := new Calculator.Calculator();
    var numbers := [1, 2, 3, 4, 5];
    results := [];
    for i := 0 to |numbers|
      invariant machine.Valid()
      invariant |results| == i
      invariant forall k :: 0 <= k < i ==> results[k] == Combined(numbers[k])
      invariant machine.history == Trace(numbers[..i])
    {
      var result := ProcessNumber(machine, numbers[i]);
      TraceSnoc(numbers, i);
      results := results + [result];
    }
    assert numbers[..5] == numbers;
    log := machine.history;
  }

  /** fibonacci_debug: like fibonacci, but returns [] for every n <= 0
      instead of raising for a negative n. */
  method FibonacciDebug(n: int) returns (s: seq<int>)
    ensures n <= 0 ==> s == []
    ensures n >= 1 ==> |s| == n && Calculator.FibonacciShaped(s)
    ensures n >= 0 ==> s == Calculator.FibSeq(n)
  {
    if n <= 0 {
      s := [];
    } else if n == 1 {
      s := [0];
    } else if n == 2 {
      s := [0, 1];
    } else {
      var sequence := [0, 1];
      for i := 2 to n
        invariant |sequence| == i
        invariant forall k :: 0 <= k < i ==> sequence[k] == Calculator.Fib(k)
      {
        var nextVal := sequence[i - 1] + sequence[i - 2];
        sequence := sequence + [nextVal];
      }
      s := sequence;
    }
    if n >= 0 {
      assert s == Calculator.FibSeq(n);
      Calculator.FibonacciShapedIff(s);
    }
  }

  /** The two Fibonacci implementations agree on every n >= 0; on a negative
      n, fibonacci raises while fibonacci_debug returns []. */
  method CompareFibonacci(n: int) returns (checked: Result<seq<int>, Calculator.CalcError>, debug: seq<int>)
    ensures n >= 0 ==> checked == Ok(debug)
    ensures n < 0 ==> checked == Err(Calculator.NegativeTerms) && debug == []
  {
    checked := Calculator.Fibonacci(n);
    debug := FibonacciDebug(n);
  }
}
