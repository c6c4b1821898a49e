# Calculator, number analysis and debugging helpers

This project models the computational core of the `python-test` sample project.

- **`Calculator` class** (`python-test/src/calculator.py`). It adds, subtracts, multiplies, divides and raises to a power. Every successful operation is appended to a history list. `get_history` hands out a copy of that list and `clear_history` empties it. A division by zero raises before the history is touched.
- **`factorial` and `fibonacci`** (same file). Both are loops over integers and both reject a negative argument.
- **`DataProcessor.analyze_numbers`** (`python-test/src/data_processor.py`). It summarises a list of numbers by count, sum, mean, min, max and median. The median is the middle of the sorted list, or the average of the two middle elements. An empty list gives an empty result.
- **The debugging examples** (`python-test/debug_example.py`):
  - `buggy_function` doubles numbers into a total, but divides by zero at index 3.
  - `complex_calculation` drives a calculator over 1..5.
  - `fibonacci_debug` is a variant of `fibonacci` that returns `[]` for any n ≤ 0.

Modules:

- `Results` (results.dfy): `Option` and `Result`. A raised `ValueError` or `ZeroDivisionError` becomes an `Err`. The empty dictionary of `analyze_numbers` becomes `None`.
- `Sums` (sums.dfy): Python's built-in `sum`, used by `analyze_numbers` and `buggy_function`.
- `Calculator` (calculator.dfy): the class, `Factorial` and `Fibonacci`.
  - The class has a real `history: seq<Entry>` field. It also has a ghost log `calls` of every call made on the object, including failed ones and clears.
  - The class invariant `Valid()` says `history == Run(calls)`.
  - `RunIsRecorded` proves that `Run(calls)` is exactly the entries of the successful calls since the last clear, in call order.
- `CalculatorScenarios` (calculator_scenarios.dfy): call sequences from the calculator tests, replayed on the class.
- `DataProcessor` (data_processor.dfy): `AnalyzeNumbers` and its specification.
  - Sorting is an insertion sort that is proved ascending and a permutation.
  - `AscendingUnique` proves the sorted order is unique, so the median does not depend on how the list is sorted.
- `DebugExample` (debug_example.dfy): the three debugging helpers.

Line 56 of `python-test/src/calculator.py` (`operation = ...` in `subtract`) is indented less than the rest of the method body. As written, the module does not parse. The model follows the evident intent: `subtract` records its operation the way `add`, `multiply`, `divide` and `power` record theirs. `complex_calculation` relies on `subtract` working (`python-test/debug_example.py:50`).

## Model

| member | source | states |
|---|---|---|
| Calculator.Recorded | python-test/src/calculator.py:38-131 | a call leaves no entry exactly when it is a clear or a division by a zero divisor; every entry it leaves holds the call's own operation and operands (the exponent of a power as a number) and the right result for them |
| Calculator.SinceLastClear | python-test/src/calculator.py:129-132 | the calls that still count towards the history are a suffix of all calls that contains no clear and, unless it is all of them, is preceded directly by a clear |
| Calculator.RunIsRecorded | python-test/src/calculator.py:38-132 | the history after any sequence of calls is exactly the entries of the successful operations made since construction or the last clear, in call order |
| Calculator.HistoryLength | python-test/src/calculator.py:38-132 | the history's length is the number of successful operations since construction or the last clear |
| Calculator.RunEntriesCorrect | python-test/src/calculator.py:38-118 | every entry of every reachable history has the result its operation gives on its operands |
| Calculator.DivideByZeroKeepsHistory | python-test/src/calculator.py:92-101 | a division by zero leaves the history unchanged, and a successful operation after it is still appended |
| Calculator.Calculator.constructor | python-test/src/calculator.py:22-25 | a new calculator has an empty history |
| Calculator.Calculator.Add | python-test/src/calculator.py:27-42 | returns a + b and appends that entry; the class invariant is kept |
| Calculator.Calculator.Subtract | python-test/src/calculator.py:44-59 | returns a - b and appends that entry; the class invariant is kept |
| Calculator.Calculator.Multiply | python-test/src/calculator.py:61-76 | returns a * b and appends that entry; the class invariant is kept |
| Calculator.Calculator.Divide | python-test/src/calculator.py:78-101 | a zero divisor gives the divide-by-zero error and leaves the history unchanged; otherwise returns a / b and appends that entry |
| Calculator.Calculator.Power | python-test/src/calculator.py:103-118 | returns base raised to the exponent and appends that entry; the class invariant is kept |
| Calculator.Calculator.GetHistory | python-test/src/calculator.py:120-127 | returns the history as an independent value |
| Calculator.Calculator.ClearHistory | python-test/src/calculator.py:129-132 | empties the history; the class invariant is kept |
| Calculator.Factorial | python-test/src/calculator.py:135-159 | fails exactly for a negative n; otherwise returns n! (the loop multiplies 2..n into 1) |
| Calculator.FactFacts | python-test/src/calculator.py:148-159 | n! is at least 1 and at least n; 0! = 1! = 1, 5! = 120 and 10! = 3628800 |
| Calculator.FibonacciShapedIff | python-test/src/calculator.py:178-187 | a list starts 0, 1 and each later element is the sum of the two before it exactly when it is the first Fibonacci numbers |
| Calculator.Fibonacci | python-test/src/calculator.py:162-190 | fails exactly for a negative n; otherwise returns n numbers with the Fibonacci shape, namely the first n Fibonacci numbers |
| CalculatorScenarios.HistoryTracking | python-test/tests/test_calculator.py:53-61 | add(2, 3) and multiply(4, 5) leave exactly those two entries, in order |
| CalculatorScenarios.ClearAfterAdd | python-test/tests/test_calculator.py:63-67 | after clear_history the history is empty |
| CalculatorScenarios.HistoryIndependence | python-test/tests/test_calculator.py:69-80 | extending one copy of the history changes neither another copy nor the calculator's history |
| CalculatorScenarios.CalculationSequence | python-test/tests/test_calculator.py:181-195 | (10 + 5) * 2 / 3 squared is 100, with four entries recorded |
| CalculatorScenarios.ErrorInSequence | python-test/tests/test_calculator.py:197-214 | a division by zero mid-sequence fails and is not recorded, and the multiplication after it gives 12 |
| CalculatorScenarios.FibonacciTen | python-test/tests/test_calculator.py:124-127 | fibonacci(10) is [0, 1, 1, 2, 3, 5, 8, 13, 21, 34] |
| DataProcessor.Min | python-test/src/data_processor.py:156 | the minimum is an element of the list and no element is smaller |
| DataProcessor.Max | python-test/src/data_processor.py:157 | the maximum is an element of the list and no element is larger |
| DataProcessor.InsertCorrect | python-test/src/data_processor.py:161 | inserting adds exactly one element and keeps an ascending list ascending |
| DataProcessor.SortAscendingCorrect | python-test/src/data_processor.py:161 | sorting yields an ascending permutation of the input |
| DataProcessor.AscendingUnique | python-test/src/data_processor.py:161 | two ascending lists with the same elements are equal, so the sorted list is unique |
| DataProcessor.AnalyzeNumbers | python-test/src/data_processor.py:139-169 | empty input gives no summary and any other input gives one; count and sum are the list's; mean times count is the sum; min and max are elements bounding every element |
| DataProcessor.MedianIsMiddle | python-test/src/data_processor.py:160-166 | for any ascending arrangement of the input, the median is its middle element for an odd count and the average of its two middle elements for an even count |
| DataProcessor.AscendingEnds | python-test/src/data_processor.py:156-161 | the first and last elements of the sorted input are its min and max |
| DataProcessor.MedianBetween | python-test/src/data_processor.py:156-166 | the median lies between min and max |
| DataProcessor.SumPermutation | python-test/src/data_processor.py:154 | reordering a list does not change its sum |
| DataProcessor.PermutationInvariant | python-test/src/data_processor.py:149-169 | the summary depends only on the multiset of the numbers, not their order |
| DataProcessor.SummaryOfAscending | python-test/src/data_processor.py:156-166 | on an ascending list, min and max are its ends and the median is read off the list itself |
| DataProcessor.SingleNumber | python-test/tests/test_data_processor.py:118-131 | a one-element list summarises to count 1 and that number everywhere else |
| DataProcessor.ExampleOneToFive | python-test/tests/test_data_processor.py:90-104 | [1, 2, 3, 4, 5] gives count 5, sum 15, mean 3, min 1, max 5, median 3 |
| DataProcessor.ExampleMedianEven | python-test/tests/test_data_processor.py:106-111 | the median of [1, 2, 3, 4] is 2.5 |
| DataProcessor.ExampleMedianOdd | python-test/tests/test_data_processor.py:133-142 | the median of [1, 2, 3] is 2 |
| DataProcessor.ExampleMedianUnsorted | python-test/tests/test_data_processor.py:133-142 | the median of the unsorted [5, 1, 3] is 3 |
| DebugExample.BuggyFunction | python-test/debug_example.py:14-29 | a list of at most three numbers gives twice their sum; any longer list fails with ZeroDivisionError |
| DebugExample.Trace | python-test/debug_example.py:40-53 | each processed number adds three history entries |
| DebugExample.CombinedFromCalculator | python-test/debug_example.py:44-50 | squaring and doubling with the calculator and then adding (even) or subtracting (odd) gives num^2 ± 2·num |
| DebugExample.ProcessNumber | python-test/debug_example.py:40-53 | one loop pass returns the combined value and appends the square, the double and the sum or difference, in that order |
| DebugExample.ComplexCalculation | python-test/debug_example.py:32-55 | returns [-1, 8, 3, 24, 15], each the combined value of 1..5, and the calculator records 15 entries in call order |
| DebugExample.FibonacciDebug | python-test/debug_example.py:58-77 | n ≤ 0 gives []; otherwise n numbers with the Fibonacci shape, namely the first n Fibonacci numbers |
| DebugExample.CompareFibonacci | python-test/debug_example.py:58-77 | fibonacci_debug agrees with fibonacci for every n ≥ 0; for a negative n, fibonacci fails where fibonacci_debug returns [] |

## Left out

- Floating point: numbers are exact reals. Rounding, `pytest.approx` comparisons, and the int/float distinction of Python results (`3` against `3.0`) are not modelled.
- Calculator.Calculator.Power: the exponent is a natural number. Fractional and negative exponents (`power(4, 0.5)`), and the complex results Python gives for some of them, are not modelled.
- History text: the source stores strings such as `"2 + 3 = 5"`. The model stores the operation, the operands and the result, and does not model Python's number formatting.
- Logging (`logger.info`, `logger.debug`, `logger.error`) is a side effect with no bearing on results and is left out. The error messages of the raised exceptions are reduced to the error kinds.
- DebugExample.ComplexCalculation: the final history is returned as a ghost value only, to state what the calculator recorded. The source does not return it.
- The file operations of `DataProcessor`: loading and saving JSON and CSV, and `create_sample_data`. They are I/O and random data.
- `python-test/src/web_demo.py` and `python-test/conftest.py`: a web front end and test fixtures, outside the computational core.
- `conditional_breakpoint_example`, `variable_inspection_example` and the `__main__` demo blocks: debugger demonstrations and printing.
- Aliasing of the Python history list: `get_history` returns a copy, and a Dafny sequence is a value, so the copy cannot alias the calculator's list.
