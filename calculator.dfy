/** The calculator of python-test/src/calculator.py: a class that records
    every successful arithmetic operation in a history list, and the two
    loop-based integer functions `factorial` and `fibonacci`.

    Numbers are exact reals (the source's ints and floats, without rounding);
    `power` takes a natural exponent. */
module Calculator {
  import opened Results

  /** The operations a calculator records. */
  datatype OpKind = AddOp | SubOp | MulOp | DivOp | PowOp

  /** One history entry: the operation, its two operands and its result.
      The source keeps the text "a + b = result"; the model keeps its parts. */
  datatype Entry = Op(kind: OpKind, a: real, b: real, result: real)

  /** The failures the source signals with ValueError. */
  datatype CalcError = DivideByZero | NegativeFactorial | NegativeTerms

  /** `base ** exponent` for a natural exponent. */
  function Pow(base: real, exponent: nat): real
  {
    if exponent == 0 then 1.0 else base * Pow(base, exponent - 1)
  }

  // ---------------------------------------------------------------------
  // The history as a function of the calls made on a calculator
  // ---------------------------------------------------------------------

  /** A call on a calculator, successful or not. */
  datatype Call =
    | CallAdd(a: real, b: real)
    | CallSubtract(a: real, b: real)
    | CallMultiply(a: real, b: real)
    | CallDivide(a: real, b: real)
    | CallPower(base: real, exponent: nat)
    | CallClear

  /** The entry a call appends, or None when it appends nothing: a division
      by zero raises before the history is touched, and a clear appends no entry. */
  function Recorded(c: Call): (e: Option<Entry>)
    ensures e.None? <==> c.CallClear? || (c.CallDivide? && c.b == 0.0)
    ensures e.Some? ==> e.value.kind == KindOf(c) && e.value.a == First(c) && e.value.b == Second(c)
    ensures e.Some? ==> e.value.result == Evaluate(e.value.kind, e.value.a, e.value.b)
  {
    match c
    case CallAdd(a, b) => Some(Op(AddOp, a, b, a + b))
    case CallSubtract(a, b) => Some(Op(SubOp, a, b, a - b))
    case CallMultiply(a, b) => Some(Op(MulOp, a, b, a * b))
    case CallDivide(a, b) => if b == 0.0 then None else Some(Op(DivOp, a, b, a / b))
    case CallPower(base, exponent) => Some(Op(PowOp, base, exponent as real, Pow(base, exponent)))
    case CallClear => None
  }

  /** The operation an arithmetic call performs. */
  function KindOf(c: Call): OpKind
    requires !c.CallClear?
  {
    match c
    case CallAdd(_, _) => AddOp
    case CallSubtract(_, _) => SubOp
    case CallMultiply(_, _) => MulOp
    case CallDivide(_, _) => DivOp
    case CallPower(_, _) => PowOp
  }

  /** The first operand of an arithmetic call (the base of a power). */
  function First(c: Call): real
    requires !c.CallClear?
  {
    if c.CallPower? then c.base else c.a
  }

  /** The second operand of an arithmetic call (the exponent of a power, as a real). */
  function Second(c: Call): real
    requires !c.CallClear?
  {
    if c.CallPower? then c.exponent as real else c.b
  }

  /** What an operation of the given kind yields on the given operands
      (a natural exponent is read back from its real value; a zero divisor yields 0,
      a case no recorded entry has). */
  function Evaluate(kind: OpKind, a: real, b: real): real
  {
    match kind
    case AddOp => a + b
    case SubOp => a - b
    case MulOp => a * b
    case DivOp => if b == 0.0 then 0.0 else a / b
    case PowOp => if b >= 0.0 then Pow(a, b.Floor as nat) else 0.0
  }

  /** The history after one more call. */
  function Step(h: seq<Entry>, c: Call): seq<Entry>
  {
    match c
    case CallClear => []
    case _ => match Recorded(c)
      case Some(e) => h + [e]
      case None => h
  }

  /** The history of a calculator after the given calls, starting from a new one. */
  function Run(calls: seq<Call>): seq<Entry>
  {
    if calls == [] then [] else Step(Run(calls[..|calls| - 1]), calls[|calls| - 1])
  }

  /** The calls made after the last clear (all of them if there was none). */
  function SinceLastClear(calls: seq<Call>): (r: seq<Call>)
    ensures |r| <= |calls| && r == calls[|calls| - |r|..]
    ensures |r| < |calls| ==> calls[|calls| - |r| - 1] == CallClear
    ensures CallClear !in r
  {
    if calls == [] then []
    else if calls[|calls| - 1] == CallClear then []
    else SinceLastClear(calls[..|calls| - 1]) + [calls[|calls| - 1]]
  }

  /** The entries of the successful calls among `calls`, in call order. */
  function Successes(calls: seq<Call>): seq<Entry>
  {
    if calls == [] then [] else Appended(calls[0]) + Successes(calls[1..])
  }

  /** The entries one call appends: one for a success, none otherwise. */
  function Appended(c: Call): seq<Entry>
  {
    match Recorded(c) case Some(e) => [e] case None => []
  }

  /** The number of successful arithmetic calls among `calls`. */
  function SuccessCount(calls: seq<Call>): nat
  {
    if calls == [] then 0
    else (if Recorded(calls[0]).Some? then 1 else 0) + SuccessCount(calls[1..])
  }

  lemma {:induction false} SuccessesSnoc(calls: seq<Call>, c: Call)
    ensures Successes(calls + [c]) == Successes(calls) + Appended(c)
  {
    if calls == [] {
      assert [c][1..] == [];
      assert calls + [c] == [c];
    } else {
      var longer := calls + [c];
      assert longer[0] == calls[0];
      assert longer[1..] == calls[1..] + [c];
      SuccessesSnoc(calls[1..], c);
      calc {
        Successes(longer);
        Appended(calls[0]) + Successes(calls[1..] + [c]);
        Appended(calls[0]) + (Successes(calls[1..]) + Appended(c));
        (Appended(calls[0]) + Successes(calls[1..])) + Appended(c);
      }
    }
  }

  /** The history holds exactly the entries of the successful calls since the
      last clear (or since construction), in the order they were made. */
  lemma {:induction false} RunIsRecorded(calls: seq<Call>)
    ensures Run(calls) == Successes(SinceLastClear(calls))
  {
    if calls != [] {
      var init, c := calls[..|calls| - 1], calls[|calls| - 1];
      RunIsRecorded(init);
      if c != CallClear {
        SuccessesSnoc(SinceLastClear(init), c);
      }
    }
  }

  lemma {:induction false} SuccessesLength(calls: seq<Call>)
    ensures |Successes(calls)| == SuccessCount(calls)
  {
    if calls != [] {
      SuccessesLength(calls[1..]);
    }
  }

  /** The history length is the number of successful operations since
      construction or the last clear. */
  lemma HistoryLength(calls: seq<Call>)
    ensures |Run(calls)| == SuccessCount(SinceLastClear(calls))
  {
    RunIsRecorded(calls);
    SuccessesLength(SinceLastClear(calls));
  }

  /** Every entry of a history is arithmetically right. */
  lemma {:induction false} RunEntriesCorrect(calls: seq<Call>)
    ensures forall e :: e in Run(calls) ==> e.result == Evaluate(e.kind, e.a, e.b)
  {
    if calls != [] {
      RunEntriesCorrect(calls[..|calls| - 1]);
    }
  }

  /** A failed division leaves the history exactly as it was, and a later
      successful operation is still recorded after it. */
  lemma DivideByZeroKeepsHistory(calls: seq<Call>, a: real, c: Call)
    requires Recorded(c).Some?
    ensures Run(calls + [CallDivide(a, 0.0)]) == Run(calls)
    ensures Run(calls + [CallDivide(a, 0.0), c]) == Run(calls) + [Recorded(c).value]
  {
    var once := calls + [CallDivide(a, 0.0)];
    assert once[..|once| - 1] == calls;
    var twice := calls + [CallDivide(a, 0.0), c];
    assert twice[..|twice| - 1] == once;
  }

  lemma RunSnoc(calls: seq<Call>, c: Call)
    ensures Run(calls + [c]) == Step(Run(calls), c)
  {
    assert (calls + [c])[..|calls|] == calls;
  }

  // ---------------------------------------------------------------------
  // The Calculator class
  // ---------------------------------------------------------------------

  class Calculator {
    /** The recorded operations, oldest first. */
    var history: seq<Entry>
    /** Every call made on this calculator, failed ones and clears included. */
    ghost var calls: seq<Call>

    ghost predicate Valid()
      reads this
    {
      history == Run(calls)
    }

    constructor ()
      ensures Valid() && history == [] && calls == []
    {
      history := [];
      calls := [];
    }

    method Add(a: real, b: real) returns (r: real)
      requires Valid()
      modifies this
      ensures Valid() && calls == old(calls) + [CallAdd(a, b)]
      ensures r == a + b
      ensures history == old(history) + [Op(AddOp, a, b, r)]
    {
      r := a + b;
      history := history + [Op(AddOp, a, b, r)];
      RunSnoc(calls, CallAdd(a, b));
      calls := calls + [CallAdd(a, b)];
    }

    method Subtract(a: real, b: real) returns (r: real)
      requires Valid()
      modifies this
      ensures Valid() && calls == old(calls) + [CallSubtract(a, b)]
      ensures r == a - b
      ensures history == old(history) + [Op(SubOp, a, b, r)]
    {
      r := a - b;
      history := history + [Op(SubOp, a, b, r)];
      RunSnoc(calls, CallSubtract(a, b));
      calls := calls + [CallSubtract(a, b)];
    }

    method Multiply(a: real, b: real) returns (r: real)
      requires Valid()
      modifies this
      ensures Valid() && calls == old(calls) + [CallMultiply(a, b)]
      ensures r == a * b
      ensures history == old(history) + [Op(MulOp, a, b, r)]
    {
      r := a * b;
      history := history + [Op(MulOp, a, b, r)];
      RunSnoc(calls, CallMultiply(a, b));
      calls := calls + [CallMultiply(a, b)];
    }

    /** Division raises on a zero divisor before the history is touched. */
    method Divide(a: real, b: real) returns (r: Result<real, CalcError>)
      requires Valid()
      modifies this
      ensures Valid() && calls == old(calls) + [CallDivide(a, b)]
      ensures b == 0.0 ==> r == Err(DivideByZero) && history == old(history)
      ensures b != 0.0 ==> r == Ok(a / b) && history == old(history) + [Op(DivOp, a, b, a / b)]
    {
      RunSnoc(calls, CallDivide(a, b));
      calls := calls + [CallDivide(a, b)];
      if b == 0.0 {
        return Err(DivideByZero);
      }
      var q := a / b;
      history := history + [Op(DivOp, a, b, q)];
      r := Ok(q);
    }

    method Power(base: real, exponent: nat) returns (r: real)
      requires Valid()
      modifies this
      ensures Valid() && calls == old(calls) + [CallPower(base, exponent)]
      ensures r == Pow(base, exponent)
      ensures history == old(history) + [Op(PowOp, base, exponent as real, r)]
    {
      r := Pow(base, exponent);
      history := history + [Op(PowOp, base, exponent as real, r)];
      RunSnoc(calls, CallPower(base, exponent));
      calls := calls + [CallPower(base, exponent)];
    }

    /** A copy of the history: a sequence is a value, so changing what the
        caller receives cannot change the calculator. */
    method GetHistory() returns (h: seq<Entry>)
      ensures h == history
    {
      h := history;
    }

    method ClearHistory()
      requires Valid()
      modifies this
      ensures Valid() && calls == old(calls) + [CallClear]
      ensures history == []
    {
      history := [];
      RunSnoc(calls, CallClear);
      calls := calls + [CallClear];
    }
  }

  // ---------------------------------------------------------------------
  // factorial
  // ---------------------------------------------------------------------

  /** n!, the product 1 * 2 * ... * n (1 for n = 0). */
  function Fact(n: nat): nat
  {
    if n == 0 then 1 else n * Fact(n - 1)
  }

  /** Raises for a negative argument; otherwise multiplies 2, 3, ..., n
      into an accumulator that starts at 1. */
  method Factorial(n: int) returns (r: Result<int, CalcError>)
    ensures n < 0 <==> r == Err(NegativeFactorial)
    ensures n >= 0 ==> r == Ok(Fact(n))
  {
    if n < 0 {
      return Err(NegativeFactorial);
    }
    if n == 0 || n == 1 {
      return Ok(1);
    }
    var result := 1;
    for i := 2 to n + 1
      invariant result == Fact(i - 1)
    {
      result := result * i;
    }
    return Ok(result);
  }

  /** n! is positive and at least n, and its first values are the ones the
      source's tests expect. */
  lemma {:induction false} FactFacts(n: nat)
    ensures Fact(n) >= 1 && Fact(n) >= n
    ensures Fact(0) == 1 && Fact(1) == 1 && Fact(5) == 120 && Fact(10) == 3628800
  {
    if n > 0 {
      FactFacts(n - 1);
    }
  }

  // ---------------------------------------------------------------------
  // fibonacci
  // ---------------------------------------------------------------------

  /** The i-th Fibonacci number, counting from Fib(0) = 0. */
  function Fib(i: nat): nat
  {
    if i < 2 then i else Fib(i - 1) + Fib(i - 2)
  }

  /** The first n Fibonacci numbers. */
  function FibSeq(n: nat): seq<int>
  {
    seq(n, i requires 0 <= i < n => Fib(i))
  }

  /** A list starts 0, 1 and every later element is the sum of the two before it. */
  ghost predicate FibonacciShaped(s: seq<int>)
  {
    && (|s| >= 1 ==> s[0] == 0)
    && (|s| >= 2 ==> s[1] == 1)
    && forall i :: 2 <= i < |s| ==> s[i] == s[i - 1] + s[i - 2]
  }

  /** The Fibonacci shape determines a list from its length: it is exactly FibSeq. */
  lemma FibonacciShapedIff(s: seq<int>)
    ensures FibonacciShaped(s) <==> s == FibSeq(|s|)
  {
    if FibonacciShaped(s) {
      ShapedIsFib(s, |s|);
    }
  }

  lemma {:induction false} ShapedIsFib(s: seq<int>, k: nat)
    requires FibonacciShaped(s) && k <= |s|
    ensures forall i :: 0 <= i < k ==> s[i] == Fib(i)
  {
    if k > 0 {
      ShapedIsFib(s, k - 1);
    }
  }

  /** Raises for a negative count; otherwise returns the first n Fibonacci
      numbers, extending [0, 1] one sum at a time. */
  method Fibonacci(n: int) returns (r: Result<seq<int>, CalcError>)
    ensures n < 0 <==> r == Err(NegativeTerms)
    ensures n >= 0 ==> r.Ok? && |r.value| == n && FibonacciShaped(r.value)
    ensures n >= 0 ==> r == Ok(FibSeq(n))
  {
    if n < 0 {
      return Err(NegativeTerms);
    }
    if n == 0 {
      assert FibSeq(0) == [];
      return Ok([]);
    } else if n == 1 {
      assert FibSeq(1) == [0];
      return Ok([0]);
    } else if n == 2 {
      assert FibSeq(2) == [0, 1];
      return Ok([0, 1]);
    }
    var sequence := [0, 1];
    for i := 2 to n
      invariant |sequence| == i
      invariant forall k :: 0 <= k < i ==> sequence[k] == Fib(k)
    {
      sequence := sequence + [sequence[i - 1] + sequence[i - 2]];
    }
    assert sequence == FibSeq(n);
    return Ok(sequence);
  }
}
