/** The basic calculator: two operand fields, four operators, a result line,
    per-field validation errors and a history of the five newest successful
    calculations. */
module Basic {
  import opened Input

  datatype Operation = Add | Subtract | Multiply | Divide

  /** One history entry; `id` and `timestamp` come from the clock. */
  datatype CalculationRecord = CalculationRecord(id: string, expression: string, result: string, timestamp: int)

  /** The errors object: a message under `first`, `second`, both or neither. */
  datatype FieldErrors = FieldErrors(first: Option<string>, second: Option<string>)

  const NoErrors := FieldErrors(None, None)

  const MinOperand: real := -999999.0
  const MaxOperand: real := 999999.0
  const RangeMessage := "Number must be between -999,999 and 999,999"
  const DivisionByZeroMessage := "Error: Division by zero"
  const HistoryLimit: nat := 5

  /** A raw field is accepted when it is non-empty, parses, and the number lies
      in the closed range [MinOperand, MaxOperand]. */
  predicate ValidOperand(raw: string, parse: Parser) {
    raw != "" && parse(raw).Some? && MinOperand <= parse(raw).value <= MaxOperand
  }

  /** The operand of an accepted field. */
  function Operand(raw: string, parse: Parser): (x: real)
    requires ValidOperand(raw, parse)
    ensures MinOperand <= x <= MaxOperand
    ensures parse(raw) == Some(x)
  {
    parse(raw).value
  }

  /** The operator switch: None is the division-by-zero outcome. Each result
      is characterised by the operation that undoes it. */
  function Apply(op: Operation, a: real, b: real): (r: Option<real>)
    ensures r.None? <==> op == Divide && b == 0.0
    ensures op == Add ==> r.Some? && r.value - b == a
    ensures op == Subtract ==> r.Some? && r.value + b == a
    ensures op == Multiply && b == 0.0 ==> r == Some(0.0)
    ensures op == Multiply && b != 0.0 ==> r.Some? && r.value / b == a
    ensures op == Divide && b != 0.0 ==> r.Some? && r.value * b == a
  {
    match op
    case Add => Some(a + b)
    case Subtract => Some(a - b)
    case Multiply => if b == 0.0 then Some(a * b) else ProductOverFactor(a, b); Some(a * b)
    case Divide => if b == 0.0 then None else QuotientTimesDivisor(a, b); Some(a / b)
  }

  /** Dividing a product by its non-zero second factor gives the first. */
  lemma ProductOverFactor(a: real, b: real)
    requires b != 0.0
    ensures a * b / b == a
  {
  }

  /** Multiplying a quotient by its non-zero divisor gives the dividend. */
  lemma QuotientTimesDivisor(a: real, b: real)
    requires b != 0.0
    ensures a / b * b == a
  {
  }

  /** A quotient multiplied back by the divisor gives the dividend. */
  lemma DivideUndoneByMultiply(a: real, b: real)
    requires b != 0.0
    ensures Apply(Divide, a, b).Some?
    ensures Apply(Multiply, Apply(Divide, a, b).value, b) == Some(a)
  {
    var q := Apply(Divide, a, b).value;
    assert q * b == a by {
      assert q == a / b;
    }
    assert Apply(Multiply, q, b).value == q * b;
  }

  /** A product divided by a non-zero factor gives the other factor back. */
  lemma MultiplyUndoneByDivide(a: real, b: real)
    requires b != 0.0
    ensures Apply(Divide, Apply(Multiply, a, b).value, b) == Some(a)
  {
    var p := Apply(Multiply, a, b).value;
    assert p / b == a by {
      assert p == a * b;
    }
    assert Apply(Divide, p, b).value == p / b;
  }

  /** The symbol shown in a history expression. */
  function Symbol(op: Operation): (s: string)
    ensures |s| == 1
    ensures op == Multiply ==> s == "×"
    ensures op == Divide ==> s == "÷"
    ensures op == Add ==> s == "+"
    ensures op == Subtract ==> s == "-"
  {
    match op
    case Add => "+"
    case Subtract => "-"
    case Multiply => "×"
    case Divide => "÷"
  }

  /** Distinct operators are displayed with distinct symbols. */
  lemma SymbolInjective(op1: Operation, op2: Operation)
    requires Symbol(op1) == Symbol(op2)
    ensures op1 == op2
  {
    assert Symbol(op1)[0] == Symbol(op2)[0];
  }

  /** `"<first> <symbol> <second>"`, built from the raw field texts. */
  function Expression(first: string, op: Operation, second: string): (e: string)
    ensures |e| == |first| + |second| + 3
    ensures e[..|first|] == first
    ensures e[|first|] == ' ' && e[|first| + 1] == Symbol(op)[0] && e[|first| + 2] == ' '
    ensures e[|first| + 3..] == second
  {
    first + " " + Symbol(op) + " " + second
  }

  /** The first n elements of s, or all of s when it is shorter
      (JavaScript's `slice(0, n)`). */
  function Take<T>(s: seq<T>, n: nat): (r: seq<T>)
    ensures |r| <= n && |r| <= |s|
    ensures |r| == n || |r| == |s|
    ensures forall i :: 0 <= i < |r| ==> r[i] == s[i]
  {
    if |s| <= n then s else s[..n]
  }

  /** `[record, ...prev].slice(0, 5)`: the newest record first, then the
      older records in order, at most HistoryLimit of them. */
  function PushHistory(record: CalculationRecord, prev: seq<CalculationRecord>): (h: seq<CalculationRecord>)
    ensures 1 <= |h| <= HistoryLimit
    ensures |h| == if |prev| < HistoryLimit then |prev| + 1 else HistoryLimit
    ensures h[0] == record
    ensures forall i :: 1 <= i < |h| ==> h[i] == prev[i - 1]
  {
    Take([record] + prev, HistoryLimit)
  }

  /** Taking a prefix before consing does not change what survives a second take. */
  lemma TakeConsTake<T>(x: T, s: seq<T>, n: nat)
    ensures Take([x] + Take(s, n), n) == Take([x] + s, n)
  {
    var l, r := Take([x] + Take(s, n), n), Take([x] + s, n);
    assert |l| == |r|;
    forall i | 0 <= i < |l| ensures l[i] == r[i] {
      if i > 0 {
        assert l[i] == Take(s, n)[i - 1];
      }
    }
  }

  /** The history after a run of successful calculations, oldest first,
      starting from `h`. */
  function PushAll(h: seq<CalculationRecord>, records: seq<CalculationRecord>): seq<CalculationRecord>
    decreases |records|
  {
    if records == [] then h
    else PushHistory(records[|records| - 1], PushAll(h, records[..|records| - 1]))
  }

  /** s in the opposite order. */
  function Reverse<T>(s: seq<T>): (r: seq<T>)
    ensures |r| == |s|
    ensures forall i :: 0 <= i < |s| ==> r[i] == s[|s| - 1 - i]
    decreases |s|
  {
    if s == [] then [] else [s[|s| - 1]] + Reverse(s[..|s| - 1])
  }

  /** The history always holds the HistoryLimit newest records, newest first:
      what an unbounded newest-first list would show, cut to five. */
  lemma {:induction false} PushAllKeepsNewest(h: seq<CalculationRecord>, records: seq<CalculationRecord>)
    requires |h| <= HistoryLimit
    ensures PushAll(h, records) == Take(Reverse(records) + h, HistoryLimit)
    decreases |records|
  {
    if records != [] {
      var n := |records|;
      var last, init := records[n - 1], records[..n - 1];
      PushAllKeepsNewest(h, init);
      assert PushAll(h, records) == Take([last] + PushAll(h, init), HistoryLimit);
      assert Reverse(records) == [last] + Reverse(init);
      TakeConsTake(last, Reverse(init) + h, HistoryLimit);
      assert Reverse(records) + h == [last] + (Reverse(init) + h);
    }
  }

  /** Six successful calculations from an empty history: the first is evicted
      and the other five are kept newest first. */
  lemma SixthCalculationEvictsOldest(r1: CalculationRecord, r2: CalculationRecord, r3: CalculationRecord,
                                     r4: CalculationRecord, r5: CalculationRecord, r6: CalculationRecord)
    ensures PushAll([], [r1, r2, r3, r4, r5, r6]) == [r6, r5, r4, r3, r2]
  {
    var rs := [r1, r2, r3, r4, r5, r6];
    PushAllKeepsNewest([], rs);
    assert rs[..5] == [r1, r2, r3, r4, r5];
    assert rs[..5][..4] == [r1, r2, r3, r4];
    assert rs[..5][..4][..3] == [r1, r2, r3];
    assert rs[..5][..4][..3][..2] == [r1, r2];
    assert rs[..5][..4][..3][..2][..1] == [r1];
    assert Reverse([r1]) == [r1];
    assert Reverse([r1, r2]) == [r2, r1];
    assert Reverse([r1, r2, r3]) == [r3, r2, r1];
    assert Reverse([r1, r2, r3, r4]) == [r4, r3, r2, r1];
    assert Reverse([r1, r2, r3, r4, r5]) == [r5, r4, r3, r2, r1];
    assert Reverse(rs) == [r6, r5, r4, r3, r2, r1];
  }

  /** The component state of the basic calculator; `parse` and `format`
      stand for `parseFloat` and `Number.prototype.toString`. */
  class BasicCalculator {
    var firstNumber: string
    var secondNumber: string
    var result: Option<string>
    var selectedOperation: Option<Operation>
    var history: seq<CalculationRecord>
    var errors: FieldErrors
    const parse: Parser
    const format: Formatter

    /** The history is bounded, and a result is shown exactly when an
        operator is selected. */
    ghost predicate Valid()
      reads this
    {
      |history| <= HistoryLimit &&
      (result.Some? <==> selectedOperation.Some?)
    }

    constructor (parse: Parser, format: Formatter)
      ensures Valid()
      ensures this.parse == parse && this.format == format
      ensures firstNumber == "" && secondNumber == ""
      ensures result == None && selectedOperation == None
      ensures history == [] && errors == NoErrors
    {
      this.parse := parse;
      this.format := format;
      firstNumber, secondNumber := "", "";
      result, selectedOperation := None, None;
      history, errors := [], NoErrors;
    }

    /** Editing the first field. */
    method SetFirstNumber(raw: string)
      requires Valid()
      modifies this`firstNumber
      ensures Valid()
      ensures firstNumber == raw
    {
      firstNumber := raw;
    }

    /** Editing the second field. */
    method SetSecondNumber(raw: string)
      requires Valid()
      modifies this`secondNumber
      ensures Valid()
      ensures secondNumber == raw
    {
      secondNumber := raw;
    }

    /** Each field gets the range message exactly when it is not a valid
        operand, independently of the other; success means no message. */
    method ValidateInputs() returns (ok: bool)
      requires Valid()
      modifies this`errors
      ensures Valid()
      ensures errors.first == if ValidOperand(firstNumber, parse) then None else Some(RangeMessage)
      ensures errors.second == if ValidOperand(secondNumber, parse) then None else Some(RangeMessage)
      ensures ok <==> errors == NoErrors
      ensures ok <==> ValidOperand(firstNumber, parse) && ValidOperand(secondNumber, parse)
    {
      var newErrors := NoErrors;
      if !ValidOperand(firstNumber, parse) {
        newErrors := newErrors.(first := Some(RangeMessage));
      }
      if !ValidOperand(secondNumber, parse) {
        newErrors := newErrors.(second := Some(RangeMessage));
      }
      errors := newErrors;
      ok := newErrors == NoErrors;
    }

    /** Pressing an operator button. On a validation failure only `errors`
        changes; on division by zero the result is the error message and the
        history is kept; otherwise the result is the formatted number and a
        record of it is pushed onto the history. */
    method Calculate(op: Operation, id: string, timestamp: int)
      requires Valid()
      modifies this`errors, this`result, this`selectedOperation, this`history
      ensures Valid()
      ensures errors.first == if ValidOperand(firstNumber, parse) then None else Some(RangeMessage)
      ensures errors.second == if ValidOperand(secondNumber, parse) then None else Some(RangeMessage)
      ensures errors != NoErrors ==>
        result == old(result) && selectedOperation == old(selectedOperation) && history == old(history)
      ensures errors == NoErrors ==> selectedOperation == Some(op)
      ensures errors == NoErrors && op == Divide && Operand(secondNumber, parse) == 0.0 ==>
        result == Some(DivisionByZeroMessage) && history == old(history)
      ensures errors == NoErrors && !(op == Divide && Operand(secondNumber, parse) == 0.0) ==>
        var value := Apply(op, Operand(firstNumber, parse), Operand(secondNumber, parse)).value;
        result == Some(format(value)) &&
        history == PushHistory(CalculationRecord(id, Expression(firstNumber, op, secondNumber), format(value), timestamp),
                               old(history))
    {
      var ok := ValidateInputs();
      if !ok {
        return;
      }
      var num1 := parse(firstNumber).value;
      var num2 := parse(secondNumber).value;
      var outcome := Apply(op, num1, num2);
      if outcome.None? {
        result := Some(DivisionByZeroMessage);
        selectedOperation := Some(op);
        return;
      }
      var resultStr := format(outcome.value);
      var expression := Expression(firstNumber, op, secondNumber);
      result := Some(resultStr);
      selectedOperation := Some(op);
      var newCalculation := CalculationRecord(id, expression, resultStr, timestamp);
      history := PushHistory(newCalculation, history);
    }

    /** Clear: both fields, the result, the operator and the errors are reset;
        the history is kept. */
    method Clear()
      requires Valid()
      modifies this`firstNumber, this`secondNumber, this`result, this`selectedOperation, this`errors
      ensures Valid()
      ensures firstNumber == "" && secondNumber == ""
      ensures result == None && selectedOperation == None
      ensures errors == NoErrors
    {
      firstNumber := "";
      secondNumber := "";
      result := None;
      selectedOperation := None;
      errors := NoErrors;
    }

    /** Clear history: only the history is emptied, so a second call changes
        nothing. */
    method ClearHistory()
      requires Valid()
      modifies this`history
      ensures Valid()
      ensures history == []
      ensures old(history) == [] ==> unchanged(this)
    {
      history := [];
    }
  }
}
