/** The identifier and operator helper of
    Dadrass.Dev.Cron/ExpressionParser/Core/ExpressionEvaluator.cs.

    The evaluator only reads its two dictionaries, so it is a value:
    neither operation can change them. Operands are boxed `object`s,
    unboxed with C# casts (`(int)o`, `(bool)o`), which succeed only on a
    box of exactly that type; `int` arithmetic is unchecked, so it wraps
    to 32 bits, except that `int.MinValue / -1` throws. */
module CoreEvaluator {
  import opened Wrappers
  import opened Numbers
  import opened Values

  datatype EvalError =
    | UnknownIdentifier(name: string)
    | UnsupportedOperator(op: string)
    | InvalidCast(value: Value)
    | NullReference
    | DivideByZero
    | Overflow
  {
    /** The message of the exceptions the source throws itself. */
    function Message(): (m: string)
      requires UnknownIdentifier? || UnsupportedOperator?
      ensures UnknownIdentifier? ==> m == "Unknown identifier: " + name
      ensures UnsupportedOperator? ==> m == "Unsupported operator: " + op
    {
      if UnknownIdentifier? then "Unknown identifier: " + name
      else "Unsupported operator: " + op
    }
  }

  const ArithmeticOperators: set<string> := {"+", "-", "*", "/"}
  const LogicalOperators: set<string> := {"&&", "||"}

  /** `(int)v`: unboxing null throws a NullReferenceException, any other
      box than an int an InvalidCastException. */
  function UnboxInt(v: Value): (r: Result<int32, EvalError>)
    ensures r.Success? <==> v.Int?
    ensures r.Success? ==> r.value == v.i
    ensures r.Failure? ==> r.error == (if v.Null? then NullReference else InvalidCast(v))
  {
    match v
    case Null => Failure(NullReference)
    case Int(i) => Success(i)
    case _ => Failure(InvalidCast(v))
  }

  /** `(bool)v`, with the same failures as `UnboxInt`. */
  function UnboxBool(v: Value): (r: Result<bool, EvalError>)
    ensures r.Success? <==> v.Bool?
    ensures r.Success? ==> r.value == v.b
    ensures r.Failure? ==> r.error == (if v.Null? then NullReference else InvalidCast(v))
  {
    match v
    case Null => Failure(NullReference)
    case Bool(b) => Success(b)
    case _ => Failure(InvalidCast(v))
  }

  /** The exact integer an arithmetic operator denotes, before wrapping;
      division truncates toward zero. */
  function Exact(op: string, a: int, b: int): int
    requires op in ArithmeticOperators
    requires op == "/" ==> b != 0
  {
    if op == "+" then a + b
    else if op == "-" then a - b
    else if op == "*" then a * b
    else TruncDiv(a, b)
  }

  datatype ExpressionEvaluator = ExpressionEvaluator(parameters: map<string, Value>, fields: map<string, Value>)
  {
    /** Parameters shadow fields; a name in neither is an error. */
    function ResolveIdentifier(identifier: string): (r: Result<Value, EvalError>)
      ensures r.Success? <==> identifier in parameters || identifier in fields
      ensures identifier in parameters ==> r == Success(parameters[identifier])
      ensures identifier !in parameters && identifier in fields ==> r == Success(fields[identifier])
      ensures r.Failure? ==> r.error == UnknownIdentifier(identifier)
    {
      if identifier in parameters then Success(parameters[identifier])
      else if identifier in fields then Success(fields[identifier])
      else Failure(UnknownIdentifier(identifier))
    }

    /** The `switch` over the operator string. An unknown operator fails
        before either operand is cast; the left operand is cast before
        the right one, and `&&`/`||` cast the right one only when the
        left one does not decide the result. */
    function EvaluateBinaryOperation(left: Value, right: Value, operator: string): (r: Result<Value, EvalError>)
      ensures operator !in ArithmeticOperators + LogicalOperators ==> r == Failure(UnsupportedOperator(operator))
      ensures operator in ArithmeticOperators ==>
        (r.Success? <==> left.Int? && right.Int? && !(operator == "/" && (right.i == 0 || (left.i == Int32Min && right.i == -1))))
      ensures operator in ArithmeticOperators && r.Success? ==>
        r.value.Int? && (r.value.i - Exact(operator, left.i, right.i)) % TwoTo32 == 0
      ensures operator in ArithmeticOperators && r.Success? && InInt32(Exact(operator, left.i, right.i)) ==>
        r.value == Int(Exact(operator, left.i, right.i))
      ensures operator in LogicalOperators ==>
        (r.Success? <==> left.Bool? && (left.b == (operator == "||") || right.Bool?))
      ensures r.Success? && operator == "&&" ==> r.value == Bool(left.b && right.b)
      ensures r.Success? && operator == "||" ==> r.value == Bool(left.b || right.b)
      ensures r.Failure? && !left.Null? && !right.Null? ==> r.error != NullReference
    {
      if operator in ArithmeticOperators then ArithmeticOperation(left, right, operator)
      else if operator in LogicalOperators then LogicalOperation(left, right, operator)
      else Failure(UnsupportedOperator(operator))
    }
  }

  /** The `+ - * /` cases of the `switch`: both operands cast to `int`,
      left first, then unchecked arithmetic. */
  function ArithmeticOperation(left: Value, right: Value, operator: string): (r: Result<Value, EvalError>)
    requires operator in ArithmeticOperators
    ensures r.Success? <==> left.Int? && right.Int? && !(operator == "/" && (right.i == 0 || (left.i == Int32Min && right.i == -1)))
    ensures r.Success? ==> r.value.Int? && (r.value.i - Exact(operator, left.i, right.i)) % TwoTo32 == 0
    ensures r.Success? && InInt32(Exact(operator, left.i, right.i)) ==> r.value == Int(Exact(operator, left.i, right.i))
    ensures r.Failure? && !left.Null? && !right.Null? ==> r.error != NullReference
  {
    var a :- UnboxInt(left);
    var b :- UnboxInt(right);
    if operator == "/" then
      if b == 0 then Failure(DivideByZero)
      else if a == Int32Min && b == -1 then Failure(Overflow)
      else
        TruncDivInRange(a, b);
        Success(Int(TruncDiv(a, b)))
    else
      Success(Int(Wrap32(Exact(operator, a, b))))
  }

  /** The `&&` and `||` cases of the `switch`: the left operand cast to
      `bool`, the right one only when the left one does not decide. */
  function LogicalOperation(left: Value, right: Value, operator: string): (r: Result<Value, EvalError>)
    requires operator in LogicalOperators
    ensures r.Success? <==> left.Bool? && (left.b == (operator == "||") || right.Bool?)
    ensures r.Success? && operator == "&&" ==> r.value == Bool(left.b && right.b)
    ensures r.Success? && operator == "||" ==> r.value == Bool(left.b || right.b)
    ensures r.Failure? && !left.Null? && !right.Null? ==> r.error != NullReference
  {
    var a :- UnboxBool(left);
    if operator == "&&" then
      if !a then Success(Bool(false))
      else
        var b :- UnboxBool(right);
        Success(Bool(b))
    else
      if a then Success(Bool(true))
      else
        var b :- UnboxBool(right);
        Success(Bool(b))
  }

  // ---------------------------------------------------------------------
  // Properties

  /** Resolution is a lookup in the fields overridden by the parameters. */
  lemma ResolveIsMergedLookup(e: ExpressionEvaluator, name: string)
    ensures e.ResolveIdentifier(name).Success? <==> name in e.fields + e.parameters
    ensures name in e.fields + e.parameters ==>
      e.ResolveIdentifier(name) == Success((e.fields + e.parameters)[name])
  {
  }

  /** A name in both dictionaries resolves to the parameter, whatever the field holds. */
  lemma ParameterShadowsField(parameters: map<string, Value>, fields: map<string, Value>, name: string, p: Value, f: Value)
    ensures ExpressionEvaluator(parameters[name := p], fields[name := f]).ResolveIdentifier(name) == Success(p)
  {
  }

  /** None of the comparison operators is supported, whatever the operands. */
  lemma ComparisonsUnsupported(e: ExpressionEvaluator, left: Value, right: Value, op: string)
    requires op in {"==", "!=", "<", ">", "<=", ">="}
    ensures e.EvaluateBinaryOperation(left, right, op) == Failure(UnsupportedOperator(op))
    ensures e.EvaluateBinaryOperation(left, right, op).error.Message() == "Unsupported operator: " + op
  {
  }

  /** Division truncates toward zero, on either sign. */
  lemma DivisionTruncates(e: ExpressionEvaluator)
    ensures e.EvaluateBinaryOperation(Int(-7), Int(2), "/") == Success(Int(-3))
    ensures e.EvaluateBinaryOperation(Int(7), Int(-2), "/") == Success(Int(-3))
    ensures e.EvaluateBinaryOperation(Int(-7), Int(-2), "/") == Success(Int(3))
    ensures e.EvaluateBinaryOperation(Int(7), Int(0), "/") == Failure(DivideByZero)
  {
    assert TruncDiv(-7, 2) == -3;
    assert TruncDiv(7, -2) == -3;
    assert TruncDiv(-7, -2) == 3;
  }

  /** Unchecked `int` addition wraps around. */
  lemma AdditionWraps(e: ExpressionEvaluator)
    ensures e.EvaluateBinaryOperation(Int(Int32Max), Int(1), "+") == Success(Int(Int32Min))
    ensures e.EvaluateBinaryOperation(Int(Int32Min), Int(-1), "/") == Failure(Overflow)
  {
  }

  /** A boxed double is not an int, and the left operand is unboxed first. */
  lemma IntCastsOnly(e: ExpressionEvaluator, v: Value)
    ensures e.EvaluateBinaryOperation(Num(1.0), v, "+") == Failure(InvalidCast(Num(1.0)))
    ensures e.EvaluateBinaryOperation(Int(1), Num(1.0), "*") == Failure(InvalidCast(Num(1.0)))
    ensures e.EvaluateBinaryOperation(Null, Int(1), "-") == Failure(NullReference)
  {
  }

  /** `false && x` and `true || x` never look at `x`. */
  lemma LogicalShortCircuit(e: ExpressionEvaluator, x: Value)
    ensures e.EvaluateBinaryOperation(Bool(false), x, "&&") == Success(Bool(false))
    ensures e.EvaluateBinaryOperation(Bool(true), x, "||") == Success(Bool(true))
  {
  }
}
