/** The `EvaluateComparison` switch that Parsing/Parser.cs and
    Evaluation/Evaluator.cs both carry: `==` is `object.Equals`, `!=` its
    negation, `>` and `<` unbox both operands as doubles. The two copies
    differ only in the message of the unsupported-operator exception,
    which each caller attaches to `UnsupportedOperation`. */
module Comparisons {
  import opened Wrappers
  import opened Values
  import opened Lexing

  datatype CompareError =
    | NullReference               // `left.Equals` or an unboxing of null
    | InvalidCast(value: Value)   // `(double)o` of a box that holds no double
    | UnsupportedOperation(op: TokenType)

  /** `(double)v`: only a boxed double unboxes to a double. */
  function UnboxDouble(v: Value): (r: Result<real, CompareError>)
    ensures r.Success? <==> v.Num?
    ensures r.Success? ==> r.value == v.r
    ensures r.Failure? ==> r.error == (if v.Null? then NullReference else InvalidCast(v))
  {
    match v
    case Null => Failure(NullReference)
    case Num(x) => Success(x)
    case _ => Failure(InvalidCast(v))
  }

  function Compare(left: Value, right: Value, op: TokenType): (r: Result<bool, CompareError>)
    ensures (op == Equal || op == NotEqual) ==> (r.Success? <==> !left.Null?)
    ensures r.Success? && op == Equal ==> r.value == (left == right)
    ensures (op == GreaterThan || op == LessThan) ==> (r.Success? <==> left.Num? && right.Num?)
    ensures r.Success? && op == GreaterThan ==> r.value == (left.r > right.r)
    ensures r.Success? && op == LessThan ==> r.value == (left.r < right.r)
    ensures (op == GreaterThan || op == LessThan) && r.Failure? && !left.Num? ==> r.error == UnboxDouble(left).error
    ensures op != Equal && op != NotEqual && op != GreaterThan && op != LessThan ==> r == Failure(UnsupportedOperation(op))
  {
    match op
    case Equal =>
      if left.Null? then Failure(NullReference) else Success(left == right)
    case NotEqual =>
      if left.Null? then Failure(NullReference) else Success(left != right)
    case GreaterThan =>
      var x :- UnboxDouble(left);
      var y :- UnboxDouble(right);
      Success(x > y)
    case LessThan =>
      var x :- UnboxDouble(left);
      var y :- UnboxDouble(right);
      Success(x < y)
    case _ => Failure(UnsupportedOperation(op))
  }

  // ---------------------------------------------------------------------
  // Properties

  /** `==` and `!=` always give opposite answers, and both throw on a null left side. */
  lemma EqualNotEqualOpposite(left: Value, right: Value)
    ensures Compare(left, right, Equal).Success? == Compare(left, right, NotEqual).Success?
    ensures Compare(left, right, Equal).Success? ==>
      Compare(left, right, NotEqual).value == !Compare(left, right, Equal).value
    ensures left.Null? ==> Compare(left, right, Equal) == Compare(left, right, NotEqual) == Failure(NullReference)
  {
  }

  /** `a > b` and `b < a` agree whenever both are doubles. */
  lemma GreaterIsFlippedLess(a: Value, b: Value)
    requires a.Num? && b.Num?
    ensures Compare(a, b, GreaterThan) == Compare(b, a, LessThan)
  {
  }

  /** A boxed int is neither equal to the same-valued double nor
      comparable with `>`: the unboxing cast needs an exact double. */
  lemma BoxedIntIsNotDouble()
    ensures Compare(Int(18), Num(18.0), Equal) == Success(false)
    ensures Compare(Int(20), Num(18.0), GreaterThan) == Failure(InvalidCast(Int(20)))
    ensures Compare(Num(20.0), Null, GreaterThan) == Failure(NullReference)
    ensures Compare(Num(20.0), Null, Equal) == Success(false)
  {
  }
}
