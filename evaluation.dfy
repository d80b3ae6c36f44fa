/** The tree evaluator of Evaluation/Evaluator.cs over the node classes
    of Expressions/ (`LogicalExpression`, `ComparisonExpression` and
    `BinaryExpression`, here the constructors of one datatype).

    The evaluator only reads its data source, so it is a value. Each
    evaluation also returns the field names the data source was asked
    for, in order. */
module Evaluation {
  import opened Wrappers
  import opened Values
  import opened Lexing
  import opened Comparisons

  datatype Expression =
    | Logical(left: Expression, right: Expression, operator: TokenType)
    | Comparison(leftField: string, rightValue: Value, operator: TokenType)
    | Binary(left: Expression, right: Expression, operator: TokenType)

  datatype EvalError =
    | UnsupportedExpressionType
    | ComparisonFailed(cause: CompareError)
  {
    /** The message of the exceptions the source throws itself. */
    function Message(): string
      requires UnsupportedExpressionType? || cause.UnsupportedOperation?
    {
      if UnsupportedExpressionType? then "Unsupported expression type" else "Unsupported comparison operation"
    }
  }

  datatype Evaluated = Evaluated(result: Result<bool, EvalError>, queried: seq<string>)

  /** The fields of the comparison leaves reachable through logical
      nodes, left to right. */
  function Fields(e: Expression): seq<string> {
    match e
    case Logical(l, r, _) => Fields(l) + Fields(r)
    case Comparison(f, _, _) => [f]
    case Binary(_, _, _) => []
  }

  /** Whether a binary node is reachable through logical nodes. */
  predicate HasBinary(e: Expression) {
    match e
    case Logical(l, r, _) => HasBinary(l) || HasBinary(r)
    case Comparison(_, _, _) => false
    case Binary(_, _, _) => true
  }

  datatype Evaluator = Evaluator(dataSource: string -> Value)
  {
    function EvaluateLogicalExpression(e: Expression): (r: Evaluated)
      ensures e.Comparison? ==>
        r == Evaluated(
          match Compare(dataSource(e.leftField), e.rightValue, e.operator)
          case Success(b) => Success(b)
          case Failure(c) => Failure(ComparisonFailed(c)),
          [e.leftField])
      ensures e.Binary? ==> r == Evaluated(Failure(UnsupportedExpressionType), [])
    {
      match e
      case Logical(l, rt, op) =>
        var a := EvaluateLogicalExpression(l);
        if a.result.Failure? then a
        else
          var b := EvaluateLogicalExpression(rt);
          if b.result.Failure? then Evaluated(b.result, a.queried + b.queried)
          else
            var left, right := a.result.value, b.result.value;
            Evaluated(Success(if op == And then left && right else left || right), a.queried + b.queried)
      case Comparison(field, value, op) =>
        var leftValue := dataSource(field);
        (match Compare(leftValue, value, op)
         case Success(b) => Evaluated(Success(b), [field])
         case Failure(c) => Evaluated(Failure(ComparisonFailed(c)), [field]))
      case Binary(_, _, _) => Evaluated(Failure(UnsupportedExpressionType), [])
    }
  }

  // ---------------------------------------------------------------------
  // Properties

  /** The data source is asked once per comparison leaf, left to right:
      all of them when evaluation succeeds, a prefix of them otherwise. */
  lemma {:induction false} QueriesAreFields(ev: Evaluator, e: Expression)
    ensures var r := ev.EvaluateLogicalExpression(e);
      && r.queried <= Fields(e)
      && (r.result.Success? ==> r.queried == Fields(e))
  {
    match e
    case Logical(l, rt, _) =>
      QueriesAreFields(ev, l);
      QueriesAreFields(ev, rt);
      var a := ev.EvaluateLogicalExpression(l);
      var b := ev.EvaluateLogicalExpression(rt);
      if a.result.Success? {
        assert a.queried == Fields(l);
        PrefixAppend(Fields(l), b.queried, Fields(rt));
      } else {
        PrefixOfAppend(a.queried, Fields(l), Fields(rt));
      }
    case Comparison(_, _, _) =>
    case Binary(_, _, _) =>
  }

  /** A logical node evaluates its left child, then its right child, and
      combines them with `&&` under And and with `||` under any other
      operator; the first child to throw is the result, after the queries
      made so far. */
  lemma LogicalCombines(ev: Evaluator, l: Expression, rt: Expression, op: TokenType)
    ensures var r := ev.EvaluateLogicalExpression(Logical(l, rt, op));
      var a, b := ev.EvaluateLogicalExpression(l), ev.EvaluateLogicalExpression(rt);
      && (a.result.Failure? ==> r == a)
      && (a.result.Success? && b.result.Failure? ==> r == Evaluated(b.result, Fields(l) + b.queried))
      && (a.result.Success? && b.result.Success? ==>
            r == Evaluated(Success(if op == And then a.result.value && b.result.value
                                   else a.result.value || b.result.value),
                           Fields(Logical(l, rt, op))))
  {
    QueriesAreFields(ev, l);
    QueriesAreFields(ev, rt);
  }

  lemma PrefixAppend(p: seq<string>, q: seq<string>, r: seq<string>)
    requires q <= r
    ensures p + q <= p + r
  {
    assert (p + r)[..|p + q|] == p + q;
  }

  lemma PrefixOfAppend(q: seq<string>, p: seq<string>, r: seq<string>)
    requires q <= p
    ensures q <= p + r
  {
    assert (p + r)[..|q|] == p[..|q|];
  }

  /** A binary node anywhere on the logical spine makes the whole
      evaluation throw, because both sides of a logical node are evaluated
      and nothing catches. */
  lemma {:induction false} BinaryThrows(ev: Evaluator, e: Expression)
    requires HasBinary(e)
    ensures ev.EvaluateLogicalExpression(e).result.Failure?
  {
    match e
    case Logical(l, rt, _) =>
      if HasBinary(l) {
        BinaryThrows(ev, l);
      } else {
        BinaryThrows(ev, rt);
      }
    case Binary(_, _, _) =>
  }

  /** With no failing comparison before it, a binary node makes the
      evaluation throw "Unsupported expression type". */
  lemma {:induction false} FirstBinaryThrows(ev: Evaluator, e: Expression)
    requires HasBinary(e)
    requires forall f :: f in Fields(e) ==> ev.dataSource(f).Num?
    requires AllOrdered(e)
    ensures ev.EvaluateLogicalExpression(e).result == Failure(UnsupportedExpressionType)
  {
    match e
    case Logical(l, rt, _) =>
      if HasBinary(l) {
        FirstBinaryThrows(ev, l);
      } else {
        assert forall f :: f in Fields(l) ==> f in Fields(e);
        SafeSucceeds(ev, l);
        FirstBinaryThrows(ev, rt);
      }
    case Binary(_, _, _) =>
  }

  /** Every comparison leaf compares with `>` or `<` against a double. */
  predicate AllOrdered(e: Expression) {
    match e
    case Logical(l, r, _) => AllOrdered(l) && AllOrdered(r)
    case Comparison(_, v, op) => v.Num? && (op == GreaterThan || op == LessThan)
    case Binary(_, _, _) => true
  }

  /** A tree of ordered comparisons on double-valued fields, with no
      binary node, evaluates without an exception. */
  lemma {:induction false} SafeSucceeds(ev: Evaluator, e: Expression)
    requires !HasBinary(e) && AllOrdered(e)
    requires forall f :: f in Fields(e) ==> ev.dataSource(f).Num?
    ensures ev.EvaluateLogicalExpression(e).result.Success?
  {
    match e
    case Logical(l, rt, _) =>
      assert forall f :: f in Fields(l) ==> f in Fields(e);
      assert forall f :: f in Fields(rt) ==> f in Fields(e);
      SafeSucceeds(ev, l);
      SafeSucceeds(ev, rt);
    case Comparison(f, _, _) =>
      assert f in Fields(e);
  }

  /** `&&` for And, and `||` for every other operator, after both
      sides have been evaluated. */
  lemma OperatorOtherThanAndIsOr(ev: Evaluator, l: Expression, r: Expression, op: TokenType)
    requires op != And
    ensures ev.EvaluateLogicalExpression(Logical(l, r, op)) == ev.EvaluateLogicalExpression(Logical(l, r, Or))
  {
  }

  /** A false left side does not spare the right one: its fields are
      still asked for, and its exceptions still surface. */
  lemma BothSidesEvaluated(ev: Evaluator, l: Expression, r: Expression)
    requires ev.EvaluateLogicalExpression(l).result == Success(false)
    ensures var b := ev.EvaluateLogicalExpression(r);
      var o := ev.EvaluateLogicalExpression(Logical(l, r, And));
      && o.queried == ev.EvaluateLogicalExpression(l).queried + b.queried
      && o.result == (if b.result.Success? then Success(false) else b.result)
  {
  }

  /** `==` and `!=` leaves on the same field and value give opposite results. */
  lemma EqualNotEqualLeaves(ev: Evaluator, field: string, value: Value)
    requires !ev.dataSource(field).Null?
    ensures var eq := ev.EvaluateLogicalExpression(Comparison(field, value, Equal));
      var ne := ev.EvaluateLogicalExpression(Comparison(field, value, NotEqual));
      eq.result.Success? && ne.result.Success? && ne.result.value == !eq.result.value
  {
    EqualNotEqualOpposite(ev.dataSource(field), value);
  }

  /** A leaf with an operator other than `== != > <` throws "Unsupported
      comparison operation", after the data source has been asked. */
  lemma UnsupportedLeaf(ev: Evaluator, field: string, value: Value)
    ensures var o := ev.EvaluateLogicalExpression(Comparison(field, value, GreaterThanOrEqual));
      o == Evaluated(Failure(ComparisonFailed(UnsupportedOperation(GreaterThanOrEqual))), [field])
      && o.result.error.Message() == "Unsupported comparison operation"
  {
  }
}
