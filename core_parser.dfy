/** The evaluating recursive-descent parser of
    Dadrass.Dev.Cron/ExpressionParser/Core/Parser.cs.

    Each grammar level is a spec function from a cursor position to a
    `Step`: the value computed (or the exception thrown) and the cursor
    left behind. A level's `while` loop is its `...Rest` function, which
    folds the operators of that level to the left. The class `Parser` is
    the cursor-driven implementation, proved equal to them.

    C#'s `dynamic` operators and unboxing casts are the functions
    `Arithmetic`, `Relational` and `OrValues` over tagged values. */
module CoreParser {
  import opened Wrappers
  import opened Numbers
  import opened Values
  import opened Chars
  import opened CoreTokens

  const ExpectedRightParen: string := "Expected ')' after expression."

  datatype ParseError =
    | UnexpectedToken(token: Token)
    | Raised(message: string)
    | InvalidCast(value: Value)
    | NullReference                        // an unboxing cast of null
    | OperatorNotApplicable(op: Kind, left: Value, right: Value)
    | DivideByZero
    | Overflow
    | NonFiniteResult                      // a double quotient by zero: ±Infinity or NaN in .NET
    | DoubleText(double: real)             // a double concatenated to a string, whose text is not modelled

  /** The value computed by a grammar level, or its error, and the cursor after it. */
  datatype Step = Step(result: Result<Value, ParseError>, next: nat)

  // ---------------------------------------------------------------------
  // The token cursor

  /** The token list ends with Eof, as the tokenizer's output does. */
  predicate WellFormed(tokens: seq<Token>) {
    |tokens| > 0 && tokens[|tokens| - 1].kind == Eof
  }

  predicate AtEnd(tokens: seq<Token>, pos: nat)
    requires pos < |tokens|
  {
    tokens[pos].kind == Eof
  }

  /** `Check`: the token at `pos` has kind `k` and is not Eof. */
  predicate CheckAt(tokens: seq<Token>, pos: nat, k: Kind)
    requires pos < |tokens|
  {
    !AtEnd(tokens, pos) && tokens[pos].kind == k
  }

  /** The kinds a parse may read past: everything but `&&`, `!`,
      identifiers and Eof, which no grammar rule accepts. */
  predicate Consumable(k: Kind) {
    k != And && k != Bang && k != Identifier && k != Eof
  }

  predicate IsMultiplicative(k: Kind) {
    k == Star || k == Slash
  }

  predicate IsAdditive(k: Kind) {
    k == Plus || k == Minus
  }

  predicate IsRelational(k: Kind) {
    k == Less || k == LessEqual || k == Greater || k == GreaterEqual
  }

  predicate IsEquality(k: Kind) {
    k == EqualEqual || k == NotEqual
  }

  /** The kinds that continue the loop of some level. */
  predicate IsBinary(k: Kind) {
    IsMultiplicative(k) || IsAdditive(k) || IsRelational(k) || IsEquality(k) || k == Or
  }

  /** The kinds a primary starts with. */
  predicate StartsPrimary(k: Kind) {
    k == True || k == False || k == Number || k == String || k == LeftParen
  }

  /** Every token in `[pos, next)` is of a consumable kind. */
  predicate ConsumedOnly(tokens: seq<Token>, pos: nat, next: nat)
    requires pos <= next <= |tokens|
  {
    forall k :: pos <= k < next ==> Consumable(tokens[k].kind)
  }

  // ---------------------------------------------------------------------
  // C#'s dynamic operators on boxed values

  /** The runtime binder reads a null operand as the `null` literal. Against
      a number it picks the lifted (`int?` or `double?`) operator, which
      yields null for `+ - * /` and false for `< <= > >=`. */
  predicate LiftsNull(l: Value, r: Value) {
    (l.Null? && r.IsNumeric()) || (l.IsNumeric() && r.Null?)
  }

  /** `+` binds to string concatenation when a side is a string, and when
      null meets a bool (only `string + object` applies to that pair). */
  predicate Concatenates(op: Kind, l: Value, r: Value) {
    op == Plus && (l.Str? || r.Str? || (l.Null? && r.Bool?) || (l.Bool? && r.Null?))
  }

  /** `(dynamic)l op (dynamic)r` for `+ - * /`. Two ints use int arithmetic;
      an int with a double is widened to double; `+` with a string on
      either side concatenates; null against a number is lifted to null.
      Two nulls are ambiguous, and so not applicable. */
  function Arithmetic(op: Kind, l: Value, r: Value): (v: Result<Value, ParseError>)
    requires IsAdditive(op) || IsMultiplicative(op)
  {
    if l.Int? && r.Int? then IntArithmetic(op, l.i, r.i)
    else if l.IsNumeric() && r.IsNumeric() then RealArithmetic(op, l.AsReal(), r.AsReal())
    else if Concatenates(op, l, r) then Concatenation(l, r)
    else if LiftsNull(l, r) then Success(Null)
    else Failure(OperatorNotApplicable(op, l, r))
  }

  /** `string.Concat(l, r)`, the C# `+` when one side is a string. */
  function Concatenation(l: Value, r: Value): Result<Value, ParseError> {
    var a, b := l.ConcatText(), r.ConcatText();
    if a.None? then Failure(DoubleText(l.r))
    else if b.None? then Failure(DoubleText(r.r))
    else Success(Str(a.value + b.value))
  }

  /** Unchecked int arithmetic: `/` truncates and throws on a zero divisor. */
  function IntArithmetic(op: Kind, x: int32, y: int32): (v: Result<Value, ParseError>)
    requires IsAdditive(op) || IsMultiplicative(op)
  {
    if op == Plus then Success(Int(Wrap32(x + y)))
    else if op == Minus then Success(Int(Wrap32(x - y)))
    else if op == Star then Success(Int(Wrap32(x * y)))
    else if y == 0 then Failure(DivideByZero)
    else if x == Int32Min && y == -1 then Failure(Overflow)
    else
      TruncDivInRange(x, y);
      Success(Int(TruncDiv(x, y)))
  }

  /** Double arithmetic, without rounding. A zero divisor throws nothing
      in .NET but gives an infinity or NaN, which the reals do not hold. */
  function RealArithmetic(op: Kind, x: real, y: real): (v: Result<Value, ParseError>)
    requires IsAdditive(op) || IsMultiplicative(op)
  {
    if op == Plus then Success(Num(x + y))
    else if op == Minus then Success(Num(x - y))
    else if op == Star then Success(Num(x * y))
    else if y == 0.0 then Failure(NonFiniteResult)
    else Success(Num(x / y))
  }

  /** `(dynamic)l op (dynamic)r` for `< <= > >=`: defined on numbers, and
      false when null meets a number. */
  function Relational(op: Kind, l: Value, r: Value): (v: Result<Value, ParseError>)
    requires IsRelational(op)
  {
    if LiftsNull(l, r) then Success(Bool(false))
    else if l.IsNumeric() && r.IsNumeric() then
      var x, y := l.AsReal(), r.AsReal();
      Success(Bool(
        if op == Less then x < y
        else if op == LessEqual then x <= y
        else if op == Greater then x > y
        else x >= y))
    else Failure(OperatorNotApplicable(op, l, r))
  }

  /** The exception of `(bool)o` when `o` is no boxed boolean: a null
      reference for null, an invalid cast for anything else. */
  function CastError(o: Value): ParseError {
    if o.Null? then NullReference else InvalidCast(o)
  }

  /** `(bool)l || (bool)r`: the unboxing casts throw on anything but a
      boolean, and a true left side skips the right cast. */
  function OrValues(l: Value, r: Value): (v: Result<Value, ParseError>)
    ensures v.Success? <==> l.Bool? && (l.b || r.Bool?)
    ensures v.Success? ==> v.value == Bool(l.b || r.b)
    ensures v.Failure? ==> v.error == (if l.Bool? then CastError(r) else CastError(l))
    ensures v.Failure? ==> (v.error == NullReference <==> (l.Null? || (l == Bool(false) && r.Null?)))
  {
    if !l.Bool? then Failure(CastError(l))
    else if l.b then Success(Bool(true))
    else if !r.Bool? then Failure(CastError(r))
    else Success(Bool(r.b))
  }

  /** Two ints give an int and any other pair of numbers a double; `+`
      with a string side, or between null and a bool, gives the
      concatenated texts; null against a number gives null. Each error arises
      exactly where the source fails: an int divided by int 0, the one
      overflowing int quotient, a double divided by zero (an infinity or
      NaN in .NET), a double whose text is not modelled, and operands the
      operator does not apply to. */
  lemma ArithmeticResults(op: Kind, l: Value, r: Value)
    requires IsAdditive(op) || IsMultiplicative(op)
    ensures var v := Arithmetic(op, l, r);
      && (v.Success? && l.Int? && r.Int? ==> v.value.Int?)
      && (v.Success? && l.IsNumeric() && r.IsNumeric() && !(l.Int? && r.Int?) ==> v.value.Num?)
      && (v.Failure? ==> v.error in {DivideByZero, Overflow, NonFiniteResult, OperatorNotApplicable(op, l, r)}
                         || v.error.DoubleText?)
      && (v.Failure? && v.error == DivideByZero <==> op == Slash && l.Int? && r == Int(0))
      && (v.Failure? && v.error == Overflow <==> op == Slash && l == Int(Int32Min) && r == Int(-1))
      && (v.Failure? && v.error == NonFiniteResult <==>
            op == Slash && l.IsNumeric() && r.IsNumeric() && !(l.Int? && r.Int?) && r.AsReal() == 0.0)
      && (v.Failure? && v.error.OperatorNotApplicable? <==>
            !(l.IsNumeric() && r.IsNumeric()) && !Concatenates(op, l, r) && !LiftsNull(l, r))
      && (LiftsNull(l, r) ==> v == Success(Null))
      && (Concatenates(op, l, r) ==>
            && (v.Success? <==> l.ConcatText().Some? && r.ConcatText().Some?)
            && (v.Success? ==> v.value == Str(l.ConcatText().value + r.ConcatText().value)))
  {
  }

  /** A string and any other value concatenate with that value's .NET text:
      `"a" + 2.0` is `"a2"`, `true + "x"` is `"Truex"`, `"n=" + -12` is
      `"n=-12"`, and a null side adds nothing. */
  lemma ConcatenationExamples()
    ensures Arithmetic(Plus, Str("a"), Num(2.0)) == Success(Str("a2"))
    ensures Arithmetic(Plus, Bool(true), Str("x")) == Success(Str("Truex"))
    ensures Arithmetic(Plus, Str("n="), Int(-12)) == Success(Str("n=-12"))
    ensures Arithmetic(Plus, Null, Str("x")) == Success(Str("x"))
    ensures Arithmetic(Plus, Str("a"), Num(0.5)) == Failure(DoubleText(0.5))
    ensures Arithmetic(Minus, Str("a"), Str("b")) == Failure(OperatorNotApplicable(Minus, Str("a"), Str("b")))
  {
    assert PrintsAsInteger(2.0) && Num(2.0).ConcatText() == Some("2");
    assert Concatenation(Str("a"), Num(2.0)) == Success(Str("a" + "2"));
    assert "a" + "2" == "a2";
    assert Concatenation(Bool(true), Str("x")) == Success(Str("True" + "x"));
    assert "True" + "x" == "Truex";
    assert FormatInt(-12) == "-12" by {
      assert NatToDigits(12) == NatToDigits(1) + [DigitChar(2)];
    }
    assert Concatenation(Str("n="), Int(-12)) == Success(Str("n=" + "-12"));
    assert "n=" + "-12" == "n=-12";
    assert Concatenation(Null, Str("x")) == Success(Str("" + "x"));
    assert "" + "x" == "x";
    assert !PrintsAsInteger(0.5);
  }

  /** `x + n` over a number or string literal `x` and a number literal `n`. */
  lemma {:induction false} LiteralSum(t: seq<Token>)
    requires WellFormed(t) && |t| == 4 && (t[0].kind == Number || t[0].kind == String)
    requires t[1].kind == Plus && t[2].kind == Number
    ensures Expression(t, 0).result == Arithmetic(Plus, t[0].literal, t[2].literal)
  {
    ProductStops(t, 1, t[0].literal);
    assert Multiplication(t, 0) == Step(Success(t[0].literal), 1);
    LiteralProduct(t, 2);
    SumStep(t, 0, t[0].literal, 1);
    SumIsExpression(t, 0);
  }

  /** `"a" + 2.0`, from a string literal token, concatenates. */
  lemma StringPlusNumber()
    ensures Expression([Token(String, Str("a")), Op(Plus), Lit(Num(2.0)), EofToken], 0).result == Success(Str("a2"))
  {
    LiteralSum([Token(String, Str("a")), Op(Plus), Lit(Num(2.0)), EofToken]);
    ConcatenationExamples();
  }


  /** A relational operator is defined exactly on two numbers and on null
      against a number; it gives a boolean, false in the lifted case, and
      otherwise orders the two numbers as reals. */
  lemma RelationalResults(op: Kind, l: Value, r: Value)
    requires IsRelational(op)
    ensures var v := Relational(op, l, r);
      && (v.Success? <==> (l.IsNumeric() && r.IsNumeric()) || LiftsNull(l, r))
      && (v.Success? ==> v.value.Bool?)
      && (LiftsNull(l, r) ==> v == Success(Bool(false)))
      && (v.Failure? ==> v.error == OperatorNotApplicable(op, l, r))
      && (l.IsNumeric() && r.IsNumeric() && op == Less ==> v == Success(Bool(l.AsReal() < r.AsReal())))
      && (l.IsNumeric() && r.IsNumeric() && op == GreaterEqual ==> v == Success(Bool(l.AsReal() >= r.AsReal())))
  {
  }

  /** Null against a number: `null + 2.0` and `null * 2` are null, so is
      `1 / null` (no division happens), `null < 2.0` is false, `null + true`
      is the text `True`, and `null + null` is ambiguous. */
  lemma LiftedNullExamples()
    ensures Arithmetic(Plus, Null, Num(2.0)) == Success(Null)
    ensures Arithmetic(Star, Null, Int(2)) == Success(Null)
    ensures Arithmetic(Slash, Int(1), Null) == Success(Null)
    ensures Relational(Less, Null, Num(2.0)) == Success(Bool(false))
    ensures Relational(GreaterEqual, Int(3), Null) == Success(Bool(false))
    ensures Arithmetic(Plus, Null, Bool(true)) == Success(Str("True"))
    ensures Arithmetic(Minus, Null, Bool(true)).Failure?
    ensures Arithmetic(Plus, Null, Null) == Failure(OperatorNotApplicable(Plus, Null, Null))
  {
    assert Concatenation(Null, Bool(true)) == Success(Str("" + "True"));
    assert "" + "True" == "True";
  }

  // ---------------------------------------------------------------------
  // The grammar levels

  function Expression(t: seq<Token>, pos: nat): (r: Step)
    requires WellFormed(t) && pos < |t|
    ensures pos <= r.next < |t|
    ensures r.result.Success? ==> r.next > pos
    decreases |t| - pos, 6
  {
    LogicalOr(t, pos)
  }

  function LogicalOr(t: seq<Token>, pos: nat): (r: Step)
    requires WellFormed(t) && pos < |t|
    ensures pos <= r.next < |t|
    ensures r.result.Success? ==> r.next > pos
    decreases |t| - pos, 5
  {
    var s := Equality(t, pos);
    if s.result.Failure? then s else OrRest(t, s.next, s.result.value)
  }

  function OrRest(t: seq<Token>, pos: nat, left: Value): (r: Step)
    requires WellFormed(t) && pos < |t|
    ensures pos <= r.next < |t|
    decreases |t| - pos, 5
  {
    if t[pos].kind == Or then
      var s := Equality(t, pos + 1);
      if s.result.Failure? then s
      else match OrValues(left, s.result.value)
        case Failure(e) => Step(Failure(e), s.next)
        case Success(v) => OrRest(t, s.next, v)
    else Step(Success(left), pos)
  }

  /** `Equals(l, r)` for `==` and its negation for `!=`. */
  function EqualityValue(op: Kind, l: Value, r: Value): Value
    requires IsEquality(op)
  {
    Bool(if op == EqualEqual then l == r else l != r)
  }

  function Equality(t: seq<Token>, pos: nat): (r: Step)
    requires WellFormed(t) && pos < |t|
    ensures pos <= r.next < |t|
    ensures r.result.Success? ==> r.next > pos
    decreases |t| - pos, 4
  {
    var s := Comparison(t, pos);
    if s.result.Failure? then s else EqualityRest(t, s.next, s.result.value)
  }

  function EqualityRest(t: seq<Token>, pos: nat, left: Value): (r: Step)
    requires WellFormed(t) && pos < |t|
    ensures pos <= r.next < |t|
    decreases |t| - pos, 4
  {
    if IsEquality(t[pos].kind) then
      var op := t[pos].kind;
      var s := Comparison(t, pos + 1);
      if s.result.Failure? then s
      else
        var right := s.result.value;
        EqualityRest(t, s.next, EqualityValue(op, left, right))
    else Step(Success(left), pos)
  }

  function Comparison(t: seq<Token>, pos: nat): (r: Step)
    requires WellFormed(t) && pos < |t|
    ensures pos <= r.next < |t|
    ensures r.result.Success? ==> r.next > pos
    decreases |t| - pos, 3
  {
    var s := Addition(t, pos);
    if s.result.Failure? then s else ComparisonRest(t, s.next, s.result.value)
  }

  function ComparisonRest(t: seq<Token>, pos: nat, left: Value): (r: Step)
    requires WellFormed(t) && pos < |t|
    ensures pos <= r.next < |t|
    decreases |t| - pos, 3
  {
    if IsRelational(t[pos].kind) then
      var op := t[pos].kind;
      var s := Addition(t, pos + 1);
      if s.result.Failure? then s
      else match Relational(op, left, s.result.value)
        case Failure(e) => Step(Failure(e), s.next)
        case Success(v) => ComparisonRest(t, s.next, v)
    else Step(Success(left), pos)
  }

  function Addition(t: seq<Token>, pos: nat): (r: Step)
    requires WellFormed(t) && pos < |t|
    ensures pos <= r.next < |t|
    ensures r.result.Success? ==> r.next > pos
    decreases |t| - pos, 2
  {
    var s := Multiplication(t, pos);
    if s.result.Failure? then s else AdditionRest(t, s.next, s.result.value)
  }

  function AdditionRest(t: seq<Token>, pos: nat, left: Value): (r: Step)
    requires WellFormed(t) && pos < |t|
    ensures pos <= r.next < |t|
    decreases |t| - pos, 2
  {
    if IsAdditive(t[pos].kind) then
      var op := t[pos].kind;
      var s := Multiplication(t, pos + 1);
      if s.result.Failure? then s
      else match Arithmetic(op, left, s.result.value)
        case Failure(e) => Step(Failure(e), s.next)
        case Success(v) => AdditionRest(t, s.next, v)
    else Step(Success(left), pos)
  }

  function Multiplication(t: seq<Token>, pos: nat): (r: Step)
    requires WellFormed(t) && pos < |t|
    ensures pos <= r.next < |t|
    ensures r.result.Success? ==> r.next > pos
    decreases |t| - pos, 1
  {
    var s := Primary(t, pos);
    if s.result.Failure? then s else MultiplicationRest(t, s.next, s.result.value)
  }

  function MultiplicationRest(t: seq<Token>, pos: nat, left: Value): (r: Step)
    requires WellFormed(t) && pos < |t|
    ensures pos <= r.next < |t|
    decreases |t| - pos, 1
  {
    if IsMultiplicative(t[pos].kind) then
      var op := t[pos].kind;
      var s := Primary(t, pos + 1);
      if s.result.Failure? then s
      else match Arithmetic(op, left, s.result.value)
        case Failure(e) => Step(Failure(e), s.next)
        case Success(v) => MultiplicationRest(t, s.next, v)
    else Step(Success(left), pos)
  }

  /** `true`, `false`, a number or string literal, or a parenthesised
      expression; anything else is an unexpected token. */
  function Primary(t: seq<Token>, pos: nat): (r: Step)
    requires WellFormed(t) && pos < |t|
    ensures pos <= r.next < |t|
    ensures r.result.Success? ==> r.next > pos
    decreases |t| - pos, 0
  {
    var k := t[pos].kind;
    if k == True then Step(Success(Bool(true)), pos + 1)
    else if k == False then Step(Success(Bool(false)), pos + 1)
    else if k == Number || k == String then Step(Success(t[pos].literal), pos + 1)
    else if k == LeftParen then Group(t, pos)
    else Step(Failure(UnexpectedToken(t[pos])), pos)
  }

  /** `( expression )`, from the opening parenthesis at `pos`. */
  function Group(t: seq<Token>, pos: nat): (r: Step)
    requires WellFormed(t) && pos < |t| && t[pos].kind == LeftParen
    ensures pos < r.next < |t|
    decreases |t| - pos - 1, 7
  {
    var s := Expression(t, pos + 1);
    if s.result.Failure? then s
    else if t[s.next].kind == RightParen then Step(s.result, s.next + 1)
    else Step(Failure(Raised(ExpectedRightParen)), s.next)
  }

  // ---------------------------------------------------------------------
  // The implementation

  class Parser {
    const tokens: seq<Token>
    var currentIndex: nat

    constructor (tokens: seq<Token>)
      ensures this.tokens == tokens && currentIndex == 0
    {
      this.tokens := tokens;
      currentIndex := 0;
    }

    predicate Valid()
      reads this
    {
      WellFormed(tokens) && currentIndex < |tokens|
    }

    function Peek(): (t: Token)
      reads this
      requires Valid()
      ensures t == tokens[currentIndex]
    {
      tokens[currentIndex]
    }

    function IsAtEnd(): (atEnd: bool)
      reads this
      requires Valid()
      ensures atEnd <==> tokens[currentIndex].kind == Eof
    {
      Peek().kind == Eof
    }

    function Check(kind: Kind): (matches: bool)
      reads this
      requires Valid()
      ensures matches == CheckAt(tokens, currentIndex, kind)
    {
      if IsAtEnd() then false else Peek().kind == kind
    }

    /** Steps past the current token unless it is Eof, and returns the
        token before the cursor (which must exist). */
    method Advance() returns (previous: Token)
      requires Valid() && (currentIndex > 0 || !IsAtEnd())
      modifies this
      ensures Valid()
      ensures currentIndex == if AtEnd(tokens, old(currentIndex)) then old(currentIndex) else old(currentIndex) + 1
      ensures previous == tokens[currentIndex - 1]
    {
      if !IsAtEnd() {
        currentIndex := currentIndex + 1;
      }
      previous := tokens[currentIndex - 1];
    }

    /** Steps past the current token when its kind is one of `kinds`. */
    method Match(kinds: seq<Kind>) returns (matched: bool)
      requires Valid()
      modifies this
      ensures Valid()
      ensures matched <==> !AtEnd(tokens, old(currentIndex)) && tokens[old(currentIndex)].kind in kinds
      ensures currentIndex == if matched then old(currentIndex) + 1 else old(currentIndex)
    {
      for n := 0 to |kinds|
        invariant forall m :: 0 <= m < n ==> !Check(kinds[m])
      {
        if Check(kinds[n]) {
          var _ := Advance();
          return true;
        }
      }
      return false;
    }

    method Consume(kind: Kind, message: string) returns (r: Result<Token, ParseError>)
      requires Valid()
      modifies this
      ensures Valid()
      ensures CheckAt(tokens, old(currentIndex), kind) ==>
        r == Success(tokens[old(currentIndex)]) && currentIndex == old(currentIndex) + 1
      ensures !CheckAt(tokens, old(currentIndex), kind) ==>
        r == Failure(Raised(message)) && currentIndex == old(currentIndex)
    {
      if Check(kind) {
        var t := Advance();
        return Success(t);
      }
      return Failure(Raised(message));
    }

    method ParseExpression() returns (r: Result<Value, ParseError>)
      requires Valid()
      modifies this
      ensures Valid() && Step(r, currentIndex) == Expression(tokens, old(currentIndex))
      decreases |tokens| - currentIndex, 6, 0
    {
      r := ParseLogicalOr();
    }

    method ParseLogicalOr() returns (r: Result<Value, ParseError>)
      requires Valid()
      modifies this
      ensures Valid() && Step(r, currentIndex) == LogicalOr(tokens, old(currentIndex))
      decreases |tokens| - currentIndex, 5, 1
    {
      var first := ParseEquality();
      if first.Failure? {
        return first;
      }
      r := OrLoop(first.value);
    }

    /** The `while (Match(Or))` loop of `ParseLogicalOr`, from the value of its first operand. */
    method OrLoop(first: Value) returns (r: Result<Value, ParseError>)
      requires Valid()
      modifies this
      ensures Valid() && Step(r, currentIndex) == OrRest(tokens, old(currentIndex), first)
      decreases |tokens| - currentIndex, 5, 0
    {
      var left := first;
      while true
        invariant Valid() && old(currentIndex) <= currentIndex
        invariant OrRest(tokens, old(currentIndex), first) == OrRest(tokens, currentIndex, left)
        decreases |tokens| - currentIndex
      {
        var matched := Match([Or]);
        if !matched {
          break;
        }
        var right := ParseEquality();
        if right.Failure? {
          return right;
        }
        var combined := OrValues(left, right.value);
        if combined.Failure? {
          return Failure(combined.error);
        }
        left := combined.value;
      }
      return Success(left);
    }

    method ParseEquality() returns (r: Result<Value, ParseError>)
      requires Valid()
      modifies this
      ensures Valid() && Step(r, currentIndex) == Equality(tokens, old(currentIndex))
      decreases |tokens| - currentIndex, 4, 1
    {
      var first := ParseComparison();
      if first.Failure? {
        return first;
      }
      r := EqualityLoop(first.value);
    }

    /** The `while (Match(EqualEqual, NotEqual))` loop of `ParseEquality`, from the value of its first operand. */
    method EqualityLoop(first: Value) returns (r: Result<Value, ParseError>)
      requires Valid()
      modifies this
      ensures Valid() && Step(r, currentIndex) == EqualityRest(tokens, old(currentIndex), first)
      decreases |tokens| - currentIndex, 4, 0
    {
      var left := first;
      while true
        invariant Valid() && old(currentIndex) <= currentIndex
        invariant EqualityRest(tokens, old(currentIndex), first) == EqualityRest(tokens, currentIndex, left)
        decreases |tokens| - currentIndex
      {
        var matched := Match([EqualEqual, NotEqual]);
        if !matched {
          break;
        }
        var operatorToken := tokens[currentIndex - 1];
        var right := ParseComparison();
        if right.Failure? {
          return right;
        }
        if operatorToken.kind == EqualEqual {
          left := Bool(left == right.value);
        } else {
          left := Bool(left != right.value);
        }
      }
      return Success(left);
    }

    method ParseComparison() returns (r: Result<Value, ParseError>)
      requires Valid()
      modifies this
      ensures Valid() && Step(r, currentIndex) == Comparison(tokens, old(currentIndex))
      decreases |tokens| - currentIndex, 3, 1
    {
      var first := ParseAddition();
      if first.Failure? {
        return first;
      }
      r := ComparisonLoop(first.value);
    }

    /** The `while (Match(Less, LessEqual, Greater, GreaterEqual))` loop of `ParseComparison`, from the value of its first operand. */
    method ComparisonLoop(first: Value) returns (r: Result<Value, ParseError>)
      requires Valid()
      modifies this
      ensures Valid() && Step(r, currentIndex) == ComparisonRest(tokens, old(currentIndex), first)
      decreases |tokens| - currentIndex, 3, 0
    {
      var left := first;
      while true
        invariant Valid() && old(currentIndex) <= currentIndex
        invariant ComparisonRest(tokens, old(currentIndex), first) == ComparisonRest(tokens, currentIndex, left)
        decreases |tokens| - currentIndex
      {
        ghost var pos := currentIndex;
        var matched := Match([Less, LessEqual, Greater, GreaterEqual]);
        if !matched {
          break;
        }
        var operatorToken := tokens[currentIndex - 1];
        var right := ParseAddition();
        ghost var s := Addition(tokens, pos + 1);
        assert Step(right, currentIndex) == s;
        if right.Failure? {
          return right;
        }
        var combined := Relational(operatorToken.kind, left, right.value);
        if combined.Failure? {
          return Failure(combined.error);
        }
        left := combined.value;
      }
      return Success(left);
    }

    method ParseAddition() returns (r: Result<Value, ParseError>)
      requires Valid()
      modifies this
      ensures Valid() && Step(r, currentIndex) == Addition(tokens, old(currentIndex))
      decreases |tokens| - currentIndex, 2, 1
    {
      var first := ParseMultiplication();
      if first.Failure? {
        return first;
      }
      r := AdditionLoop(first.value);
    }

    /** The `while (Match(Plus, Minus))` loop of `ParseAddition`, from the value of its first operand. */
    method AdditionLoop(first: Value) returns (r: Result<Value, ParseError>)
      requires Valid()
      modifies this
      ensures Valid() && Step(r, currentIndex) == AdditionRest(tokens, old(currentIndex), first)
      decreases |tokens| - currentIndex, 2, 0
    {
      var left := first;
      while true
        invariant Valid() && old(currentIndex) <= currentIndex
        invariant AdditionRest(tokens, old(currentIndex), first) == AdditionRest(tokens, currentIndex, left)
        decreases |tokens| - currentIndex
      {
        var matched := Match([Plus, Minus]);
        if !matched {
          break;
        }
        var operatorToken := tokens[currentIndex - 1];
        var right := ParseMultiplication();
        if right.Failure? {
          return right;
        }
        var combined := Arithmetic(operatorToken.kind, left, right.value);
        if combined.Failure? {
          return Failure(combined.error);
        }
        left := combined.value;
      }
      return Success(left);
    }

    method ParseMultiplication() returns (r: Result<Value, ParseError>)
      requires Valid()
      modifies this
      ensures Valid() && Step(r, currentIndex) == Multiplication(tokens, old(currentIndex))
      decreases |tokens| - currentIndex, 1, 1
    {
      var first := ParsePrimary();
      if first.Failure? {
        return first;
      }
      r := MultiplicationLoop(first.value);
    }

    /** The `while (Match(Star, Slash))` loop of `ParseMultiplication`, from the value of its first operand. */
    method MultiplicationLoop(first: Value) returns (r: Result<Value, ParseError>)
      requires Valid()
      modifies this
      ensures Valid() && Step(r, currentIndex) == MultiplicationRest(tokens, old(currentIndex), first)
      decreases |tokens| - currentIndex, 1, 0
    {
      var left := first;
      while true
        invariant Valid() && old(currentIndex) <= currentIndex
        invariant MultiplicationRest(tokens, old(currentIndex), first) == MultiplicationRest(tokens, currentIndex, left)
        decreases |tokens| - currentIndex
      {
        var matched := Match([Star, Slash]);
        if !matched {
          break;
        }
        var operatorToken := tokens[currentIndex - 1];
        var right := ParsePrimary();
        if right.Failure? {
          return right;
        }
        var combined := Arithmetic(operatorToken.kind, left, right.value);
        if combined.Failure? {
          return Failure(combined.error);
        }
        left := combined.value;
      }
      return Success(left);
    }

    method ParsePrimary() returns (r: Result<Value, ParseError>)
      requires Valid()
      modifies this
      ensures Valid() && Step(r, currentIndex) == Primary(tokens, old(currentIndex))
      decreases |tokens| - currentIndex, 0, 0
    {
      var matched := Match([True]);
      if matched {
        return Success(Bool(true));
      }
      matched := Match([False]);
      if matched {
        return Success(Bool(false));
      }
      matched := Match([Number]);
      if matched {
        return Success(tokens[currentIndex - 1].literal);
      }
      matched := Match([String]);
      if matched {
        return Success(tokens[currentIndex - 1].literal);
      }
      matched := Match([LeftParen]);
      if matched {
        var expr := ParseExpression();
        if expr.Failure? {
          return expr;
        }
        var closing := Consume(RightParen, ExpectedRightParen);
        if closing.Failure? {
          return Failure(closing.error);
        }
        return expr;
      }
      return Failure(UnexpectedToken(Peek()));
    }
  }

  // ---------------------------------------------------------------------
  // Properties

  function Lit(v: Value): Token {
    Token(Number, v)
  }

  function Op(k: Kind): Token {
    Token(k, Null)
  }

  /** `l op r` once both operands are evaluated: the first error, if
      either failed. */
  function Combine(op: Kind, l: Result<Value, ParseError>, r: Result<Value, ParseError>): Result<Value, ParseError>
    requires IsAdditive(op) || IsMultiplicative(op)
  {
    if l.Failure? then l else if r.Failure? then r else Arithmetic(op, l.value, r.value)
  }

  // Before a token that continues no loop of a level, that level's loop
  // returns what it has.

  lemma ProductStops(t: seq<Token>, pos: nat, v: Value)
    requires WellFormed(t) && pos < |t| && !IsMultiplicative(t[pos].kind)
    ensures MultiplicationRest(t, pos, v) == Step(Success(v), pos)
  {
  }

  lemma SumStops(t: seq<Token>, pos: nat, v: Value)
    requires WellFormed(t) && pos < |t| && !IsAdditive(t[pos].kind)
    ensures AdditionRest(t, pos, v) == Step(Success(v), pos)
  {
  }

  lemma ComparisonStops(t: seq<Token>, pos: nat, v: Value)
    requires WellFormed(t) && pos < |t| && !IsRelational(t[pos].kind)
    ensures ComparisonRest(t, pos, v) == Step(Success(v), pos)
  {
  }

  lemma EqualityStops(t: seq<Token>, pos: nat, v: Value)
    requires WellFormed(t) && pos < |t| && !IsEquality(t[pos].kind)
    ensures EqualityRest(t, pos, v) == Step(Success(v), pos)
  {
  }

  lemma DisjunctionStops(t: seq<Token>, pos: nat, v: Value)
    requires WellFormed(t) && pos < |t| && t[pos].kind != Or
    ensures OrRest(t, pos, v) == Step(Success(v), pos)
  {
  }

  /** A primary not followed by `* /` is the whole multiplicative level. */
  lemma {:induction false} PrimaryIsProduct(t: seq<Token>, pos: nat)
    requires WellFormed(t) && pos < |t|
    requires var p := Primary(t, pos); p.result.Failure? || !IsMultiplicative(t[p.next].kind)
    ensures Multiplication(t, pos) == Primary(t, pos)
  {
    var p := Primary(t, pos);
    if p.result.Success? {
      ProductStops(t, p.next, p.result.value);
    }
  }

  /** An additive level not followed by a relational, equality or `||`
      operator is the whole expression. */
  lemma {:induction false} SumIsExpression(t: seq<Token>, pos: nat)
    requires WellFormed(t) && pos < |t|
    requires var p := Addition(t, pos);
      p.result.Failure? || (!IsRelational(t[p.next].kind) && !IsEquality(t[p.next].kind) && t[p.next].kind != Or)
    ensures Expression(t, pos) == Addition(t, pos)
  {
    var p := Addition(t, pos);
    if p.result.Success? {
      ComparisonStops(t, p.next, p.result.value);
      EqualityStops(t, p.next, p.result.value);
      DisjunctionStops(t, p.next, p.result.value);
    }
    assert Comparison(t, pos) == p;
    assert Equality(t, pos) == p;
  }

  /** A multiplicative level not followed by `+ -` is the whole additive level. */
  lemma {:induction false} ProductIsSum(t: seq<Token>, pos: nat)
    requires WellFormed(t) && pos < |t|
    requires var p := Multiplication(t, pos); p.result.Failure? || !IsAdditive(t[p.next].kind)
    ensures Addition(t, pos) == Multiplication(t, pos)
  {
    var p := Multiplication(t, pos);
    if p.result.Success? {
      SumStops(t, p.next, p.result.value);
    }
  }

  /** A primary followed by a token that continues no loop is the whole expression. */
  lemma {:induction false} LonePrimary(t: seq<Token>, pos: nat)
    requires WellFormed(t) && pos < |t|
    requires Primary(t, pos).result.Success?
    requires !IsBinary(t[Primary(t, pos).next].kind)
    ensures Expression(t, pos) == Primary(t, pos)
  {
    PrimaryIsProduct(t, pos);
    ProductIsSum(t, pos);
    SumIsExpression(t, pos);
  }

  /** A primary followed by `== !=` or `||` is the whole comparison level. */
  lemma {:induction false} PrimaryIsComparison(t: seq<Token>, pos: nat)
    requires WellFormed(t) && pos < |t|
    requires Primary(t, pos).result.Success?
    requires var k := t[Primary(t, pos).next].kind; !IsRelational(k) && !IsAdditive(k) && !IsMultiplicative(k)
    ensures Comparison(t, pos) == Primary(t, pos)
  {
    var p := Primary(t, pos);
    PrimaryIsProduct(t, pos);
    ProductIsSum(t, pos);
    ComparisonStops(t, p.next, p.result.value);
  }

  /** A literal token is a primary on its own. */
  lemma LiteralPrimary(t: seq<Token>, pos: nat)
    requires WellFormed(t) && pos < |t| && t[pos].kind == Number
    ensures Primary(t, pos) == Step(Success(t[pos].literal), pos + 1)
  {
  }

  /** A parenthesised expression: an error inside surfaces unchanged, and
      a closed one is the primary. */
  lemma ParenthesisedPrimary(t: seq<Token>, pos: nat)
    requires WellFormed(t) && pos < |t| && t[pos].kind == LeftParen
    ensures pos + 1 < |t|
    ensures var e := Expression(t, pos + 1);
      && (e.result.Failure? ==> Primary(t, pos) == e)
      && (e.result.Success? && t[e.next].kind == RightParen ==> Primary(t, pos) == Step(e.result, e.next + 1))
      && (e.result.Success? && t[e.next].kind != RightParen ==>
            Primary(t, pos) == Step(Failure(Raised(ExpectedRightParen)), e.next))
  {
  }

  /** One `*` or `/` between two primaries, with no further one after. */
  lemma {:induction false} ProductStep(t: seq<Token>, pos: nat, a: Value, q: nat)
    requires WellFormed(t) && pos < |t|
    requires Primary(t, pos) == Step(Success(a), q) && IsMultiplicative(t[q].kind)
    requires !IsMultiplicative(t[Primary(t, q + 1).next].kind)
    ensures var p := Primary(t, q + 1);
      Multiplication(t, pos) == Step(Combine(t[q].kind, Success(a), p.result), p.next)
  {
    var p := Primary(t, q + 1);
    if p.result.Success? {
      var v := Arithmetic(t[q].kind, a, p.result.value);
      if v.Success? {
        ProductStops(t, p.next, v.value);
      }
    }
  }

  /** The last `+` or `-` of an additive loop. */
  lemma {:induction false} LastAddend(t: seq<Token>, q: nat, a: Value)
    requires WellFormed(t) && q < |t| && IsAdditive(t[q].kind)
    requires !IsAdditive(t[Multiplication(t, q + 1).next].kind)
    ensures var p := Multiplication(t, q + 1);
      AdditionRest(t, q, a) == Step(Combine(t[q].kind, Success(a), p.result), p.next)
  {
    var p := Multiplication(t, q + 1);
    if p.result.Success? {
      var v := Arithmetic(t[q].kind, a, p.result.value);
      if v.Success? {
        SumStops(t, p.next, v.value);
      }
    }
  }

  /** One `+` or `-` between two multiplicative levels, with no further one after. */
  lemma {:induction false} SumStep(t: seq<Token>, pos: nat, a: Value, q: nat)
    requires WellFormed(t) && pos < |t|
    requires Multiplication(t, pos) == Step(Success(a), q) && IsAdditive(t[q].kind)
    requires !IsAdditive(t[Multiplication(t, q + 1).next].kind)
    ensures var p := Multiplication(t, q + 1);
      Addition(t, pos) == Step(Combine(t[q].kind, Success(a), p.result), p.next)
  {
    LastAddend(t, q, a);
  }

  /** A literal followed by no `* /` is the whole multiplicative level. */
  lemma LiteralProduct(t: seq<Token>, pos: nat)
    requires WellFormed(t) && pos < |t| && t[pos].kind == Number && !IsMultiplicative(t[pos + 1].kind)
    ensures Multiplication(t, pos) == Step(Success(t[pos].literal), pos + 1)
  {
    LiteralPrimary(t, pos);
    PrimaryIsProduct(t, pos);
  }

  /** `n + n * n` over literals `n`. */
  lemma {:induction false} SumOfProduct(t: seq<Token>)
    requires WellFormed(t) && |t| == 6 && t[1].kind == Plus && t[3].kind == Star
    requires t[0].kind == Number && t[2].kind == Number && t[4].kind == Number
    ensures Expression(t, 0).result == Combine(Plus, Success(t[0].literal), Arithmetic(Star, t[2].literal, t[4].literal))
  {
    LiteralProduct(t, 0);
    LiteralPrimary(t, 2);
    LiteralPrimary(t, 4);
    ProductStep(t, 2, t[2].literal, 3);
    SumStep(t, 0, t[0].literal, 1);
    SumIsExpression(t, 0);
  }

  /** Multiplication binds tighter than addition: `a + b * c` is `a + (b * c)`. */
  lemma MultiplicationBindsTighter(a: Value, b: Value, c: Value)
    ensures Expression([Lit(a), Op(Plus), Lit(b), Op(Star), Lit(c), EofToken], 0).result
         == Combine(Plus, Success(a), Arithmetic(Star, b, c))
  {
    SumOfProduct([Lit(a), Op(Plus), Lit(b), Op(Star), Lit(c), EofToken]);
  }

  function GroupedTokens(a: Value, b: Value, c: Value): seq<Token> {
    [Op(LeftParen), Lit(a), Op(Plus), Lit(b), Op(RightParen), Op(Star), Lit(c), EofToken]
  }

  /** The sum `n + n` inside `(n + n) * n`, over literals `n`. */
  lemma {:induction false} InnerSum(t: seq<Token>)
    requires WellFormed(t) && |t| == 8 && t[2].kind == Plus && t[4].kind == RightParen
    requires t[1].kind == Number && t[3].kind == Number
    ensures Expression(t, 1) == Step(Arithmetic(Plus, t[1].literal, t[3].literal), 4)
  {
    LiteralProduct(t, 1);
    LiteralProduct(t, 3);
    SumStep(t, 1, t[1].literal, 2);
    SumIsExpression(t, 1);
  }

  /** The parenthesised `(n + n)` at the front of `(n + n) * n`. */
  lemma {:induction false} GroupedPrimary(t: seq<Token>)
    requires WellFormed(t) && |t| == 8 && t[0].kind == LeftParen && t[2].kind == Plus && t[4].kind == RightParen
    requires t[1].kind == Number && t[3].kind == Number
    ensures var ab := Arithmetic(Plus, t[1].literal, t[3].literal);
      Primary(t, 0) == Step(ab, if ab.Success? then 5 else 4)
  {
    InnerSum(t);
    ParenthesisedPrimary(t, 0);
  }

  /** `(n + n) * n` over literals `n`. */
  lemma {:induction false} ProductOfGroup(t: seq<Token>)
    requires WellFormed(t) && |t| == 8 && t[0].kind == LeftParen && t[2].kind == Plus && t[4].kind == RightParen
    requires t[5].kind == Star && t[1].kind == Number && t[3].kind == Number && t[6].kind == Number
    ensures Expression(t, 0).result == Combine(Star, Arithmetic(Plus, t[1].literal, t[3].literal), Success(t[6].literal))
  {
    GroupedPrimary(t);
    var ab := Arithmetic(Plus, t[1].literal, t[3].literal);
    if ab.Success? {
      LiteralPrimary(t, 6);
      ProductStep(t, 0, ab.value, 5);
    } else {
      PrimaryIsProduct(t, 0);
    }
    ProductIsSum(t, 0);
    SumIsExpression(t, 0);
  }

  /** Parentheses regroup: `(a + b) * c`. */
  lemma ParenthesesGroup(a: Value, b: Value, c: Value)
    ensures Expression(GroupedTokens(a, b, c), 0).result
         == Combine(Star, Arithmetic(Plus, a, b), Success(c))
  {
    ProductOfGroup(GroupedTokens(a, b, c));
  }

  /** `2 + 3 * 4` is 14 and `(2 + 3) * 4` is 20. */
  lemma PrecedenceExamples()
    ensures Expression([Lit(Num(2.0)), Op(Plus), Lit(Num(3.0)), Op(Star), Lit(Num(4.0)), EofToken], 0).result == Success(Num(14.0))
    ensures Expression(GroupedTokens(Num(2.0), Num(3.0), Num(4.0)), 0).result == Success(Num(20.0))
  {
    MultiplicationBindsTighter(Num(2.0), Num(3.0), Num(4.0));
    assert Arithmetic(Star, Num(3.0), Num(4.0)) == Success(Num(12.0));
    assert Combine(Plus, Success(Num(2.0)), Success(Num(12.0))) == Success(Num(14.0));
    ParenthesesGroup(Num(2.0), Num(3.0), Num(4.0));
    assert Arithmetic(Plus, Num(2.0), Num(3.0)) == Success(Num(5.0));
    assert Combine(Star, Success(Num(5.0)), Success(Num(4.0))) == Success(Num(20.0));
  }

  /** The first `n op n` of `n op n op' n`, with `op` additive and `op'`
      not multiplicative: the sum, then the additive level goes on at `op'`. */
  lemma {:induction false} LeadingSum(t: seq<Token>)
    requires WellFormed(t) && |t| == 6 && IsAdditive(t[1].kind) && !IsMultiplicative(t[3].kind)
    requires t[0].kind == Number && t[2].kind == Number
    ensures var ab := Arithmetic(t[1].kind, t[0].literal, t[2].literal);
      Addition(t, 0) == if ab.Failure? then Step(ab, 3) else AdditionRest(t, 3, ab.value)
  {
    LiteralProduct(t, 0);
    LiteralProduct(t, 2);
  }

  /** `n op n op' n` over literals `n` and additive operators `op`, `op'`. */
  lemma {:induction false} DifferenceOfDifference(t: seq<Token>)
    requires WellFormed(t) && |t| == 6 && IsAdditive(t[1].kind) && IsAdditive(t[3].kind)
    requires t[0].kind == Number && t[2].kind == Number && t[4].kind == Number
    ensures Expression(t, 0).result
         == Combine(t[3].kind, Arithmetic(t[1].kind, t[0].literal, t[2].literal), Success(t[4].literal))
  {
    LeadingSum(t);
    LiteralProduct(t, 4);
    var ab := Arithmetic(t[1].kind, t[0].literal, t[2].literal);
    if ab.Success? {
      LastAddend(t, 3, ab.value);
    }
    SumIsExpression(t, 0);
  }

  /** Subtraction folds to the left: `a - b - c` is `(a - b) - c`. */
  lemma SubtractionLeftAssociative(a: Value, b: Value, c: Value)
    ensures Expression([Lit(a), Op(Minus), Lit(b), Op(Minus), Lit(c), EofToken], 0).result
         == Combine(Minus, Arithmetic(Minus, a, b), Success(c))
  {
    DifferenceOfDifference([Lit(a), Op(Minus), Lit(b), Op(Minus), Lit(c), EofToken]);
  }

  /** The tokens of `a op b op' c` over literals. */
  function Chain(a: Value, op: Kind, b: Value, op': Kind, c: Value): seq<Token> {
    [Lit(a), Op(op), Lit(b), Op(op'), Lit(c), EofToken]
  }

  /** A comparison level not followed by `== !=` or `||` is the whole expression. */
  lemma {:induction false} ComparisonIsExpression(t: seq<Token>, pos: nat)
    requires WellFormed(t) && pos < |t|
    requires var p := Comparison(t, pos); p.result.Failure? || (!IsEquality(t[p.next].kind) && t[p.next].kind != Or)
    ensures Expression(t, pos) == Comparison(t, pos)
  {
    var p := Comparison(t, pos);
    if p.result.Success? {
      EqualityStops(t, p.next, p.result.value);
      DisjunctionStops(t, p.next, p.result.value);
    }
    assert Equality(t, pos) == p;
  }

  /** `+ -` fold to the left: `a + b - c` is `(a + b) - c`. */
  lemma AdditionLeftAssociative(a: Value, op: Kind, b: Value, op': Kind, c: Value)
    requires IsAdditive(op) && IsAdditive(op')
    ensures Expression(Chain(a, op, b, op', c), 0).result == Combine(op', Arithmetic(op, a, b), Success(c))
  {
    DifferenceOfDifference(Chain(a, op, b, op', c));
  }

  /** Literals at positions 0, 2 and 4 of a six-token list ending in Eof. */
  predicate ChainShape(t: seq<Token>) {
    WellFormed(t) && |t| == 6 && t[0].kind == Number && t[2].kind == Number && t[4].kind == Number
  }

  lemma {:induction false} ProductFold(t: seq<Token>)
    requires ChainShape(t) && IsMultiplicative(t[1].kind) && IsMultiplicative(t[3].kind)
    ensures Expression(t, 0).result
         == Combine(t[3].kind, Arithmetic(t[1].kind, t[0].literal, t[2].literal), Success(t[4].literal))
  {
    var a, b, c := t[0].literal, t[2].literal, t[4].literal;
    LiteralPrimary(t, 0);
    LiteralPrimary(t, 2);
    LiteralPrimary(t, 4);
    var ab := Arithmetic(t[1].kind, a, b);
    if ab.Success? {
      var abc := Arithmetic(t[3].kind, ab.value, c);
      if abc.Success? {
        ProductStops(t, 5, abc.value);
      }
      assert MultiplicationRest(t, 3, ab.value) == Step(abc, 5);
    }
    assert MultiplicationRest(t, 1, a).result == Combine(t[3].kind, ab, Success(c));
    ProductIsSum(t, 0);
    SumIsExpression(t, 0);
  }

  /** `* /` fold to the left: `a / b / c` is `(a / b) / c`. */
  lemma ProductLeftAssociative(a: Value, op: Kind, b: Value, op': Kind, c: Value)
    requires IsMultiplicative(op) && IsMultiplicative(op')
    ensures Expression(Chain(a, op, b, op', c), 0).result == Combine(op', Arithmetic(op, a, b), Success(c))
  {
    ProductFold(Chain(a, op, b, op', c));
  }

  lemma {:induction false} SumThenRelation(t: seq<Token>)
    requires ChainShape(t) && IsAdditive(t[1].kind) && IsRelational(t[3].kind)
    ensures var ab := Arithmetic(t[1].kind, t[0].literal, t[2].literal);
      Expression(t, 0).result == if ab.Failure? then ab else Relational(t[3].kind, ab.value, t[4].literal)
  {
    LeadingSum(t);
    LiteralIsSum(t, 4);
    var ab := Arithmetic(t[1].kind, t[0].literal, t[2].literal);
    if ab.Success? {
      SumStops(t, 3, ab.value);
    }
    assert Addition(t, 0) == Step(ab, 3);
    if ab.Success? {
      var r := Relational(t[3].kind, ab.value, t[4].literal);
      if r.Success? {
        ComparisonStops(t, 5, r.value);
      }
      assert ComparisonRest(t, 3, ab.value) == Step(r, 5);
    }
    ComparisonIsExpression(t, 0);
  }

  /** `+ -` bind tighter than `< <= > >=`: `a + b < c` is `(a + b) < c`. */
  lemma SumBindsTighterThanRelational(a: Value, op: Kind, b: Value, op': Kind, c: Value)
    requires IsAdditive(op) && IsRelational(op')
    ensures var ab := Arithmetic(op, a, b);
      Expression(Chain(a, op, b, op', c), 0).result == if ab.Failure? then ab else Relational(op', ab.value, c)
  {
    SumThenRelation(Chain(a, op, b, op', c));
  }

  /** A literal not followed by `* / + -` is the whole additive level. */
  lemma LiteralIsSum(t: seq<Token>, pos: nat)
    requires WellFormed(t) && pos + 1 < |t| && t[pos].kind == Number
    requires !IsMultiplicative(t[pos + 1].kind) && !IsAdditive(t[pos + 1].kind)
    ensures Addition(t, pos) == Step(Success(t[pos].literal), pos + 1)
  {
    LiteralProduct(t, pos);
    ProductIsSum(t, pos);
  }

  lemma {:induction false} RelationFold(t: seq<Token>)
    requires ChainShape(t) && IsRelational(t[1].kind) && IsRelational(t[3].kind)
    ensures var ab := Relational(t[1].kind, t[0].literal, t[2].literal);
      Expression(t, 0).result == if ab.Failure? then ab else Relational(t[3].kind, ab.value, t[4].literal)
  {
    LiteralIsSum(t, 0);
    LiteralIsSum(t, 2);
    LiteralIsSum(t, 4);
    var ab := Relational(t[1].kind, t[0].literal, t[2].literal);
    if ab.Success? {
      var r := Relational(t[3].kind, ab.value, t[4].literal);
      assert r.Failure?;
      assert ComparisonRest(t, 3, ab.value) == Step(r, 5);
    }
    ComparisonIsExpression(t, 0);
  }

  /** Relational operators fold to the left: `a < b < c` is `(a < b) < c`,
      which always fails, since the boolean `a < b` is no number. */
  lemma RelationalLeftAssociative(a: Value, op: Kind, b: Value, op': Kind, c: Value)
    requires IsRelational(op) && IsRelational(op')
    ensures var ab := Relational(op, a, b);
      Expression(Chain(a, op, b, op', c), 0).result == if ab.Failure? then ab else Relational(op', ab.value, c)
    ensures Expression(Chain(a, op, b, op', c), 0).result.Failure?
  {
    RelationFold(Chain(a, op, b, op', c));
  }

  lemma {:induction false} RelationThenEquality(t: seq<Token>)
    requires ChainShape(t) && IsRelational(t[1].kind) && IsEquality(t[3].kind)
    ensures var ab := Relational(t[1].kind, t[0].literal, t[2].literal);
      Expression(t, 0).result == if ab.Failure? then ab else Success(EqualityValue(t[3].kind, ab.value, t[4].literal))
  {
    LiteralIsSum(t, 0);
    LiteralIsSum(t, 2);
    PrimaryIsComparison(t, 4);
    var ab := Relational(t[1].kind, t[0].literal, t[2].literal);
    if ab.Success? {
      ComparisonStops(t, 3, ab.value);
      assert Comparison(t, 0) == Step(ab, 3);
      var v := EqualityValue(t[3].kind, ab.value, t[4].literal);
      EqualityStops(t, 5, v);
      DisjunctionStops(t, 5, v);
      assert EqualityRest(t, 3, ab.value) == Step(Success(v), 5);
      assert Equality(t, 0) == Step(Success(v), 5);
    } else {
      assert Equality(t, 0) == Step(ab, 3);
    }
  }

  /** `< <= > >=` bind tighter than `== !=`: `a < b == c` is `(a < b) == c`. */
  lemma RelationalBindsTighterThanEquality(a: Value, op: Kind, b: Value, op': Kind, c: Value)
    requires IsRelational(op) && IsEquality(op')
    ensures var ab := Relational(op, a, b);
      Expression(Chain(a, op, b, op', c), 0).result
        == if ab.Failure? then ab else Success(EqualityValue(op', ab.value, c))
  {
    RelationThenEquality(Chain(a, op, b, op', c));
  }

  lemma {:induction false} EqualityFold(t: seq<Token>)
    requires ChainShape(t) && IsEquality(t[1].kind) && IsEquality(t[3].kind)
    ensures Expression(t, 0)
         == Step(Success(EqualityValue(t[3].kind, EqualityValue(t[1].kind, t[0].literal, t[2].literal), t[4].literal)), 5)
  {
    PrimaryIsComparison(t, 0);
    PrimaryIsComparison(t, 2);
    PrimaryIsComparison(t, 4);
    var v := EqualityValue(t[1].kind, t[0].literal, t[2].literal);
    var w := EqualityValue(t[3].kind, v, t[4].literal);
    EqualityStops(t, 5, w);
    DisjunctionStops(t, 5, w);
    assert EqualityRest(t, 3, v) == Step(Success(w), 5);
    assert Equality(t, 0) == Step(Success(w), 5);
  }

  /** `== !=` fold to the left: `a == b != c` is `(a == b) != c`. */
  lemma EqualityLeftAssociative(a: Value, op: Kind, b: Value, op': Kind, c: Value)
    requires IsEquality(op) && IsEquality(op')
    ensures Expression(Chain(a, op, b, op', c), 0)
         == Step(Success(EqualityValue(op', EqualityValue(op, a, b), c)), 5)
  {
    EqualityFold(Chain(a, op, b, op', c));
  }

  /** The first `a op b` of a chain, followed by `||`, is the equality level. */
  lemma {:induction false} LeadingEquality(t: seq<Token>)
    requires ChainShape(t) && IsEquality(t[1].kind) && t[3].kind == Or
    ensures Equality(t, 0) == Step(Success(EqualityValue(t[1].kind, t[0].literal, t[2].literal)), 3)
  {
    var a, b := t[0].literal, t[2].literal;
    PrimaryIsComparison(t, 0);
    PrimaryIsComparison(t, 2);
    assert Comparison(t, 2) == Step(Success(b), 3);
    var v := EqualityValue(t[1].kind, a, b);
    EqualityStops(t, 3, v);
    assert EqualityRest(t, 1, a) == EqualityRest(t, 3, v);
  }

  lemma {:induction false} EqualityThenOr(t: seq<Token>)
    requires ChainShape(t) && IsEquality(t[1].kind) && t[3].kind == Or
    ensures Expression(t, 0).result == OrValues(EqualityValue(t[1].kind, t[0].literal, t[2].literal), t[4].literal)
  {
    LeadingEquality(t);
    var v := EqualityValue(t[1].kind, t[0].literal, t[2].literal);
    PrimaryIsEquality(t, 4);
    LastDisjunct(t, 3, v);
    assert LogicalOr(t, 0) == OrRest(t, 3, v);
  }

  /** `== !=` bind tighter than `||`: `a == b || c` is `(a == b) || c`. */
  lemma EqualityBindsTighterThanOr(a: Value, op: Kind, b: Value, c: Value)
    requires IsEquality(op)
    ensures Expression(Chain(a, op, b, Or, c), 0).result == OrValues(EqualityValue(op, a, b), c)
  {
    EqualityThenOr(Chain(a, op, b, Or, c));
  }

  lemma {:induction false} OrFold(t: seq<Token>)
    requires ChainShape(t) && t[1].kind == Or && t[3].kind == Or
    ensures var ab := OrValues(t[0].literal, t[2].literal);
      Expression(t, 0).result == if ab.Failure? then ab else OrValues(ab.value, t[4].literal)
  {
    var a := t[0].literal;
    PrimaryIsEquality(t, 0);
    PrimaryIsEquality(t, 2);
    PrimaryIsEquality(t, 4);
    assert Equality(t, 0) == Step(Success(a), 1);
    assert Equality(t, 2) == Step(Success(t[2].literal), 3);
    var ab := OrValues(a, t[2].literal);
    if ab.Success? {
      LastDisjunct(t, 3, ab.value);
      assert OrRest(t, 1, a) == OrRest(t, 3, ab.value);
    } else {
      assert OrRest(t, 1, a) == Step(ab, 3);
    }
    assert Expression(t, 0) == OrRest(t, 1, a);
  }

  /** `||` folds to the left: `a || b || c` is `(a || b) || c`. */
  lemma OrLeftAssociative(a: Value, b: Value, c: Value)
    ensures var ab := OrValues(a, b);
      Expression(Chain(a, Or, b, Or, c), 0).result == if ab.Failure? then ab else OrValues(ab.value, c)
  {
    OrFold(Chain(a, Or, b, Or, c));
  }

  /** `==` and `!=` between two literals give opposite results. */
  lemma EqualityNegation(a: Value, b: Value)
    ensures Expression([Lit(a), Op(EqualEqual), Lit(b), EofToken], 0) == Step(Success(Bool(a == b)), 3)
    ensures Expression([Lit(a), Op(NotEqual), Lit(b), EofToken], 0) == Step(Success(Bool(a != b)), 3)
  {
    LiteralEquality([Lit(a), Op(EqualEqual), Lit(b), EofToken]);
    LiteralEquality([Lit(a), Op(NotEqual), Lit(b), EofToken]);
  }

  /** `n == n` or `n != n` over literals `n`. */
  lemma {:induction false} LiteralEquality(t: seq<Token>)
    requires WellFormed(t) && |t| == 4 && IsEquality(t[1].kind) && t[0].kind == Number && t[2].kind == Number
    ensures var a, b := t[0].literal, t[2].literal;
      Expression(t, 0) == Step(Success(Bool(if t[1].kind == EqualEqual then a == b else a != b)), 3)
  {
    var a, b := t[0].literal, t[2].literal;
    var v := Bool(if t[1].kind == EqualEqual then a == b else a != b);
    PrimaryIsComparison(t, 0);
    PrimaryIsComparison(t, 2);
    EqualityStops(t, 3, v);
    DisjunctionStops(t, 3, v);
    assert EqualityRest(t, 1, a) == Step(Success(v), 3);
    assert Equality(t, 0) == Step(Success(v), 3);
  }

  /** `==` is `object.Equals`: a boxed int never equals a boxed double. */
  lemma IntIsNotDouble()
    ensures Expression([Lit(Int(2)), Op(EqualEqual), Lit(Num(2.0)), EofToken], 0).result == Success(Bool(false))
  {
    LiteralEquality([Lit(Int(2)), Op(EqualEqual), Lit(Num(2.0)), EofToken]);
  }

  /** A primary followed by `||` or nothing that continues a loop is the
      whole equality level. */
  lemma {:induction false} PrimaryIsEquality(t: seq<Token>, pos: nat)
    requires WellFormed(t) && pos < |t|
    requires Primary(t, pos).result.Success?
    requires var k := t[Primary(t, pos).next].kind; !IsBinary(k) || k == Or
    ensures Equality(t, pos) == Primary(t, pos)
  {
    var p := Primary(t, pos);
    PrimaryIsComparison(t, pos);
    EqualityStops(t, p.next, p.result.value);
  }

  /** The last `||` of the disjunction loop. */
  lemma {:induction false} LastDisjunct(t: seq<Token>, q: nat, a: Value)
    requires WellFormed(t) && q < |t| && t[q].kind == Or
    requires t[Equality(t, q + 1).next].kind != Or
    ensures var e := Equality(t, q + 1);
      OrRest(t, q, a) == Step(if e.result.Failure? then e.result else OrValues(a, e.result.value), e.next)
  {
    var e := Equality(t, q + 1);
    if e.result.Success? {
      var v := OrValues(a, e.result.value);
      if v.Success? {
        DisjunctionStops(t, e.next, v.value);
      }
    }
  }

  /** `l || r` once both sides are parsed: the result of `OrValues`. */
  lemma {:induction false} OrStep(t: seq<Token>)
    requires |t| == 4 && StartsPrimary(t[0].kind) && t[0].kind != String && t[0].kind != LeftParen && t[1].kind == Or
    requires StartsPrimary(t[2].kind) && t[2].kind != String && t[2].kind != LeftParen && t[3] == EofToken
    ensures Expression(t, 0).result == OrValues(Primary(t, 0).result.value, Primary(t, 2).result.value)
  {
    assert Primary(t, 0).next == 1 && Primary(t, 0).result.Success?;
    assert Primary(t, 2).next == 3 && Primary(t, 2).result.Success?;
    PrimaryIsEquality(t, 0);
    PrimaryIsEquality(t, 2);
    LastDisjunct(t, 1, Primary(t, 0).result.value);
  }

  /** `||` casts both sides to bool, but a true left side skips the right
      cast; a non-boolean left side is an invalid cast, and a null one a
      null reference. */
  lemma OrShortCircuit(v: Value)
    ensures Expression([Op(True), Op(Or), Lit(v), EofToken], 0).result == Success(Bool(true))
    ensures Expression([Op(False), Op(Or), Lit(v), EofToken], 0).result
         == if v.Bool? then Success(v) else Failure(CastError(v))
    ensures !v.Bool? ==> Expression([Lit(v), Op(Or), Op(True), EofToken], 0).result == Failure(CastError(v))
    ensures Expression([Lit(Null), Op(Or), Op(True), EofToken], 0).result == Failure(NullReference)
    ensures v.Str? ==> Expression([Lit(v), Op(Or), Op(True), EofToken], 0).result == Failure(InvalidCast(v))
  {
    OrStep([Op(True), Op(Or), Lit(v), EofToken]);
    OrStep([Op(False), Op(Or), Lit(v), EofToken]);
    OrStep([Lit(v), Op(Or), Op(True), EofToken]);
    OrStep([Lit(Null), Op(Or), Op(True), EofToken]);
  }

  // Each level reads only consumable tokens.

  lemma {:induction false} ExpressionReads(t: seq<Token>, pos: nat)
    requires WellFormed(t) && pos < |t|
    ensures ConsumedOnly(t, pos, Expression(t, pos).next)
    decreases |t| - pos, 6
  {
    LogicalOrReads(t, pos);
  }

  lemma {:induction false} LogicalOrReads(t: seq<Token>, pos: nat)
    requires WellFormed(t) && pos < |t|
    ensures ConsumedOnly(t, pos, LogicalOr(t, pos).next)
    decreases |t| - pos, 5
  {
    EqualityReads(t, pos);
    var s := Equality(t, pos);
    if s.result.Success? {
      OrRestReads(t, s.next, s.result.value);
    }
  }

  lemma {:induction false} OrRestReads(t: seq<Token>, pos: nat, left: Value)
    requires WellFormed(t) && pos < |t|
    ensures ConsumedOnly(t, pos, OrRest(t, pos, left).next)
    decreases |t| - pos, 5
  {
    if t[pos].kind == Or {
      EqualityReads(t, pos + 1);
      var s := Equality(t, pos + 1);
      if s.result.Success? {
        var v := OrValues(left, s.result.value);
        if v.Success? {
          OrRestReads(t, s.next, v.value);
        }
      }
    }
  }

  lemma {:induction false} EqualityReads(t: seq<Token>, pos: nat)
    requires WellFormed(t) && pos < |t|
    ensures ConsumedOnly(t, pos, Equality(t, pos).next)
    decreases |t| - pos, 4
  {
    ComparisonReads(t, pos);
    var s := Comparison(t, pos);
    if s.result.Success? {
      EqualityRestReads(t, s.next, s.result.value);
    }
  }

  lemma {:induction false} EqualityRestReads(t: seq<Token>, pos: nat, left: Value)
    requires WellFormed(t) && pos < |t|
    ensures ConsumedOnly(t, pos, EqualityRest(t, pos, left).next)
    decreases |t| - pos, 4
  {
    if IsEquality(t[pos].kind) {
      ComparisonReads(t, pos + 1);
      var s := Comparison(t, pos + 1);
      if s.result.Success? {
        var right := s.result.value;
        EqualityRestReads(t, s.next, EqualityValue(t[pos].kind, left, right));
      }
    }
  }

  lemma {:induction false} ComparisonReads(t: seq<Token>, pos: nat)
    requires WellFormed(t) && pos < |t|
    ensures ConsumedOnly(t, pos, Comparison(t, pos).next)
    decreases |t| - pos, 3
  {
    AdditionReads(t, pos);
    var s := Addition(t, pos);
    if s.result.Success? {
      ComparisonRestReads(t, s.next, s.result.value);
    }
  }

  lemma {:induction false} ComparisonRestReads(t: seq<Token>, pos: nat, left: Value)
    requires WellFormed(t) && pos < |t|
    ensures ConsumedOnly(t, pos, ComparisonRest(t, pos, left).next)
    decreases |t| - pos, 3
  {
    if IsRelational(t[pos].kind) {
      AdditionReads(t, pos + 1);
      var s := Addition(t, pos + 1);
      if s.result.Success? {
        var v := Relational(t[pos].kind, left, s.result.value);
        if v.Success? {
          ComparisonRestReads(t, s.next, v.value);
        }
      }
    }
  }

  lemma {:induction false} AdditionReads(t: seq<Token>, pos: nat)
    requires WellFormed(t) && pos < |t|
    ensures ConsumedOnly(t, pos, Addition(t, pos).next)
    decreases |t| - pos, 2
  {
    MultiplicationReads(t, pos);
    var s := Multiplication(t, pos);
    if s.result.Success? {
      AdditionRestReads(t, s.next, s.result.value);
    }
  }

  lemma {:induction false} AdditionRestReads(t: seq<Token>, pos: nat, left: Value)
    requires WellFormed(t) && pos < |t|
    ensures ConsumedOnly(t, pos, AdditionRest(t, pos, left).next)
    decreases |t| - pos, 2
  {
    if IsAdditive(t[pos].kind) {
      MultiplicationReads(t, pos + 1);
      var s := Multiplication(t, pos + 1);
      if s.result.Success? {
        var v := Arithmetic(t[pos].kind, left, s.result.value);
        if v.Success? {
          AdditionRestReads(t, s.next, v.value);
          assert AdditionRest(t, pos, left) == AdditionRest(t, s.next, v.value);
        } else {
          assert AdditionRest(t, pos, left).next == s.next;
        }
      } else {
        assert AdditionRest(t, pos, left) == s;
      }
    }
  }

  lemma {:induction false} MultiplicationReads(t: seq<Token>, pos: nat)
    requires WellFormed(t) && pos < |t|
    ensures ConsumedOnly(t, pos, Multiplication(t, pos).next)
    decreases |t| - pos, 1
  {
    PrimaryReads(t, pos);
    var s := Primary(t, pos);
    if s.result.Success? {
      MultiplicationRestReads(t, s.next, s.result.value);
    }
  }

  lemma {:induction false} MultiplicationRestReads(t: seq<Token>, pos: nat, left: Value)
    requires WellFormed(t) && pos < |t|
    ensures ConsumedOnly(t, pos, MultiplicationRest(t, pos, left).next)
    decreases |t| - pos, 1
  {
    if IsMultiplicative(t[pos].kind) {
      PrimaryReads(t, pos + 1);
      var s := Primary(t, pos + 1);
      if s.result.Success? {
        var v := Arithmetic(t[pos].kind, left, s.result.value);
        if v.Success? {
          MultiplicationRestReads(t, s.next, v.value);
          assert MultiplicationRest(t, pos, left) == MultiplicationRest(t, s.next, v.value);
        } else {
          assert MultiplicationRest(t, pos, left).next == s.next;
        }
      } else {
        assert MultiplicationRest(t, pos, left) == s;
      }
    }
  }

  lemma {:induction false} PrimaryReads(t: seq<Token>, pos: nat)
    requires WellFormed(t) && pos < |t|
    ensures ConsumedOnly(t, pos, Primary(t, pos).next)
    decreases |t| - pos, 0
  {
    if t[pos].kind == LeftParen {
      ExpressionReads(t, pos + 1);
    }
  }

  /** No parse reads past `&&`, `!`, an identifier or Eof. */
  lemma StopsBeforeUnconsumable(t: seq<Token>, pos: nat, k: nat)
    requires WellFormed(t) && pos <= k < |t| && !Consumable(t[k].kind)
    ensures Expression(t, pos).next <= k
  {
    ExpressionReads(t, pos);
  }

  /** `true && false` evaluates `true` and leaves `&& false` unread. */
  lemma AndIsNotParsed()
    ensures Expression([Op(True), Op(And), Op(False), EofToken], 0) == Step(Success(Bool(true)), 1)
  {
    LonePrimary([Op(True), Op(And), Op(False), EofToken], 0);
  }

  /** Trailing tokens are left unread: `a b` yields `a`. */
  lemma TrailingTokensUnread(a: Value, b: Value)
    ensures Expression([Lit(a), Lit(b), EofToken], 0) == Step(Success(a), 1)
  {
    LonePrimary([Lit(a), Lit(b), EofToken], 0);
  }

  /** An identifier, Eof or any token that starts no primary is an unexpected token. */
  lemma {:induction false} NoPrimaryIsError(t: seq<Token>, pos: nat)
    requires WellFormed(t) && pos < |t|
    requires !StartsPrimary(t[pos].kind) || t[pos].kind == Eof
    ensures Expression(t, pos) == Step(Failure(UnexpectedToken(t[pos])), pos)
  {
    assert Primary(t, pos) == Step(Failure(UnexpectedToken(t[pos])), pos);
    PrimaryIsProduct(t, pos);
    ProductIsSum(t, pos);
    SumIsExpression(t, pos);
  }

  /** A primary that fails is the whole expression's failure, whatever follows it. */
  lemma {:induction false} FailedPrimary(t: seq<Token>, pos: nat)
    requires WellFormed(t) && pos < |t| && Primary(t, pos).result.Failure?
    ensures Expression(t, pos) == Primary(t, pos)
  {
    PrimaryIsProduct(t, pos);
    ProductIsSum(t, pos);
    SumIsExpression(t, pos);
  }

  /** An opening parenthesis whose expression is followed by anything but
      `)` fails with Consume's message at that token, and so does every
      expression that starts with it. */
  lemma {:induction false} UnclosedParenthesis(t: seq<Token>, pos: nat)
    requires WellFormed(t) && pos < |t| && t[pos].kind == LeftParen
    requires pos + 1 < |t| && Expression(t, pos + 1).result.Success?
    requires t[Expression(t, pos + 1).next].kind != RightParen
    ensures Expression(t, pos) == Step(Failure(Raised(ExpectedRightParen)), Expression(t, pos + 1).next)
  {
    ParenthesisedPrimary(t, pos);
    FailedPrimary(t, pos);
  }

  /** `( n` over a literal `n`. */
  lemma {:induction false} MissingClose(t: seq<Token>)
    requires WellFormed(t) && |t| == 3 && t[0].kind == LeftParen && t[1].kind == Number
    ensures Expression(t, 0) == Step(Failure(Raised(ExpectedRightParen)), 2)
  {
    LonePrimary(t, 1);
    UnclosedParenthesis(t, 0);
  }
}
