/** The evaluating parser of Parsing/Parser.cs, which pulls tokens from a
    `Lexing.Lexer` and resolves identifiers through a data source.

    A parse state is a `Cursor`: the current token and the lexer's
    position. Each grammar rule is a spec function from a cursor to an
    `Outcome`: the value or the exception, the cursor left behind, and the
    names the data source was asked for, in order. The class `Parser`
    holds the lexer, the current token and the data source, and its
    methods are proved equal to those functions. */
module Parsing {
  import opened Wrappers
  import opened Chars
  import opened Values
  import opened Lexing
  import opened Comparisons

  datatype ParseError =
    | LexFailed(error: LexError)           // `GetNextToken` threw
    | InvalidComparison                    // no comparison operator after a primary
    | UnexpectedToken                      // no primary at the cursor
    | NumberFormat(text: string)           // `double.Parse` threw
    | ComparisonFailed(cause: CompareError)
  {
    /** The message of the exceptions the source throws itself. */
    function Message(): (m: string)
      requires LexFailed? || InvalidComparison? || UnexpectedToken? || (ComparisonFailed? && cause.UnsupportedOperation?)
    {
      match this
      case LexFailed(e) => e.Message()
      case InvalidComparison => "Invalid comparison expression"
      case UnexpectedToken => "Unexpected token"
      case ComparisonFailed(_) => "Unsupported operation"
    }
  }

  datatype Cursor = Cursor(token: Token, position: nat)

  datatype Outcome<T> = Outcome(result: Result<T, ParseError>, cursor: Cursor, queried: seq<string>)

  predicate IsComparisonOperator(t: TokenType) {
    t == GreaterThan || t == LessThan || t == Equal || t == NotEqual
  }

  predicate IsLogicalOperator(t: TokenType) {
    t == And || t == Or
  }

  /** The token types `ParsePrimary` accepts. */
  predicate StartsPrimary(t: TokenType) {
    t == Identifier || t == Number || t == String
  }

  /** `_currentToken = _lexer.GetNextToken()`: on a lexer exception the
      token stays, but the lexer's position has moved. */
  function Shifted(s: string, c: Cursor): (r: (Option<LexError>, Cursor))
    requires c.position <= |s|
    ensures c.position <= r.1.position <= |s|
    ensures r.0.None? ==> Emitted(r.1.token.tokenType)
    ensures r.0.None? && r.1.token.tokenType != EndOfExpression ==> r.1.position > c.position
    ensures r.0.Some? ==> r.1.token == c.token
  {
    var (t, p) := NextToken(s, c.position);
    if t.Success? then (None, Cursor(t.value, p)) else (Some(t.error), Cursor(c.token, p))
  }

  /** `ParsePrimary`. */
  function Primary(s: string, c: Cursor, ds: string -> Value): (o: Outcome<Value>)
    requires c.position <= |s|
    ensures c.position <= o.cursor.position <= |s|
    ensures o.result.Success? ==> Emitted(o.cursor.token.tokenType)
    ensures o.result.Success? && o.cursor.token.tokenType != EndOfExpression ==> o.cursor.position > c.position
    ensures o.result.Success? <==> StartsPrimary(c.token.tokenType) && Shifted(s, c).0.None?
                                   && (c.token.tokenType == Number ==> IsDecimalText(c.token.value))
    ensures c.token.tokenType == Identifier && o.result.Success? ==>
      o.result.value == ds(c.token.value) && o.queried == [c.token.value]
    ensures c.token.tokenType != Identifier || o.result.Failure? ==> o.queried == []
    ensures !StartsPrimary(c.token.tokenType) ==> o == Outcome(Failure(UnexpectedToken), c, [])
  {
    match c.token.tokenType
    case Identifier =>
      var fieldName := c.token.value;
      var (err, next) := Shifted(s, c);
      if err.Some? then Outcome(Failure(LexFailed(err.value)), next, [])
      else Outcome(Success(ds(fieldName)), next, [fieldName])
    case Number =>
      if !IsDecimalText(c.token.value) then Outcome(Failure(NumberFormat(c.token.value)), c, [])
      else
        var (err, next) := Shifted(s, c);
        if err.Some? then Outcome(Failure(LexFailed(err.value)), next, [])
        else Outcome(Success(Num(DecimalValue(c.token.value))), next, [])
    case String =>
      var (err, next) := Shifted(s, c);
      if err.Some? then Outcome(Failure(LexFailed(err.value)), next, [])
      else Outcome(Success(Str(c.token.value)), next, [])
    case _ => Outcome(Failure(UnexpectedToken), c, [])
  }

  /** `ParseComparison`: a primary, one comparison operator, a primary. */
  function Comparison(s: string, c: Cursor, ds: string -> Value): (o: Outcome<bool>)
    requires c.position <= |s|
    ensures c.position <= o.cursor.position <= |s|
    ensures o.result.Success? ==> Emitted(o.cursor.token.tokenType) && o.cursor.position > c.position
  {
    var l := Primary(s, c, ds);
    if l.result.Failure? then Outcome(Failure(l.result.error), l.cursor, l.queried)
    else if IsComparisonOperator(l.cursor.token.tokenType) then
      var operation := l.cursor.token.tokenType;
      var (err, next) := Shifted(s, l.cursor);
      if err.Some? then Outcome(Failure(LexFailed(err.value)), next, l.queried)
      else
        var r := Primary(s, next, ds);
        if r.result.Failure? then Outcome(Failure(r.result.error), r.cursor, l.queried + r.queried)
        else
          match Compare(l.result.value, r.result.value, operation)
          case Success(b) => Outcome(Success(b), r.cursor, l.queried + r.queried)
          case Failure(e) => Outcome(Failure(ComparisonFailed(e)), r.cursor, l.queried + r.queried)
    else Outcome(Failure(InvalidComparison), l.cursor, l.queried)
  }

  /** The `while` loop of `ParseLogicalExpression` from the cursor `c`,
      with `left` the value so far and `queried` the names asked for so far. */
  function LogicalRest(s: string, c: Cursor, left: bool, queried: seq<string>, ds: string -> Value): (o: Outcome<bool>)
    requires c.position <= |s|
    ensures c.position <= o.cursor.position <= |s|
    decreases |s| - c.position
  {
    if IsLogicalOperator(c.token.tokenType) then
      var operation := c.token.tokenType;
      var (err, next) := Shifted(s, c);
      if err.Some? then Outcome(Failure(LexFailed(err.value)), next, queried)
      else
        var r := Comparison(s, next, ds);
        if r.result.Failure? then Outcome(Failure(r.result.error), r.cursor, queried + r.queried)
        else
          var combined := if operation == And then left && r.result.value else left || r.result.value;
          LogicalRest(s, r.cursor, combined, queried + r.queried, ds)
    else Outcome(Success(left), c, queried)
  }

  /** `ParseLogicalExpression`. */
  function Logical(s: string, c: Cursor, ds: string -> Value): (o: Outcome<bool>)
    requires c.position <= |s|
    ensures c.position <= o.cursor.position <= |s|
  {
    var l := Comparison(s, c, ds);
    if l.result.Failure? then l
    else LogicalRest(s, l.cursor, l.result.value, l.queried, ds)
  }

  /** `new Parser(new Lexer(s), ds).ParseLogicalExpression()`: the
      constructor reads the first token, then the expression is parsed. */
  function Evaluate(s: string, ds: string -> Value): (r: (Result<bool, ParseError>, seq<string>))
  {
    var (t, p) := NextToken(s, 0);
    if t.Failure? then (Failure(LexFailed(t.error)), [])
    else
      var o := Logical(s, Cursor(t.value, p), ds);
      (o.result, o.queried)
  }

  class Parser {
    const lexer: Lexer
    var currentToken: Token
    const dataSource: string -> Value
    /** The names passed to the data source so far. */
    ghost var queried: seq<string>

    predicate Valid()
      reads this, lexer
    {
      lexer.Valid()
    }

    function CursorOf(): Cursor
      reads this, lexer
    {
      Cursor(currentToken, lexer.position)
    }

    constructor FromToken(lexer: Lexer, token: Token, dataSource: string -> Value)
      ensures this.lexer == lexer && currentToken == token && this.dataSource == dataSource && queried == []
    {
      this.lexer := lexer;
      currentToken := token;
      this.dataSource := dataSource;
      queried := [];
    }

    /** The source's constructor, which reads the first token and so
        throws when the lexer does. */
    static method New(lexer: Lexer, dataSource: string -> Value) returns (r: Result<Parser, ParseError>)
      requires lexer.Valid()
      modifies lexer
      ensures lexer.Valid()
      ensures r.Failure? ==> r.error.LexFailed?
      ensures (if r.Success? then Success(r.value.currentToken) else Failure(r.error.error), lexer.position)
              == NextToken(lexer.expression, old(lexer.position))
      ensures r.Success? ==> fresh(r.value) && r.value.lexer == lexer && r.value.dataSource == dataSource && r.value.queried == []
    {
      var t := lexer.GetNextToken();
      if t.Failure? {
        return Failure(LexFailed(t.error));
      }
      var p := new Parser.FromToken(lexer, t.value, dataSource);
      return Success(p);
    }

    method Shift() returns (err: Option<LexError>)
      requires Valid()
      modifies this, lexer
      ensures Valid() && (err, CursorOf()) == Shifted(lexer.expression, old(CursorOf()))
      ensures queried == old(queried)
    {
      var t := lexer.GetNextToken();
      if t.Failure? {
        return Some(t.error);
      }
      currentToken := t.value;
      return None;
    }

    method ParsePrimary() returns (v: Result<Value, ParseError>)
      requires Valid()
      modifies this, lexer
      ensures Valid()
      ensures var o := Primary(lexer.expression, old(CursorOf()), dataSource);
        v == o.result && CursorOf() == o.cursor && queried == old(queried) + o.queried
    {
      if currentToken.tokenType == Identifier {
        var fieldName := currentToken.value;
        var err := Shift();
        if err.Some? {
          return Failure(LexFailed(err.value));
        }
        queried := queried + [fieldName];
        return Success(dataSource(fieldName));
      }
      if currentToken.tokenType == Number {
        if !IsDecimalText(currentToken.value) {
          return Failure(NumberFormat(currentToken.value));
        }
        var value := DecimalValue(currentToken.value);
        var err := Shift();
        if err.Some? {
          return Failure(LexFailed(err.value));
        }
        return Success(Num(value));
      }
      if currentToken.tokenType == String {
        var value := currentToken.value;
        var err := Shift();
        if err.Some? {
          return Failure(LexFailed(err.value));
        }
        return Success(Str(value));
      }
      return Failure(UnexpectedToken);
    }

    method ParseComparison() returns (b: Result<bool, ParseError>)
      requires Valid()
      modifies this, lexer
      ensures Valid()
      ensures var o := Comparison(lexer.expression, old(CursorOf()), dataSource);
        b == o.result && CursorOf() == o.cursor && queried == old(queried) + o.queried
    {
      var leftValue := ParsePrimary();
      if leftValue.Failure? {
        return Failure(leftValue.error);
      }
      if currentToken.tokenType == GreaterThan || currentToken.tokenType == LessThan
         || currentToken.tokenType == Equal || currentToken.tokenType == NotEqual {
        var operation := currentToken.tokenType;
        var err := Shift();
        if err.Some? {
          return Failure(LexFailed(err.value));
        }
        var rightValue := ParsePrimary();
        if rightValue.Failure? {
          return Failure(rightValue.error);
        }
        match Compare(leftValue.value, rightValue.value, operation)
        case Success(x) =>
          return Success(x);
        case Failure(e) =>
          return Failure(ComparisonFailed(e));
      }
      return Failure(InvalidComparison);
    }

    method ParseLogicalExpression() returns (b: Result<bool, ParseError>)
      requires Valid()
      modifies this, lexer
      ensures Valid()
      ensures var o := Logical(lexer.expression, old(CursorOf()), dataSource);
        b == o.result && CursorOf() == o.cursor && queried == old(queried) + o.queried
    {
      ghost var c0 := CursorOf();
      var left := ParseComparison();
      LogicalIsComparison(lexer.expression, c0, dataSource);
      if left.Success? && (currentToken.tokenType == And || currentToken.tokenType == Or) {
        // The source's `while` loop over And/Or tokens: its guard never
        // holds, since the current token came from the lexer.
        assert false;
      }
      return left;
    }
  }

  // ---------------------------------------------------------------------
  // Properties

  /** A cursor's token came from the lexer. */
  predicate Lexed(c: Cursor) {
    Emitted(c.token.tokenType)
  }

  /** The `while` loop never runs: the token after a comparison comes
      from the lexer, which never yields And or Or, so a logical
      expression is exactly one comparison. */
  lemma LogicalIsComparison(s: string, c: Cursor, ds: string -> Value)
    requires c.position <= |s|
    ensures Logical(s, c, ds) == Comparison(s, c, ds)
  {
    var l := Comparison(s, c, ds);
    if l.result.Success? {
      assert !IsLogicalOperator(l.cursor.token.tokenType);
    }
  }

  /** Were an And or Or token at the cursor, its right comparison would
      always be parsed, and its names queried, even when the left value
      already decides the result; the values combine as `&&` or `||`.
      Since the following token is lexed, the loop stops after it. */
  lemma RightOperandAlwaysParsed(s: string, c: Cursor, left: bool, queried: seq<string>, ds: string -> Value)
    requires c.position <= |s| && IsLogicalOperator(c.token.tokenType)
    requires Shifted(s, c).0.None?
    requires Comparison(s, Shifted(s, c).1, ds).result.Success?
    ensures var r := Comparison(s, Shifted(s, c).1, ds);
      var x := r.result.value;
      LogicalRest(s, c, left, queried, ds)
        == Outcome(Success(if c.token.tokenType == And then left && x else left || x), r.cursor, queried + r.queried)
  {
  }

  /** From a lexed token, a primary succeeds only on an identifier, after
      asking the data source for it; a comparison that succeeds asked for
      exactly its two identifiers, left one first. */
  lemma ComparisonQueriesBoth(s: string, c: Cursor, ds: string -> Value)
    requires c.position <= |s| && Lexed(c)
    ensures var o := Comparison(s, c, ds);
      var op := Primary(s, c, ds).cursor.token.tokenType;
      o.result.Success? ==>
        && |o.queried| == 2 && o.queried[0] == c.token.value
        && Compare(ds(o.queried[0]), ds(o.queried[1]), op) == Success(o.result.value)
  {
    var o := Comparison(s, c, ds);
    if o.result.Success? {
      var l := Primary(s, c, ds);
      var next := Shifted(s, l.cursor).1;
      var r := Primary(s, next, ds);
      assert o.queried == [c.token.value, next.token.value];
    }
  }

  /** A comparison needs one of `> < == !=`: anything else after the
      first primary, `>=` and `<=` included, is an invalid comparison. */
  lemma OperatorRequired(s: string, c: Cursor, ds: string -> Value)
    requires c.position <= |s|
    requires Primary(s, c, ds).result.Success?
    requires !IsComparisonOperator(Primary(s, c, ds).cursor.token.tokenType)
    ensures Comparison(s, c, ds) == Outcome(Failure(InvalidComparison), Primary(s, c, ds).cursor, Primary(s, c, ds).queried)
  {
  }

  /** The tokens of `a == b`, read one call at a time. */
  lemma FieldEqualityTokens()
    ensures NextToken("a == b", 0) == (Success(Token(Identifier, "a")), 1)
    ensures NextToken("a == b", 1) == (Success(Bare(Equal)), 4)
    ensures NextToken("a == b", 4) == (Success(Token(Identifier, "b")), 6)
    ensures NextToken("a == b", 6) == (Success(Bare(EndOfExpression)), 6)
  {
    var s := "a == b";
    assert WordRunEnd(s, 0) == 1 && s[0..1] == "a";
    assert WhiteSpaceEnd(s, 1) == 2 && OperatorRunEnd(s, 2) == 4 && s[2..4] == "==";
    assert WhiteSpaceEnd(s, 4) == 5 && WordRunEnd(s, 5) == 6 && s[5..6] == "b";
  }

  /** Two fields compared with `==`: both are asked for, in order. */
  lemma FieldEquality(ds: string -> Value)
    requires !ds("a").Null?
    ensures Evaluate("a == b", ds) == (Success(ds("a") == ds("b")), ["a", "b"])
  {
    var s := "a == b";
    FieldEqualityTokens();
    var c0 := Cursor(Token(Identifier, "a"), 1);
    var c1 := Cursor(Token(Identifier, "b"), 6);
    var end := Cursor(Bare(EndOfExpression), 6);
    assert Primary(s, c0, ds) == Outcome(Success(ds("a")), Cursor(Bare(Equal), 4), ["a"]);
    assert Primary(s, c1, ds) == Outcome(Success(ds("b")), end, ["b"]);
    assert Comparison(s, c0, ds) == Outcome(Success(ds("a") == ds("b")), end, ["a", "b"]);
    LogicalIsComparison(s, c0, ds);
  }

  /** The tokens of `age > 18` up to the digit. */
  lemma NumberLiteralTokens()
    ensures NextToken("age > 18", 0) == (Success(Token(Identifier, "age")), 3)
    ensures NextToken("age > 18", 3) == (Success(Bare(GreaterThan)), 5)
    ensures NextToken("age > 18", 5) == (Success(Bare(EndOfExpression)), 7)
  {
    var s := "age > 18";
    assert WordRunEnd(s, 0) == 3 && s[0..3] == "age";
    assert WhiteSpaceEnd(s, 3) == 4 && OperatorRunEnd(s, 4) == 5 && s[4..5] == ">";
    assert WhiteSpaceEnd(s, 5) == 6;
  }

  /** A digit is skipped as the end of input, so comparing with a number
      literal fails after the field has been asked for. */
  lemma NumberLiteralUnexpected(ds: string -> Value)
    ensures Evaluate("age > 18", ds) == (Failure(UnexpectedToken), ["age"])
  {
    var s := "age > 18";
    NumberLiteralTokens();
    var c0 := Cursor(Token(Identifier, "age"), 3);
    var end := Cursor(Bare(EndOfExpression), 7);
    assert Primary(s, c0, ds) == Outcome(Success(ds("age")), Cursor(Bare(GreaterThan), 5), ["age"]);
    assert Primary(s, end, ds) == Outcome(Failure(UnexpectedToken), end, []);
    assert Comparison(s, c0, ds) == Outcome(Failure(UnexpectedToken), end, ["age"]);
    LogicalIsComparison(s, c0, ds);
  }

  /** `!=` throws in the lexer before the data source is asked for anything. */
  lemma NotEqualUnknown(ds: string -> Value)
    ensures Evaluate("a != b", ds) == (Failure(LexFailed(UnknownOperator)), [])
  {
    var s := "a != b";
    assert WordRunEnd(s, 0) == 1 && s[0..1] == "a";
    assert WhiteSpaceEnd(s, 1) == 2 && OperatorRunEnd(s, 2) == 2;
    assert NextToken(s, 0) == (Success(Token(Identifier, "a")), 1);
    assert NextToken(s, 1) == (Failure(UnknownOperator), 2);
    var c0 := Cursor(Token(Identifier, "a"), 1);
    assert Primary(s, c0, ds) == Outcome(Failure(LexFailed(UnknownOperator)), Cursor(c0.token, 2), []);
    LogicalIsComparison(s, c0, ds);
  }

  /** `>=` lexes, but is not a comparison operator of this parser. */
  lemma GreaterEqualInvalid(ds: string -> Value)
    ensures Evaluate("a >= b", ds) == (Failure(InvalidComparison), ["a"])
  {
    var s := "a >= b";
    assert WordRunEnd(s, 0) == 1 && s[0..1] == "a";
    assert WhiteSpaceEnd(s, 1) == 2 && OperatorRunEnd(s, 2) == 4 && s[2..4] == ">=";
    assert NextToken(s, 0) == (Success(Token(Identifier, "a")), 1);
    assert NextToken(s, 1) == (Success(Bare(GreaterThanOrEqual)), 4);
    var c0 := Cursor(Token(Identifier, "a"), 1);
    assert Primary(s, c0, ds) == Outcome(Success(ds("a")), Cursor(Bare(GreaterThanOrEqual), 4), ["a"]);
    LogicalIsComparison(s, c0, ds);
  }

  /** The tokens of any text that starts `a == b &`. */
  lemma LeadingTokens(s: string)
    requires |s| >= 8 && s[0] == 'a' && s[1] == ' ' && s[2] == '=' && s[3] == '=' && s[4] == ' '
    requires s[5] == 'b' && s[6] == ' ' && s[7] == '&'
    ensures NextToken(s, 0) == (Success(Token(Identifier, "a")), 1)
    ensures NextToken(s, 1) == (Success(Bare(Equal)), 4)
    ensures NextToken(s, 4) == (Success(Token(Identifier, "b")), 6)
    ensures NextToken(s, 6) == (Success(Bare(EndOfExpression)), 8)
  {
    assert WhiteSpaceEnd(s, 0) == 0 && WordRunEnd(s, 0) == 1 && s[0..1] == "a";
    IdentifierIsMaximal(s, 0);
    assert WhiteSpaceEnd(s, 1) == 2 && OperatorRunEnd(s, 2) == 4 && s[2..4] == "==";
    OperatorIsMaximal(s, 1, 2, 4);
    assert WhiteSpaceEnd(s, 4) == 5 && WordRunEnd(s, 5) == 6 && s[5..6] == "b";
    IdentifierIsMaximal(s, 4);
    assert WhiteSpaceEnd(s, 6) == 7;
    OtherCharSkipped(s, 6);
  }

  /** The tokens of `a == b && c == d`: `&` reads as the end. */
  lemma TrailingTokens()
    ensures NextToken("a == b && c == d", 0) == (Success(Token(Identifier, "a")), 1)
    ensures NextToken("a == b && c == d", 1) == (Success(Bare(Equal)), 4)
    ensures NextToken("a == b && c == d", 4) == (Success(Token(Identifier, "b")), 6)
    ensures NextToken("a == b && c == d", 6) == (Success(Bare(EndOfExpression)), 8)
  {
    var s := "a == b && c == d";
    assert s[0] == 'a' && s[1] == ' ' && s[2] == '=' && s[3] == '=' && s[4] == ' ';
    assert s[5] == 'b' && s[6] == ' ' && s[7] == '&';
    LeadingTokens(s);
  }

  /** Parsing stops after one comparison with no end-of-input check:
      `&&` is skipped as the end, so whatever follows is never read. */
  lemma TrailingInputIgnored(ds: string -> Value)
    requires !ds("a").Null?
    ensures Evaluate("a == b && c == d", ds) == Evaluate("a == b", ds)
  {
    FieldEquality(ds);
    var s := "a == b && c == d";
    TrailingTokens();
    var c0 := Cursor(Token(Identifier, "a"), 1);
    var c1 := Cursor(Token(Identifier, "b"), 6);
    var end := Cursor(Bare(EndOfExpression), 8);
    assert Primary(s, c0, ds) == Outcome(Success(ds("a")), Cursor(Bare(Equal), 4), ["a"]);
    assert Primary(s, c1, ds) == Outcome(Success(ds("b")), end, ["b"]);
    assert Comparison(s, c0, ds) == Outcome(Success(ds("a") == ds("b")), end, ["a", "b"]);
    LogicalIsComparison(s, c0, ds);
  }
}
