/** The pull lexer of Lexing/Lexer.cs.

    `NextToken` is one call of `GetNextToken` as a function of the input
    and the position: the token returned, or the exception thrown, and
    the position left behind. The class `Lexer` advances its `position`
    field with the source's loops and is proved equal to it. */
module Lexing {
  import opened Wrappers
  import opened Chars

  /** Lexing/TokenType.cs. */
  datatype TokenType =
    | Number | Identifier | String
    | Plus | Minus | Multiply | Divide
    | GreaterThan | LessThan | GreaterThanOrEqual | LessThanOrEqual | Equal | NotEqual
    | And | Or
    | LeftParenthesis | RightParenthesis
    | EndOfExpression

  /** Lexing/Token.cs: a type and a text value. */
  datatype Token = Token(tokenType: TokenType, value: string)

  /** `new Token(type)`: the value defaults to the empty string. */
  function Bare(t: TokenType): Token {
    Token(t, "")
  }

  datatype LexError = UnknownOperator
  {
    function Message(): string {
      "Unknown operator"
    }
  }

  /** The only token types `GetNextToken` can return. NotEqual is not
      among them: `!` is not an operator character, so no operator run
      is ever the text `!=`. */
  predicate Emitted(t: TokenType) {
    t == Identifier || t == GreaterThan || t == LessThan || t == GreaterThanOrEqual
    || t == LessThanOrEqual || t == Equal || t == EndOfExpression
  }

  /** The six operator texts the lexer accepts. */
  const OperatorTexts: set<string> := {">", "<", ">=", "<=", "==", "!="}

  /** The characters that start an operator. */
  predicate StartsOperator(c: char) {
    c == '>' || c == '<' || c == '=' || c == '!'
  }

  /** The characters `ParseOperator` takes: .NET symbols, and `=`. */
  predicate IsOperatorChar(c: char) {
    IsSymbol(c) || c == '='
  }

  /** The end of the maximal whitespace run that starts at `i`. */
  function WhiteSpaceEnd(s: string, i: nat): (j: nat)
    requires i <= |s|
    ensures i <= j <= |s|
    ensures forall k :: i <= k < j ==> IsWhiteSpace(s[k])
    ensures j < |s| ==> !IsWhiteSpace(s[j])
    decreases |s| - i
  {
    if i < |s| && IsWhiteSpace(s[i]) then WhiteSpaceEnd(s, i + 1) else i
  }

  /** The end of the maximal operator-character run that starts at `i`. */
  function OperatorRunEnd(s: string, i: nat): (j: nat)
    requires i <= |s|
    ensures i <= j <= |s|
    ensures forall k :: i <= k < j ==> IsOperatorChar(s[k])
    ensures j < |s| ==> !IsOperatorChar(s[j])
    decreases |s| - i
  {
    if i < |s| && IsOperatorChar(s[i]) then OperatorRunEnd(s, i + 1) else i
  }

  /** The `switch` on the operator text. */
  function OperatorKind(op: string): (k: Option<TokenType>)
    ensures k.Some? <==> op in OperatorTexts
    ensures k.Some? && op != "!=" ==> Emitted(k.value) && k.value != Identifier && k.value != EndOfExpression
  {
    if op == ">" then Some(GreaterThan)
    else if op == "<" then Some(LessThan)
    else if op == ">=" then Some(GreaterThanOrEqual)
    else if op == "<=" then Some(LessThanOrEqual)
    else if op == "==" then Some(Equal)
    else if op == "!=" then Some(NotEqual)
    else None
  }

  /** One call of `GetNextToken` from position `p`. */
  function NextToken(s: string, p: nat): (r: (Result<Token, LexError>, nat))
    requires p <= |s|
    ensures p <= r.1 <= |s|
    ensures r.0.Success? ==> Emitted(r.0.value.tokenType)
    ensures r.0.Success? && r.1 == p ==> p == |s| && r.0.value == Bare(EndOfExpression)
    ensures r.0.Success? && r.0.value.tokenType == Identifier ==>
      var v := r.0.value.value;
      && |v| > 0 && IsLetter(v[0])
      && forall k :: 0 <= k < |v| ==> IsLetterOrDigit(v[k])
    ensures r.0.Failure? ==>
      var q := WhiteSpaceEnd(s, p);
      q < |s| && StartsOperator(s[q]) && r.1 == OperatorRunEnd(s, q) && s[q..r.1] !in OperatorTexts
  {
    var q := WhiteSpaceEnd(s, p);
    if q == |s| then (Success(Bare(EndOfExpression)), q)
    else if IsLetter(s[q]) then
      var e := WordRunEnd(s, q);
      var identifier := s[q..e];
      assert identifier[0] == s[q];
      if identifier == "&&" then (Success(Bare(And)), e)
      else if identifier == "||" then (Success(Bare(Or)), e)
      else (Success(Token(Identifier, identifier)), e)
    else if StartsOperator(s[q]) then
      var e := OperatorRunEnd(s, q);
      assert e > q ==> s[q..e][0] == s[q] && IsOperatorChar(s[q]);
      match OperatorKind(s[q..e])
      case Some(k) => (Success(Bare(k)), e)
      case None => (Failure(UnknownOperator), e)
    else (Success(Bare(EndOfExpression)), q + 1)
  }

  class Lexer {
    const expression: string
    var position: nat

    constructor (expression: string)
      ensures this.expression == expression && position == 0
    {
      this.expression := expression;
      position := 0;
    }

    predicate Valid()
      reads this
    {
      position <= |expression|
    }

    method GetNextToken() returns (r: Result<Token, LexError>)
      requires Valid()
      modifies this
      ensures Valid() && (r, position) == NextToken(expression, old(position))
    {
      while position < |expression| && IsWhiteSpace(expression[position])
        invariant old(position) <= position <= |expression|
        invariant WhiteSpaceEnd(expression, position) == WhiteSpaceEnd(expression, old(position))
        decreases |expression| - position
      {
        position := position + 1;
      }
      if position >= |expression| {
        return Success(Bare(EndOfExpression));
      }
      var current := expression[position];
      if IsLetter(current) {
        var identifier := ParseIdentifier();
        if identifier == "&&" {
          return Success(Bare(And));
        }
        if identifier == "||" {
          return Success(Bare(Or));
        }
        return Success(Token(Identifier, identifier));
      }
      if current == '>' || current == '<' || current == '=' || current == '!' {
        var op := ParseOperator();
        match OperatorKind(op)
        case Some(k) =>
          return Success(Bare(k));
        case None =>
          return Failure(UnknownOperator);
      }
      position := position + 1;
      return Success(Bare(EndOfExpression));
    }

    method ParseIdentifier() returns (identifier: string)
      requires Valid()
      modifies this
      ensures Valid() && position == WordRunEnd(expression, old(position))
      ensures identifier == expression[old(position)..position]
    {
      var start := position;
      while position < |expression| && IsLetterOrDigit(expression[position])
        invariant start <= position <= |expression|
        invariant WordRunEnd(expression, position) == WordRunEnd(expression, start)
        decreases |expression| - position
      {
        position := position + 1;
      }
      identifier := expression[start..position];
    }

    method ParseOperator() returns (op: string)
      requires Valid()
      modifies this
      ensures Valid() && position == OperatorRunEnd(expression, old(position))
      ensures op == expression[old(position)..position]
    {
      var start := position;
      while position < |expression| && (IsSymbol(expression[position]) || expression[position] == '=')
        invariant start <= position <= |expression|
        invariant OperatorRunEnd(expression, position) == OperatorRunEnd(expression, start)
        decreases |expression| - position
      {
        position := position + 1;
      }
      op := expression[start..position];
    }
  }

  // ---------------------------------------------------------------------
  // Properties

  /** An identifier starts with a letter, so it is never `&&` or `||`:
      And and Or tokens, like Number, String and NotEqual tokens, are never produced. */
  lemma NoLogicalTokens(s: string, p: nat)
    requires p <= |s|
    ensures NextToken(s, p).0.Success? ==>
      var k := NextToken(s, p).0.value.tokenType;
      k != And && k != Or && k != Number && k != String && k != NotEqual
  {
  }

  /** At the end, only whitespace left, `EndOfExpression` comes back
      without moving, and so on every later call. */
  lemma {:induction false} EndIsSticky(s: string, p: nat)
    requires p <= |s|
    requires forall k :: p <= k < |s| ==> IsWhiteSpace(s[k])
    ensures NextToken(s, p) == (Success(Bare(EndOfExpression)), |s|)
    ensures NextToken(s, |s|) == NextToken(s, p)
    decreases |s| - p
  {
    if p < |s| {
      EndIsSticky(s, p + 1);
    }
  }

  /** `!` is not a symbol character, so an operator starting with it is
      the empty text and always throws, leaving the position in place. */
  lemma BangThrows(s: string, p: nat)
    requires p < |s| && s[p] == '!'
    ensures NextToken(s, p) == (Failure(UnknownOperator), p)
  {
    assert OperatorRunEnd(s, p) == p;
    assert s[p..p] == "";
  }

  /** A character that starts neither an identifier nor an operator, such
      as a digit, a quote or `&`, is skipped alone and reads as the end. */
  lemma OtherCharSkipped(s: string, p: nat)
    requires p <= |s|
    requires var q := WhiteSpaceEnd(s, p); q < |s| && !IsLetter(s[q]) && !StartsOperator(s[q])
    ensures NextToken(s, p) == (Success(Bare(EndOfExpression)), WhiteSpaceEnd(s, p) + 1)
  {
  }

  /** An identifier is the maximal run of letters and digits after the whitespace. */
  lemma IdentifierIsMaximal(s: string, p: nat)
    requires p <= |s|
    requires var q := WhiteSpaceEnd(s, p); q < |s| && IsLetter(s[q])
    ensures var q := WhiteSpaceEnd(s, p);
      NextToken(s, p) == (Success(Token(Identifier, s[q..WordRunEnd(s, q)])), WordRunEnd(s, q))
  {
    var q := WhiteSpaceEnd(s, p);
    var e := WordRunEnd(s, q);
    assert s[q..e][0] == s[q];
  }

  /** After the whitespace, a character that starts an operator opens the
      maximal run of operator characters, and its text is looked up. */
  lemma OperatorIsMaximal(s: string, p: nat, q: nat, e: nat)
    requires p <= q < |s| && WhiteSpaceEnd(s, p) == q && StartsOperator(s[q])
    requires OperatorRunEnd(s, q) == e
    ensures NextToken(s, p) == match OperatorKind(s[q..e])
      case Some(k) => (Success(Bare(k)), e)
      case None => (Failure(UnknownOperator), e)
  {
  }

  /** `>=` is one token, and `> =` is two: the space ends the first run. */
  lemma CompoundOperator()
    ensures NextToken(">=", 0) == (Success(Bare(GreaterThanOrEqual)), 2)
    ensures NextToken("> =", 0) == (Success(Bare(GreaterThan)), 1)
  {
    assert OperatorRunEnd(">=", 0) == 2 && ">="[0..2] == ">=";
    OperatorIsMaximal(">=", 0, 0, 2);
    assert OperatorRunEnd("> =", 0) == 1 && "> ="[0..1] == ">";
    OperatorIsMaximal("> =", 0, 0, 1);
  }

  /** A run whose text is not one of the operators throws, after the
      whole run: a lone `=`, `=>`, and `>+` (the `+` is a symbol too). */
  lemma UnknownOperatorRuns()
    ensures NextToken("> =", 1) == (Failure(UnknownOperator), 3)
    ensures NextToken("=>", 0) == (Failure(UnknownOperator), 2)
    ensures NextToken(">+1", 0) == (Failure(UnknownOperator), 2)
  {
    assert WhiteSpaceEnd("> =", 1) == 2 && OperatorRunEnd("> =", 2) == 3 && "> ="[2..3] == "=";
    OperatorIsMaximal("> =", 1, 2, 3);
    assert OperatorRunEnd("=>", 0) == 2 && "=>"[0..2] == "=>";
    OperatorIsMaximal("=>", 0, 0, 2);
    assert OperatorRunEnd(">+1", 0) == 2 && ">+1"[0..2] == ">+";
    OperatorIsMaximal(">+1", 0, 0, 2);
  }

  /** `!=` in an expression throws at the `!`, after skipping the space. */
  lemma NotEqualThrows()
    ensures NextToken("a != b", 1) == (Failure(UnknownOperator), 2)
  {
    assert WhiteSpaceEnd("a != b", 1) == 2 && OperatorRunEnd("a != b", 2) == 2 && "a != b"[2..2] == "";
    OperatorIsMaximal("a != b", 1, 2, 2);
  }
}
