/** The character tokenizer of Dadrass.Dev.Cron/ExpressionParser/Core/Tokenizer.cs.

    `Lex` is one turn of the scan loop (the `switch` on one character),
    `ScanFrom` the whole loop, `Tokenized` the loop followed by the closing
    Eof token. The class `Tokenizer` is the cursor-driven implementation,
    proved equal to them. A thrown exception is a `Failure`. */
module CoreTokenizer {
  import opened Wrappers
  import opened Chars
  import opened Numbers
  import opened Values
  import opened CoreTokens

  datatype TokenizeError =
    | UnexpectedAmpersand
    | UnexpectedBar
    | UnexpectedCharacter(c: char)
  {
    function Message(): string {
      match this
      case UnexpectedAmpersand => "Unexpected character '&'"
      case UnexpectedBar => "Unexpected character '|'"
      case UnexpectedCharacter(c) => "Unexpected character: " + [c]
    }
  }

  // ---------------------------------------------------------------------
  // Number and identifier runs

  /** Where a number literal whose first digit is at `start` ends: a digit
      run, then at most one `.` and a second (possibly empty) digit run. */
  function NumberEnd(s: string, start: nat): (j: nat)
    requires start < |s| && IsDigit(s[start])
    ensures start < j <= |s|
  {
    var k := DigitRunEnd(s, start + 1);
    if k < |s| && s[k] == '.' then DigitRunEnd(s, k + 1) else k
  }

  /** The text of a number literal is a decimal literal. */
  lemma {:induction false} NumberTextIsDecimal(s: string, start: nat)
    requires start < |s| && IsDigit(s[start])
    ensures IsDecimalText(s[start..NumberEnd(s, start)])
  {
    var k := DigitRunEnd(s, start + 1);
    var j := NumberEnd(s, start);
    var t := s[start..j];
    assert forall m :: 0 <= m < k - start ==> t[m] == s[start + m] && t[m] != '.';
    if k < |s| && s[k] == '.' {
      assert t[k - start] == '.';
      DotIndexAt(t, k - start);
      assert t[..k - start] == s[start..k];
    } else {
      assert j == k;
      DotIndexAt(t, |t|);
      assert t[..|t|] == t;
    }
  }

  /** The number token for the literal whose first digit is at `start`. */
  function NumberToken(s: string, start: nat): Token
    requires start < |s| && IsDigit(s[start])
  {
    var text := s[start..NumberEnd(s, start)];
    NumberTextIsDecimal(s, start);
    Token(Number, Num(DecimalValue(text)))
  }

  /** The token for an identifier's text: `true` and `false` are literals. */
  function WordToken(text: string): (t: Token)
    ensures t.kind in {True, False, Identifier}
  {
    if text == "true" then Token(True, Bool(true))
    else if text == "false" then Token(False, Bool(false))
    else Token(Identifier, Str(text))
  }

  // ---------------------------------------------------------------------
  // The scan loop

  /** One turn of the scan loop at `i`: the token it adds, if any, and
      where the next turn starts. */
  function Lex(s: string, i: nat): (r: Result<(Option<Token>, nat), TokenizeError>)
    requires i < |s|
    ensures r.Success? ==> i < r.value.1 <= |s|
    ensures r.Success? && r.value.0.Some? ==> r.value.0.value.kind != Eof
  {
    var c := s[i];
    var j := i + 1;
    var equals := j < |s| && s[j] == '=';
    if c == '(' then Success((Some(Token(LeftParen, Str("("))), j))
    else if c == ')' then Success((Some(Token(RightParen, Str(")"))), j))
    else if c == '+' then Success((Some(Token(Plus, Str("+"))), j))
    else if c == '-' then Success((Some(Token(Minus, Str("-"))), j))
    else if c == '*' then Success((Some(Token(Star, Str("*"))), j))
    else if c == '/' then Success((Some(Token(Slash, Str("/"))), j))
    else if c == '!' then
      if equals then Success((Some(Token(NotEqual, Str("!="))), j + 1))
      else Success((Some(Token(Bang, Str("!"))), j))
    else if c == '=' then
      if equals then Success((Some(Token(EqualEqual, Str("=="))), j + 1))
      else Success((Some(Token(Identifier, Str("="))), j))
    else if c == '<' then
      if equals then Success((Some(Token(LessEqual, Str("<="))), j + 1))
      else Success((Some(Token(Less, Str("<"))), j))
    else if c == '>' then
      if equals then Success((Some(Token(GreaterEqual, Str(">="))), j + 1))
      else Success((Some(Token(Greater, Str(">"))), j))
    else if c == '&' then
      if j < |s| && s[j] == '&' then Success((Some(Token(And, Str("&&"))), j + 1))
      else Failure(UnexpectedAmpersand)
    else if c == '|' then
      if j < |s| && s[j] == '|' then Success((Some(Token(Or, Str("||"))), j + 1))
      else Failure(UnexpectedBar)
    else if c == ' ' || c == '\t' || c == '\r' || c == '\n' then Success((None, j))
    else if IsDigit(c) then Success((Some(NumberToken(s, i)), NumberEnd(s, i)))
    else if IsLetter(c) then
      var e := WordRunEnd(s, j);
      Success((Some(WordToken(s[i..e])), e))
    else Failure(UnexpectedCharacter(c))
  }

  /** The tokens `Some(t)` adds. */
  function Emitted(t: Option<Token>): seq<Token> {
    if t.Some? then [t.value] else []
  }

  /** Puts `acc` in front of a scan's tokens; an error passes through. */
  function Prepend(acc: seq<Token>, scan: (Result<seq<Token>, TokenizeError>, nat)): (Result<seq<Token>, TokenizeError>, nat) {
    (if scan.0.Success? then Success(acc + scan.0.value) else scan.0, scan.1)
  }

  /** The scan loop from `i`: the tokens it collects, or the error it throws,
      and the cursor it leaves behind (just past the offending character). */
  function ScanFrom(s: string, i: nat): (r: (Result<seq<Token>, TokenizeError>, nat))
    requires i <= |s|
    ensures i <= r.1 <= |s|
    ensures r.0.Success? ==> r.1 == |s|
    ensures r.0.Success? ==> forall k :: 0 <= k < |r.0.value| ==> r.0.value[k].kind != Eof
    decreases |s| - i
  {
    if i == |s| then (Success([]), i)
    else
      match Lex(s, i)
      case Failure(e) => (Failure(e), i + 1)
      case Success((t, j)) => Prepend(Emitted(t), ScanFrom(s, j))
  }

  /** `Tokenize` from cursor `i`: the scan, then the Eof token. */
  function Tokenized(s: string, i: nat): (r: (Result<seq<Token>, TokenizeError>, nat))
    requires i <= |s|
  {
    var scan := ScanFrom(s, i);
    (if scan.0.Success? then Success(scan.0.value + [EofToken]) else scan.0, scan.1)
  }

  // ---------------------------------------------------------------------
  // The implementation

  class Tokenizer {
    const input: string
    var currentIndex: nat

    constructor (input: string)
      ensures this.input == input && currentIndex == 0
    {
      this.input := input;
      currentIndex := 0;
    }

    predicate Valid()
      reads this
    {
      currentIndex <= |input|
    }

    function IsAtEnd(): (atEnd: bool)
      reads this
      ensures atEnd <==> currentIndex >= |input|
    {
      currentIndex >= |input|
    }

    /** The character under the cursor, or NUL at the end. */
    function Peek(): (c: char)
      reads this
      ensures currentIndex < |input| ==> c == input[currentIndex]
      ensures currentIndex >= |input| ==> c == '\0'
    {
      if IsAtEnd() then '\0' else input[currentIndex]
    }

    method Advance() returns (c: char)
      requires currentIndex < |input|
      modifies this
      ensures c == input[old(currentIndex)]
      ensures currentIndex == old(currentIndex) + 1
    {
      c := input[currentIndex];
      currentIndex := currentIndex + 1;
    }

    method Match(expected: char) returns (matched: bool)
      modifies this
      ensures matched <==> old(currentIndex) < |input| && input[old(currentIndex)] == expected
      ensures currentIndex == if matched then old(currentIndex) + 1 else old(currentIndex)
    {
      if IsAtEnd() || input[currentIndex] != expected {
        return false;
      }
      currentIndex := currentIndex + 1;
      return true;
    }

    method ParseNumber() returns (t: Token)
      requires 0 < currentIndex <= |input| && IsDigit(input[currentIndex - 1])
      modifies this
      ensures currentIndex == NumberEnd(input, old(currentIndex) - 1)
      ensures t == NumberToken(input, old(currentIndex) - 1)
    {
      var start := currentIndex - 1;
      while !IsAtEnd() && IsDigit(Peek())
        invariant start < currentIndex <= |input|
        invariant DigitRunEnd(input, currentIndex) == DigitRunEnd(input, start + 1)
        decreases |input| - currentIndex
      {
        var _ := Advance();
      }
      assert currentIndex == DigitRunEnd(input, start + 1);
      if Peek() == '.' {
        var _ := Advance();
        var dot := currentIndex - 1;
        while !IsAtEnd() && IsDigit(Peek())
          invariant dot < currentIndex <= |input|
          invariant DigitRunEnd(input, currentIndex) == DigitRunEnd(input, dot + 1)
          decreases |input| - currentIndex
        {
          var _ := Advance();
        }
      }
      assert currentIndex == NumberEnd(input, start);
      var number := input[start..currentIndex];
      NumberTextIsDecimal(input, start);
      t := Token(Number, Num(DecimalValue(number)));
    }

    method ParseIdentifier() returns (t: Token)
      requires 0 < currentIndex <= |input|
      modifies this
      ensures currentIndex == WordRunEnd(input, old(currentIndex))
      ensures t == WordToken(input[old(currentIndex) - 1..currentIndex])
    {
      var start := currentIndex - 1;
      ghost var first := currentIndex;
      while !IsAtEnd() && IsLetterOrDigit(Peek())
        invariant first <= currentIndex <= |input|
        invariant WordRunEnd(input, currentIndex) == WordRunEnd(input, first)
        decreases |input| - currentIndex
      {
        var _ := Advance();
      }
      var text := input[start..currentIndex];
      if text == "true" {
        t := Token(True, Bool(true));
      } else if text == "false" {
        t := Token(False, Bool(false));
      } else {
        t := Token(Identifier, Str(text));
      }
    }

    /** One turn of the loop: the character under the cursor is consumed
        and its token, if any, returned. */
    method ScanOne() returns (r: Result<Option<Token>, TokenizeError>)
      requires currentIndex < |input|
      modifies this
      ensures var l := Lex(input, old(currentIndex));
        && (l.Success? ==> r == Success(l.value.0) && currentIndex == l.value.1)
        && (l.Failure? ==> r == Failure(l.error) && currentIndex == old(currentIndex) + 1)
    {
      var c := Advance();
      if c == '(' {
        r := Success(Some(Token(LeftParen, Str("("))));
      } else if c == ')' {
        r := Success(Some(Token(RightParen, Str(")"))));
      } else if c == '+' {
        r := Success(Some(Token(Plus, Str("+"))));
      } else if c == '-' {
        r := Success(Some(Token(Minus, Str("-"))));
      } else if c == '*' {
        r := Success(Some(Token(Star, Str("*"))));
      } else if c == '/' {
        r := Success(Some(Token(Slash, Str("/"))));
      } else if c == '!' {
        var m := Match('=');
        r := Success(Some(if m then Token(NotEqual, Str("!=")) else Token(Bang, Str("!"))));
      } else if c == '=' {
        var m := Match('=');
        r := Success(Some(if m then Token(EqualEqual, Str("==")) else Token(Identifier, Str("="))));
      } else if c == '<' {
        var m := Match('=');
        r := Success(Some(if m then Token(LessEqual, Str("<=")) else Token(Less, Str("<"))));
      } else if c == '>' {
        var m := Match('=');
        r := Success(Some(if m then Token(GreaterEqual, Str(">=")) else Token(Greater, Str(">"))));
      } else if c == '&' {
        var m := Match('&');
        if m {
          r := Success(Some(Token(And, Str("&&"))));
        } else {
          r := Failure(UnexpectedAmpersand);
        }
      } else if c == '|' {
        var m := Match('|');
        if m {
          r := Success(Some(Token(Or, Str("||"))));
        } else {
          r := Failure(UnexpectedBar);
        }
      } else if c == ' ' || c == '\t' || c == '\r' || c == '\n' {
        r := Success(None);
      } else if IsDigit(c) {
        var t := ParseNumber();
        r := Success(Some(t));
      } else if IsLetter(c) {
        var t := ParseIdentifier();
        r := Success(Some(t));
      } else {
        r := Failure(UnexpectedCharacter(c));
      }
    }

    /** Scans the rest of the input; the token list ends with Eof. */
    method Tokenize() returns (r: Result<seq<Token>, TokenizeError>)
      requires Valid()
      modifies this
      ensures Valid()
      ensures (r, currentIndex) == Tokenized(input, old(currentIndex))
    {
      var tokens: seq<Token> := [];
      ghost var goal := ScanFrom(input, currentIndex);
      if goal.0.Success? {
        assert [] + goal.0.value == goal.0.value;
      }
      while !IsAtEnd()
        invariant currentIndex <= |input|
        invariant goal == Prepend(tokens, ScanFrom(input, currentIndex))
        decreases |input| - currentIndex
      {
        ghost var before := currentIndex;
        var t := ScanOne();
        if t.Failure? {
          return Failure(t.error);
        }
        PrependAssoc(tokens, Emitted(t.value), ScanFrom(input, currentIndex));
        tokens := tokens + Emitted(t.value);
      }
      assert tokens == goal.0.value;
      r := Success(tokens + [EofToken]);
    }
  }

  lemma PrependAssoc(a: seq<Token>, b: seq<Token>, scan: (Result<seq<Token>, TokenizeError>, nat))
    ensures Prepend(a, Prepend(b, scan)) == Prepend(a + b, scan)
  {
    if scan.0.Success? {
      assert a + (b + scan.0.value) == (a + b) + scan.0.value;
    }
  }

  // ---------------------------------------------------------------------
  // Properties

  /** A successful tokenization ends with the one and only Eof token. */
  lemma TokenizedEndsWithEof(s: string, i: nat)
    requires i <= |s|
    requires Tokenized(s, i).0.Success?
    ensures var ts := Tokenized(s, i).0.value;
      && |ts| > 0 && ts[|ts| - 1] == EofToken
      && forall k :: 0 <= k < |ts| - 1 ==> ts[k].kind != Eof
  {
  }

  /** The characters the scan loop skips: space, tab, CR and LF. */
  predicate Skipped(c: char) {
    c == ' ' || c == '\t' || c == '\r' || c == '\n'
  }

  /** Space, tab, CR and LF add no token. */
  lemma WhitespaceSkipped(s: string, i: nat)
    requires i < |s| && Skipped(s[i])
    ensures ScanFrom(s, i) == ScanFrom(s, i + 1)
  {
    assert Lex(s, i) == Success((None, i + 1));
    if ScanFrom(s, i + 1).0.Success? {
      assert [] + ScanFrom(s, i + 1).0.value == ScanFrom(s, i + 1).0.value;
    }
  }

  /** The other ASCII white-space controls (vertical tab, form feed) are
      not skipped: they are unexpected characters. */
  lemma OtherControlsRejected(s: string, i: nat)
    requires i < |s| && s[i] in {'\U{000B}', '\U{000C}'}
    ensures IsWhiteSpace(s[i])
    ensures ScanFrom(s, i) == (Failure(UnexpectedCharacter(s[i])), i + 1)
  {
  }

  /** Scanning white space only emits nothing and reaches the end. */
  lemma {:induction false} BlankScan(s: string, i: nat)
    requires i <= |s|
    requires forall k :: i <= k < |s| ==> Skipped(s[k])
    ensures ScanFrom(s, i).0 == Success([])
    decreases |s| - i
  {
    if i < |s| {
      BlankScan(s, i + 1);
      BlankStep(s, i);
    }
  }

  /** A skipped character before a blank rest scans to nothing. */
  lemma BlankStep(s: string, i: nat)
    requires i < |s| && Skipped(s[i]) && ScanFrom(s, i + 1).0 == Success([])
    ensures ScanFrom(s, i).0 == Success([])
  {
    WhitespaceSkipped(s, i);
  }

  /** Input made of white space only yields just the Eof token. */
  lemma BlankInput(s: string, i: nat)
    requires i <= |s|
    requires forall k :: i <= k < |s| ==> Skipped(s[k])
    ensures Tokenized(s, i) == (Success([EofToken]), |s|)
  {
    BlankScan(s, i);
    assert [] + [EofToken] == [EofToken];
  }

  /** The kind of a one-character token. */
  function SingleKind(c: char): Kind
    requires c in {'(', ')', '+', '-', '*', '/'}
  {
    match c
    case '(' => LeftParen
    case ')' => RightParen
    case '+' => Plus
    case '-' => Minus
    case '*' => Star
    case '/' => Slash
  }

  /** Each of `( ) + - * /` adds exactly one token of its kind. */
  lemma SingleCharToken(s: string, i: nat)
    requires i < |s| && s[i] in {'(', ')', '+', '-', '*', '/'}
    ensures ScanFrom(s, i) == Prepend([Token(SingleKind(s[i]), Str([s[i]]))], ScanFrom(s, i + 1))
  {
  }

  /** The kind of `c` followed by `=`, for `c` among `! = < >`. */
  function WithEqualsKind(c: char): Kind
    requires c in {'!', '=', '<', '>'}
  {
    match c
    case '!' => NotEqual
    case '=' => EqualEqual
    case '<' => LessEqual
    case '>' => GreaterEqual
  }

  /** The kind of `c` alone, for `c` among `! = < >`: a lone `=` is an identifier. */
  function AloneKind(c: char): Kind
    requires c in {'!', '=', '<', '>'}
  {
    match c
    case '!' => Bang
    case '=' => Identifier
    case '<' => Less
    case '>' => Greater
  }

  /** `! = < >` take a following `=` into one two-character token, and
      otherwise stand alone. */
  lemma EqualsLookahead(s: string, i: nat)
    requires i < |s| && s[i] in {'!', '=', '<', '>'}
    ensures i + 1 < |s| && s[i + 1] == '=' ==>
      ScanFrom(s, i) == Prepend([Token(WithEqualsKind(s[i]), Str([s[i], '=']))], ScanFrom(s, i + 2))
    ensures !(i + 1 < |s| && s[i + 1] == '=') ==>
      ScanFrom(s, i) == Prepend([Token(AloneKind(s[i]), Str([s[i]]))], ScanFrom(s, i + 1))
  {
  }

  /** `&` and `|` form And and Or only when doubled; alone they are errors. */
  lemma DoubledLogical(s: string, i: nat)
    requires i < |s| && s[i] in {'&', '|'}
    ensures i + 1 < |s| && s[i + 1] == s[i] ==>
      ScanFrom(s, i) == Prepend([Token(if s[i] == '&' then And else Or, Str([s[i], s[i]]))], ScanFrom(s, i + 2))
    ensures !(i + 1 < |s| && s[i + 1] == s[i]) ==>
      ScanFrom(s, i) == (Failure(if s[i] == '&' then UnexpectedAmpersand else UnexpectedBar), i + 1)
  {
  }

  /** Any character outside the classes the scan loop knows is an error. */
  lemma OtherCharRejected(s: string, i: nat)
    requires i < |s| && !IsDigit(s[i]) && !IsLetter(s[i])
    requires s[i] !in {'(', ')', '+', '-', '*', '/', '!', '=', '<', '>', '&', '|', ' ', '\t', '\r', '\n'}
    ensures ScanFrom(s, i) == (Failure(UnexpectedCharacter(s[i])), i + 1)
  {
  }

  /** A number literal is the maximal run of digits with at most one `.`,
      and its token holds the decimal value of that text. */
  lemma NumberMaximalMunch(s: string, i: nat)
    requires i < |s| && IsDigit(s[i])
    ensures var j := NumberEnd(s, i);
      && ScanFrom(s, i) == Prepend([Token(Number, Num(DecimalValue(s[i..j])))], ScanFrom(s, j))
      && (forall k :: i <= k < j ==> IsDigit(s[k]) || s[k] == '.')
      && (forall a, b :: i <= a < b < j && s[a] == '.' ==> s[b] != '.')
      && (j < |s| ==> !IsDigit(s[j]))
  {
    NumberTextIsDecimal(s, i);
  }

  /** A number followed by `.` already holds a `.`: the second one is an
      unexpected character. */
  lemma SecondDotRejected(s: string, i: nat)
    requires i < |s| && IsDigit(s[i])
    requires NumberEnd(s, i) < |s| && s[NumberEnd(s, i)] == '.'
    ensures exists k :: i < k < NumberEnd(s, i) && s[k] == '.'
    ensures ScanFrom(s, NumberEnd(s, i)).0 == Failure(UnexpectedCharacter('.'))
  {
    var k := DigitRunEnd(s, i + 1);
    assert k < |s| && s[k] == '.';
  }

  /** An identifier is a letter and the maximal letter-or-digit run after it. */
  lemma IdentifierRun(s: string, i: nat)
    requires i < |s| && IsLetter(s[i])
    ensures var e := WordRunEnd(s, i + 1);
      && ScanFrom(s, i) == Prepend([WordToken(s[i..e])], ScanFrom(s, e))
      && (forall k :: i <= k < e ==> IsLetterOrDigit(s[k]))
      && (e < |s| ==> !IsLetterOrDigit(s[e]))
  {
  }

  /** Exactly the words `true` and `false` are boolean literals. */
  lemma WordKinds(text: string)
    ensures WordToken(text).kind == True <==> text == "true"
    ensures WordToken(text).kind == False <==> text == "false"
    ensures WordToken(text).kind == Identifier ==> WordToken(text).literal == Str(text)
    ensures WordToken(text).kind != Identifier ==> WordToken(text).literal == Bool(text == "true")
  {
  }

  /** "1.2.3": the tokenizer stops at the second `.`. */
  lemma TwoDotsExample()
    ensures Tokenized("1.2.3", 0) == (Failure(UnexpectedCharacter('.')), 4)
  {
    var s := "1.2.3";
    assert DigitRunEnd(s, 1) == 1;
    assert DigitRunEnd(s, 2) == 3;
    assert NumberEnd(s, 0) == 3;
    assert Lex(s, 3) == Failure(UnexpectedCharacter('.'));
  }
}
