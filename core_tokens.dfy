/** The token kinds of Dadrass.Dev.Cron/ExpressionParser/Core/TokenType.cs.

    The source spreads the kinds over five enums (arithmetic, logical,
    comparison, literal, other) and a token answers one of them; here they
    form one flat kind, which is what `Check` compares. */
module CoreTokens {
  import opened Values

  datatype Kind =
    | Plus | Minus | Star | Slash
    | And | Or | Bang
    | Less | LessEqual | Greater | GreaterEqual | EqualEqual | NotEqual
    | True | False | Number | String
    | Identifier | LeftParen | RightParen | Eof

  /** A token and the object the tokenizer attached to it: the operator text,
      the identifier's name, the parsed number, the boolean, or null for Eof. */
  datatype Token = Token(kind: Kind, literal: Value)

  const EofToken: Token := Token(Eof, Null)
}
