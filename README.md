# Dadrass.Dev.Cron in Dafny

A model of the sequential core of the Dadrass.Dev.Cron scheduler library, with proofs about it:

- **Pattern arithmetic.** `TimePattern` turns `"<anchor> <ms> <s> <min> <h> <d>"` into five interval fields and an initial delay (`BaseWait`). It also renders the fields back with `ToString`.
- **Three expression engines.**
  - `ExpressionParser/Core`: a character tokenizer, a recursive-descent parser that evaluates while it parses, and an identifier and operator helper.
  - `Lexing/Lexer` with `Parsing/Parser`: a pull lexer and an evaluating parser over a data source.
  - `Evaluation/Evaluator`: a tree evaluator over logical and comparison nodes.
- **Two scheduler loops.** The two `CronJob` classes are modelled as small step machines. The state is the cancellation flag, the wait the loop is at and the `Sequence` counter.

Where the source is imperative, the model is too:

- The tokenizer, both parsers, the lexer and the jobs are classes.
- Their fields are the ones the source updates.
- Their loops are `while` loops with invariants.
- Each method is proved equal to a function (`ScanFrom`, `Expression`, `NextToken`, `Next`, ...), and the lemmas speak about that function.

Where the source is pure, the model is functions and lemmas. This covers `Translate`, `ToString`, `ExpressionEvaluator` and the tree `Evaluator`.

A C# exception is a `Failure` value that names what was thrown. In the `CronJob` loops, an exception is an `Exit` of the machine.

Boxed .NET values are the datatype `Values.Value`:

- `Int` is a boxed `int`, and its arithmetic is unchecked 32-bit.
- `Num` is a boxed `double`, as an exact real.
- `Bool`, `Str` and `Null` are the other cases.

Datatype equality is `object.Equals`, so a boxed `2` never equals a boxed `2.0`. An unboxing cast succeeds only on the exact boxed type; on null it throws a null reference, on any other value an invalid cast.

The core parser's `(dynamic)` operators bind a null operand as the `null` literal: against a number it takes the lifted operator (null for `+ - * /`, false for `< <= > >=`), and `+` between null and a bool or a string concatenates.

Modules: `Wrappers`, `Numbers`, `Chars` and `Values` are shared helpers. The other modules are `TimePattern`, `CoreTokens`, `CoreTokenizer`, `CoreParser`, `CoreEvaluator`, `Lexing`, `Comparisons`, `Parsing`, `Evaluation`, `Scheduling` (CronJob.cs) and `SimpleScheduling` (Dadrass.Dev.Cron/CronJob.cs).

In a few places the library's own description of its behaviour and its code differ. The model follows the code:

- The first tick comes after `BaseWait` and one whole period, not at `BaseWait` (CronJob.cs:55-56 against 88-105).
- A step date still in the future gives twice the distance to it as the initial delay.
- A step date already reached gives a delay in (0, period], not in [0, period).
- Neither `CronJob` evaluates a gate expression before a tick.
- The core parser accepts no identifiers.
- The `Lexing` lexer produces no numbers and no `&&`.

## Model

| member | source | states |
|---|---|---|
| TimePattern.Split | Dadrass.Dev.Cron/Models/TimePattern.cs:66 | `Split(' ')` gives at least one piece and no piece holds a space |
| TimePattern.JoinSplit | Dadrass.Dev.Cron/Models/TimePattern.cs:66 | joining the pieces with single spaces gives back the pattern |
| TimePattern.SplitJoin | Dadrass.Dev.Cron/Models/TimePattern.cs:66 | splitting space-free pieces joined by single spaces gives back the pieces |
| TimePattern.ParseInt32 | Dadrass.Dev.Cron/Models/TimePattern.cs:52 | `int.Parse` yields only Int32 values |
| TimePattern.TrailingNulIgnored | Dadrass.Dev.Cron/Models/TimePattern.cs:49-53 | a NUL after a field changes neither `int.Parse` nor `Translate`: `"1\0"` is 1 |
| TimePattern.ParseFormatInt | Dadrass.Dev.Cron/Models/TimePattern.cs:52 | printing an Int32 and parsing it back gives the same number |
| TimePattern.Translate | Dadrass.Dev.Cron/Models/TimePattern.cs:49-53 | a failure names the bad field; a success is an Int32 |
| TimePattern.WildcardIsOne | Dadrass.Dev.Cron/Models/TimePattern.cs:49-53 | `*` and `1` both translate to 1 |
| TimePattern.TranslateDigits | Dadrass.Dev.Cron/Models/TimePattern.cs:49-53 | a digit string within Int32 translates to its decimal value |
| TimePattern.TranslateRejects | Dadrass.Dev.Cron/Models/TimePattern.cs:49-53 | a field other than `*` with a character that is no digit, sign, white space or NUL is a bad field |
| TimePattern.TranslateFormatInt | Dadrass.Dev.Cron/Models/TimePattern.cs:49-53 | every printed Int32 translates back to itself |
| TimePattern.TranslateAll | Dadrass.Dev.Cron/Models/TimePattern.cs:69-71 | success iff every field translates, with the values in order; a failure is the first bad field's error |
| TimePattern.ParseFields | Dadrass.Dev.Cron/Models/TimePattern.cs:69-93 | success needs six or more pieces, good fields, a good anchor and every date of the `AddX` chain and of the final `AddMilliseconds` within the `DateTime` range; fields 1 to 5 become millisecond, second, minute, hour and day; the delay is `BaseWait` for the period of those fields |
| TimePattern.ParseFieldsSucceeds | Dadrass.Dev.Cron/Models/TimePattern.cs:69-93 | the converse: good pieces whose dates all stay within the `DateTime` range always parse |
| TimePattern.ParseFieldsOutOfRange | Dadrass.Dev.Cron/Models/TimePattern.cs:75-81 | an `AddX` of the chain that leaves years 1 to 9999 fails the parse, before a missing field is noticed |
| TimePattern.ParseFieldsLateDelay | Dadrass.Dev.Cron/Models/TimePattern.cs:91 | a delay ending outside the `DateTime` range fails the parse |
| TimePattern.DayFieldOutOfRange | Dadrass.Dev.Cron/Models/TimePattern.cs:75-81 | a day field beyond the `DateTime` range, such as 9999999, fails the parse whatever the anchor |
| TimePattern.ParseFieldsBadField | Dadrass.Dev.Cron/Models/TimePattern.cs:69-99 | the first bad interval field is the reported cause |
| TimePattern.ParseFieldsBadAnchor | Dadrass.Dev.Cron/Models/TimePattern.cs:75-99 | with good fields, a bad anchor is the cause, checked before the additions and the field count |
| TimePattern.ParseFieldsTooFew | Dadrass.Dev.Cron/Models/TimePattern.cs:75-99 | fewer than five interval fields, all added within the `DateTime` range, is the index-out-of-range cause |
| TimePattern.ExtraFieldIgnored | Dadrass.Dev.Cron/Models/TimePattern.cs:69-93 | a good seventh or later field leaves the result as it was |
| TimePattern.TryParseExtraField | Dadrass.Dev.Cron/Models/TimePattern.cs:61-99 | the same for the pattern string, apart from the pattern an error names |
| TimePattern.WildcardField | Dadrass.Dev.Cron/Models/TimePattern.cs:69-71 | writing `1` for a `*` interval field changes nothing |
| TimePattern.TryParse | Dadrass.Dev.Cron/Models/TimePattern.cs:61-100 | every failure is one format error naming the pattern, whose cause is the failure of the split pattern's parse; a success is that parse's value |
| TimePattern.Period | Dadrass.Dev.Cron/Models/TimePattern.cs:75-83 | the step in milliseconds from the five fields; CycleIsPeriod ties it to the loop's round |
| TimePattern.Assemble | Dadrass.Dev.Cron/Models/TimePattern.cs:72-93 | the fields-to-pattern step, with a range check after each `DateTime` addition; ParseFields, ParseFieldsSucceeds, ParseFieldsOutOfRange, ParseFieldsLateDelay, ParseFieldsBadAnchor and ParseFieldsTooFew state it |
| TimePattern.BaseWait | Dadrass.Dev.Cron/Models/TimePattern.cs:85-91 | the initial delay; BaseWaitPast, BaseWaitAligned, BaseWaitFuture, BaseWaitNegativePeriod and BaseWaitUnique state it |
| TimePattern.BaseWaitPast | Dadrass.Dev.Cron/Models/TimePattern.cs:85-91 | step date reached: the delay is period − ((now − step date) mod period), lies in (0, period], and now + delay ≡ anchor (mod period) |
| TimePattern.BaseWaitAligned | Dadrass.Dev.Cron/Models/TimePattern.cs:85-91 | "now" on the anchor's phase gives a full period, not 0 |
| TimePattern.BaseWaitFuture | Dadrass.Dev.Cron/Models/TimePattern.cs:85-91 | step date ahead: the delay is twice the distance to it |
| TimePattern.BaseWaitNegativePeriod | Dadrass.Dev.Cron/Models/TimePattern.cs:85-91 | a negative period with the step date reached gives a delay in (2·period, period] |
| TimePattern.BaseWaitUnique | Dadrass.Dev.Cron/Models/TimePattern.cs:85-91 | the delay is the only one in (0, period] that ends on the anchor's phase |
| TimePattern.ToStringFields | Dadrass.Dev.Cron/Models/TimePattern.cs:106 | `ToString` splits into exactly the five printed interval fields, in order |
| TimePattern.ToString | Dadrass.Dev.Cron/Models/TimePattern.cs:106 | the five fields with single spaces; ToStringFields and ReparseToString state it |
| TimePattern.ReparseToString | Dadrass.Dev.Cron/Models/TimePattern.cs:61-106 | an anchor, a space and `ToString` parse back to the same five fields, with the delay for their period, whenever the dates stay within the `DateTime` range |
| CoreTokenizer.NumberEnd | Dadrass.Dev.Cron/ExpressionParser/Core/Tokenizer.cs:102-118 | a number literal takes at least its first digit and stays inside the input |
| CoreTokenizer.NumberTextIsDecimal | Dadrass.Dev.Cron/ExpressionParser/Core/Tokenizer.cs:102-121 | the literal's text is digits, optionally a `.` and more digits, so `double.Parse` accepts it |
| CoreTokenizer.WordToken | Dadrass.Dev.Cron/ExpressionParser/Core/Tokenizer.cs:139-144 | an identifier's text becomes a True, False or Identifier token |
| CoreTokenizer.Lex | Dadrass.Dev.Cron/ExpressionParser/Core/Tokenizer.cs:30-90 | one turn of the scan loop moves the cursor forward and never adds an Eof token |
| CoreTokenizer.ScanFrom | Dadrass.Dev.Cron/ExpressionParser/Core/Tokenizer.cs:28-91 | a completed scan ends at the end of the input and holds no Eof token |
| CoreTokenizer.Tokenizer.constructor | Dadrass.Dev.Cron/ExpressionParser/Core/Tokenizer.cs:14-18 | the cursor starts at 0 |
| CoreTokenizer.Tokenizer.IsAtEnd | Dadrass.Dev.Cron/ExpressionParser/Core/Tokenizer.cs:175 | true iff the cursor is at or past the end |
| CoreTokenizer.Tokenizer.Peek | Dadrass.Dev.Cron/ExpressionParser/Core/Tokenizer.cs:169 | the character under the cursor, NUL at the end |
| CoreTokenizer.Tokenizer.Advance | Dadrass.Dev.Cron/ExpressionParser/Core/Tokenizer.cs:151 | returns the current character and moves the cursor by one |
| CoreTokenizer.Tokenizer.Match | Dadrass.Dev.Cron/ExpressionParser/Core/Tokenizer.cs:158-163 | moves by one iff the current character is the expected one |
| CoreTokenizer.Tokenizer.ParseNumber | Dadrass.Dev.Cron/ExpressionParser/Core/Tokenizer.cs:102-122 | the cursor ends where `NumberEnd` says and the token holds that text's value |
| CoreTokenizer.Tokenizer.ParseIdentifier | Dadrass.Dev.Cron/ExpressionParser/Core/Tokenizer.cs:128-145 | the cursor ends after the letter-or-digit run, and the token is that text's word token |
| CoreTokenizer.Tokenizer.ScanOne | Dadrass.Dev.Cron/ExpressionParser/Core/Tokenizer.cs:30-90 | one turn of the loop does what `Lex` says, and on an error it leaves the cursor one past the character |
| CoreTokenizer.Tokenizer.Tokenize | Dadrass.Dev.Cron/ExpressionParser/Core/Tokenizer.cs:24-96 | the result and the cursor are those of the scan followed by Eof |
| CoreTokenizer.Tokenized | Dadrass.Dev.Cron/ExpressionParser/Core/Tokenizer.cs:24-96 | the scan followed by Eof; TokenizedEndsWithEof, BlankInput, SecondDotRejected and OtherCharRejected state it |
| CoreTokenizer.TokenizedEndsWithEof | Dadrass.Dev.Cron/ExpressionParser/Core/Tokenizer.cs:28-94 | a successful result ends with exactly one Eof token |
| CoreTokenizer.WhitespaceSkipped | Dadrass.Dev.Cron/ExpressionParser/Core/Tokenizer.cs:76-81 | space, tab, CR and LF add no token |
| CoreTokenizer.OtherControlsRejected | Dadrass.Dev.Cron/ExpressionParser/Core/Tokenizer.cs:76-88 | vertical tab and form feed are white space but unexpected characters |
| CoreTokenizer.BlankInput | Dadrass.Dev.Cron/ExpressionParser/Core/Tokenizer.cs:24-96 | blank input yields just the Eof token |
| CoreTokenizer.SingleCharToken | Dadrass.Dev.Cron/ExpressionParser/Core/Tokenizer.cs:34-51 | each of `( ) + - * /` adds one token of its kind |
| CoreTokenizer.EqualsLookahead | Dadrass.Dev.Cron/ExpressionParser/Core/Tokenizer.cs:52-63 | `! = < >` take a following `=`; alone they are Bang, an Identifier `=`, Less and Greater |
| CoreTokenizer.DoubledLogical | Dadrass.Dev.Cron/ExpressionParser/Core/Tokenizer.cs:64-75 | `&&` and `\|\|` are And and Or; a lone `&` or `\|` is an error |
| CoreTokenizer.OtherCharRejected | Dadrass.Dev.Cron/ExpressionParser/Core/Tokenizer.cs:82-88 | any other character is an unexpected character |
| CoreTokenizer.NumberMaximalMunch | Dadrass.Dev.Cron/ExpressionParser/Core/Tokenizer.cs:102-121 | a number is the maximal run of digits with at most one `.`, and its token holds that value |
| CoreTokenizer.SecondDotRejected | Dadrass.Dev.Cron/ExpressionParser/Core/Tokenizer.cs:82-122 | a `.` right after a number that already has one is an unexpected character |
| CoreTokenizer.IdentifierRun | Dadrass.Dev.Cron/ExpressionParser/Core/Tokenizer.cs:128-136 | an identifier is a letter and the maximal letter-or-digit run after it |
| CoreTokenizer.WordKinds | Dadrass.Dev.Cron/ExpressionParser/Core/Tokenizer.cs:139-144 | exactly `true` and `false` are boolean literals; other words keep their text |
| CoreTokenizer.TwoDotsExample | Dadrass.Dev.Cron/ExpressionParser/Core/Tokenizer.cs:82-122 | worked instance of SecondDotRejected: `1.2.3` fails at the second `.` |
| CoreParser.OrValues | Dadrass.Dev.Cron/ExpressionParser/Core/Parser.cs:36 | `(bool)l \|\| (bool)r`: defined iff l is a bool and either l is true or r is a bool; the error is that of the first failing cast: a null reference exactly when the cast value is null (l null, or l false and r null), otherwise an invalid cast of the value |
| CoreParser.ArithmeticResults | Dadrass.Dev.Cron/ExpressionParser/Core/Parser.cs:93-118 | two ints give an int and other numbers a double; `+` with a string side, or between null and a bool, gives the two .NET texts concatenated; null against a number gives null (the lifted operator); each error arises exactly on its inputs: int division by int 0, the overflowing `int.MinValue / -1`, a double divided by zero (no error in .NET, see Left out), a double text not modelled, and operands the operator does not apply to (two nulls included: the operator is ambiguous) |
| CoreParser.LiftedNullExamples | Dadrass.Dev.Cron/ExpressionParser/Core/Parser.cs:71-118 | worked instances of ArithmeticResults and RelationalResults: `null + 2.0`, `null * 2` and `1 / null` are null, `null < 2.0` and `3 >= null` are false, `null + true` is `"True"`, `null - true` fails and `null + null` is not applicable |
| CoreParser.ConcatenationExamples | Dadrass.Dev.Cron/ExpressionParser/Core/Parser.cs:95 | worked instances of ArithmeticResults: `"a" + 2.0` is `"a2"`, `true + "x"` is `"Truex"`, `"n=" + -12` is `"n=-12"`, a null side adds nothing, and `-` is not defined on strings |
| CoreParser.LiteralSum | Dadrass.Dev.Cron/ExpressionParser/Core/Parser.cs:84-122 | `x + n` over a literal `x` and a number literal `n` is the dynamic `+` of their values |
| CoreParser.StringPlusNumber | Dadrass.Dev.Cron/ExpressionParser/Core/Parser.cs:84-135 | worked instance of LiteralSum: the tokens of `"a" + 2` evaluate to `"a2"` |
| Values.ConcatText | Dadrass.Dev.Cron/ExpressionParser/Core/Parser.cs:95 | the text `string.Concat` uses for a value is missing exactly for the doubles that do not print as integer digits |
| CoreParser.Arithmetic | Dadrass.Dev.Cron/ExpressionParser/Core/Parser.cs:93-118 | the dynamic `+ - * /` on boxed values, a null operand bound as the `null` literal; its properties are those of ArithmeticResults and LiteralSum |
| CoreParser.IntArithmetic | Dadrass.Dev.Cron/ExpressionParser/Core/Parser.cs:93-118 | unchecked int arithmetic with a truncating quotient; stated through ArithmeticResults |
| CoreParser.RealArithmetic | Dadrass.Dev.Cron/ExpressionParser/Core/Parser.cs:115-116 | double arithmetic on exact reals; stated through ArithmeticResults |
| CoreParser.Relational | Dadrass.Dev.Cron/ExpressionParser/Core/Parser.cs:71-78 | dynamic `< <= > >=`, null against a number lifted to false; stated through RelationalResults |
| CoreParser.RelationalResults | Dadrass.Dev.Cron/ExpressionParser/Core/Parser.cs:71-78 | `< <= > >=` are defined exactly on two numbers and on null against a number; the result is a bool, false in the lifted case, the order of the two numbers as reals otherwise; any other pair is not applicable |
| CoreParser.Expression | Dadrass.Dev.Cron/ExpressionParser/Core/Parser.cs:24-27 | the cursor stays inside the token list and moves on a success |
| CoreParser.LogicalOr | Dadrass.Dev.Cron/ExpressionParser/Core/Parser.cs:29-40 | the cursor stays inside the list and moves on a success; OrStep, OrShortCircuit, LastDisjunct, OrLeftAssociative and EqualityBindsTighterThanOr state its values |
| CoreParser.OrRest | Dadrass.Dev.Cron/ExpressionParser/Core/Parser.cs:33-37 | the cursor never leaves the list; DisjunctionStops and LastDisjunct state its values |
| CoreParser.Equality | Dadrass.Dev.Cron/ExpressionParser/Core/Parser.cs:42-60 | the cursor stays inside the list and moves on a success; LiteralEquality, EqualityNegation, EqualityLeftAssociative and RelationalBindsTighterThanEquality state its values |
| CoreParser.EqualityRest | Dadrass.Dev.Cron/ExpressionParser/Core/Parser.cs:46-57 | the cursor never leaves the list; EqualityStops states where it stops |
| CoreParser.Comparison | Dadrass.Dev.Cron/ExpressionParser/Core/Parser.cs:62-82 | the cursor stays inside the list and moves on a success; PrimaryIsComparison relates it to its operand, RelationalLeftAssociative and SumBindsTighterThanRelational state its values |
| CoreParser.ComparisonRest | Dadrass.Dev.Cron/ExpressionParser/Core/Parser.cs:66-79 | the cursor never leaves the list; ComparisonStops states where it stops |
| CoreParser.Addition | Dadrass.Dev.Cron/ExpressionParser/Core/Parser.cs:84-102 | the cursor stays inside the list and moves on a success; SumStep, ProductIsSum, AdditionLeftAssociative and MultiplicationBindsTighter state its values |
| CoreParser.AdditionRest | Dadrass.Dev.Cron/ExpressionParser/Core/Parser.cs:88-99 | the cursor never leaves the list; SumStops and LastAddend state its values |
| CoreParser.Multiplication | Dadrass.Dev.Cron/ExpressionParser/Core/Parser.cs:104-122 | the cursor stays inside the list and moves on a success; ProductStep, PrimaryIsProduct and ProductLeftAssociative state its values |
| CoreParser.MultiplicationRest | Dadrass.Dev.Cron/ExpressionParser/Core/Parser.cs:108-119 | the cursor never leaves the list; ProductStops states where it stops |
| CoreParser.Primary | Dadrass.Dev.Cron/ExpressionParser/Core/Parser.cs:124-138 | the cursor stays inside the token list and moves on a success |
| CoreParser.Group | Dadrass.Dev.Cron/ExpressionParser/Core/Parser.cs:130-135 | a parenthesised expression moves the cursor past the opening parenthesis |
| CoreParser.Parser.constructor | Dadrass.Dev.Cron/ExpressionParser/Core/Parser.cs:14-18 | the cursor starts at 0 |
| CoreParser.Parser.Peek | Dadrass.Dev.Cron/ExpressionParser/Core/Parser.cs:188 | exactly the token under the cursor |
| CoreParser.Parser.IsAtEnd | Dadrass.Dev.Cron/ExpressionParser/Core/Parser.cs:187 | true iff the token under the cursor is Eof |
| CoreParser.Parser.Check | Dadrass.Dev.Cron/ExpressionParser/Core/Parser.cs:157-174 | true iff the current token is not Eof and has the kind |
| CoreParser.Parser.Advance | Dadrass.Dev.Cron/ExpressionParser/Core/Parser.cs:177-181 | moves one token, except on Eof; returns the token before the cursor; the cursor stays inside the list |
| CoreParser.Parser.Match | Dadrass.Dev.Cron/ExpressionParser/Core/Parser.cs:140-151 | moves one token iff the current token is not Eof and its kind is among the kinds |
| CoreParser.Parser.Consume | Dadrass.Dev.Cron/ExpressionParser/Core/Parser.cs:192-196 | returns and passes the token of the kind, or fails with the message without moving |
| CoreParser.Parser.ParseExpression | Dadrass.Dev.Cron/ExpressionParser/Core/Parser.cs:24-27 | result and cursor are those of `Expression` |
| CoreParser.Parser.ParseLogicalOr | Dadrass.Dev.Cron/ExpressionParser/Core/Parser.cs:29-40 | result and cursor are those of `LogicalOr` |
| CoreParser.Parser.OrLoop | Dadrass.Dev.Cron/ExpressionParser/Core/Parser.cs:33-37 | the `\|\|` loop folds as `OrRest` does |
| CoreParser.Parser.ParseEquality | Dadrass.Dev.Cron/ExpressionParser/Core/Parser.cs:42-60 | result and cursor are those of `Equality` |
| CoreParser.Parser.EqualityLoop | Dadrass.Dev.Cron/ExpressionParser/Core/Parser.cs:46-57 | the `== !=` loop folds as `EqualityRest` does |
| CoreParser.Parser.ParseComparison | Dadrass.Dev.Cron/ExpressionParser/Core/Parser.cs:62-82 | result and cursor are those of `Comparison` |
| CoreParser.Parser.ComparisonLoop | Dadrass.Dev.Cron/ExpressionParser/Core/Parser.cs:66-79 | the `< <= > >=` loop folds as `ComparisonRest` does |
| CoreParser.Parser.ParseAddition | Dadrass.Dev.Cron/ExpressionParser/Core/Parser.cs:84-102 | result and cursor are those of `Addition` |
| CoreParser.Parser.AdditionLoop | Dadrass.Dev.Cron/ExpressionParser/Core/Parser.cs:88-99 | the `+ -` loop folds as `AdditionRest` does |
| CoreParser.Parser.ParseMultiplication | Dadrass.Dev.Cron/ExpressionParser/Core/Parser.cs:104-122 | result and cursor are those of `Multiplication` |
| CoreParser.Parser.MultiplicationLoop | Dadrass.Dev.Cron/ExpressionParser/Core/Parser.cs:108-119 | the `* /` loop folds as `MultiplicationRest` does |
| CoreParser.Parser.ParsePrimary | Dadrass.Dev.Cron/ExpressionParser/Core/Parser.cs:124-138 | result and cursor are those of `Primary` |
| CoreParser.LonePrimary | Dadrass.Dev.Cron/ExpressionParser/Core/Parser.cs:29-122 | a primary followed by a token no level continues on is the whole expression |
| CoreParser.ParenthesisedPrimary | Dadrass.Dev.Cron/ExpressionParser/Core/Parser.cs:130-135 | all three cases of a group: an error inside surfaces unchanged, a closed group is the inner value past the `)`, and any other token after the inner expression fails with Consume's message there |
| CoreParser.SumOfProduct | Dadrass.Dev.Cron/ExpressionParser/Core/Parser.cs:84-122 | `n + n * n` multiplies first |
| CoreParser.MultiplicationBindsTighter | Dadrass.Dev.Cron/ExpressionParser/Core/Parser.cs:84-122 | `a + b * c` is `a + (b * c)` |
| CoreParser.ProductOfGroup | Dadrass.Dev.Cron/ExpressionParser/Core/Parser.cs:104-135 | `(n + n) * n` adds first |
| CoreParser.ParenthesesGroup | Dadrass.Dev.Cron/ExpressionParser/Core/Parser.cs:104-135 | `(a + b) * c` is `(a + b) * c` |
| CoreParser.PrecedenceExamples | Dadrass.Dev.Cron/ExpressionParser/Core/Parser.cs:84-135 | worked instances of SumOfProduct and ProductOfGroup: `2 + 3 * 4` is 14 and `(2 + 3) * 4` is 20 |
| CoreParser.DifferenceOfDifference | Dadrass.Dev.Cron/ExpressionParser/Core/Parser.cs:88-99 | `n op n op' n` over number literals and any `+ -` operators combines the first two first |
| CoreParser.SubtractionLeftAssociative | Dadrass.Dev.Cron/ExpressionParser/Core/Parser.cs:88-99 | `a - b - c` is `(a - b) - c` |
| CoreParser.AdditionLeftAssociative | Dadrass.Dev.Cron/ExpressionParser/Core/Parser.cs:88-99 | for all values and all `+ -` operators, `a op b op' c` is `(a op b) op' c`, an error of the first step included |
| CoreParser.ProductLeftAssociative | Dadrass.Dev.Cron/ExpressionParser/Core/Parser.cs:108-119 | for all values and all `* /` operators, `a op b op' c` is `(a op b) op' c`, an error of the first step included |
| CoreParser.SumBindsTighterThanRelational | Dadrass.Dev.Cron/ExpressionParser/Core/Parser.cs:66-99 | for all values, `a + b < c` (any `+ -`, any `< <= > >=`) is `(a + b) < c`: the sum's error, or the comparison of the sum with c |
| CoreParser.RelationalLeftAssociative | Dadrass.Dev.Cron/ExpressionParser/Core/Parser.cs:66-79 | for all values, `a < b < c` is `(a < b) < c`, and so always fails: a bool is never ordered against a value |
| CoreParser.RelationalBindsTighterThanEquality | Dadrass.Dev.Cron/ExpressionParser/Core/Parser.cs:46-79 | for all values, `a < b == c` is `(a < b) == c`: the comparison's error, or value equality of its bool with c |
| CoreParser.EqualityLeftAssociative | Dadrass.Dev.Cron/ExpressionParser/Core/Parser.cs:46-57 | for all values, `a == b != c` (any `== !=` pair) is `(a == b) != c` and reads the whole list |
| CoreParser.EqualityBindsTighterThanOr | Dadrass.Dev.Cron/ExpressionParser/Core/Parser.cs:33-57 | for all values, `a == b \|\| c` is `(a == b) \|\| c`, the right side cast as OrValues does |
| CoreParser.OrLeftAssociative | Dadrass.Dev.Cron/ExpressionParser/Core/Parser.cs:33-37 | for all values, `a \|\| b \|\| c` is `(a \|\| b) \|\| c`: an error of the first `\|\|` stops the fold |
| CoreParser.ComparisonIsExpression | Dadrass.Dev.Cron/ExpressionParser/Core/Parser.cs:29-60 | a comparison not followed by `== !=` or `\|\|`, or failing, is the whole expression |
| CoreParser.LiteralEquality | Dadrass.Dev.Cron/ExpressionParser/Core/Parser.cs:46-56 | `n == n` is value equality and `n != n` its negation |
| CoreParser.EqualityNegation | Dadrass.Dev.Cron/ExpressionParser/Core/Parser.cs:51-56 | `==` and `!=` between two literals give opposite results |
| CoreParser.IntIsNotDouble | Dadrass.Dev.Cron/ExpressionParser/Core/Parser.cs:53 | a boxed int never equals a boxed double |
| CoreParser.OrStep | Dadrass.Dev.Cron/ExpressionParser/Core/Parser.cs:33-37 | `l \|\| r` over two primaries is `OrValues` of their values |
| CoreParser.OrShortCircuit | Dadrass.Dev.Cron/ExpressionParser/Core/Parser.cs:33-37 | a true left side skips the right cast; a false left side yields the right side's cast; a null side is a null reference and any other non-bool side (a string, say) an invalid cast |
| CoreParser.ExpressionReads | Dadrass.Dev.Cron/ExpressionParser/Core/Parser.cs:24-138 | a parse reads past no `&&`, `!`, identifier or Eof token |
| CoreParser.StopsBeforeUnconsumable | Dadrass.Dev.Cron/ExpressionParser/Core/Parser.cs:24-138 | the cursor after a parse is at or before the first such token |
| CoreParser.AndIsNotParsed | Dadrass.Dev.Cron/ExpressionParser/Core/Parser.cs:33 | `true && false` yields `true` and leaves `&& false` unread |
| CoreParser.TrailingTokensUnread | Dadrass.Dev.Cron/ExpressionParser/Core/Parser.cs:24-27 | `a b` yields `a` and leaves `b` unread |
| CoreParser.NoPrimaryIsError | Dadrass.Dev.Cron/ExpressionParser/Core/Parser.cs:124-137 | a token that starts no primary, an identifier or Eof included, is an unexpected-token error at that token |
| CoreParser.MissingClose | Dadrass.Dev.Cron/ExpressionParser/Core/Parser.cs:130-135 | `( n` fails with "Expected ')' after expression." at the Eof token |
| CoreParser.FailedPrimary | Dadrass.Dev.Cron/ExpressionParser/Core/Parser.cs:24-138 | a failing primary is the failure of the whole expression, whatever follows |
| CoreParser.UnclosedParenthesis | Dadrass.Dev.Cron/ExpressionParser/Core/Parser.cs:130-135 | for any token list, a `(` whose expression is followed by anything but `)` makes the whole expression fail with "Expected ')' after expression." at that token |
| CoreEvaluator.UnboxInt | Dadrass.Dev.Cron/ExpressionParser/Core/ExpressionEvaluator.cs:49-52 | `(int)o` succeeds exactly on a boxed int; null is a null reference, anything else an invalid cast |
| CoreEvaluator.UnboxBool | Dadrass.Dev.Cron/ExpressionParser/Core/ExpressionEvaluator.cs:53-54 | `(bool)o`, with the same failures |
| CoreEvaluator.ExpressionEvaluator.ResolveIdentifier | Dadrass.Dev.Cron/ExpressionParser/Core/ExpressionEvaluator.cs:27-36 | parameters first, then fields; a name in neither is "Unknown identifier" |
| CoreEvaluator.ExpressionEvaluator.EvaluateBinaryOperation | Dadrass.Dev.Cron/ExpressionParser/Core/ExpressionEvaluator.cs:45-57 | an unknown operator fails; `+ - * /` succeed exactly on two ints, except a zero divisor and `int.MinValue / -1`, with the exact result modulo 2^32; `&&`/`\|\|` are the boolean operators, with the right cast skipped when the left side decides |
| CoreEvaluator.ArithmeticOperation | Dadrass.Dev.Cron/ExpressionParser/Core/ExpressionEvaluator.cs:49-52 | the `+ - * /` arms: defined exactly on two ints, except a zero divisor and `int.MinValue / -1`; the result is the exact value modulo 2^32, and the exact value itself when it fits; only a null operand is a null reference |
| CoreEvaluator.LogicalOperation | Dadrass.Dev.Cron/ExpressionParser/Core/ExpressionEvaluator.cs:53-54 | the `&&`/`\|\|` arms: defined iff the left side is a bool that decides, or both are bools; the value is the boolean operator; only a null operand is a null reference |
| CoreEvaluator.ResolveIsMergedLookup | Dadrass.Dev.Cron/ExpressionParser/Core/ExpressionEvaluator.cs:27-36 | resolution is a lookup in the fields overridden by the parameters |
| CoreEvaluator.ParameterShadowsField | Dadrass.Dev.Cron/ExpressionParser/Core/ExpressionEvaluator.cs:29-30 | a name in both resolves to the parameter |
| CoreEvaluator.ComparisonsUnsupported | Dadrass.Dev.Cron/ExpressionParser/Core/ExpressionEvaluator.cs:55 | comparison operators are "Unsupported operator" |
| CoreEvaluator.DivisionTruncates | Dadrass.Dev.Cron/ExpressionParser/Core/ExpressionEvaluator.cs:52 | `/` truncates toward zero on either sign; a zero divisor is an error |
| CoreEvaluator.AdditionWraps | Dadrass.Dev.Cron/ExpressionParser/Core/ExpressionEvaluator.cs:49-52 | worked instances of EvaluateBinaryOperation's contract: `int.MaxValue + 1` wraps; `int.MinValue / -1` overflows |
| CoreEvaluator.IntCastsOnly | Dadrass.Dev.Cron/ExpressionParser/Core/ExpressionEvaluator.cs:49-52 | a boxed double is no int, and the left operand is cast first |
| CoreEvaluator.LogicalShortCircuit | Dadrass.Dev.Cron/ExpressionParser/Core/ExpressionEvaluator.cs:53-54 | `false && x` and `true \|\| x` never look at `x` |
| Lexing.WhiteSpaceEnd | Lexing/Lexer.cs:26-27 | the skip loop stops at the first non-white-space character |
| Lexing.OperatorRunEnd | Lexing/Lexer.cs:86-87 | the operator loop stops at the first character that is neither a symbol nor `=` |
| Lexing.OperatorKind | Lexing/Lexer.cs:49-58 | exactly the six operator texts are known |
| Lexing.NextToken | Lexing/Lexer.cs:23-64 | only Identifier, the four ordering operators, Equal and EndOfExpression come back; the position moves unless at the end; an identifier is letters and digits led by a letter; a failure is an unknown operator run |
| Lexing.Lexer.constructor | Lexing/Lexer.cs:14-17 | the position starts at 0 |
| Lexing.Lexer.GetNextToken | Lexing/Lexer.cs:23-65 | result and position are those of `NextToken` |
| Lexing.Lexer.ParseIdentifier | Lexing/Lexer.cs:71-77 | returns the maximal letter-or-digit run and moves past it |
| Lexing.Lexer.ParseOperator | Lexing/Lexer.cs:83-89 | returns the maximal symbol-or-`=` run and moves past it |
| Lexing.NoLogicalTokens | Lexing/Lexer.cs:35-43 | no And, Or, Number, String or NotEqual token is ever produced |
| Lexing.EndIsSticky | Lexing/Lexer.cs:26-30 | at the end, EndOfExpression comes back without moving, on every call |
| Lexing.BangThrows | Lexing/Lexer.cs:46-58 | a run starting at `!` is empty and throws "Unknown operator" |
| Lexing.OtherCharSkipped | Lexing/Lexer.cs:61-64 | any other character is skipped alone and reads as EndOfExpression |
| Lexing.IdentifierIsMaximal | Lexing/Lexer.cs:35-42 | an identifier is the maximal letter-or-digit run after the white space |
| Lexing.OperatorIsMaximal | Lexing/Lexer.cs:46-58 | after the whitespace, an operator character opens the maximal run of symbol characters and `=`; the token is that run's operator, or UnknownOperator thrown with the position past the run |
| Lexing.CompoundOperator | Lexing/Lexer.cs:46-58 | worked instance: `>=` is one token, `> =` is two |
| Lexing.UnknownOperatorRuns | Lexing/Lexer.cs:46-58 | worked instance: a lone `=`, `=>` and `>+` throw after the whole run |
| Lexing.NotEqualThrows | Lexing/Lexer.cs:46-58 | worked instance: `!=` in an expression throws at the `!` |
| Comparisons.UnboxDouble | Parsing/Parser.cs:107-108 | `(double)o` succeeds exactly on a boxed double |
| Comparisons.Compare | Parsing/Parser.cs:101-111 | `==` is `Equals`, `!=` its negation, both throwing on a null left side; `>`/`<` compare two doubles, failing on the first bad cast; other operators are unsupported |
| Comparisons.EqualNotEqualOpposite | Evaluation/Evaluator.cs:56-57 | `==` and `!=` give opposite answers and throw together |
| Comparisons.GreaterIsFlippedLess | Evaluation/Evaluator.cs:58-59 | `a > b` is `b < a` on doubles |
| Comparisons.BoxedIntIsNotDouble | Parsing/Parser.cs:105-108 | a boxed int is not equal to, nor ordered against, a double |
| Parsing.Shifted | Parsing/Parser.cs:75 | reading the next token never moves back; on a lexer exception the token stays |
| Parsing.Primary | Parsing/Parser.cs:70-92 | success iff the token is an identifier, a number or a string and the next read succeeds; an identifier is the data source's value, queried once; anything else is "Unexpected token" without moving |
| Parsing.Comparison | Parsing/Parser.cs:49-64 | a successful comparison moves the position and ends on a lexed token |
| Parsing.Logical | Parsing/Parser.cs:29-43 | the cursor never moves back; LogicalIsComparison shows it is one comparison |
| Parsing.LogicalRest | Parsing/Parser.cs:33-40 | the cursor never moves back; RightOperandAlwaysParsed states one turn of the loop |
| Parsing.Evaluate | Parsing/Parser.cs:18-43 | construct, then parse; FieldEquality, NumberLiteralUnexpected, NotEqualUnknown, GreaterEqualInvalid and TrailingInputIgnored evaluate it |
| Parsing.Parser.New | Parsing/Parser.cs:18-23 | the constructor reads the first token, and throws when the lexer does |
| Parsing.Parser.Shift | Parsing/Parser.cs:75 | one token read, as `Shifted` says |
| Parsing.Parser.ParsePrimary | Parsing/Parser.cs:70-92 | result, cursor and queries are those of `Primary` |
| Parsing.Parser.ParseComparison | Parsing/Parser.cs:49-64 | result, cursor and queries are those of `Comparison` |
| Parsing.Parser.ParseLogicalExpression | Parsing/Parser.cs:29-43 | result, cursor and queries are those of `Logical` |
| Parsing.LogicalIsComparison | Parsing/Parser.cs:29-43 | the `&&`/`\|\|` loop never runs, since the lexer never yields And or Or |
| Parsing.RightOperandAlwaysParsed | Parsing/Parser.cs:33-40 | were it to run, the right comparison would always be parsed and combined with `&&` or `\|\|` |
| Parsing.ComparisonQueriesBoth | Parsing/Parser.cs:49-77 | a successful comparison queried exactly its two identifiers, left first, and compares their values |
| Parsing.OperatorRequired | Parsing/Parser.cs:53-63 | any token other than `> < == !=` after the first primary is "Invalid comparison expression" |
| Parsing.FieldEquality | Parsing/Parser.cs:18-64 | `a == b` compares the two field values after querying both |
| Parsing.NumberLiteralUnexpected | Parsing/Parser.cs:70-91 | `age > 18` fails with "Unexpected token" after querying `age`, since the digit reads as the end |
| Parsing.NotEqualUnknown | Parsing/Parser.cs:57 | `a != b` throws "Unknown operator" before any query |
| Parsing.GreaterEqualInvalid | Parsing/Parser.cs:53-63 | `a >= b` is an invalid comparison |
| Parsing.TrailingInputIgnored | Parsing/Parser.cs:29-43 | with no end-of-input check, `a == b && c == d` is `a == b` |
| Evaluation.Evaluator.EvaluateLogicalExpression | Evaluation/Evaluator.cs:26-43 | a comparison leaf compares the data source's value for its field with its stored value, after one query; a binary node throws "Unsupported expression type"; a logical node is stated by LogicalCombines |
| Evaluation.LogicalCombines | Evaluation/Evaluator.cs:30-33 | a logical node: a throwing left child is the result; otherwise a throwing right child is, after the left child's queries; otherwise `&&` under And and `\|\|` under any other operator, with every leaf queried left to right |
| Evaluation.QueriesAreFields | Evaluation/Evaluator.cs:26-38 | the data source is asked once per comparison leaf, left to right: all of them on success, a prefix otherwise |
| Evaluation.BinaryThrows | Evaluation/Evaluator.cs:40-41 | a binary node on the logical spine makes the evaluation throw |
| Evaluation.FirstBinaryThrows | Evaluation/Evaluator.cs:40-41 | with no earlier failing comparison, the error is "Unsupported expression type" |
| Evaluation.SafeSucceeds | Evaluation/Evaluator.cs:26-43 | ordered comparisons on double fields, with no binary node, never throw |
| Evaluation.OperatorOtherThanAndIsOr | Evaluation/Evaluator.cs:33 | every operator other than And combines with `\|\|` |
| Evaluation.BothSidesEvaluated | Evaluation/Evaluator.cs:31-33 | a false left side still evaluates, and queries, the right one |
| Evaluation.EqualNotEqualLeaves | Evaluation/Evaluator.cs:56-57 | `==` and `!=` leaves on the same field and value give opposite results |
| Evaluation.UnsupportedLeaf | Evaluation/Evaluator.cs:60 | a leaf with `>=` throws "Unsupported comparison operation" after the query |
| Scheduling.LogLine | CronJob.cs:116 | the logged line is "CronJob error: " and the message |
| Scheduling.ScheduleOf | CronJob.cs:84-105 | the loop's waits and payload; ScheduleOfPattern, MinuteWait, HourWait, DayWait and CycleIsPeriod state them |
| Scheduling.Next | CronJob.cs:66-118 | one step of Start, Stop or a delay running out; NextInv, StepTicks and StopOnlyCancels state it |
| Scheduling.Run | CronJob.cs:79-118 | a run of steps; RunInv, TickPayloads, NoTickAfterCancel and CountTicks state it |
| Scheduling.StartDelay | CronJob.cs:84-103 | a delay below -1 ends the loop with a logged error; any other one is pending; nothing else changes |
| Scheduling.ScheduleOfPattern | CronJob.cs:84-127 | ticks carry `ToString`; the first wait is `BaseWait`, each later one its field times its factor wrapped to Int32 |
| Scheduling.MinuteWait | CronJob.cs:96 | the chained minute product wraps like one product |
| Scheduling.HourWait | CronJob.cs:99 | the chained hour product wraps like one product |
| Scheduling.DayWait | CronJob.cs:102 | the chained day product wraps like one product |
| Scheduling.CycleIsPeriod | CronJob.cs:90-102 | without overflow, one round lasts the pattern's period |
| Scheduling.DayOverflowThrows | CronJob.cs:102 | a day field of 25 overflows to a negative wait, which throws |
| Scheduling.ElapsedIsLinear | CronJob.cs:84-107 | after `BaseWait` and n rounds the clock is `BaseWait + n · round` |
| Scheduling.CronJob.FromPattern | CronJob.cs:41-44 | a new job holds the pattern and its schedule, in the initial state |
| Scheduling.CronJob.New | CronJob.cs:41-44 | the constructor fails exactly when `TryParse` does, with its error |
| Scheduling.CronJob.Start | CronJob.cs:66 | one `Start` step |
| Scheduling.CronJob.Stop | CronJob.cs:71 | one `Stop` step |
| Scheduling.CronJob.Resume | CronJob.cs:88-107 | the pending delay runs out: one `Resume` step |
| Scheduling.CronJob.BeginDelay | CronJob.cs:90 | one `Task.Delay` call, as `StartDelay` says |
| Scheduling.CronJob.TriggerTickEvent | CronJob.cs:127 | adds one tick with the pattern text and the current `Sequence`, changes nothing else |
| Scheduling.InitialInv | CronJob.cs:23-44 | a new job satisfies the loop invariant |
| Scheduling.TickStepInv | CronJob.cs:105-106 | the tick step keeps the invariant |
| Scheduling.NextInv | CronJob.cs:79-118 | every step keeps the invariant |
| Scheduling.RunInv | CronJob.cs:79-118 | every run of steps keeps the invariant |
| Scheduling.TickPayloads | CronJob.cs:84-127 | from construction, the i-th tick carries the pattern text and sequence number i wrapped to Int32, at `BaseWait + (i+1) · round`; `Sequence` is the number of ticks, wrapped, less one if the last handler threw |
| Scheduling.StopOnlyCancels | CronJob.cs:71 | `Stop` only sets the flag |
| Scheduling.StepTicks | CronJob.cs:33-106 | a step keeps the ticks raised, adds at most one, and changes `Sequence` only together with a new tick whose handlers returned |
| Scheduling.NoTickAfterCancel | CronJob.cs:85-103 | once cancellation is requested, no tick is raised and `Sequence` is fixed |
| Scheduling.CancelledLoopExits | CronJob.cs:88-103 | after `Stop`, the loop ends silently when its pending delay ends |
| Scheduling.CountTicks | CronJob.cs:84-106 | with waits that run out, after `1 + 5q + r` delays the job has raised q ticks, holds q wrapped to Int32 in `Sequence`, is at wait r + 1 and has waited `BaseWait`, q rounds and r more waits |
| Scheduling.NoTickAtBaseWait | CronJob.cs:84-105 | the first tick needs `BaseWait` and a whole round |
| Scheduling.NegativeMillisecondLogged | CronJob.cs:90-116 | a millisecond field below -1 throws at the first round's first wait, and is logged |
| SimpleScheduling.SimpleStartDelay | Dadrass.Dev.Cron/CronJob.cs:16-33 | a delay below -1 ends the loop; any other one is pending; nothing else changes |
| SimpleScheduling.SimpleNext | Dadrass.Dev.Cron/CronJob.cs:10-43 | one step of this loop; ForgetNext makes it the CronJob.cs step with the sequence number forgotten |
| SimpleScheduling.SimpleRun | Dadrass.Dev.Cron/CronJob.cs:12-43 | a run of steps; ForgetRun, SimpleTickTimes and SimpleCountTicks state it |
| SimpleScheduling.SimpleCronJob.constructor | Dadrass.Dev.Cron/CronJob.cs:5-6 | a new job holds the pattern's schedule, in the initial state |
| SimpleScheduling.SimpleCronJob.Start | Dadrass.Dev.Cron/CronJob.cs:11 | one `Start` step |
| SimpleScheduling.SimpleCronJob.Stop | Dadrass.Dev.Cron/CronJob.cs:10 | one `Stop` step |
| SimpleScheduling.SimpleCronJob.Resume | Dadrass.Dev.Cron/CronJob.cs:19-36 | the pending delay runs out: one `Resume` step |
| SimpleScheduling.SimpleCronJob.BeginDelay | Dadrass.Dev.Cron/CronJob.cs:21 | one `Task.Delay` call, as `SimpleStartDelay` says |
| SimpleScheduling.SimpleCronJob.OnTick | Dadrass.Dev.Cron/CronJob.cs:44-47 | records one tick at the current clock and changes nothing else |
| SimpleScheduling.Remember | Dadrass.Dev.Cron/CronJob.cs:5-47 | every state of this loop is the forgetting of a CronJob.cs state |
| SimpleScheduling.ForgetNext | Dadrass.Dev.Cron/CronJob.cs:12-47 | each step is the CronJob.cs step with the sequence number and payloads forgotten |
| SimpleScheduling.ForgetRun | Dadrass.Dev.Cron/CronJob.cs:12-47 | so is every run of steps |
| SimpleScheduling.SimpleTickTimes | Dadrass.Dev.Cron/CronJob.cs:16-36 | from construction, the i-th tick happens at `BaseWait + (i+1) · round` |
| SimpleScheduling.SimpleNoTickAfterCancel | Dadrass.Dev.Cron/CronJob.cs:17-34 | once cancellation is requested, no tick is raised |
| SimpleScheduling.SimpleCountTicks | Dadrass.Dev.Cron/CronJob.cs:16-36 | with waits that run out, after `1 + 5q + r` delays the job has raised q ticks and is at wait r + 1 |

## Left out

- Character classes are ASCII only. .NET's `char.IsDigit`, `IsLetter`, `IsWhiteSpace` and `IsSymbol` are Unicode-aware.
- Doubles are exact reals. The model has no rounding, NaN or infinities, and `double.Parse` of a decimal literal is its exact value.
- CoreParser.RealArithmetic: a double divided by zero gives ±Infinity or NaN in .NET and throws nothing; the model, which has no infinities, reports the error `NonFiniteResult` instead.
- CoreParser.ArithmeticResults: its `NonFiniteResult` and `DoubleText` errors stand for a quotient and a text the model does not represent; in .NET neither case throws.
- CoreParser.Arithmetic: concatenating a string with a double that does not print as integer digits below 10^15 gives the error `DoubleText`; .NET's shortest round-trip text of such doubles is not modelled. The core tokenizer never produces String tokens, so concatenation needs a hand-built token list.
- Culture settings of `int.Parse`, `double.Parse` and `DateTime.Parse` are not modelled. `int.Parse` accepts white space, an optional sign, ASCII digits and trailing NULs.
- `DateTime.Parse` of the anchor is a parameter `parseAnchor` giving integer milliseconds. The two reads of `DateTime.Now` are one instant `now`. Calendar arithmetic on `DateTime` is integer addition, checked against the range of years 1 to 9999 after every addition.
- TimePattern.BaseWait: the `(int)` cast of the `double` delay is not modelled; the delay is an unbounded integer.
- TimePattern.Assemble: a zero period with the step date not in the future gives NaN arithmetic in the source, whose outcome in `AddMilliseconds` depends on the runtime's conversion of NaN to an integer. The model reports it as its own cause, `UndefinedDelay`.
- Periods of any sign are modelled. The delay lemmas state which periods they cover.
- `Task`, `Task.Delay`, `CancellationTokenSource` and `async void` are concurrency plumbing. Each delay is one step of the machine, and the cancellation token is a flag.
- A second `Start` on one job is not modelled: it runs a second, concurrent loop.
- Scheduling.Next: `Start` after `Stop` is modelled as the loop ending silently. In the source the cancelled token makes `Task.Start` throw `InvalidOperationException` to the caller.
- Clock drift and the time the handlers take are not modelled. The clock counts only the delays.
- The text of .NET's `ArgumentOutOfRangeException` message is not modelled, only the offending delay.
- `Console.WriteLine` is the predicate `Logged` on how the loop ended.
- Event delegates are not modelled. A tick is recorded whether or not a handler is subscribed, and the handlers' joint outcome is an input of the step.
- SimpleScheduling.SimpleCronJob.constructor: `TimePattern.Parse`, called at Dadrass.Dev.Cron/CronJob.cs:6, is not part of this model (the library defines only `TryParse`), so this constructor takes a pattern already parsed.
- The data sources of `Parsing` and `Evaluation` are total functions. A data source that throws is not modelled.
- The `Token` class of the core tokenizer, with its five typed views of one kind, is one flat `Kind`.
- CoreParser: every grammar function requires the token list to end with Eof, as the tokenizer's output does. A list without Eof makes the source index past its end.
- CoreTokenizer.Tokenizer.Advance requires a character under the cursor: at the end the source throws an index-out-of-range exception, which no caller reaches.
- CoreParser.Parser: each level's `while` loop is a method of its own (`OrLoop`, ..., `MultiplicationLoop`), called by the level's method.
- Parsing.Parser.ParseLogicalExpression: the `&&`/`||` loop is unreachable, because the lexer never yields And or Or. The method shows that part of the loop guard is always false instead of running the loop.
- Lexing: the NotEqual token kind is never produced, because `!` is not a symbol character.
- Evaluation/DataSourceResolver.cs, Utilities/ExpressionUtils.cs and Dadrass.Dev.Cron/Utilities/WrapperUtilities.cs are not part of this model: they wrap foreign calls or apply a function.
