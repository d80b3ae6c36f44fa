/** The character classes the lexers test, restricted to ASCII.
    .NET's `char.IsDigit`, `IsLetter`, `IsWhiteSpace` and `IsSymbol` are
    Unicode-aware; this model keeps only their ASCII members. */
module Chars {
  import opened Numbers

  /** `char.IsDigit` on ASCII. */
  predicate IsDigit(c: char) {
    '0' <= c <= '9'
  }

  /** `char.IsLetter` on ASCII. */
  predicate IsLetter(c: char) {
    ('a' <= c <= 'z') || ('A' <= c <= 'Z')
  }

  /** `char.IsLetterOrDigit` on ASCII. */
  predicate IsLetterOrDigit(c: char) {
    IsLetter(c) || IsDigit(c)
  }

  /** `char.IsWhiteSpace` on ASCII: space and the controls U+0009 to U+000D. */
  predicate IsWhiteSpace(c: char) {
    c == ' ' || ('\t' <= c <= '\r')
  }

  /** `char.IsSymbol` on ASCII: the math, currency and modifier symbols
      `$ + < = > ^ ` | ~`. Punctuation such as `!`, `&` or `*` is not a symbol. */
  predicate IsSymbol(c: char) {
    c == '$' || c == '+' || c == '<' || c == '=' || c == '>' || c == '^' || c == '`' || c == '|' || c == '~'
  }

  /** The end of the maximal digit run that starts at `i`. */
  function DigitRunEnd(s: string, i: nat): (j: nat)
    requires i <= |s|
    ensures i <= j <= |s|
    ensures forall k :: i <= k < j ==> IsDigit(s[k])
    ensures j < |s| ==> !IsDigit(s[j])
    decreases |s| - i
  {
    if i < |s| && IsDigit(s[i]) then DigitRunEnd(s, i + 1) else i
  }

  /** The end of the maximal letter-or-digit run that starts at `i`. */
  function WordRunEnd(s: string, i: nat): (j: nat)
    requires i <= |s|
    ensures i <= j <= |s|
    ensures forall k :: i <= k < j ==> IsLetterOrDigit(s[k])
    ensures j < |s| ==> !IsLetterOrDigit(s[j])
    decreases |s| - i
  {
    if i < |s| && IsLetterOrDigit(s[i]) then WordRunEnd(s, i + 1) else i
  }

  /** The numeric value of an ASCII digit. */
  function DigitValue(c: char): (d: nat)
    requires IsDigit(c)
    ensures d < 10
  {
    c as int - '0' as int
  }

  /** The ASCII digit of a value below ten. */
  function DigitChar(d: nat): (c: char)
    requires d < 10
    ensures IsDigit(c) && DigitValue(c) == d
  {
    ('0' as int + d) as char
  }

  /** A non-empty run of ASCII digits. */
  predicate IsDigits(ds: string) {
    |ds| > 0 && forall i :: 0 <= i < |ds| ==> IsDigit(ds[i])
  }

  /** The value of a decimal digit string, most significant digit first. */
  function DigitsValue(ds: string): nat
    requires forall i :: 0 <= i < |ds| ==> IsDigit(ds[i])
  {
    if |ds| == 0 then 0 else 10 * DigitsValue(ds[..|ds| - 1]) + DigitValue(ds[|ds| - 1])
  }

  // ---------------------------------------------------------------------
  // Decimal literals

  /** The index of the first `.` in `t`, or `|t|` when there is none. */
  function DotIndex(t: string): (d: nat)
    ensures d <= |t|
    ensures d < |t| ==> t[d] == '.'
    ensures forall k :: 0 <= k < d ==> t[k] != '.'
  {
    if |t| == 0 then 0
    else if t[0] == '.' then 0
    else 1 + DotIndex(t[1..])
  }

  /** A decimal literal: digits, optionally followed by `.` and more digits. */
  predicate IsDecimalText(t: string) {
    var d := DotIndex(t);
    IsDigits(t[..d]) && forall k :: d < k < |t| ==> IsDigit(t[k])
  }

  /** `double.Parse` of a decimal literal, as the exact real it denotes. */
  function DecimalValue(t: string): (v: real)
    requires IsDecimalText(t)
    ensures v >= 0.0
  {
    var d := DotIndex(t);
    var whole := DigitsValue(t[..d]) as real;
    if d == |t| then whole
    else
      var fraction := t[d + 1..];
      assert forall k :: 0 <= k < |fraction| ==> IsDigit(fraction[k]) by {
        forall k | 0 <= k < |fraction| ensures IsDigit(fraction[k]) {
          assert fraction[k] == t[d + 1 + k];
        }
      }
      whole + DigitsValue(fraction) as real / Pow10(|fraction|) as real
  }

  /** `DotIndex` finds the first `.`. */
  lemma {:induction false} DotIndexAt(t: string, d: nat)
    requires d <= |t|
    requires d < |t| ==> t[d] == '.'
    requires forall k :: 0 <= k < d ==> t[k] != '.'
    ensures DotIndex(t) == d
  {
    if d > 0 {
      assert t[0] != '.';
      DotIndexAt(t[1..], d - 1);
    }
  }

  /** A literal without a `.` has the value of its digits. */
  lemma {:induction false} WholeNumberValue(t: string)
    requires IsDigits(t)
    ensures IsDecimalText(t) && DecimalValue(t) == DigitsValue(t) as real
  {
    DotIndexAt(t, |t|);
    assert t[..|t|] == t;
  }

  /** The shortest decimal digits of `n`. */
  function NatToDigits(n: nat): (ds: string)
    ensures IsDigits(ds) && DigitsValue(ds) == n
    ensures ds[0] != '0' || n == 0
  {
    if n < 10 then [DigitChar(n)]
    else
      var front := NatToDigits(n / 10);
      var ds := front + [DigitChar(n % 10)];
      assert ds[..|ds| - 1] == front;
      ds
  }

  /** `int.ToString()`: a minus sign for negatives, then the digits. */
  function FormatInt(n: int): (s: string)
    ensures |s| > 0 && ' ' !in s
  {
    if n < 0 then "-" + NatToDigits(-n) else NatToDigits(n)
  }
}
