/** The schedule pattern `"<anchor> <ms> <s> <min> <h> <d>"` of
    Dadrass.Dev.Cron/Models/TimePattern.cs: field translation, the period,
    the initial delay (`BaseWait`) and the five-field rendering.

    Times are integer milliseconds since `DateTime.MinValue`, midnight of
    0001-01-01. `DateTime.Parse` of the anchor is the parameter
    `parseAnchor`, and both reads of `DateTime.Now` are the one instant
    `now`. */
module TimePattern {
  import opened Wrappers
  import opened Chars
  import opened Numbers

  /** What made `TryParse` fail: the exception it wraps as the inner one. */
  datatype Cause =
    | BadField(field: string)    // int.Parse threw (bad format or out of Int32 range)
    | BadAnchor(anchor: string)  // DateTime.Parse threw
    | TooFewFields               // parts[k] was out of range
    | DateOutOfRange             // a DateTime addition left years 1 to 9999
    | UndefinedDelay             // zero period, anchor not in the future: NaN arithmetic

  /** The single `FormatException` every failure surfaces as. */
  datatype FormatError = FormatError(pattern: string, cause: Cause) {
    function Message(): string {
      "Invalid pattern: " + pattern
    }
  }

  /** A parsed pattern: the initial delay and the five interval fields. */
  datatype TimePattern = TimePattern(baseWait: int, millisecond: int, second: int, minute: int, hour: int, day: int)

  /** The length of one interval in milliseconds. */
  function Period(tp: TimePattern): int {
    tp.millisecond + 1000 * tp.second + 60000 * tp.minute + 3600000 * tp.hour + 86400000 * tp.day
  }

  /** The five interval fields in the order the pattern gives them. */
  function Fields(tp: TimePattern): seq<int> {
    [tp.millisecond, tp.second, tp.minute, tp.hour, tp.day]
  }

  /** `DateTime.MaxValue` in whole milliseconds: the last millisecond of 9999-12-31. */
  const MaxDate: int := 315_537_897_599_999

  /** The instants a `DateTime` can hold; `AddMilliseconds`, `AddSeconds`,
      `AddMinutes`, `AddHours` and `AddDays` throw an
      `ArgumentOutOfRangeException` for a result outside them. */
  predicate InDateRange(t: int) {
    0 <= t <= MaxDate
  }

  /** The anchor once the first `k` additions of the chain
      `.AddMilliseconds(parts[0]) ... .AddDays(parts[4])` are applied. */
  function PartialDate(anchor: int, parts: seq<int>, k: nat): int
    requires k <= |parts| && k <= 5
  {
    anchor
    + (if k > 0 then parts[0] else 0)
    + (if k > 1 then 1000 * parts[1] else 0)
    + (if k > 2 then 60000 * parts[2] else 0)
    + (if k > 3 then 3600000 * parts[3] else 0)
    + (if k > 4 then 86400000 * parts[4] else 0)
  }

  /** Every addition of the chain that gets a field to add keeps the date in
      range. A field is read only once the additions before it succeeded, so
      an addition out of range is reported before a missing field. */
  predicate ChainInRange(anchor: int, parts: seq<int>) {
    forall k :: 1 <= k <= |parts| && k <= 5 ==> InDateRange(PartialDate(anchor, parts, k))
  }

  /** Every date `TryParse` computes for these fields lies in the
      `DateTime` range: the anchor, the anchor after each addition, and the
      instant the delay ends on. */
  predicate DatesInRange(anchor: int, tp: TimePattern, now: int)
    requires Period(tp) != 0 || anchor + Period(tp) > now
  {
    InDateRange(anchor) && ChainInRange(anchor, Fields(tp)) && InDateRange(now + BaseWait(anchor, Period(tp), now))
  }

  lemma ChainPrefix(anchor: int, parts: seq<int>)
    requires |parts| >= 5
    ensures ChainInRange(anchor, parts) <==> ChainInRange(anchor, parts[..5])
  {
    forall k | 1 <= k <= 5 ensures PartialDate(anchor, parts, k) == PartialDate(anchor, parts[..5], k) {
    }
  }

  /** The five interval fields agree. */
  predicate SameIntervals(a: TimePattern, b: TimePattern) {
    a.millisecond == b.millisecond && a.second == b.second && a.minute == b.minute
    && a.hour == b.hour && a.day == b.day
  }

  // ---------------------------------------------------------------------
  // string.Split(' ') and its inverse

  /** `s.Split(' ')`: the pieces between single spaces, empty pieces kept. */
  function Split(s: string): (parts: seq<string>)
    ensures |parts| >= 1
    ensures forall k :: 0 <= k < |parts| ==> ' ' !in parts[k]
  {
    if |s| == 0 then [""]
    else
      var rest := Split(s[1..]);
      if s[0] == ' ' then [""] + rest
      else [[s[0]] + rest[0]] + rest[1..]
  }

  /** `string.Join(" ", parts)`. */
  function Join(parts: seq<string>): string
    requires |parts| >= 1
  {
    if |parts| == 1 then parts[0] else parts[0] + " " + Join(parts[1..])
  }

  lemma {:induction false} JoinSplit(s: string)
    ensures Join(Split(s)) == s
  {
    if |s| > 0 {
      JoinSplit(s[1..]);
      var rest := Split(s[1..]);
      if s[0] != ' ' {
        if |rest| > 1 {
          assert rest == [rest[0]] + rest[1..];
          assert Join(rest) == rest[0] + " " + Join(rest[1..]);
        }
        assert s == [s[0]] + s[1..];
      }
    }
  }

  lemma {:induction false} SplitNoSpace(x: string)
    requires ' ' !in x
    ensures Split(x) == [x]
  {
    if |x| > 0 {
      SplitNoSpace(x[1..]);
      assert [x[0]] + x[1..] == x;
    }
  }

  lemma {:induction false} SplitCons(x: string, y: string)
    requires ' ' !in x
    ensures Split(x + " " + y) == [x] + Split(y)
  {
    if |x| == 0 {
      assert x + " " + y == [' '] + y;
      assert (x + " " + y)[1..] == y;
    } else {
      assert (x + " " + y)[1..] == x[1..] + " " + y;
      SplitCons(x[1..], y);
      assert [x[0]] + x[1..] == x;
    }
  }

  lemma {:induction false} SplitJoin(parts: seq<string>)
    requires |parts| >= 1
    requires forall k :: 0 <= k < |parts| ==> ' ' !in parts[k]
    ensures Split(Join(parts)) == parts
  {
    if |parts| == 1 {
      SplitNoSpace(parts[0]);
    } else {
      SplitJoin(parts[1..]);
      SplitCons(parts[0], Join(parts[1..]));
      assert [parts[0]] + parts[1..] == parts;
    }
  }

  lemma {:induction false} SplitSnoc(x: string, y: string)
    requires ' ' !in y
    ensures Split(x + " " + y) == Split(x) + [y]
  {
    if |x| == 0 {
      SplitCons(x, y);
      SplitNoSpace(y);
    } else {
      assert (x + " " + y)[1..] == x[1..] + " " + y;
      SplitSnoc(x[1..], y);
    }
  }

  // ---------------------------------------------------------------------
  // int.Parse and int.ToString

  function TrimStart(s: string): (t: string)
    ensures |t| <= |s| && (|t| > 0 ==> !IsWhiteSpace(t[0]))
  {
    if |s| > 0 && IsWhiteSpace(s[0]) then TrimStart(s[1..]) else s
  }

  function TrimEnd(s: string): (t: string)
    ensures |t| <= |s| && (|t| > 0 ==> !IsWhiteSpace(t[|t| - 1]))
  {
    if |s| > 0 && IsWhiteSpace(s[|s| - 1]) then TrimEnd(s[..|s| - 1]) else s
  }

  /** The trailing NUL characters .NET's integer parser accepts after the
      number and its trailing white space, removed. */
  function TrimNul(s: string): (t: string)
    ensures |t| <= |s| && (|t| > 0 ==> t[|t| - 1] != '\0')
  {
    if |s| > 0 && s[|s| - 1] == '\0' then TrimNul(s[..|s| - 1]) else s
  }

  /** `int.Parse(s)` with the default integer style: optional white space
      around an optional sign and a non-empty digit run, then any number of
      trailing NULs, within Int32. */
  function ParseInt32(s: string): (r: Option<int>)
    ensures r.Some? ==> InInt32(r.value)
  {
    var t := TrimEnd(TrimStart(TrimNul(s)));
    var negative := |t| > 0 && t[0] == '-';
    var ds := if |t| > 0 && (t[0] == '-' || t[0] == '+') then t[1..] else t;
    if !IsDigits(ds) then None
    else
      var magnitude: int := DigitsValue(ds);
      var v := if negative then -magnitude else magnitude;
      if InInt32(v) then Some(v) else None
  }

  lemma TrimNoWhite(s: string)
    requires |s| > 0 && !IsWhiteSpace(s[0]) && !IsWhiteSpace(s[|s| - 1]) && s[|s| - 1] != '\0'
    ensures TrimEnd(TrimStart(TrimNul(s))) == s
  {
    assert TrimNul(s) == s;
  }

  /** NULs after a number change nothing: `int.Parse("1\0")` is 1. */
  lemma {:induction false} TrailingNulIgnored(s: string)
    ensures ParseInt32(s + "\0") == ParseInt32(s)
    ensures s != "*" ==> Translate(s + "\0").Success? == Translate(s).Success?
    ensures s != "*" && Translate(s).Success? ==> Translate(s + "\0") == Translate(s)
  {
    assert (s + "\0")[..|s|] == s;
    assert TrimNul(s + "\0") == TrimNul(s);
    assert s + "\0" != "*" by { assert (s + "\0")[|s|] == '\0'; }
    assert ParseInt32(s + "\0") == ParseInt32(s);
  }

  /** Printing an Int32 and parsing it back gives the same number. */
  lemma ParseFormatInt(n: int)
    requires InInt32(n)
    ensures ParseInt32(FormatInt(n)) == Some(n)
  {
    var s := FormatInt(n);
    if n < 0 {
      var ds := NatToDigits(-n);
      assert s == "-" + ds;
      assert s[|s| - 1] == ds[|ds| - 1];
      TrimNoWhite(s);
      assert s[1..] == ds;
    } else {
      var ds := NatToDigits(n);
      assert s == ds;
      assert IsDigit(s[0]) && IsDigit(s[|s| - 1]);
      TrimNoWhite(s);
    }
  }

  // ---------------------------------------------------------------------
  // Translate and TryParse

  /** One interval field: `*` means 1, anything else goes through int.Parse. */
  function Translate(field: string): (r: Result<int, Cause>)
    ensures r.Failure? ==> r.error == BadField(field)
    ensures r.Success? ==> InInt32(r.value)
  {
    if field == "*" then Success(1)
    else match ParseInt32(field)
      case Some(n) => Success(n)
      case None => Failure(BadField(field))
  }

  /** `Select(Translate).ToArray()`: every field translated in order; the first bad one throws. */
  function TranslateAll(fields: seq<string>): (r: Result<seq<int>, Cause>)
    ensures r.Success? <==> forall k :: 0 <= k < |fields| ==> Translate(fields[k]).Success?
    ensures r.Success? ==> |r.value| == |fields|
                           && forall k :: 0 <= k < |fields| ==> r.value[k] == Translate(fields[k]).value
    ensures r.Failure? ==> exists k :: 0 <= k < |fields| && Translate(fields[k]) == Failure(r.error)
                                       && forall j :: 0 <= j < k ==> Translate(fields[j]).Success?
  {
    if |fields| == 0 then Success([])
    else match Translate(fields[0])
      case Failure(c) => Failure(c)
      case Success(n) =>
        match TranslateAll(fields[1..])
        case Failure(c) =>
          FirstFailureShift(fields, c);
          Failure(c)
        case Success(ns) =>
          assert forall k :: 0 < k < |fields| ==> fields[k] == fields[1..][k - 1];
          Success([n] + ns)
  }

  lemma FirstFailureShift(fields: seq<string>, c: Cause)
    requires |fields| > 0 && Translate(fields[0]).Success?
    requires exists k :: 0 <= k < |fields| - 1 && Translate(fields[1..][k]) == Failure(c)
                         && forall j :: 0 <= j < k ==> Translate(fields[1..][j]).Success?
    ensures exists k :: 0 <= k < |fields| && Translate(fields[k]) == Failure(c)
                        && forall j :: 0 <= j < k ==> Translate(fields[j]).Success?
  {
    var k :| 0 <= k < |fields| - 1 && Translate(fields[1..][k]) == Failure(c)
             && forall j :: 0 <= j < k ==> Translate(fields[1..][j]).Success?;
    assert Translate(fields[k + 1]) == Failure(c);
    forall j | 0 < j < k + 1 ensures Translate(fields[j]).Success? {
      assert fields[j] == fields[1..][j - 1];
    }
  }

  /** The initial delay of TimePattern.cs lines 85-91, for the instant
      `stepDate = anchor + period`. A step date in the future gives twice the
      distance to it; otherwise the time since the step date is brought up to
      the next multiple of the period with `step * frac(elapsed / step)`,
      which for whole milliseconds is C#'s truncated remainder. It is defined
      unless the period is zero and the step date is not in the future. */
  function BaseWait(anchor: int, period: int, now: int): int
    requires period != 0 || anchor + period > now
  {
    var stepDate := anchor + period;
    var elapsed := now - stepDate;
    var adjusted := if elapsed < 0 then -elapsed else elapsed + period - TruncRem(elapsed, period);
    stepDate + adjusted - now
  }

  /** The body of `TimePattern.TryParse` once the fields after the anchor
      are translated and the anchor is parsed: add fields 1 to 5 to the
      anchor as millisecond, second, minute, hour and day, compute the delay,
      and add it to the step date. A parse result outside the `DateTime`
      range is a bad anchor, since `DateTime.Parse` cannot return it; every
      date the additions reach must lie in the range. */
  function Assemble(anchorText: string, parts: Result<seq<int>, Cause>, anchor: Option<int>, now: int): (r: Result<TimePattern, Cause>)
    ensures r.Success? ==>
              && parts.Success? && |parts.value| >= 5 && Fields(r.value) == parts.value[..5]
              && anchor.Some?
              && (Period(r.value) != 0 || anchor.value + Period(r.value) > now)
              && r.value.baseWait == BaseWait(anchor.value, Period(r.value), now)
              && DatesInRange(anchor.value, r.value, now)
  {
    match parts
    case Failure(c) => Failure(c)
    case Success(parts) =>
      match anchor
      case None => Failure(BadAnchor(anchorText))
      case Some(anchor) =>
        if !InDateRange(anchor) then Failure(BadAnchor(anchorText))
        else if !ChainInRange(anchor, parts) then Failure(DateOutOfRange)
        else if |parts| < 5 then Failure(TooFewFields)
        else
          var stepDate := PartialDate(anchor, parts, 5);
          var step := stepDate - anchor;
          if step == 0 && stepDate <= now then Failure(UndefinedDelay)
          else
            var baseWait := BaseWait(anchor, step, now);
            // stepDate.AddMilliseconds(adjusted) is the instant now + baseWait
            if !InDateRange(now + baseWait) then Failure(DateOutOfRange)
            else
              ChainPrefix(anchor, parts);
              Success(TimePattern(baseWait, parts[0], parts[1], parts[2], parts[3], parts[4]))
  }

  /** The body of `TimePattern.TryParse` after the split: translate every
      field after the anchor, then parse the anchor. */
  function ParseFields(split: seq<string>, parseAnchor: string -> Option<int>, now: int): (r: Result<TimePattern, Cause>)
    requires |split| >= 1
    ensures r.Success? ==>
              && |split| >= 6
              && (forall k :: 1 <= k < |split| ==> Translate(split[k]).Success?)
              && parseAnchor(split[0]).Some?
              && r.value.millisecond == Translate(split[1]).value
              && r.value.second == Translate(split[2]).value
              && r.value.minute == Translate(split[3]).value
              && r.value.hour == Translate(split[4]).value
              && r.value.day == Translate(split[5]).value
              && (Period(r.value) != 0 || parseAnchor(split[0]).value + Period(r.value) > now)
              && r.value.baseWait == BaseWait(parseAnchor(split[0]).value, Period(r.value), now)
              && DatesInRange(parseAnchor(split[0]).value, r.value, now)
  {
    assert forall k :: 1 <= k < |split| ==> split[k] == split[1..][k - 1];
    Assemble(split[0], TranslateAll(split[1..]), parseAnchor(split[0]), now)
  }

  /** `TimePattern.TryParse`: split on single spaces and parse the pieces;
      every failure is one FormatError naming the pattern. */
  function TryParse(pattern: string, parseAnchor: string -> Option<int>, now: int): (r: Result<TimePattern, FormatError>)
    ensures r.Failure? ==> r.error.pattern == pattern
    ensures r.Success? ==> ParseFields(Split(pattern), parseAnchor, now) == Success(r.value)
    ensures r.Failure? ==> ParseFields(Split(pattern), parseAnchor, now) == Failure(r.error.cause)
  {
    match ParseFields(Split(pattern), parseAnchor, now)
    case Success(tp) => Success(tp)
    case Failure(c) => Failure(FormatError(pattern, c))
  }

  /** `ToString`: the five interval fields separated by single spaces. */
  function ToString(tp: TimePattern): string {
    Join([FormatInt(tp.millisecond), FormatInt(tp.second), FormatInt(tp.minute), FormatInt(tp.hour), FormatInt(tp.day)])
  }

  // ---------------------------------------------------------------------
  // The initial delay

  lemma TruncRemNonNegative(e: int, p: int)
    requires e >= 0 && p > 0
    ensures TruncRem(e, p) == e % p
  {
    assert TruncDiv(e, p) == e / p;
  }

  /** A step date already reached: the delay lies in (0, period] and ends on
      an instant of the anchor's phase, `anchor + j * period`. */
  lemma {:induction false} BaseWaitPast(anchor: int, period: int, now: int)
    requires period > 0 && anchor + period <= now
    ensures BaseWait(anchor, period, now) == period - (now - (anchor + period)) % period
    ensures 0 < BaseWait(anchor, period, now) <= period
    ensures (now + BaseWait(anchor, period, now) - anchor) % period == 0
  {
    var e := now - (anchor + period);
    TruncRemNonNegative(e, period);
    var bw := BaseWait(anchor, period, now);
    assert bw == period - e % period;
    assert e == period * (e / period) + e % period;
    assert now + bw - anchor == (e / period + 2) * period;
    MultipleMod(e / period + 2, period);
  }

  /** "now" exactly on an instant of the phase gives a full period, not 0. */
  lemma {:induction false} BaseWaitAligned(anchor: int, period: int, now: int)
    requires period > 0 && anchor + period <= now && (now - anchor) % period == 0
    ensures BaseWait(anchor, period, now) == period
  {
    var e := now - (anchor + period);
    MultipleMod(1, period);
    DifferenceOfMultiples(now - anchor, period, period);
    assert e % period == 0;
    TruncRemNonNegative(e, period);
    assert TruncRem(e, period) == 0;
  }

  /** A step date still ahead: the delay is twice the distance to it, so the
      first wait overshoots the step date by the same distance. */
  lemma {:induction false} BaseWaitFuture(anchor: int, period: int, now: int)
    requires anchor + period > now
    ensures BaseWait(anchor, period, now) == 2 * (anchor + period - now)
    ensures BaseWait(anchor, period, now) > 0
  {
  }

  /** A negative period with the step date reached yields a negative delay. */
  lemma {:induction false} BaseWaitNegativePeriod(anchor: int, period: int, now: int)
    requires period < 0 && anchor + period <= now
    ensures 2 * period < BaseWait(anchor, period, now) <= period
  {
  }

  /** The delay is the only one in (0, period] that ends on the anchor's
      phase: the wait to the first instant of the phase strictly after "now". */
  lemma {:induction false} BaseWaitUnique(anchor: int, period: int, now: int, d: int)
    requires period > 0 && anchor + period <= now
    requires 0 < d <= period && (now + d - anchor) % period == 0
    ensures d == BaseWait(anchor, period, now)
  {
    BaseWaitPast(anchor, period, now);
    var bw := BaseWait(anchor, period, now);
    DifferenceOfMultiples(now + d - anchor, now + bw - anchor, period);
    assert (now + d - anchor) - (now + bw - anchor) == d - bw;
    AlignedDifference(d, bw, period);
  }

  // ---------------------------------------------------------------------
  // Translate

  lemma {:induction false} TrimStartKeeps(s: string, i: int)
    requires 0 <= i < |s| && !IsWhiteSpace(s[i])
    ensures |TrimStart(s)| >= |s| - i && TrimStart(s)[|TrimStart(s)| - (|s| - i)] == s[i]
  {
    if |s| > 0 && IsWhiteSpace(s[0]) {
      assert i > 0;
      assert s[1..][i - 1] == s[i];
      TrimStartKeeps(s[1..], i - 1);
    } else {
      assert TrimStart(s)[i] == s[i];
    }
  }

  lemma {:induction false} TrimEndKeeps(s: string, i: int)
    requires 0 <= i < |s| && !IsWhiteSpace(s[i])
    ensures i < |TrimEnd(s)| && TrimEnd(s)[i] == s[i]
  {
    if |s| > 0 && IsWhiteSpace(s[|s| - 1]) {
      assert i < |s| - 1;
      TrimEndKeeps(s[..|s| - 1], i);
    }
  }

  /** `*` and `1` are the same field. */
  lemma WildcardIsOne()
    ensures Translate("*") == Translate("1") == Success(1)
  {
    TrimNoWhite("1");
  }

  /** A decimal digit run within Int32 translates to its value. */
  lemma {:induction false} TranslateDigits(f: string)
    requires IsDigits(f) && DigitsValue(f) <= Int32Max
    ensures Translate(f) == Success(DigitsValue(f))
  {
    TrimNoWhite(f);
    assert f != "*" by { assert IsDigit(f[0]); }
  }

  lemma {:induction false} TrimNulKeeps(s: string, i: int)
    requires 0 <= i < |s| && s[i] != '\0'
    ensures i < |TrimNul(s)| && TrimNul(s)[i] == s[i]
  {
    if |s| > 0 && s[|s| - 1] == '\0' {
      assert i < |s| - 1;
      TrimNulKeeps(s[..|s| - 1], i);
    }
  }

  /** A field holding a character that is no digit, sign, white space or
      NUL, and that is not `*`, is rejected. */
  lemma {:induction false} TranslateRejects(f: string, i: int)
    requires f != "*" && 0 <= i < |f|
    requires !IsDigit(f[i]) && !IsWhiteSpace(f[i]) && f[i] != '-' && f[i] != '+' && f[i] != '\0'
    ensures Translate(f) == Failure(BadField(f))
  {
    TrimNulKeeps(f, i);
    var n := TrimNul(f);
    TrimStartKeeps(n, i);
    var u := TrimStart(n);
    var j := |u| - (|n| - i);
    TrimEndKeeps(u, j);
    var t := TrimEnd(u);
    assert t[j] == f[i];
    var ds := if |t| > 0 && (t[0] == '-' || t[0] == '+') then t[1..] else t;
    if |t| > 0 && (t[0] == '-' || t[0] == '+') {
      assert j > 0;
      assert ds[j - 1] == f[i];
    } else {
      assert ds[j] == f[i];
    }
    assert !IsDigits(ds);
  }

  /** Printed Int32 values translate back to themselves. */
  lemma {:induction false} TranslateFormatInt(n: int)
    requires InInt32(n)
    ensures Translate(FormatInt(n)) == Success(n)
  {
    ParseFormatInt(n);
    var s := FormatInt(n);
    assert s != "*" by {
      if n >= 0 { assert IsDigit(s[0]); } else { assert s[0] == '-'; }
    }
  }

  // ---------------------------------------------------------------------
  // TryParse

  /** The interval fields of `split`, with a zero delay. */
  function Denoted(split: seq<string>): TimePattern
    requires |split| >= 6 && forall k :: 1 <= k < 6 ==> Translate(split[k]).Success?
  {
    TimePattern(0, Translate(split[1]).value, Translate(split[2]).value, Translate(split[3]).value,
                Translate(split[4]).value, Translate(split[5]).value)
  }

  lemma {:induction false} DenotedParts(split: seq<string>)
    requires |split| >= 6 && forall k :: 1 <= k < |split| ==> Translate(split[k]).Success?
    ensures TranslateAll(split[1..]).Success?
    ensures Fields(Denoted(split)) == TranslateAll(split[1..]).value[..5]
  {
    assert forall k :: 0 <= k < |split| - 1 ==> split[1..][k] == split[k + 1];
  }

  /** When every part of the pattern is good and every date stays in the
      `DateTime` range, the parse succeeds; with the postcondition of
      ParseFields this is an if and only if. */
  lemma {:induction false} ParseFieldsSucceeds(split: seq<string>, parseAnchor: string -> Option<int>, now: int)
    requires && |split| >= 6
             && (forall k :: 1 <= k < |split| ==> Translate(split[k]).Success?)
             && parseAnchor(split[0]).Some?
             && var tp, anchor := Denoted(split), parseAnchor(split[0]).value;
                && (Period(tp) != 0 || anchor + Period(tp) > now)
                && DatesInRange(anchor, tp, now)
    ensures ParseFields(split, parseAnchor, now).Success?
  {
    DenotedParts(split);
    ChainPrefix(parseAnchor(split[0]).value, TranslateAll(split[1..]).value);
  }

  /** An addition of the chain that leaves the `DateTime` range fails the
      parse, before a missing field is noticed. */
  lemma {:induction false} ParseFieldsOutOfRange(split: seq<string>, parseAnchor: string -> Option<int>, now: int)
    requires |split| >= 1 && TranslateAll(split[1..]).Success?
    requires parseAnchor(split[0]).Some? && InDateRange(parseAnchor(split[0]).value)
    requires !ChainInRange(parseAnchor(split[0]).value, TranslateAll(split[1..]).value)
    ensures ParseFields(split, parseAnchor, now) == Failure(DateOutOfRange)
  {
  }

  /** A delay that ends outside the `DateTime` range makes the last
      `AddMilliseconds` throw: the parse fails. */
  lemma {:induction false} ParseFieldsLateDelay(split: seq<string>, parseAnchor: string -> Option<int>, now: int)
    requires && |split| >= 6
             && (forall k :: 1 <= k < |split| ==> Translate(split[k]).Success?)
             && parseAnchor(split[0]).Some?
             && var tp, anchor := Denoted(split), parseAnchor(split[0]).value;
                && InDateRange(anchor) && ChainInRange(anchor, Fields(tp))
                && (Period(tp) != 0 || anchor + Period(tp) > now)
                && !InDateRange(now + BaseWait(anchor, Period(tp), now))
    ensures ParseFields(split, parseAnchor, now) == Failure(DateOutOfRange)
  {
    DenotedParts(split);
    ChainPrefix(parseAnchor(split[0]).value, TranslateAll(split[1..]).value);
  }

  /** A day field past 3652059 days, such as 9999999, takes any anchor past
      9999-12-31 when the other fields are zero. */
  lemma {:induction false} DayFieldOutOfRange(anchorText: string, zero: string, days: string, parseAnchor: string -> Option<int>, now: int)
    requires parseAnchor(anchorText).Some? && InDateRange(parseAnchor(anchorText).value)
    requires Translate(zero) == Success(0) && Translate(days).Success? && 86400000 * Translate(days).value > MaxDate
    ensures ParseFields([anchorText, zero, zero, zero, zero, days], parseAnchor, now) == Failure(DateOutOfRange)
  {
    var split := [anchorText, zero, zero, zero, zero, days];
    DenotedParts(split);
    var parts := TranslateAll(split[1..]).value;
    assert parts[..5] == [0, 0, 0, 0, Translate(days).value];
    assert !InDateRange(PartialDate(parseAnchor(anchorText).value, parts, 5));
    ParseFieldsOutOfRange(split, parseAnchor, now);
  }

  /** The first bad field, in order, is the one reported. */
  lemma {:induction false} ParseFieldsBadField(split: seq<string>, parseAnchor: string -> Option<int>, now: int, k: int)
    requires 1 <= k < |split| && Translate(split[k]).Failure?
    requires forall j :: 1 <= j < k ==> Translate(split[j]).Success?
    ensures ParseFields(split, parseAnchor, now) == Failure(BadField(split[k]))
  {
    var r := TranslateAll(split[1..]);
    assert split[1..][k - 1] == split[k];
    assert r.Failure?;
    var m :| 0 <= m < |split| - 1 && Translate(split[1..][m]) == Failure(r.error)
             && forall j :: 0 <= j < m ==> Translate(split[1..][j]).Success?;
    assert split[1..][m] == split[m + 1];
  }

  /** With good fields, a bad anchor is reported, before a missing field. */
  lemma {:induction false} ParseFieldsBadAnchor(split: seq<string>, parseAnchor: string -> Option<int>, now: int)
    requires |split| >= 1 && forall k :: 1 <= k < |split| ==> Translate(split[k]).Success?
    requires parseAnchor(split[0]).None? || !InDateRange(parseAnchor(split[0]).value)
    ensures ParseFields(split, parseAnchor, now) == Failure(BadAnchor(split[0]))
  {
    assert forall k :: 0 <= k < |split| - 1 ==> split[1..][k] == split[k + 1];
  }

  /** Fewer than five interval fields, all added within the `DateTime`
      range, is the index-out-of-range failure. */
  lemma {:induction false} ParseFieldsTooFew(split: seq<string>, parseAnchor: string -> Option<int>, now: int)
    requires 1 <= |split| < 6 && TranslateAll(split[1..]).Success?
    requires parseAnchor(split[0]).Some? && InDateRange(parseAnchor(split[0]).value)
    requires ChainInRange(parseAnchor(split[0]).value, TranslateAll(split[1..]).value)
    ensures ParseFields(split, parseAnchor, now) == Failure(TooFewFields)
  {
  }

  lemma {:induction false} TranslateAllSnoc(fields: seq<string>, extra: string)
    requires Translate(extra).Success?
    ensures TranslateAll(fields + [extra]).Success? == TranslateAll(fields).Success?
    ensures TranslateAll(fields).Failure? ==> TranslateAll(fields + [extra]) == TranslateAll(fields)
    ensures TranslateAll(fields).Success? ==>
              TranslateAll(fields + [extra]).value == TranslateAll(fields).value + [Translate(extra).value]
  {
    if |fields| > 0 {
      assert (fields + [extra])[1..] == fields[1..] + [extra];
      TranslateAllSnoc(fields[1..], extra);
    } else {
      assert [extra][1..] == [];
    }
  }

  /** A field after the sixth must translate, but changes nothing. */
  lemma {:induction false} ExtraFieldIgnored(split: seq<string>, extra: string, parseAnchor: string -> Option<int>, now: int)
    requires |split| >= 6 && Translate(extra).Success?
    ensures ParseFields(split + [extra], parseAnchor, now) == ParseFields(split, parseAnchor, now)
  {
    assert (split + [extra])[1..] == split[1..] + [extra];
    assert (split + [extra])[0] == split[0];
    TranslateAllSnoc(split[1..], extra);
    var parts := TranslateAll(split[1..]);
    if parts.Success? {
      AssembleExtra(split[0], parts.value, Translate(extra).value, parseAnchor(split[0]), now);
    }
  }

  lemma AssembleExtra(anchorText: string, parts: seq<int>, x: int, anchor: Option<int>, now: int)
    requires |parts| >= 5
    ensures Assemble(anchorText, Success(parts + [x]), anchor, now) == Assemble(anchorText, Success(parts), anchor, now)
  {
    assert (parts + [x])[..5] == parts[..5];
    if anchor.Some? {
      ChainPrefix(anchor.value, parts + [x]);
      ChainPrefix(anchor.value, parts);
      assert PartialDate(anchor.value, parts + [x], 5) == PartialDate(anchor.value, parts, 5);
    }
  }

  /** The same on pattern strings: appending a good field leaves the parse as
      it was, apart from the pattern an error names. */
  lemma {:induction false} TryParseExtraField(pattern: string, extra: string, parseAnchor: string -> Option<int>, now: int)
    requires ' ' !in extra && Translate(extra).Success? && |Split(pattern)| >= 6
    ensures var r, r' := TryParse(pattern, parseAnchor, now), TryParse(pattern + " " + extra, parseAnchor, now);
            && r.Success? == r'.Success?
            && (r.Success? ==> r.value == r'.value)
            && (r.Failure? ==> r.error.cause == r'.error.cause)
  {
    SplitSnoc(pattern, extra);
    ExtraFieldIgnored(Split(pattern), extra, parseAnchor, now);
  }

  lemma {:induction false} TranslateAllPointwise(a: seq<string>, b: seq<string>)
    requires |a| == |b| && forall j :: 0 <= j < |a| ==> Translate(a[j]) == Translate(b[j])
    ensures TranslateAll(a) == TranslateAll(b)
  {
    if |a| > 0 {
      assert forall j :: 0 <= j < |a| - 1 ==> a[1..][j] == a[j + 1] && b[1..][j] == b[j + 1];
      TranslateAllPointwise(a[1..], b[1..]);
    }
  }

  lemma TranslateAllWildcard(fields: seq<string>, i: int)
    requires 0 <= i < |fields| && fields[i] == "*"
    ensures TranslateAll(fields) == TranslateAll(fields[i := "1"])
  {
    WildcardIsOne();
    TranslateAllPointwise(fields, fields[i := "1"]);
  }

  /** Writing `1` for a `*` interval field changes nothing. */
  lemma {:induction false} WildcardField(split: seq<string>, k: int, parseAnchor: string -> Option<int>, now: int)
    requires 1 <= k < |split| && split[k] == "*"
    ensures ParseFields(split, parseAnchor, now) == ParseFields(split[k := "1"], parseAnchor, now)
  {
    var split' := split[k := "1"];
    assert split'[1..] == split[1..][k - 1 := "1"];
    TranslateAllWildcard(split[1..], k - 1);
    assert split'[0] == split[0];
  }

  // ---------------------------------------------------------------------
  // ToString

  /** ToString yields exactly the five printed interval fields. */
  lemma {:induction false} ToStringFields(tp: TimePattern)
    ensures Split(ToString(tp)) == [FormatInt(tp.millisecond), FormatInt(tp.second), FormatInt(tp.minute),
                                    FormatInt(tp.hour), FormatInt(tp.day)]
  {
    var fields := [FormatInt(tp.millisecond), FormatInt(tp.second), FormatInt(tp.minute),
                   FormatInt(tp.hour), FormatInt(tp.day)];
    assert forall k :: 0 <= k < |fields| ==> ' ' !in fields[k];
    SplitJoin(fields);
  }

  lemma {:induction false} ParseGoodFields(split: seq<string>, tp: TimePattern, parseAnchor: string -> Option<int>, now: int)
    requires |split| == 6 && parseAnchor(split[0]).Some?
    requires Translate(split[1]) == Success(tp.millisecond) && Translate(split[2]) == Success(tp.second)
    requires Translate(split[3]) == Success(tp.minute) && Translate(split[4]) == Success(tp.hour)
    requires Translate(split[5]) == Success(tp.day)
    requires Period(tp) != 0 || parseAnchor(split[0]).value + Period(tp) > now
    requires DatesInRange(parseAnchor(split[0]).value, tp, now)
    ensures var r := ParseFields(split, parseAnchor, now);
            r.Success? && SameIntervals(r.value, tp)
            && r.value.baseWait == BaseWait(parseAnchor(split[0]).value, Period(tp), now)
  {
    assert Fields(Denoted(split)) == Fields(tp);
    ParseFieldsSucceeds(split, parseAnchor, now);
    var r := ParseFields(split, parseAnchor, now);
    assert SameIntervals(r.value, tp);
    assert Period(r.value) == Period(tp);
  }

  lemma PrintedFieldsTranslate(tp: TimePattern)
    requires InInt32(tp.millisecond) && InInt32(tp.second) && InInt32(tp.minute)
             && InInt32(tp.hour) && InInt32(tp.day)
    ensures Translate(FormatInt(tp.millisecond)) == Success(tp.millisecond)
    ensures Translate(FormatInt(tp.second)) == Success(tp.second)
    ensures Translate(FormatInt(tp.minute)) == Success(tp.minute)
    ensures Translate(FormatInt(tp.hour)) == Success(tp.hour)
    ensures Translate(FormatInt(tp.day)) == Success(tp.day)
  {
    TranslateFormatInt(tp.millisecond);
    TranslateFormatInt(tp.second);
    TranslateFormatInt(tp.minute);
    TranslateFormatInt(tp.hour);
    TranslateFormatInt(tp.day);
  }

  lemma {:induction false} SplitAnchoredToString(anchorText: string, tp: TimePattern)
    requires ' ' !in anchorText
    ensures Split(anchorText + " " + ToString(tp))
            == [anchorText, FormatInt(tp.millisecond), FormatInt(tp.second), FormatInt(tp.minute),
                FormatInt(tp.hour), FormatInt(tp.day)]
  {
    ToStringFields(tp);
    SplitCons(anchorText, ToString(tp));
  }

  lemma PrintedSplit(anchorText: string, tp: TimePattern)
    requires ' ' !in anchorText
    requires InInt32(tp.millisecond) && InInt32(tp.second) && InInt32(tp.minute)
             && InInt32(tp.hour) && InInt32(tp.day)
    ensures var split := Split(anchorText + " " + ToString(tp));
            && |split| == 6 && split[0] == anchorText
            && Translate(split[1]) == Success(tp.millisecond) && Translate(split[2]) == Success(tp.second)
            && Translate(split[3]) == Success(tp.minute) && Translate(split[4]) == Success(tp.hour)
            && Translate(split[5]) == Success(tp.day)
  {
    SplitAnchoredToString(anchorText, tp);
    var split := Split(anchorText + " " + ToString(tp));
    assert split[1] == FormatInt(tp.millisecond) && split[2] == FormatInt(tp.second);
    assert split[3] == FormatInt(tp.minute) && split[4] == FormatInt(tp.hour) && split[5] == FormatInt(tp.day);
    PrintedFieldsTranslate(tp);
  }

  /** An anchor, a space and ToString parse back to the same five fields. */
  lemma {:induction false} ReparseToString(tp: TimePattern, anchorText: string, parseAnchor: string -> Option<int>, now: int)
    requires ' ' !in anchorText && parseAnchor(anchorText).Some?
    requires InInt32(tp.millisecond) && InInt32(tp.second) && InInt32(tp.minute)
             && InInt32(tp.hour) && InInt32(tp.day)
    requires Period(tp) != 0 || parseAnchor(anchorText).value + Period(tp) > now
    requires DatesInRange(parseAnchor(anchorText).value, tp, now)
    ensures var r := TryParse(anchorText + " " + ToString(tp), parseAnchor, now);
            r.Success? && SameIntervals(r.value, tp)
            && r.value.baseWait == BaseWait(parseAnchor(anchorText).value, Period(tp), now)
  {
    var split := Split(anchorText + " " + ToString(tp));
    PrintedSplit(anchorText, tp);
    ParseGoodFields(split, tp, parseAnchor, now);
  }
}
