/** The boxed values that the expression engines pass around as `object`.

    `Int` is a boxed `System.Int32`, `Num` a boxed `System.Double` (kept as
    an exact real), `Null` the null reference. Equality of two `Value`s is
    .NET's `object.Equals`: a boxed int never equals a boxed double, even
    when they hold the same number. */
module Values {
  import opened Wrappers
  import opened Numbers
  import opened Chars

  /** 10^15: .NET prints an integral double below it in magnitude as plain digits. */
  const PlainDoubleBound: int := 1_000_000_000_000_000

  /** Whether the double `x` is one that `double.ToString()` prints as
      plain integer digits, with no point and no exponent. */
  predicate PrintsAsInteger(x: real) {
    x == x.Floor as real && -PlainDoubleBound < x.Floor < PlainDoubleBound
  }

  datatype Value = Null | Int(i: int32) | Num(r: real) | Bool(b: bool) | Str(s: string)
  {
    /** Whether C#'s `dynamic` arithmetic and comparison accept the value as a number. */
    predicate IsNumeric() {
      Int? || Num?
    }

    /** The number a numeric value holds; an int is widened to a double. */
    function AsReal(): real
      requires IsNumeric()
    {
      if Int? then i as real else r
    }

    /** The text `string.Concat` appends for the value: its `ToString()`,
        and the empty string for null. An int prints in decimal and a bool
        as `True` or `False`. A double is given its text only when it
        prints as integer digits; the shortest round-trip text of the other
        doubles is not modelled, and they give `None`. */
    function ConcatText(): (t: Option<string>)
      ensures t.None? <==> Num? && !PrintsAsInteger(r)
    {
      match this
      case Null => Some("")
      case Int(n) => Some(FormatInt(n))
      case Bool(b) => Some(if b then "True" else "False")
      case Str(text) => Some(text)
      case Num(x) => if PrintsAsInteger(x) then Some(FormatInt(x.Floor)) else None
    }
  }
}
