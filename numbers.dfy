/** Integer helpers for C#'s integer operators, whose `/` and `%` truncate
    toward zero (Dafny's are Euclidean). */
module Numbers {

  const Int32Min: int := -0x8000_0000
  const Int32Max: int := 0x7FFF_FFFF

  predicate InInt32(n: int) {
    Int32Min <= n <= Int32Max
  }

  /** The values a C# `int` holds. */
  type int32 = n: int | Int32Min <= n <= Int32Max

  const TwoTo32: int := 0x1_0000_0000

  /** C#'s unchecked Int32 arithmetic: the exact result reduced modulo 2^32
      into the Int32 range. */
  function Wrap32(n: int): (w: int)
    ensures InInt32(w)
    ensures (n - w) % TwoTo32 == 0
    ensures InInt32(n) ==> w == n
  {
    var w := (n - Int32Min) % TwoTo32 + Int32Min;
    assert n - w == TwoTo32 * ((n - Int32Min) / TwoTo32);
    MultipleMod((n - Int32Min) / TwoTo32, TwoTo32);
    w
  }

  function Abs(n: int): (a: nat)
    ensures a == n || a == -n
  {
    if n < 0 then -n else n
  }

  /** C#'s integer `/`: the quotient rounded toward zero. */
  function TruncDiv(a: int, b: int): (q: int)
    requires b != 0
    ensures Abs(b) * Abs(q) <= Abs(a) < Abs(b) * (Abs(q) + 1)
    ensures q == 0 || ((q < 0) <==> ((a < 0) != (b < 0)))
  {
    var m := Abs(a) / Abs(b);
    DivBounds(Abs(a), Abs(b));
    if (a < 0) != (b < 0) then -m else m
  }

  lemma DivBounds(x: nat, y: nat)
    requires y > 0
    ensures y * (x / y) <= x < y * (x / y + 1)
  {
    assert x == y * (x / y) + x % y;
  }

  /** C#'s integer `%`: what `TruncDiv` leaves over; it has the sign of the dividend. */
  function TruncRem(a: int, b: int): (r: int)
    requires b != 0
    ensures a == b * TruncDiv(a, b) + r
    ensures Abs(r) < Abs(b)
    ensures r == 0 || ((r < 0) <==> (a < 0))
  {
    a - b * TruncDiv(a, b)
  }

  /** Ten to the power `k`. */
  function Pow10(k: nat): (p: nat)
    ensures p >= 1
  {
    if k == 0 then 1 else 10 * Pow10(k - 1)
  }

  lemma MultipleMod(k: int, p: int)
    requires p > 0
    ensures (k * p) % p == 0
  {
    var q, r := (k * p) / p, (k * p) % p;
    assert p * (k - q) == r;
    if k - q != 0 {
      MulAwayFromZero(p, k - q);
      assert false;
    }
  }

  lemma MulAwayFromZero(p: int, m: int)
    requires p > 0 && m != 0
    ensures p * m >= p || p * m <= -p
  {
  }

  lemma DifferenceOfMultiples(x: int, y: int, p: int)
    requires p > 0 && x % p == 0 && y % p == 0
    ensures (x - y) % p == 0
  {
    assert x == p * (x / p) && y == p * (y / p);
    assert x - y == (x / p - y / p) * p;
    MultipleMod(x / p - y / p, p);
  }

  /** C#'s `int` division stays in range except for `int.MinValue / -1`,
      which throws an OverflowException. */
  lemma TruncDivInRange(a: int, b: int)
    requires InInt32(a) && InInt32(b) && b != 0 && !(a == Int32Min && b == -1)
    ensures InInt32(TruncDiv(a, b))
  {
    var q := TruncDiv(a, b);
    if Abs(q) > Abs(a) {
      MulAtLeast(Abs(b), Abs(q));
      assert false;
    }
    if q == -Int32Min {
      assert a == Int32Min && b < 0;
      if b < -1 {
        MulAtLeast(Abs(b), Abs(q));
        assert false;
      }
    }
  }

  lemma MulAtLeast(x: nat, y: nat)
    requires x >= 1
    ensures x * y >= y
    ensures x >= 2 ==> x * y >= 2 * y
  {
  }

  lemma AlignedDifference(a: int, b: int, p: int)
    requires p > 0 && (a - b) % p == 0 && -p < a - b < p
    ensures a == b
  {
    var d := a - b;
    assert d == p * (d / p);
  }

  lemma SumOfMultiples(x: int, y: int, p: int)
    requires p > 0 && x % p == 0 && y % p == 0
    ensures (x + y) % p == 0
  {
    assert x == p * (x / p) && y == p * (y / p);
    assert x + y == (x / p + y / p) * p;
    MultipleMod(x / p + y / p, p);
  }

  /** Numbers that agree modulo 2^32 wrap to the same Int32. */
  lemma WrapCongruent(a: int, b: int)
    requires (a - b) % TwoTo32 == 0
    ensures Wrap32(a) == Wrap32(b)
  {
    var wa, wb := Wrap32(a), Wrap32(b);
    SumOfMultiples(a - b, b - wb, TwoTo32);
    DifferenceOfMultiples(a - wb, a - wa, TwoTo32);
    assert (a - wb) - (a - wa) == wa - wb;
    AlignedDifference(wa, wb, TwoTo32);
  }

  /** Wrapping an intermediate product does not change the wrapped result:
      `x * c` computed in unchecked Int32 steps is the wrapped exact product. */
  lemma WrapMul(x: int, c: int)
    ensures Wrap32(Wrap32(x) * c) == Wrap32(x * c)
  {
    var w := Wrap32(x);
    var m := (x - w) / TwoTo32;
    assert x - w == TwoTo32 * m;
    assert x * c - w * c == (m * c) * TwoTo32 by {
      assert x * c - w * c == (x - w) * c;
    }
    MultipleMod(m * c, TwoTo32);
    WrapCongruent(x * c, w * c);
  }
}
