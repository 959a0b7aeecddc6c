/** Two's-complement 64-bit integers as the source language computes with them. */
module Int64 {

  const TWO_63: int := 0x8000_0000_0000_0000
  const TWO_64: int := 0x1_0000_0000_0000_0000

  type int64 = x: int | -TWO_63 <= x < TWO_63

  const MIN: int64 := -TWO_63

  /** Division and remainder that truncate towards zero. */
  function Quo(a: int, b: int): int
    requires b > 0
  {
    if a >= 0 then a / b else -((-a) / b)
  }

  function Rem(a: int, b: int): int
    requires b > 0
  {
    a - b * Quo(a, b)
  }

  function Wrap(x: int): int64 {
    (x + TWO_63) % TWO_64 - TWO_63
  }

  function Add(a: int64, b: int64): int64 { Wrap(a + b) }
  function Sub(a: int64, b: int64): int64 { Wrap(a - b) }
  function Mul(a: int64, b: int64): int64 { Wrap(a * b) }
  function Neg(a: int64): int64 { Wrap(-(a as int)) }
  function Abs(a: int64): int64 { if a < 0 then Neg(a) else a }

  lemma WrapInRange(x: int)
    requires -TWO_63 <= x < TWO_63
    ensures Wrap(x) == x
  {
  }

  /** Wrapping early or late makes no difference to a sum. */
  lemma WrapAbsorbs(x: int, y: int)
    ensures Wrap(Wrap(x) + y) == Wrap(x + y)
  {
    var k := (x + TWO_63) / TWO_64;
    assert Wrap(x) == x - k * TWO_64;
    ModShift(x + y + TWO_63, -k);
  }

  lemma WrapAbsorbsNeg(x: int, y: int)
    ensures Wrap(y - Wrap(x)) == Wrap(y - x)
  {
    var k := (x + TWO_63) / TWO_64;
    assert Wrap(x) == x - k * TWO_64;
    ModShift(y - x + TWO_63, k);
  }

  lemma WrapPlus(x: int, y: int)
    ensures Wrap(Wrap(x) + Wrap(y)) == Wrap(x + y)
  {
    WrapAbsorbs(x, Wrap(y));
    WrapAbsorbs(y, x);
  }

  lemma WrapMinus(x: int, y: int)
    ensures Wrap(Wrap(x) - Wrap(y)) == Wrap(x - y)
  {
    WrapAbsorbsNeg(y, Wrap(x));
    WrapAbsorbs(x, 0 - y);
  }

  lemma ModShift(x: int, k: int)
    ensures (x + k * TWO_64) % TWO_64 == x % TWO_64
  {
  }

  /** Sum of a column with wrap-around. */
  function Sum(xs: seq<int64>): int64 {
    if xs == [] then 0 else Add(Sum(xs[..|xs| - 1]), xs[|xs| - 1])
  }

  function ExactSum(xs: seq<int64>): int {
    if xs == [] then 0 else ExactSum(xs[..|xs| - 1]) + xs[|xs| - 1]
  }

  lemma {:induction false} SumIsWrappedExact(xs: seq<int64>)
    ensures Sum(xs) == Wrap(ExactSum(xs))
  {
    if xs != [] {
      SumIsWrappedExact(xs[..|xs| - 1]);
      WrapAbsorbs(ExactSum(xs[..|xs| - 1]), xs[|xs| - 1]);
    }
  }

  lemma SumWhenItFits(xs: seq<int64>)
    requires -TWO_63 <= ExactSum(xs) < TWO_63
    ensures Sum(xs) == ExactSum(xs)
  {
    SumIsWrappedExact(xs);
  }

  lemma SumSnoc(xs: seq<int64>, x: int64)
    ensures Sum(xs + [x]) == Add(Sum(xs), x) && ExactSum(xs + [x]) == ExactSum(xs) + x
  {
    assert (xs + [x])[..|xs|] == xs;
  }
}
