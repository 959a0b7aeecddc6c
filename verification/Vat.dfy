/**
  VAT extraction from VAT-inclusive amounts, rounded half up
  (backend/internal/fiscal/taxcodes.go). Rates are basis points of the
  VAT-exclusive value.
 */
module Vat {
  import opened Prelude
  import opened Int64

  datatype TaxCategory = Exempt | Standard | ZeroRated | NonVat | Reduced

  function RateBP(c: TaxCategory): nat {
    match c
    case Exempt => 0
    case Standard => 1600
    case ZeroRated => 0
    case NonVat => 0
    case Reduced => 800
  }

  function ParseTaxCategory(s: string): Option<TaxCategory> {
    if s == "A" then Some(Exempt)
    else if s == "B" then Some(Standard)
    else if s == "C" then Some(ZeroRated)
    else if s == "D" then Some(NonVat)
    else if s == "E" then Some(Reduced)
    else None
  }

  function AbsInt(x: int): nat {
    if x < 0 then -x else x
  }

  /** Quotient rounded to the nearest integer, ties away from zero. */
  function RoundHalfUp(num: int, den: nat): int
    requires den > 0
  {
    var q := Quo(num, den);
    if 2 * AbsInt(Rem(num, den)) >= den then q + (if num < 0 then -1 else 1) else q
  }

  /** The VAT contained in a VAT-inclusive line total. */
  function LineTax(total: int, rateBP: nat): int {
    if rateBP == 0 || total == 0 then 0 else RoundHalfUp(total * rateBP, 10000 + rateBP)
  }

  /* ------------------------------------------------------------- rounding itself */

  lemma QuoRem(num: int, den: nat)
    requires den > 0
    ensures num == Quo(num, den) * den + Rem(num, den) && AbsInt(Rem(num, den)) < den
    ensures num >= 0 ==> 0 <= Rem(num, den)
    ensures num < 0 ==> Rem(num, den) <= 0
  {
  }

  lemma RoundIsNearest(num: int, den: nat)
    requires den > 0
    ensures 2 * AbsInt(RoundHalfUp(num, den) * den - num) <= den
  {
    QuoRem(num, den);
    var q, r := Quo(num, den), Rem(num, den);
    assert (q + 1) * den - num == den - r && num - (q - 1) * den == den + r;
  }

  lemma RoundIsOdd(num: int, den: nat)
    requires den > 0
    ensures RoundHalfUp(-num, den) == -RoundHalfUp(num, den)
  {
    assert Quo(-num, den) == -Quo(num, den);
    assert Rem(-num, den) == -Rem(num, den);
  }

  lemma Distribute(a: int, b: int, d: int)
    ensures (a + b) * d == a * d + b * d && (a - b) * d == a * d - b * d
  {
  }

  /** a * d < b * d + d only if a <= b. */
  lemma Cancel(a: int, b: int, d: nat)
    requires a * d < b * d + d
    ensures a <= b
  {
    assert a >= b + 1 ==> a * d >= (b + 1) * d;
    Distribute(b, 1, d);
  }

  lemma DivUnique(x: int, d: nat, q: int)
    requires d > 0 && q * d <= x < q * d + d
    ensures x / d == q
  {
    Cancel(x / d, q, d);
    Cancel(q, x / d, d);
  }

  /** On non-negative numbers rounding is one division. */
  lemma RoundAsDivision(num: nat, den: nat)
    requires den > 0
    ensures RoundHalfUp(num, den) == (2 * num + den) / (2 * den)
  {
    QuoRem(num, den);
    var q, r := Quo(num, den), Rem(num, den);
    var e := RoundHalfUp(num, den);
    assert 2 * num + den == q * (2 * den) + (2 * r + den);
    assert (q + 1) * (2 * den) == q * (2 * den) + 2 * den;
    DivUnique(2 * num + den, 2 * den, e);
  }

  lemma DivMonotone(x: int, y: int, d: nat)
    requires d > 0 && x <= y
    ensures x / d <= y / d
  {
    Cancel(x / d, y / d, d);
  }

  lemma RoundIsMonotone(x: int, y: int, den: nat)
    requires den > 0 && x <= y
    ensures RoundHalfUp(x, den) <= RoundHalfUp(y, den)
  {
    if x >= 0 {
      NonNegativeMonotone(x, y, den);
    } else if y < 0 {
      RoundIsOdd(x, den);
      RoundIsOdd(y, den);
      NonNegativeMonotone(-y, -x, den);
    } else {
      RoundIsOdd(x, den);
      RoundKeepsSign(-x, den);
      RoundKeepsSign(y, den);
    }
  }

  lemma NonNegativeMonotone(x: nat, y: nat, den: nat)
    requires den > 0 && x <= y
    ensures RoundHalfUp(x, den) <= RoundHalfUp(y, den)
  {
    RoundAsDivision(x, den);
    RoundAsDivision(y, den);
    DivMonotone(2 * x + den, 2 * y + den, 2 * den);
  }

  lemma RoundKeepsSign(x: nat, den: nat)
    requires den > 0
    ensures RoundHalfUp(x, den) >= 0
  {
  }

  /* ------------------------------------------------------------------- line tax */

  /** The tax is a nearest integer to total * rate / (10000 + rate), for any rate. */
  lemma LineTaxIsNearest(t: int, r: nat)
    ensures 2 * AbsInt(LineTax(t, r) * (10000 + r) - t * r) <= 10000 + r
  {
    if r != 0 && t != 0 {
      RoundIsNearest(t * r, 10000 + r);
    }
  }

  /** For a KRA rate there is never a tie, so "nearest" leaves no choice: the tax is the only nearest integer. */
  lemma LineTaxIsTheNearest(t: int, c: TaxCategory, x: int)
    ensures 2 * AbsInt(LineTax(t, RateBP(c)) * (10000 + RateBP(c)) - t * RateBP(c)) != 10000 + RateBP(c)
    ensures x == LineTax(t, RateBP(c)) <==> 2 * AbsInt(x * (10000 + RateBP(c)) - t * RateBP(c)) <= 10000 + RateBP(c)
  {
    LineTaxIsNearest(t, RateBP(c));
    match c
    case Standard =>
      var e := 4 * t - 29 * LineTax(t, 1600);
      assert LineTax(t, 1600) * 11600 - t * 1600 == -400 * e && 2 * AbsInt(e) != 29;
      assert x * 11600 - t * 1600 == 400 * (29 * x - 4 * t);
    case Reduced =>
      var e := 2 * t - 27 * LineTax(t, 800);
      assert LineTax(t, 800) * 10800 - t * 800 == -400 * e && 2 * AbsInt(e) != 27;
      assert x * 10800 - t * 800 == 400 * (27 * x - 2 * t);
    case _ =>
      assert RateBP(c) == 0;
  }

  lemma LineTaxIsOdd(t: int, r: nat)
    ensures LineTax(-t, r) == -LineTax(t, r)
  {
    if r != 0 && t != 0 {
      RoundIsOdd(t * r, 10000 + r);
      assert (-t) * r == -(t * r);
    }
  }

  lemma RoundOfZero(den: nat)
    requires den > 0
    ensures RoundHalfUp(0, den) == 0
  {
  }

  lemma LineTaxIsMonotone(t1: int, t2: int, r: nat)
    requires t1 <= t2
    ensures LineTax(t1, r) <= LineTax(t2, r)
  {
    if r != 0 {
      assert t1 * r <= t2 * r;
      RoundIsMonotone(t1 * r, t2 * r, 10000 + r);
      RoundOfZero(10000 + r);
    }
  }

  /** The tax of a non-negative total lies between nothing and the whole; so tax and taxable value always fit. */
  lemma LineTaxInRange(t: int, r: nat)
    ensures t >= 0 ==> 0 <= LineTax(t, r) <= t
    ensures t <= 0 ==> t <= LineTax(t, r) <= 0
  {
    if t >= 0 {
      LineTaxUpTo(t, r);
    } else {
      LineTaxUpTo(-t, r);
      LineTaxIsOdd(-t, r);
    }
  }

  lemma LineTaxUpTo(t: nat, r: nat)
    ensures 0 <= LineTax(t, r) <= t
  {
    if r != 0 && t != 0 {
      var d := 10000 + r;
      LineTaxIsMonotone(0, t, r);
      LineTaxIsNearest(t, r);
      Distribute(10000, r, t);
      Cancel(LineTax(t, r), t, d);
    }
  }

  /* ------------------------------------------------------- per line versus per sum */

  function Total(ts: seq<int>): int {
    if ts == [] then 0 else Total(ts[..|ts| - 1]) + ts[|ts| - 1]
  }

  function TotalTax(ts: seq<int>, r: nat): int {
    if ts == [] then 0 else TotalTax(ts[..|ts| - 1], r) + LineTax(ts[|ts| - 1], r)
  }

  lemma CloseAdds(x: int, u: int, y: int, v: int, m: int, n: int)
    requires 2 * AbsInt(x - u) <= m && 2 * AbsInt(y - v) <= n
    ensures 2 * AbsInt((x + y) - (u + v)) <= m + n && 2 * AbsInt((x - y) - (u - v)) <= m + n
  {
  }

  lemma {:induction false} TotalTaxIsClose(ts: seq<int>, r: nat)
    ensures 2 * AbsInt(TotalTax(ts, r) * (10000 + r) - Total(ts) * r) <= |ts| * (10000 + r)
  {
    if ts != [] {
      var d, init, last := 10000 + r, ts[..|ts| - 1], ts[|ts| - 1];
      TotalTaxIsClose(init, r);
      LineTaxIsNearest(last, r);
      CloseAdds(TotalTax(init, r) * d, Total(init) * r, LineTax(last, r) * d, last * r, |init| * d, d);
      Distribute(TotalTax(init, r), LineTax(last, r), d);
      Distribute(Total(init), last, r);
      Distribute(|init|, 1, d);
    }
  }

  /** Rounding line by line differs from rounding once by at most half a cent per line and half a cent more. */
  lemma PerLineDrift(ts: seq<int>, r: nat)
    ensures 2 * AbsInt(TotalTax(ts, r) - LineTax(Total(ts), r)) <= |ts| + 1
  {
    var d, sum := 10000 + r, Total(ts) * r;
    var a, b := TotalTax(ts, r), LineTax(Total(ts), r);
    TotalTaxIsClose(ts, r);
    LineTaxIsNearest(Total(ts), r);
    CloseAdds(a * d, sum, b * d, sum, |ts| * d, d);
    Scale(a, b, |ts| + 1, d);
    Distribute(|ts|, 1, d);
  }

  lemma Scale(a: int, b: int, n: nat, d: nat)
    requires d > 0
    ensures 2 * AbsInt(a * d - b * d) <= n * d ==> 2 * AbsInt(a - b) <= n
  {
    var x := AbsInt(a - b);
    Distribute(a, b, d);
    assert AbsInt((a - b) * d) == x * d;
    assert 2 * (x * d) == (2 * x) * d;
    if 2 * x * d <= n * d {
      Cancel(2 * x, n, d);
    }
  }
}
