/**
  The form of printed amounts, and what ParseAmount makes of a decimal number
  (backend/internal/notify/templates.go, backend/internal/mpesa/types.go).
 */
module AmountLaws {
  import opened Prelude
  import opened Int64
  import opened Decimal
  import opened Amounts
  import Vat

  /* --------------------------------------------------------- where the commas are */

  /** How many characters of the grouped text follow the first `u` characters of a numeral of length `n`. */
  function Behind(n: nat, u: nat): nat
    requires 0 < u <= n
  {
    (n - u) + (n - u) / 3
  }

  /** One more digit, with the comma before it if there is one. */
  lemma BehindStep(n: nat, u: nat)
    requires 1 < u <= n
    ensures Behind(n, u - 1) == Behind(n, u) + 1 + |Separator(n, u - 1)|
    ensures Behind(n, u) % 4 != 3
    ensures Separator(n, u - 1) != "" ==> (Behind(n, u) + 1) % 4 == 3
  {
    var m := n - u;
    var q, r := m / 3, m % 3;
    assert m == 3 * q + r && Behind(n, u) == 4 * q + r;
    assert (m + 1) / 3 == if r == 2 then q + 1 else q;
    assert (m + 1) % 3 == 0 <==> r == 2;
  }

  lemma BehindFirst(n: nat)
    requires n > 0
    ensures Behind(n, 1) % 4 != 3
  {
    var m := n - 1;
    assert m == 3 * (m / 3) + m % 3 && Behind(n, 1) == 4 * (m / 3) + m % 3;
  }

  lemma {:induction false} CommasSoFar(s: string, u: nat)
    requires 0 < u <= |s| && ',' !in s
    ensures var g := Grouped(s, u);
      && g != "" && g[0] == s[0]
      && forall p :: 0 <= p < |g| ==> (g[p] == ',' <==> (Behind(|s|, u) + |g| - 1 - p) % 4 == 3)
  {
    if u == 1 {
      assert Grouped(s, 0) == "" && Separator(|s|, 0) == "";
      assert Grouped(s, 1) == [s[0]];
      BehindFirst(|s|);
    } else {
      CommasSoFar(s, u - 1);
      BehindStep(|s|, u);
      NextGroup(Grouped(s, u - 1), Separator(|s|, u - 1), s[u - 1], Behind(|s|, u));
    }
  }

  lemma NextGroup(before: string, sep: string, c: char, behind: nat)
    requires before != "" && c != ',' && (sep == "" || sep == ",") && behind % 4 != 3 && (sep != "" ==> (behind + 1) % 4 == 3)
    requires forall p :: 0 <= p < |before| ==> (before[p] == ',' <==> (behind + 1 + |sep| + |before| - 1 - p) % 4 == 3)
    ensures var g := before + sep + [c];
      g[0] == before[0] && forall p :: 0 <= p < |g| ==> (g[p] == ',' <==> (behind + |g| - 1 - p) % 4 == 3)
  {
    var g := before + sep + [c];
    forall p | 0 <= p < |g| ensures g[p] == ',' <==> (behind + |g| - 1 - p) % 4 == 3 {
      if p < |before| {
        assert g[p] == before[p] && behind + |g| - 1 - p == behind + 1 + |sep| + |before| - 1 - p;
      } else if p == |g| - 1 {
        assert g[p] == c;
      } else {
        assert g[p] == ',';
      }
    }
  }

  /** In a grouped numeral the character `k` places from the end is a comma exactly when k mod 4 is 3, and the text never starts with one. */
  lemma CommasEveryThree(s: string, k: nat)
    requires s != "" && ',' !in s && k < |Grouped(s, |s|)|
    ensures var g := Grouped(s, |s|); (g[|g| - 1 - k] == ',' <==> k % 4 == 3) && g[0] == s[0]
  {
    CommasSoFar(s, |s|);
  }

  /* -------------------------------------------------------- the fraction, and signs */

  /** A printed amount: a minus below zero, the grouped shillings, and two decimals exactly when there are cents. */
  lemma KESForm(c: int64)
    requires c != MIN
    ensures var m: int := if c < 0 then -c else c; var s := Digits(m / 100);
      KES(c) == (if c < 0 then "-" else "") + (Grouped(s, |s|) + (if m % 100 == 0 then "" else "." + TwoDigits(m % 100)))
  {
    var m: int := if c < 0 then -c else c;
    KESIsSignedBody(c);
    BodyForm(m / 100, m % 100);
    SignInFront(c < 0, KESBody(m / 100, m % 100));
  }

  lemma BodyForm(whole: nat, frac: nat)
    requires frac < 100
    ensures KESBody(whole, frac) == Grouped(Digits(whole), |Digits(whole)|) + (if frac == 0 then "" else "." + TwoDigits(frac))
  {
    PrintsTwoDigits(frac);
  }

  lemma SignInFront(neg: bool, body: string)
    ensures Signed(neg, body) == (if neg then "-" else "") + body
  {
    assert "" + body == body;
  }

  function TwoDigits(n: nat): string
    requires n < 100
  {
    [DigitChar(n / 10), DigitChar(n % 10)]
  }

  lemma PrintsTwoDigits(n: nat)
    requires n < 100
    ensures FormatInt02(n) == TwoDigits(n)
  {
    if n >= 10 { assert Digits(n / 10) == [DigitChar(n / 10)]; }
  }

  /** FormatCents always prints two decimals and no comma. */
  lemma CentsForm(c: int64)
    requires c >= 0
    ensures FormatCents(c) == Digits(c / 100) + "." + TwoDigits(c % 100)
  {
    TruncatesUpwards(c);
    PrintsTwoDigits(c % 100);
  }

  /* ------------------------------------------------------- what the parser computes */

  /** An amount written as digits, a dot and digits, anywhere with a sign in front. */
  function Written(sign: string, a: string, b: string): string {
    sign + (a + "." + b)
  }

  /** `r` is what v / p cents should read as: the exact number of cents, or why there is none. */
  predicate IsReading(r: Result<int64, AmountError>, v: nat, p: nat, neg: bool)
    requires p > 0
  {
    if v % p != 0 then r == Failure(SubCent)
    else
      var cents: int := if neg then 0 - v / p else v / p;
      if -TWO_63 <= cents < TWO_63 then r == Success(cents) else r == Failure(OutOfRange)
  }

  /**
    ParseAmount is exact: on a decimal number it gives the number of cents it
    stands for; with a fraction of a cent, or beyond 64 bits, it says so.
   */
  lemma ParseDecimal(text: string, sign: string, a: string, b: string)
    requires (sign == "" || sign == "-" || sign == "+") && AllDigits(a) && AllDigits(b) && |a| + |b| > 0
    requires text == Written(sign, a, b)
    ensures Pow10(|b|) > 0 && IsReading(ParseAmount(text), Mantissa(a, b) * 100, Pow10(|b|), sign == "-")
  {
    var m, scale := Mantissa(a, b), |b|;
    DecimalReads(text, sign, a, b, m);
    ReadingOf(text, m, scale, sign == "-");
  }

  /** The text holds nothing to strip and is the number m / 10^scale. */
  predicate ReadsAs(text: string, m: nat, scale: nat, neg: bool) {
    && TrimSpace(text) == text && WithoutCommas(text) == text && text != ""
    && ParseNumber(text) == Some(Number(if neg then 0 - m else m, scale))
  }

  /** The mantissa is the number that all the digits spell. */
  lemma MantissaSpellsDigits(a: string, b: string)
    requires AllDigits(a) && AllDigits(b)
    ensures AllDigits(a + b) && Mantissa(a, b) == Value(a + b)
  {
    ValueOfConcat(a, b);
  }

  /** The rest of ParseAmount, once the number is read. */
  lemma ReadingOf(text: string, m: nat, scale: nat, neg: bool)
    requires ReadsAs(text, m, scale, neg)
    ensures Pow10(scale) > 0 && IsReading(ParseAmount(text), m * 100, Pow10(scale), neg)
  {
    PowPositive(scale);
    if neg {
      assert (0 - m) * 100 == 0 - m * 100;
      NegativeMultiple(m * 100, Pow10(scale));
    }
  }

  lemma NegativeMultiple(x: nat, p: nat)
    requires p > 0
    ensures (0 - x) % p == 0 <==> x % p == 0
    ensures x % p == 0 ==> (0 - x) / p == 0 - x / p
  {
    var q, r := x / p, x % p;
    assert x == q * p + r;
    assert 0 - x == (0 - q) * p - r;
    if r == 0 { Exact(0 - x, p, 0 - q); } else { assert 0 - x == (0 - q - 1) * p + (p - r); Remainder(0 - x, p, 0 - q - 1, p - r); }
  }

  lemma Exact(x: int, p: nat, q: int)
    requires p > 0 && x == q * p
    ensures x / p == q && x % p == 0
  {
    Remainder(x, p, q, 0);
  }

  lemma Remainder(x: int, p: nat, q: int, r: nat)
    requires p > 0 && r < p && x == q * p + r
    ensures x / p == q && x % p == r
  {
    Vat.DivUnique(x, p, q);
  }

  /** The text reads as the number with that mantissa and scale. */
  lemma DecimalReads(text: string, sign: string, a: string, b: string, m: nat)
    requires (sign == "" || sign == "-" || sign == "+") && AllDigits(a) && AllDigits(b) && |a| + |b| > 0
    requires text == Written(sign, a, b) && m == Mantissa(a, b)
    ensures ReadsAs(text, m, |b|, sign == "-")
  {
    WrittenIsPlain(sign, a, b);
    BodyReads(a, b, m);
    SignReads(sign, a + "." + b, Number(m, |b|));
  }

  lemma WrittenIsPlain(sign: string, a: string, b: string)
    requires (sign == "" || sign == "-" || sign == "+") && AllDigits(a) && AllDigits(b)
    ensures var text := Written(sign, a, b); TrimSpace(text) == text && WithoutCommas(text) == text && text != ""
  {
    var text := Written(sign, a, b);
    assert forall i :: 0 <= i < |text| ==> !IsSpace(text[i]) && text[i] != ',';
    NothingToTrim(text);
    CommasOfNone(text);
  }

  lemma BodyReads(a: string, b: string, m: nat)
    requires AllDigits(a) && AllDigits(b) && |a| + |b| > 0 && m == Mantissa(a, b)
    ensures ParseUnsigned(a + "." + b) == Some(Number(m, |b|))
  {
    DigitsArePlain(a);
    DotSplits(a, b);
  }

  lemma SignReads(sign: string, body: string, n: Number)
    requires (sign == "" || sign == "-" || sign == "+") && body != "" && body[0] != '-' && body[0] != '+'
    requires ParseUnsigned(body) == Some(n)
    ensures ParseNumber(sign + body) == Some(if sign == "-" then Number(0 - n.mantissa, n.scale) else n)
  {
    if sign == "" { assert sign + body == body; } else { assert (sign + body)[1..] == body; }
  }

  lemma NothingToTrim(s: string)
    requires forall i :: 0 <= i < |s| ==> !IsSpace(s[i])
    ensures TrimSpace(s) == s
  {
  }

  /** Blanks around an amount do not matter. */
  lemma {:induction false} LeadingBlank(s: string, c: char)
    requires IsSpace(c)
    ensures TrimSpace([c] + s) == TrimSpace(s)
  {
    assert ([c] + s)[1..] == s;
  }

  lemma {:induction false} TrailingBlank(s: string, c: char)
    requires IsSpace(c)
    ensures TrimSpace(s + [c]) == TrimSpace(s)
  {
    if s == "" {
      assert s + [c] == [c] && [c][1..] == "";
    } else if IsSpace(s[0]) {
      assert (s + [c])[1..] == s[1..] + [c];
      TrailingBlank(s[1..], c);
    } else {
      assert (s + [c])[..|s|] == s;
    }
  }

  lemma BlanksDoNotMatter(s: string, c: char)
    requires c in " \t\n\r\U{0B}\U{0C}\U{85}\U{A0}"
    ensures ParseAmount([c] + s) == ParseAmount(s) && ParseAmount(s + [c]) == ParseAmount(s)
  {
    LeadingBlank(s, c);
    TrailingBlank(s, c);
  }

  /** Without a digit there is no amount. */
  lemma EmptyIsMissing()
    ensures ParseAmount("") == Failure(Missing)
  {
  }
}
