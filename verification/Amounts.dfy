/**
  Printing and parsing money: FormatKES (backend/internal/notify/templates.go),
  FormatCents and ParseAmount (backend/internal/mpesa/types.go), on 64-bit
  cents. The parser is modelled on plain decimal numbers with an optional sign.
 */
module Amounts {
  import opened Prelude
  import opened Int64
  import opened Decimal

  /* ------------------------------------------------------------------ printing */

  /** %d */
  function FormatInt(n: int): string {
    if n < 0 then "-" + Digits(-n) else Digits(n)
  }

  /** %02d: the sign counts towards the width. */
  function FormatInt02(n: int): string {
    if 0 <= n < 10 then "0" + Digits(n) else FormatInt(n)
  }

  /** FormatCents, for Daraja request bodies. */
  function FormatCents(cents: int64): string {
    FormatInt(Quo(cents, 100)) + "." + FormatInt02(Rem(cents, 100))
  }

  function Separator(length: nat, i: nat): string {
    if i > 0 && (length - i) % 3 == 0 then "," else ""
  }

  /** Thousands separators: a comma before every position whose distance from the end is a multiple of three. */
  function Grouped(s: string, upTo: nat): string
    requires upTo <= |s|
  {
    if upTo == 0 then ""
    else Grouped(s, upTo - 1) + Separator(|s|, upTo - 1) + [s[upTo - 1]]
  }

  /** What FormatKES prints for the absolute amount. */
  function KESBody(whole: int, frac: int): string {
    var s := FormatInt(whole);
    Grouped(s, |s|) + (if frac != 0 then "." + FormatInt02(frac) else "")
  }

  function Signed(neg: bool, body: string): string {
    if neg then "-" + body else body
  }

  /** FormatKES as a function of the amount. */
  function KES(cents: int64): string {
    Signed(cents < 0, KESBody(Quo(Magnitude(cents), 100), Rem(Magnitude(cents), 100)))
  }

  function Magnitude(cents: int64): int64 {
    if cents < 0 then Neg(cents) else cents
  }

  /** FormatKES, with its loop that inserts the separators. */
  method FormatKES(cents: int64) returns (out: string)
    ensures out == KES(cents)
  {
    var neg := cents < 0;
    var c := if neg then Neg(cents) else cents;
    var whole, frac := Quo(c, 100), Rem(c, 100);
    out := Group(FormatInt(whole));
    if frac != 0 {
      out := out + ("." + FormatInt02(frac));
    }
    if neg {
      out := "-" + out;
    }
  }

  method Group(s: string) returns (b: string)
    ensures b == Grouped(s, |s|)
  {
    b := "";
    for i := 0 to |s|
      invariant b == Grouped(s, i)
    {
      if i > 0 && (|s| - i) % 3 == 0 {
        b := b + ",";
      }
      b := b + [s[i]];
    }
  }

  /* ------------------------------------------------------------------- parsing */

  predicate IsSpace(c: char) {
    c == ' ' || c == '\t' || c == '\n' || c == '\r' || c == '\U{0B}' || c == '\U{0C}' || c == '\U{85}' || c == '\U{A0}'
  }

  function TrimLeft(s: string): string {
    if s != "" && IsSpace(s[0]) then TrimLeft(s[1..]) else s
  }

  function TrimSpace(s: string): string {
    var t := TrimLeft(s);
    TrimRight(t)
  }

  function TrimRight(s: string): string {
    if s != "" && IsSpace(s[|s| - 1]) then TrimRight(s[..|s| - 1]) else s
  }

  function WithoutCommas(s: string): string {
    if s == "" then ""
    else WithoutCommas(s[..|s| - 1]) + (if s[|s| - 1] == ',' then "" else [s[|s| - 1]])
  }

  /** Everything before the first dot, and everything after it. */
  function BeforeDot(s: string): string {
    if s == "" || s[0] == '.' then "" else [s[0]] + BeforeDot(s[1..])
  }

  function AfterDot(s: string): string {
    if s == "" then "" else if s[0] == '.' then s[1..] else AfterDot(s[1..])
  }

  /** mantissa / 10^scale */
  datatype Number = Number(mantissa: int, scale: nat)

  /** The digits before and after the dot as one number. */
  function Mantissa(a: string, b: string): nat
    requires AllDigits(a) && AllDigits(b)
  {
    Value(a) * Pow10(|b|) + Value(b)
  }

  function ParseUnsigned(s: string): Option<Number> {
    var a, b := BeforeDot(s), AfterDot(s);
    if AllDigits(a) && AllDigits(b) && |a| + |b| > 0
    then Some(Number(Mantissa(a, b), |b|))
    else None
  }

  function ParseNumber(s: string): Option<Number> {
    if s != "" && s[0] == '-' then
      var n := ParseUnsigned(s[1..]);
      if n.Some? then Some(Number(-n.value.mantissa, n.value.scale)) else None
    else if s != "" && s[0] == '+' then ParseUnsigned(s[1..])
    else ParseUnsigned(s)
  }

  datatype AmountError = Missing | NotANumber | SubCent | OutOfRange

  /** ParseAmount: an exact number of cents that fits 64 bits, or the reason why not. */
  function ParseAmount(text: string): Result<int64, AmountError> {
    var s := WithoutCommas(TrimSpace(text));
    if s == "" then Failure(Missing)
    else
      var n := ParseNumber(s);
      if n.None? then Failure(NotANumber)
      else
        PowPositive(n.value.scale);
        if (n.value.mantissa * 100) % Pow10(n.value.scale) != 0 then Failure(SubCent)
        else
          var v := (n.value.mantissa * 100) / Pow10(n.value.scale);
          if -TWO_63 <= v < TWO_63 then Success(v) else Failure(OutOfRange)
  }

  lemma {:induction n} PowPositive(n: nat)
    ensures Pow10(n) > 0
  {
  }

  /* ------------------------------------------------------------ the round trip */

  /** The characters the printers produce. */
  predicate PlainChar(c: char) {
    IsDigit(c) || c == '-' || c == '.' || c == ','
  }

  predicate Plain(s: string) {
    forall i :: 0 <= i < |s| ==> PlainChar(s[i])
  }

  lemma PlainConcat(a: string, b: string)
    requires Plain(a) && Plain(b)
    ensures Plain(a + b)
  {
  }

  lemma TrimOfPlain(s: string)
    requires Plain(s)
    ensures TrimSpace(s) == s
  {
  }

  lemma {:induction false} CommasOfConcat(a: string, b: string)
    ensures WithoutCommas(a + b) == WithoutCommas(a) + WithoutCommas(b)
  {
    if b == "" {
      assert a + b == a;
    } else {
      assert (a + b)[..|a + b| - 1] == a + b[..|b| - 1];
      CommasOfConcat(a, b[..|b| - 1]);
    }
  }

  lemma {:induction false} CommasOfNone(s: string)
    requires ',' !in s
    ensures WithoutCommas(s) == s
  {
    if s != "" {
      CommasOfNone(s[..|s| - 1]);
      assert s == s[..|s| - 1] + [s[|s| - 1]];
    }
  }

  lemma CommasOfChar(c: char)
    ensures WithoutCommas([c]) == if c == ',' then "" else [c]
  {
    assert [c][..0] == "";
  }

  lemma SeparatorStrips(before: string, length: nat, i: nat, c: char)
    requires c != ','
    ensures WithoutCommas(before + Separator(length, i) + [c]) == WithoutCommas(before) + [c]
  {
    var sep := Separator(length, i);
    CommasOfChar(',');
    assert WithoutCommas(sep) == "";
    CommasOfChar(c);
    CommasOfConcat(before, sep);
    CommasOfConcat(before + sep, [c]);
  }

  lemma PrefixSnoc(s: string, n: nat)
    requires n < |s|
    ensures s[..n + 1] == s[..n] + [s[n]]
  {
  }

  /** Grouping adds commas and nothing else. */
  lemma {:induction false} GroupingIsInvisible(s: string, upTo: nat)
    requires upTo <= |s| && ',' !in s
    ensures WithoutCommas(Grouped(s, upTo)) == s[..upTo]
  {
    if upTo > 0 {
      GroupingIsInvisible(s, upTo - 1);
      SeparatorStrips(Grouped(s, upTo - 1), |s|, upTo - 1, s[upTo - 1]);
      PrefixSnoc(s, upTo - 1);
    }
  }

  lemma {:induction false} GroupedIsPlain(s: string, upTo: nat)
    requires upTo <= |s| && Plain(s)
    ensures Plain(Grouped(s, upTo))
  {
    if upTo > 0 {
      var i := upTo - 1;
      GroupedIsPlain(s, i);
      var comma := Separator(|s|, i);
      PlainConcat(Grouped(s, i), comma);
      PlainConcat(Grouped(s, i) + comma, [s[i]]);
    }
  }

  lemma {:induction false} DotSplits(a: string, b: string)
    requires '.' !in a
    ensures BeforeDot(a + "." + b) == a && AfterDot(a + "." + b) == b
  {
    if a != "" {
      assert (a + "." + b)[1..] == a[1..] + "." + b;
      DotSplits(a[1..], b);
    } else {
      assert a + "." + b == "." + b;
    }
  }

  lemma {:induction false} NoDotNoSplit(a: string)
    requires '.' !in a
    ensures BeforeDot(a) == a && AfterDot(a) == ""
  {
    if a != "" {
      NoDotNoSplit(a[1..]);
    }
  }

  lemma DigitsArePlain(s: string)
    requires AllDigits(s)
    ensures '.' !in s && ',' !in s && '-' !in s
  {
  }

  /** A numeral with two decimals reads back as that many cents. */
  lemma UnsignedReadsBack(whole: nat, frac: nat)
    requires frac < 100
    ensures var s := Digits(whole) + "." + FormatInt02(frac);
      ParseUnsigned(s) == Some(Number(100 * whole + frac, 2))
  {
    var a, b := Digits(whole), FormatInt02(frac);
    assert AllDigits(b) && |b| == 2 && Value(b) == frac by {
      if frac < 10 {
        ValueOfConcat("0", Digits(frac));
        ValueOfDigits(frac);
        assert "0"[..0] == "";
      } else {
        ValueOfDigits(frac);
        assert |Digits(frac)| == |Digits(frac / 10)| + 1;
      }
    }
    DigitsArePlain(a);
    DotSplits(a, b);
    ValueOfDigits(whole);
    assert Pow10(2) == 100;
  }

  lemma WholeReadsBack(whole: nat)
    ensures ParseUnsigned(Digits(whole)) == Some(Number(whole, 0))
  {
    DigitsArePlain(Digits(whole));
    NoDotNoSplit(Digits(whole));
    ValueOfDigits(whole);
  }

  /** The text FormatKES prints, with the separators removed. */
  function KESDigits(whole: nat, frac: nat): string
    requires frac < 100
  {
    Digits(whole) + (if frac != 0 then "." + FormatInt02(frac) else "")
  }

  lemma KESPartsReadBack(whole: nat, frac: nat)
    requires frac < 100
    ensures var s := KESDigits(whole, frac);
      && s != "" && IsDigit(s[0])
      && ParseUnsigned(s) == Some(if frac == 0 then Number(whole, 0) else Number(100 * whole + frac, 2))
  {
    if frac == 0 {
      WholeReadsBack(whole);
      assert KESDigits(whole, 0) == Digits(whole);
    } else {
      UnsignedReadsBack(whole, frac);
      assert KESDigits(whole, frac) == Digits(whole) + "." + FormatInt02(frac);
    }
    assert KESDigits(whole, frac)[0] == Digits(whole)[0];
  }

  lemma FormatIntIsPlain(n: int)
    ensures Plain(FormatInt(n)) && ',' !in FormatInt(n)
  {
    DigitsArePlain(Digits(if n < 0 then -n else n));
  }

  lemma FormatInt02IsPlain(n: int)
    ensures Plain(FormatInt02(n)) && ',' !in FormatInt02(n)
  {
    DigitsArePlain(Digits(if n < 0 then -n else n));
  }

  /** A numeral, and the same numeral behind a minus. */
  lemma SignedParse(s: string, n: Number)
    requires s != "" && IsDigit(s[0]) && ParseUnsigned(s) == Some(n)
    ensures ParseNumber(s) == Some(n)
    ensures ParseNumber("-" + s) == Some(Number(-n.mantissa, n.scale))
  {
    assert ("-" + s)[1..] == s;
  }

  /** Stripping the separators undoes the grouping; the text holds nothing to trim. */
  lemma KESBodyStrips(whole: int, frac: int)
    requires -100 < frac < 100
    ensures var body := KESBody(whole, frac);
      && Plain(body)
      && WithoutCommas(body) == FormatInt(whole) + (if frac != 0 then "." + FormatInt02(frac) else "")
  {
    var s := FormatInt(whole);
    var tail := if frac != 0 then "." + FormatInt02(frac) else "";
    FormatIntIsPlain(whole);
    FormatIntIsPlain(frac);
    FormatInt02IsPlain(frac);
    PlainConcat(".", FormatInt02(frac));
    GroupingIsInvisible(s, |s|);
    GroupedIsPlain(s, |s|);
    assert s[..|s|] == s;
    CommasOfNone(tail);
    CommasOfConcat(Grouped(s, |s|), tail);
    PlainConcat(Grouped(s, |s|), tail);
  }

  lemma SignStrips(body: string)
    requires Plain(body)
    ensures Plain("-" + body) && WithoutCommas("-" + body) == "-" + WithoutCommas(body)
    ensures ("-" + WithoutCommas(body))[1..] == WithoutCommas(body)
  {
    PlainConcat("-", body);
    CommasOfChar('-');
    CommasOfConcat("-", body);
  }

  lemma PowersUsed()
    ensures Pow10(0) == 1 && Pow10(2) == 100
  {
    assert Pow10(1) == 10;
  }

  /** ParseAmount on a text that is already trimmed. */
  lemma ParsePlain(text: string, n: Number)
    requires Plain(text) && WithoutCommas(text) != "" && ParseNumber(WithoutCommas(text)) == Some(n)
    requires n.scale == 0 || n.scale == 2
    ensures var v := if n.scale == 0 then n.mantissa * 100 else n.mantissa;
      -TWO_63 <= v < TWO_63 ==> ParseAmount(text) == Success(v)
  {
    TrimOfPlain(text);
    PowersUsed();
  }

  lemma KESRoundTrips(c: int64)
    requires c != MIN
    ensures ParseAmount(KES(c)) == Success(c)
  {
    var m: int := if c < 0 then -c else c;
    var whole, frac := m / 100, m % 100;
    KESIsSignedBody(c);
    KESBodyPrints(whole, frac);
    TextReadsBack(KESBody(whole, frac), if frac == 0 then Number(whole, 0) else Number(100 * whole + frac, 2), c < 0, c);
  }

  lemma KESIsSignedBody(c: int64)
    requires c != MIN
    ensures var m: int := if c < 0 then -c else c;
      KES(c) == Signed(c < 0, KESBody(m / 100, m % 100))
  {
    PartsOf(c);
  }

  lemma PartsOf(c: int64)
    requires c != MIN
    ensures var m: int := if c < 0 then -c else c;
      Quo(Magnitude(c), 100) == m / 100 && Rem(Magnitude(c), 100) == m % 100
  {
    if c < 0 { WrapInRange(-(c as int)); }
    TruncatesUpwards(if c < 0 then -(c as int) else c);
  }

  lemma TruncatesUpwards(m: nat)
    ensures Quo(m, 100) == m / 100 && Rem(m, 100) == m % 100
  {
  }

  /** The cents a number stands for. */
  function Cents(n: Number): int {
    if n.scale == 0 then n.mantissa * 100 else n.mantissa
  }

  /** `body` is the number `n`, printed with or without separators. */
  predicate Prints(body: string, n: Number) {
    && Plain(body) && WithoutCommas(body) != "" && IsDigit(WithoutCommas(body)[0])
    && ParseUnsigned(WithoutCommas(body)) == Some(n) && (n.scale == 0 || n.scale == 2)
  }

  lemma KESBodyPrints(whole: nat, frac: nat)
    requires frac < 100
    ensures Prints(KESBody(whole, frac), if frac == 0 then Number(whole, 0) else Number(100 * whole + frac, 2))
  {
    KESBodyStrips(whole, frac);
    assert WithoutCommas(KESBody(whole, frac)) == KESDigits(whole, frac);
    KESPartsReadBack(whole, frac);
  }

  /** What a printed text with an optional sign reads back as. */
  lemma TextReadsBack(body: string, n: Number, neg: bool, v: int64)
    requires Prints(body, n) && v == if neg then 0 - Cents(n) else Cents(n)
    ensures ParseAmount(Signed(neg, body)) == Success(v)
  {
    SignedParse(WithoutCommas(body), n);
    SignStrips(body);
    if neg {
      ParsePlain("-" + body, Number(-n.mantissa, n.scale));
    } else {
      ParsePlain(body, n);
    }
  }

  /** A number that negation leaves negative prints with two signs, which no number starts with. */
  lemma NegativeTwiceIsNoNumber(c: int64)
    requires c <= -100 && Neg(c) == c
    ensures ParseAmount(KES(c)) == Failure(NotANumber)
  {
    TwoSigns(Quo(c, 100), Rem(c, 100));
  }

  lemma TwoSigns(whole: int, frac: int)
    requires whole < 0 && -100 < frac < 100
    ensures ParseAmount(Signed(true, KESBody(whole, frac))) == Failure(NotANumber)
  {
    var body := KESBody(whole, frac);
    KESBodyStrips(whole, frac);
    SignStrips(body);
    TrimOfPlain("-" + body);
    assert WithoutCommas(body)[0] == '-';
    SecondSignIsNoNumber(WithoutCommas(body));
  }

  lemma SecondSignIsNoNumber(s: string)
    requires s != "" && s[0] == '-'
    ensures ParseUnsigned(s) == None
  {
    assert BeforeDot(s) == [s[0]] + BeforeDot(s[1..]);
    assert BeforeDot(s)[0] == '-';
  }

  /** Every printed amount reads back, except the one number whose negation wraps. */
  lemma KESRoundTrip(c: int64)
    ensures ParseAmount(KES(c)) == Success(c) <==> c != MIN
  {
    if c == MIN {
      NegativeTwiceIsNoNumber(c);
    } else {
      KESRoundTrips(c);
    }
  }

  lemma CentsRoundTrips(c: int64)
    requires c >= 0 || Rem(c, 100) == 0
    ensures ParseAmount(FormatCents(c)) == Success(c)
  {
    var m: int := if c < 0 then -c else c;
    CentsAreSigned(c);
    CentsPrint(m / 100, m % 100);
    TextReadsBack(Digits(m / 100) + "." + FormatInt02(m % 100), Number(m, 2), c < 0, c);
  }

  lemma CentsPrint(whole: nat, frac: nat)
    requires frac < 100
    ensures Prints(Digits(whole) + "." + FormatInt02(frac), Number(100 * whole + frac, 2))
  {
    var s := Digits(whole) + "." + FormatInt02(frac);
    DigitsArePlain(Digits(whole));
    FormatInt02IsPlain(frac);
    CommasOfNone(s);
    UnsignedReadsBack(whole, frac);
    assert s[0] == Digits(whole)[0];
  }

  lemma CentsAreSigned(c: int64)
    requires c >= 0 || Rem(c, 100) == 0
    ensures var m: int := if c < 0 then -c else c;
      var s := Digits(m / 100) + "." + FormatInt02(m % 100);
      FormatCents(c) == Signed(c < 0, s)
  {
    var m: int := if c < 0 then -c else c;
    TruncatesUpwards(m);
    assert Rem(c, 100) == m % 100 && Quo(c, 100) == (if c < 0 then -(m / 100) else m / 100);
    var d, f := Digits(m / 100), FormatInt02(m % 100);
    assert "-" + d + "." + f == "-" + (d + "." + f);
  }

  lemma FractionWithSign(d: string, r: int)
    requires AllDigits(d) && r < 0
    ensures ParseUnsigned(d + "." + FormatInt02(r)) == None
  {
    DigitsArePlain(d);
    DotSplits(d, FormatInt02(r));
    assert FormatInt02(r)[0] == '-';
  }

  lemma NoNumberEitherWay(body: string, neg: bool)
    requires Plain(body) && ',' !in body && body != "" && IsDigit(body[0]) && ParseUnsigned(body) == None
    ensures ParseAmount(Signed(neg, body)) == Failure(NotANumber)
  {
    CommasOfNone(body);
    SignStrips(body);
    TrimOfPlain(Signed(neg, body));
    assert ParseNumber(body) == None && ParseNumber("-" + body) == None by {
      assert ("-" + body)[1..] == body;
    }
  }

  lemma NegativeCentsDoNotRead(c: int64)
    requires c < 0 && Rem(c, 100) != 0
    ensures ParseAmount(FormatCents(c)) == Failure(NotANumber)
  {
    var q, r := Quo(c, 100), Rem(c, 100);
    var d, f := Digits(if q < 0 then -q else q), FormatInt02(r);
    FractionWithSign(d, r);
    DigitsArePlain(d);
    FormatInt02IsPlain(r);
    assert "-" + d + "." + f == "-" + (d + "." + f);
    assert (d + "." + f)[0] == d[0];
    NoNumberEitherWay(d + "." + f, q < 0);
  }

  /** FormatCents is only meant for non-negative amounts: with a negative fraction its text is no number. */
  lemma CentsRoundTrip(c: int64)
    ensures ParseAmount(FormatCents(c)) == Success(c) <==> c >= 0 || Rem(c, 100) == 0
  {
    if c >= 0 || Rem(c, 100) == 0 {
      CentsRoundTrips(c);
    } else {
      NegativeCentsDoNotRead(c);
    }
  }
}
