/**
  What the builders of sale lines and wire lines do to the fields they are
  given, in terms of what was entered, of the catalogue and of the rates written
  out (backend/internal/ledger/handler.go, backend/internal/fiscal/oscu/oscu.go,
  backend/internal/fiscal/taxcodes.go).
 */
module DocumentLaws {
  import opened Prelude
  import opened Int64
  import opened Decimal
  import opened Vat
  import opened Documents

  /* ---------------------------------------------------------- where a line comes from */

  /** What was entered, or the catalogue's when nothing was and an item is named. */
  function Entered(text: string, item: Option<ItemId>, items: map<ItemId, Item>, pick: Item -> string): string {
    if text != "" || item.None? || item.value !in items then text else pick(items[item.value])
  }

  function Description(input: LineInput, items: map<ItemId, Item>): string {
    Entered(input.description, input.item, items, (it: Item) => it.name)
  }

  function ClassCode(input: LineInput, items: map<ItemId, Item>): string {
    Entered(input.classCode, input.item, items, (it: Item) => it.classCode)
  }

  function Category(input: LineInput, items: map<ItemId, Item>): string {
    Entered(input.category, input.item, items, (it: Item) => it.category)
  }

  function Price(input: LineInput, items: map<ItemId, Item>): int64 {
    if input.unitPrice != 0 || input.item.None? || input.item.value !in items then input.unitPrice else items[input.item.value].price
  }

  /** `s` is the number `v`, written in digits with an optional sign. */
  predicate IsWritten(s: string, v: int) {
    || (s != "" && AllDigits(s) && v == Value(s))
    || (|s| > 1 && s[0] == '+' && AllDigits(s[1..]) && v == Value(s[1..]))
    || (|s| > 1 && s[0] == '-' && AllDigits(s[1..]) && v == 0 - Value(s[1..]))
  }

  lemma ParseIntReads(s: string, v: int)
    ensures IsWritten(s, v) && -TWO_63 <= v < TWO_63 <==> ParseInt(s) == Some(v)
  {
    if s != "" { assert IsDigit(s[0]) ==> s[0] != '-' && s[0] != '+'; }
    assert |s| > 1 ==> s[1..] != "";
  }

  /** Every 64-bit quantity is read back from its numeral. */
  lemma ParseIntRoundTrip(n: nat)
    requires n < TWO_63
    ensures ParseInt(Digits(n)) == Some(n)
  {
    ValueOfDigits(n);
    ParseIntReads(Digits(n), n);
  }

  predicate IsCategoryLetter(s: string) {
    s == "A" || s == "B" || s == "C" || s == "D" || s == "E"
  }

  /** A built line, field by field: what was entered or the catalogue's, the number written or 1, the price times it, the tax of its category. */
  lemma BuiltLineSays(input: LineInput, items: map<ItemId, Item>)
    requires BuildLine(input, items).Success?
    ensures var l := BuildLine(input, items).value;
      && l.itemCode == ClassCode(input, items) != "" && l.description == Description(input, items) != ""
      && l.category == Category(input, items) && IsCategoryLetter(l.category)
      && l.unitPrice == Price(input, items) > 0 && l.qty > 0
      && (input.qty == "" ==> l.qty == 1) && (input.qty != "" ==> IsWritten(input.qty, l.qty))
      && l.total == Wrap(l.qty * l.unitPrice)
  {
    ParseIntReads(input.qty, BuildLine(input, items).value.qty);
    OneIsWritten();
  }

  lemma OneIsWritten()
    ensures ParseInt("1") == Some(1)
  {
    ParseIntRoundTrip(1);
    assert Digits(1) == "1";
  }

  /** Exactly why a line is refused: the first requirement it fails, in the order of the checks. */
  lemma RefusedBecause(input: LineInput, items: map<ItemId, Item>)
    ensures var known := input.item.Some? ==> input.item.value in items;
      var named := known && Description(input, items) != "";
      var coded := named && ClassCode(input, items) != "";
      var taxed := coded && IsCategoryLetter(Category(input, items));
      var counted := taxed && (input.qty == "" || exists q :: 0 < q < TWO_63 && IsWritten(input.qty, q));
      && (BuildLine(input, items) == Failure(UnknownItem) <==> !known)
      && (BuildLine(input, items) == Failure(DescriptionRequired) <==> known && !named)
      && (BuildLine(input, items) == Failure(ClassCodeRequired) <==> named && !coded)
      && (BuildLine(input, items) == Failure(BadCategory) <==> coded && !taxed)
      && (BuildLine(input, items) == Failure(BadQty) <==> taxed && !counted)
      && (BuildLine(input, items) == Failure(BadPrice) <==> counted && Price(input, items) <= 0)
      && (BuildLine(input, items).Success? <==> counted && Price(input, items) > 0)
  {
    OneIsWritten();
    QuantityIsCounted(input.qty);
  }

  lemma QuantityIsCounted(qty: string)
    ensures (exists q :: 0 < q < TWO_63 && IsWritten(qty, q)) <==> ParseInt(qty).Some? && ParseInt(qty).value > 0
  {
    if ParseInt(qty).Some? { ParseIntReads(qty, ParseInt(qty).value); }
    if q :| 0 < q < TWO_63 && IsWritten(qty, q) { ParseIntReads(qty, q); }
  }

  /* ------------------------------------------------------------- rates written out */

  /** Categories B and E contain 16/116 and 8/108 of a total as tax, to the nearest cent, which is never a tie; A, C and D contain none. */
  lemma TaxByLetter(letter: string, t: int, x: int)
    ensures ParseTaxCategory(letter).Some? <==> IsCategoryLetter(letter)
    ensures IsCategoryLetter(letter) ==>
      var tax := LineTax(t, RateBP(ParseTaxCategory(letter).value));
      && (letter == "B" ==> (x == tax <==> 2 * AbsInt(116 * x - 16 * t) <= 116))
      && (letter == "E" ==> (x == tax <==> 2 * AbsInt(108 * x - 8 * t) <= 108))
      && (letter == "A" || letter == "C" || letter == "D" ==> tax == 0)
  {
    if letter == "B" {
      LineTaxIsTheNearest(t, Standard, x);
      assert x * 11600 - t * 1600 == 100 * (116 * x - 16 * t);
    } else if letter == "E" {
      LineTaxIsTheNearest(t, Reduced, x);
      assert x * 10800 - t * 800 == 100 * (108 * x - 8 * t);
    }
  }

  /** At any other rate a tie goes away from zero. */
  lemma TiesGoAwayFromZero(num: int, den: nat)
    requires den > 0 && 2 * AbsInt(RoundHalfUp(num, den) * den - num) == den
    ensures AbsInt(RoundHalfUp(num, den) * den) > AbsInt(num)
  {
    QuoRem(num, den);
    var q, r := Quo(num, den), Rem(num, den);
    var x := q * den;
    assert num == x + r;
    Distribute(q, 1, den);
    assert RoundHalfUp(num, den) * den == if 2 * AbsInt(r) >= den then (if num < 0 then x - den else x + den) else x;
  }

  /* ---------------------------------------------------------------------- the wire */

  /** The wire line of a sale line the code built and the adapter accepts: code, name, category, and the amounts from total and tax. */
  lemma SaleWireSays(l: Line, n: nat)
    requires WellBuilt(l) && LineAccepted(l)
    ensures var w := SaleWire(l, n);
      && w.itemSeq == n && w.itemCd == l.itemCode && w.itemNm == l.description && w.taxTyCd == l.category
      && w.qty == l.qty && w.prc == l.unitPrice
      && w.totAmt == l.total && w.taxAmt == l.tax && w.taxblAmt == l.total - l.tax && w.splyAmt == l.total - l.tax
  {
    AcceptedIsTaxed(l);
    TaxedNet(l);
  }

  /** The wire line of a credit note: the same line with its four amounts below zero. */
  lemma CreditWireSays(l: Line, n: nat)
    requires WellBuilt(l) && LineAccepted(l)
    ensures var w := CreditWire(l, n);
      && w.itemSeq == n && w.itemCd == l.itemCode && w.itemNm == l.description && w.taxTyCd == l.category
      && w.totAmt == 0 - l.total && w.taxAmt == 0 - l.tax && w.taxblAmt == l.tax - l.total && w.splyAmt == l.tax - l.total
  {
    SaleWireSays(l, n);
    CreditLineMirrorsSale(l, n);
  }

  /* -------------------------------------------------------------------- small forms */

  /** A KRA PIN: A or P, nine digits, a capital letter. */
  lemma PinForm(first: char, digits: string, last: char)
    requires |digits| == 9
    ensures IsPin([first] + digits + [last]) <==> (first == 'A' || first == 'P') && AllDigits(digits) && 'A' <= last <= 'Z'
  {
    var s := [first] + digits + [last];
    assert s[1..10] == digits && s[0] == first && s[10] == last;
  }

  lemma PinLength(s: string)
    requires IsPin(s)
    ensures |s| == 11 && s == [s[0]] + s[1..10] + [s[10]]
  {
  }

  predicate NotUpTo(lines: seq<Line>, c: string, a: nat)
    requires a < |lines|
  {
    forall b :: 0 <= b <= a ==> lines[b].category != c
  }

  /** Some line of category `c` comes before every line of category `d`. */
  predicate AppearsBefore(lines: seq<Line>, c: string, d: string) {
    exists a :: 0 <= a < |lines| && lines[a].category == c && NotUpTo(lines, d, a)
  }

  /** The VAT table lists the categories in the order in which they first appear. */
  lemma {:induction false} CategoriesInOrder(lines: seq<Line>, i: nat, j: nat)
    requires i < j < |Categories(lines)|
    ensures AppearsBefore(lines, Categories(lines)[i], Categories(lines)[j])
  {
    var init, c := lines[..|lines| - 1], lines[|lines| - 1].category;
    var before := Categories(init);
    CategoriesOnceEach(init);
    if j < |before| {
      CategoriesInOrder(init, i, j);
      var a :| 0 <= a < |init| && init[a].category == before[i] && NotUpTo(init, before[j], a);
      assert lines[a] == init[a] && NotUpTo(lines, before[j], a);
    } else {
      assert before[i] in before;
      var a :| 0 <= a < |init| && init[a].category == before[i];
      assert lines[a] == init[a];
      forall b | 0 <= b <= a ensures lines[b].category != c { assert init[b] == lines[b] && init[b].category in before; }
      assert NotUpTo(lines, c, a);
    }
  }
}
