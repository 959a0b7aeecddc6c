/**
  Documents add up: from the lines a merchant enters
  (backend/internal/ledger/handler.go, createSaleFromLines and createSale),
  through the adapter's checks and wire form
  (backend/internal/fiscal/oscu/oscu.go), to the VAT table on the public
  receipt (backend/internal/publicapi/receipt.go). Amounts are 64-bit cents
  and wrap around as in the source.
 */
module Documents {
  import opened Prelude
  import opened Int64
  import opened Decimal
  import opened Vat

  datatype Line = Line(
    itemCode: string,
    description: string,
    qty: int64,
    unitPrice: int64,
    category: string,
    total: int64,
    tax: int64)

  datatype Header = Header(subtotal: int64, tax: int64, total: int64)

  function Totals(lines: seq<Line>): seq<int64> {
    seq(|lines|, i requires 0 <= i < |lines| => lines[i].total)
  }

  function Taxes(lines: seq<Line>): seq<int64> {
    seq(|lines|, i requires 0 <= i < |lines| => lines[i].tax)
  }

  function Taxables(lines: seq<Line>): seq<int64> {
    seq(|lines|, i requires 0 <= i < |lines| => Sub(lines[i].total, lines[i].tax))
  }

  /** The header is the sum of each column. */
  predicate AddsUp(h: Header, lines: seq<Line>) {
    h.subtotal == Sum(Taxables(lines)) && h.tax == Sum(Taxes(lines)) && h.total == Sum(Totals(lines))
  }

  lemma ColumnsSnoc(lines: seq<Line>, l: Line)
    ensures Totals(lines + [l]) == Totals(lines) + [l.total]
    ensures Taxes(lines + [l]) == Taxes(lines) + [l.tax]
    ensures Taxables(lines + [l]) == Taxables(lines) + [Sub(l.total, l.tax)]
  {
  }

  /** The two header identities: total = subtotal + tax and subtotal = total - tax, whatever wraps. */
  lemma {:induction false} ColumnsAgree(lines: seq<Line>)
    ensures Sum(Totals(lines)) == Add(Sum(Taxables(lines)), Sum(Taxes(lines)))
    ensures Sum(Taxables(lines)) == Sub(Sum(Totals(lines)), Sum(Taxes(lines)))
  {
    if lines != [] {
      var init, l := lines[..|lines| - 1], lines[|lines| - 1];
      assert lines == init + [l];
      ColumnsAgree(init);
      ColumnsSnoc(init, l);
      SumSnoc(Totals(init), l.total);
      SumSnoc(Taxes(init), l.tax);
      SumSnoc(Taxables(init), Sub(l.total, l.tax));
      WrappedPairs(Sum(Taxables(init)), Sum(Taxes(init)), l.total, l.tax);
    }
  }

  lemma WrappedPairs(a: int64, b: int64, t: int64, x: int64)
    ensures Add(Add(a, Sub(t, x)), Add(b, x)) == Add(Add(a, b), t)
    ensures Sub(Add(Add(a, b), t), Add(b, x)) == Add(a, Sub(t, x))
  {
    WrappedNet(a, t, x);
    WrappedGross(a, b, t);
    AddOfWrapped(a + t - x, b + x, a + b + t);
    SubOfWrapped(a + b + t, b + x, a + t - x);
  }

  lemma AddOfWrapped(x: int, y: int, z: int)
    requires x + y == z
    ensures Add(Wrap(x), Wrap(y)) == Wrap(z)
  {
    WrapPlus(x, y);
  }

  lemma SubOfWrapped(x: int, y: int, z: int)
    requires x - y == z
    ensures Sub(Wrap(x), Wrap(y)) == Wrap(z)
  {
    WrapMinus(x, y);
  }

  lemma WrappedNet(a: int64, t: int64, x: int64)
    ensures Add(a, Sub(t, x)) == Wrap(a + t - x)
  {
    WrapAbsorbs(t - x, a);
  }

  lemma WrappedGross(a: int64, b: int64, t: int64)
    ensures Add(Add(a, b), t) == Wrap(a + b + t)
  {
    WrapAbsorbs(a + b, t);
  }

  /** Totals: the loop of backend/internal/fiscal/taxcodes.go, which never re-rounds. */
  method HeaderTotals(lines: seq<Line>) returns (subtotal: int64, tax: int64, total: int64)
    ensures AddsUp(Header(subtotal, tax, total), lines)
  {
    tax, total := 0, 0;
    for i := 0 to |lines|
      invariant total == Sum(Totals(lines[..i])) && tax == Sum(Taxes(lines[..i]))
    {
      assert lines[..i + 1] == lines[..i] + [lines[i]];
      ColumnsSnoc(lines[..i], lines[i]);
      SumSnoc(Totals(lines[..i]), lines[i].total);
      SumSnoc(Taxes(lines[..i]), lines[i].tax);
      total := Add(total, lines[i].total);
      tax := Add(tax, lines[i].tax);
    }
    assert lines[..|lines|] == lines;
    ColumnsAgree(lines);
    subtotal := Sub(total, tax);
  }

  /* --------------------------------------------------------- building a sale */

  type ItemId = nat

  datatype Item = Item(name: string, classCode: string, category: string, price: int64)

  datatype LineInput = LineInput(
    item: Option<ItemId>,
    description: string,
    classCode: string,
    category: string,
    unitPrice: int64,
    qty: string)

  datatype LineError = UnknownItem | DescriptionRequired | ClassCodeRequired | BadCategory | BadQty | BadPrice

  /** strconv.ParseInt(s, 10, 64). */
  function ParseInt(s: string): Option<int64> {
    var signed := s != "" && (s[0] == '-' || s[0] == '+');
    var digits := if signed then s[1..] else s;
    if digits == "" || !AllDigits(digits) then None
    else
      var v: int := if signed && s[0] == '-' then 0 - Value(digits) else Value(digits);
      if -TWO_63 <= v < TWO_63 then Some(v) else None
  }

  /** A field left empty is taken from the catalogue item. */
  function FromItem(l: LineInput, it: Item): LineInput {
    l.(description := if l.description == "" then it.name else l.description,
       category := if l.category == "" then it.category else l.category,
       unitPrice := if l.unitPrice == 0 then it.price else l.unitPrice,
       classCode := if l.classCode == "" then it.classCode else l.classCode)
  }

  /** One iteration of the line loop: the line, or why the request is refused. */
  function BuildLine(input: LineInput, items: map<ItemId, Item>): Result<Line, LineError> {
    if input.item.Some? && input.item.value !in items then Failure(UnknownItem)
    else
      var l := if input.item.Some? then FromItem(input, items[input.item.value]) else input;
      if l.description == "" then Failure(DescriptionRequired)
      else if l.classCode == "" then Failure(ClassCodeRequired)
      else if ParseTaxCategory(l.category).None? then Failure(BadCategory)
      else
        var q := ParseInt(if l.qty == "" then "1" else l.qty);
        if q.None? || q.value <= 0 then Failure(BadQty)
        else if l.unitPrice <= 0 then Failure(BadPrice)
        else
          var total := Mul(q.value, l.unitPrice);
          var rate := RateBP(ParseTaxCategory(l.category).value);
          LineTaxInRange(total, rate);
          Success(Line(l.classCode, l.description, q.value, l.unitPrice, l.category, total, LineTax(total, rate)))
  }

  datatype Sale = Sale(header: Header, lines: seq<Line>)

  /** What is true of a line the code has built. */
  predicate WellBuilt(l: Line) {
    && l.itemCode != "" && ParseTaxCategory(l.category).Some?
    && l.qty > 0 && l.unitPrice > 0 && l.total == Mul(l.qty, l.unitPrice)
    && l.tax == LineTax(l.total, RateBP(ParseTaxCategory(l.category).value))
  }

  lemma BuiltIsWellBuilt(input: LineInput, items: map<ItemId, Item>)
    requires BuildLine(input, items).Success?
    ensures WellBuilt(BuildLine(input, items).value)
  {
  }

  /** The error is the one of the first line that is refused. */
  predicate FirstRefused(inputs: seq<LineInput>, items: map<ItemId, Item>, e: LineError) {
    exists i :: 0 <= i < |inputs| && BuildLine(inputs[i], items) == Failure(e) && AllBuild(inputs[..i], items)
  }

  predicate AllBuild(inputs: seq<LineInput>, items: map<ItemId, Item>) {
    forall i :: 0 <= i < |inputs| ==> BuildLine(inputs[i], items).Success?
  }

  predicate BuiltFrom(lines: seq<Line>, inputs: seq<LineInput>, items: map<ItemId, Item>) {
    |lines| == |inputs| && forall i :: 0 <= i < |inputs| ==> BuildLine(inputs[i], items) == Success(lines[i])
  }

  predicate AllWellBuilt(lines: seq<Line>) {
    forall i :: 0 <= i < |lines| ==> WellBuilt(lines[i])
  }

  lemma AllBuiltAreWellBuilt(lines: seq<Line>, inputs: seq<LineInput>, items: map<ItemId, Item>)
    requires BuiltFrom(lines, inputs, items)
    ensures AllWellBuilt(lines) && AllBuild(inputs, items)
  {
    forall i | 0 <= i < |lines| ensures WellBuilt(lines[i]) {
      BuiltIsWellBuilt(inputs[i], items);
    }
  }

  lemma BuiltSnoc(lines: seq<Line>, inputs: seq<LineInput>, items: map<ItemId, Item>, i: nat, l: Line)
    requires i < |inputs| && BuiltFrom(lines, inputs[..i], items) && BuildLine(inputs[i], items) == Success(l)
    ensures BuiltFrom(lines + [l], inputs[..i + 1], items)
  {
    assert inputs[..i + 1] == inputs[..i] + [inputs[i]];
  }

  lemma Refused(lines: seq<Line>, inputs: seq<LineInput>, items: map<ItemId, Item>, i: nat, e: LineError)
    requires i < |inputs| && BuiltFrom(lines, inputs[..i], items) && BuildLine(inputs[i], items) == Failure(e)
    ensures FirstRefused(inputs, items, e) && !AllBuild(inputs, items)
  {
    assert AllBuild(inputs[..i], items);
  }

  lemma NetSumsSnoc(lines: seq<Line>, l: Line)
    ensures Sum(Taxables(lines + [l])) == Add(Sum(Taxables(lines)), Sub(l.total, l.tax))
    ensures Sum(Taxes(lines + [l])) == Add(Sum(Taxes(lines)), l.tax)
  {
    ColumnsSnoc(lines, l);
    SumSnoc(Taxables(lines), Sub(l.total, l.tax));
    SumSnoc(Taxes(lines), l.tax);
  }

  /**
    The line loop and the sale it creates. The running sums are of taxable
    value and tax; that they equal the sums of all three columns is the claim.
   */
  method BuildSale(inputs: seq<LineInput>, items: map<ItemId, Item>) returns (r: Result<Sale, LineError>)
    ensures r.Success? <==> AllBuild(inputs, items)
    ensures r.Success? ==>
      BuiltFrom(r.value.lines, inputs, items) && AllWellBuilt(r.value.lines) && AddsUp(r.value.header, r.value.lines)
    ensures r.Failure? ==> FirstRefused(inputs, items, r.error)
  {
    var lines: seq<Line> := [];
    var subtotal: int64, tax: int64 := 0, 0;
    for i := 0 to |inputs|
      invariant BuiltFrom(lines, inputs[..i], items)
      invariant subtotal == Sum(Taxables(lines)) && tax == Sum(Taxes(lines))
    {
      var built := BuildLine(inputs[i], items);
      if built.Failure? {
        Refused(lines, inputs, items, i, built.error);
        return Failure(built.error);
      }
      var l := built.value;
      BuiltSnoc(lines, inputs, items, i, l);
      NetSumsSnoc(lines, l);
      subtotal := Add(subtotal, Sub(l.total, l.tax));
      tax := Add(tax, l.tax);
      lines := lines + [l];
    }
    assert inputs[..|inputs|] == inputs;
    AllBuiltAreWellBuilt(lines, inputs, items);
    ColumnsAgree(lines);
    r := Success(Sale(Header(subtotal, tax, Add(subtotal, tax)), lines));
  }

  /* ---------------------------------------------------- the adapter's checks */

  datatype Document = Document(id: string, sellerPin: string, buyerPin: string, lines: seq<Line>, total: int64)

  /** ^[AP][0-9]{9}[A-Z]$ */
  predicate IsPin(s: string) {
    |s| == 11 && (s[0] == 'A' || s[0] == 'P') && AllDigits(s[1..10]) && 'A' <= s[10] <= 'Z'
  }

  datatype Rejection =
    | IdMissing
    | SellerPinInvalid
    | BuyerPinInvalid
    | NoLines
    | InvalidItemCode(line: nat)
    | InvalidTaxCategory(line: nat)
    | LineTotalNotPositive(line: nat)
    | TotalMismatch

  predicate LineAccepted(l: Line) {
    l.itemCode != "" && ParseTaxCategory(l.category).Some? && l.total > 0
  }

  predicate Acceptable(d: Document) {
    && d.id != "" && IsPin(d.sellerPin) && (d.buyerPin != "" ==> IsPin(d.buyerPin)) && d.lines != []
    && (forall i :: 0 <= i < |d.lines| ==> LineAccepted(d.lines[i]))
    && Sum(Totals(d.lines)) == d.total
  }

  /** Line `r.line` has the fault `r`. */
  predicate LineHas(lines: seq<Line>, r: Rejection) {
    match r
    case InvalidItemCode(i) => i < |lines| && lines[i].itemCode == ""
    case InvalidTaxCategory(i) => i < |lines| && ParseTaxCategory(lines[i].category).None?
    case LineTotalNotPositive(i) => i < |lines| && lines[i].total <= 0
    case _ => false
  }

  /** The document has the fault `r`. */
  predicate Has(d: Document, r: Rejection) {
    match r
    case IdMissing => d.id == ""
    case SellerPinInvalid => !IsPin(d.sellerPin)
    case BuyerPinInvalid => d.buyerPin != "" && !IsPin(d.buyerPin)
    case NoLines => d.lines == []
    case TotalMismatch => Sum(Totals(d.lines)) != d.total
    case _ => LineHas(d.lines, r)
  }

  /** The order of the checks, on a document of `n` lines; no two faults share a place. */
  function Place(r: Rejection, n: nat): nat {
    match r
    case IdMissing => 0
    case SellerPinInvalid => 1
    case BuyerPinInvalid => 2
    case NoLines => 3
    case InvalidItemCode(i) => 4 + 3 * i
    case InvalidTaxCategory(i) => 5 + 3 * i
    case LineTotalNotPositive(i) => 6 + 3 * i
    case TotalMismatch => 4 + 3 * n
  }

  /** validateInvoice, the same in the mock and the OSCU adapter: the first fault, in the order of the checks. */
  method ValidateInvoice(d: Document) returns (fault: Option<Rejection>)
    ensures fault.None? <==> Acceptable(d)
    ensures fault.Some? ==> Has(d, fault.value)
    ensures forall r :: Has(d, r) ==> fault.Some? && Place(fault.value, |d.lines|) <= Place(r, |d.lines|)
  {
    if d.id == "" { return Some(IdMissing); }
    if !IsPin(d.sellerPin) { return Some(SellerPinInvalid); }
    if d.buyerPin != "" && !IsPin(d.buyerPin) { return Some(BuyerPinInvalid); }
    if |d.lines| == 0 { return Some(NoLines); }
    var total: int64;
    fault, total := CheckLines(d.lines);
    if fault.None? && total != d.total { return Some(TotalMismatch); }
  }

  /** The loop over the lines: the first fault of any line, or the sum of all line totals. */
  method CheckLines(lines: seq<Line>) returns (fault: Option<Rejection>, total: int64)
    ensures fault.None? ==> (forall i :: 0 <= i < |lines| ==> LineAccepted(lines[i])) && total == Sum(Totals(lines))
    ensures fault.Some? ==> LineHas(lines, fault.value) && !LineAccepted(lines[fault.value.line])
    ensures forall r :: LineHas(lines, r) ==> fault.Some? && Place(fault.value, |lines|) <= Place(r, |lines|)
  {
    total := 0;
    for i := 0 to |lines|
      invariant forall j :: 0 <= j < i ==> LineAccepted(lines[j])
      invariant total == Sum(Totals(lines[..i]))
    {
      var l := lines[i];
      if l.itemCode == "" { return Some(InvalidItemCode(i)), total; }
      if ParseTaxCategory(l.category).None? { return Some(InvalidTaxCategory(i)), total; }
      if l.total <= 0 { return Some(LineTotalNotPositive(i)), total; }
      TotalsSnoc(lines, i);
      total := Add(total, l.total);
    }
    assert lines[..|lines|] == lines;
    fault := None;
  }

  lemma TotalsSnoc(lines: seq<Line>, i: nat)
    requires i < |lines|
    ensures Sum(Totals(lines[..i + 1])) == Add(Sum(Totals(lines[..i])), lines[i].total)
  {
    assert lines[..i + 1] == lines[..i] + [lines[i]];
    ColumnsSnoc(lines[..i], lines[i]);
    SumSnoc(Totals(lines[..i]), lines[i].total);
  }

  /**
    A sale the code builds passes the adapter's line and total checks exactly
    when no line total wrapped into a non-positive number: the total check
    itself can never fail.
   */
  lemma BuiltSalePasses(sale: Sale, id: string, sellerPin: string, buyerPin: string)
    requires sale.lines != [] && AddsUp(sale.header, sale.lines)
    requires AllWellBuilt(sale.lines)
    requires id != "" && IsPin(sellerPin) && (buyerPin != "" ==> IsPin(buyerPin))
    ensures Acceptable(Document(id, sellerPin, buyerPin, sale.lines, sale.header.total))
       <==> forall i :: 0 <= i < |sale.lines| ==> Wrap(sale.lines[i].qty * sale.lines[i].unitPrice) > 0
  {
    var d := Document(id, sellerPin, buyerPin, sale.lines, sale.header.total);
    assert forall i :: 0 <= i < |sale.lines| ==> LineAccepted(d.lines[i]) == (Wrap(sale.lines[i].qty * sale.lines[i].unitPrice) > 0);
  }

  /** Acceptance is not correctness: an accepted line is worth quantity times price exactly when that product fits 64 bits. */
  lemma AcceptedTotalIsExact(l: Line)
    requires WellBuilt(l) && LineAccepted(l)
    ensures l.total == l.qty * l.unitPrice <==> l.qty * l.unitPrice < TWO_63
  {
    assert l.total == Wrap(l.qty * l.unitPrice);
    ProductPositive(l.qty, l.unitPrice);
    if l.qty * l.unitPrice < TWO_63 { WrapInRange(l.qty * l.unitPrice); }
  }

  lemma ProductPositive(a: int, b: int)
    requires a > 0 && b > 0
    ensures a * b > 0
  {
  }

  /** Four units at 2^62 + 1 cents pass as a line of four cents. */
  lemma OverflowCanPass(l: Line)
    requires WellBuilt(l) && l.qty == 4 && l.unitPrice == 0x4000_0000_0000_0001
    ensures l.total == 4 && LineAccepted(l)
  {
  }

  /** Two units at 2^62 cents: the product wraps to the minimum and the document is refused. */
  lemma OverflowIsRefused(l: Line)
    requires WellBuilt(l) && l.qty == 2 && l.unitPrice == 0x4000_0000_0000_0000
    ensures l.total == MIN && !LineAccepted(l)
  {
  }

  /* ----------------------------------------------------------- the wire form */

  datatype WireLine = WireLine(
    itemSeq: nat, itemCd: string, itemNm: string, qty: int64, prc: int64,
    splyAmt: int64, taxTyCd: string, taxblAmt: int64, taxAmt: int64, totAmt: int64)

  /** toWireLines. */
  method ToWireLines(lines: seq<Line>) returns (out: seq<WireLine>)
    ensures |out| == |lines|
    ensures forall i :: 0 <= i < |lines| ==> out[i] == SaleWire(lines[i], i + 1)
  {
    out := [];
    for i := 0 to |lines|
      invariant |out| == i
      invariant forall j :: 0 <= j < i ==> out[j] == SaleWire(lines[j], j + 1)
    {
      var l := lines[i];
      var net := Sub(l.total, l.tax);
      out := out + [WireLine(i + 1, l.itemCode, l.description, l.qty, l.unitPrice, net, l.category, net, l.tax, l.total)];
    }
  }

  /** toWireCreditLines. */
  method ToWireCreditLines(lines: seq<Line>) returns (out: seq<WireLine>)
    ensures |out| == |lines|
    ensures forall i :: 0 <= i < |lines| ==> out[i] == CreditWire(lines[i], i + 1)
  {
    out := [];
    for i := 0 to |lines|
      invariant |out| == i
      invariant forall j :: 0 <= j < i ==> out[j] == CreditWire(lines[j], j + 1)
    {
      var l := lines[i];
      var subtotal, tax, tot := Abs(Sub(l.total, l.tax)), Abs(l.tax), Abs(l.total);
      out := out + [WireLine(i + 1, l.itemCode, l.description, l.qty, l.unitPrice, Neg(subtotal), l.category, Neg(subtotal), Neg(tax), Neg(tot))];
    }
  }

  function SaleWire(l: Line, n: nat): WireLine {
    var net := Sub(l.total, l.tax);
    WireLine(n, l.itemCode, l.description, l.qty, l.unitPrice, net, l.category, net, l.tax, l.total)
  }

  function CreditWire(l: Line, n: nat): WireLine {
    var net := Neg(Abs(Sub(l.total, l.tax)));
    WireLine(n, l.itemCode, l.description, l.qty, l.unitPrice, net, l.category, net, Neg(Abs(l.tax)), Neg(Abs(l.total)))
  }

  /** The header SubmitCreditNote sends. */
  function CreditHeader(h: Header): Header {
    Header(Neg(Abs(h.subtotal)), Neg(Abs(h.tax)), Neg(Abs(h.total)))
  }

  /** `c` is the sale line `s` with its four amounts negated and everything else kept. */
  predicate Mirrors(c: WireLine, s: WireLine) {
    && c == s.(splyAmt := c.splyAmt, taxblAmt := c.taxblAmt, taxAmt := c.taxAmt, totAmt := c.totAmt)
    && c.splyAmt + s.splyAmt == 0 && c.taxblAmt + s.taxblAmt == 0 && c.taxAmt + s.taxAmt == 0 && c.totAmt + s.totAmt == 0
  }

  predicate HeaderMirrors(c: Header, s: Header) {
    c.subtotal + s.subtotal == 0 && c.tax + s.tax == 0 && c.total + s.total == 0
  }

  /** A positive total and a tax inside it. */
  predicate Taxed(l: Line) {
    l.total > 0 && 0 <= l.tax <= l.total
  }

  lemma AcceptedIsTaxed(l: Line)
    requires WellBuilt(l) && LineAccepted(l)
    ensures Taxed(l)
  {
    LineTaxInRange(l.total, RateBP(ParseTaxCategory(l.category).value));
  }

  /** Line by line the wire credit note is the mirror image of the wire sale, for every line the code builds and the adapter accepts. */
  lemma CreditLineMirrorsSale(l: Line, n: nat)
    requires WellBuilt(l) && LineAccepted(l)
    ensures Mirrors(CreditWire(l, n), SaleWire(l, n))
  {
    AcceptedIsTaxed(l);
    TaxedLineMirrors(l, n);
  }

  lemma TaxedLineMirrors(l: Line, n: nat)
    requires Taxed(l)
    ensures Mirrors(CreditWire(l, n), SaleWire(l, n))
  {
  }

  /** The header is mirrored exactly when none of its three sums wrapped below zero. */
  lemma CreditHeaderMirrorsSale(h: Header)
    ensures HeaderMirrors(CreditHeader(h), h) <==> h.subtotal >= 0 && h.tax >= 0 && h.total >= 0
  {
  }

  lemma {:induction false} TaxedSums(lines: seq<Line>)
    requires forall i :: 0 <= i < |lines| ==> Taxed(lines[i])
    ensures 0 <= ExactSum(Taxes(lines)) <= ExactSum(Totals(lines))
    ensures ExactSum(Taxables(lines)) == ExactSum(Totals(lines)) - ExactSum(Taxes(lines))
  {
    if lines != [] {
      var init, l := lines[..|lines| - 1], lines[|lines| - 1];
      assert lines == init + [l];
      TaxedSums(init);
      ColumnsSnoc(init, l);
      TaxedNet(l);
      SumSnoc(Totals(init), l.total);
      SumSnoc(Taxes(init), l.tax);
      SumSnoc(Taxables(init), l.total - l.tax);
    }
  }

  lemma TaxedNet(l: Line)
    requires Taxed(l)
    ensures Sub(l.total, l.tax) == l.total - l.tax
  {
  }

  /**
    The whole wire credit note of an accepted sale: every line mirrors its sale
    line, and the header mirrors the sale's exactly when no column sum wrapped
    below zero; in particular whenever the true total fits 64 bits, and then
    the header is also the exact sum.
   */
  lemma CreditNoteMirrorsSale(sale: Sale)
    requires AddsUp(sale.header, sale.lines) && AllWellBuilt(sale.lines)
    requires forall i :: 0 <= i < |sale.lines| ==> LineAccepted(sale.lines[i])
    ensures forall i :: 0 <= i < |sale.lines| ==> Mirrors(CreditWire(sale.lines[i], i + 1), SaleWire(sale.lines[i], i + 1))
    ensures HeaderMirrors(CreditHeader(sale.header), sale.header) <==>
      Sum(Taxables(sale.lines)) >= 0 && Sum(Taxes(sale.lines)) >= 0 && Sum(Totals(sale.lines)) >= 0
    ensures ExactSum(Totals(sale.lines)) < TWO_63 ==>
      && HeaderMirrors(CreditHeader(sale.header), sale.header)
      && sale.header.total == ExactSum(Totals(sale.lines)) && sale.header.tax == ExactSum(Taxes(sale.lines))
  {
    forall i | 0 <= i < |sale.lines| ensures Mirrors(CreditWire(sale.lines[i], i + 1), SaleWire(sale.lines[i], i + 1)) {
      CreditLineMirrorsSale(sale.lines[i], i + 1);
    }
    CreditHeaderMirrorsSale(sale.header);
    if ExactSum(Totals(sale.lines)) < TWO_63 { HeaderIsExact(sale); }
  }

  lemma HeaderIsExact(sale: Sale)
    requires AddsUp(sale.header, sale.lines) && AllWellBuilt(sale.lines)
    requires forall i :: 0 <= i < |sale.lines| ==> LineAccepted(sale.lines[i])
    requires ExactSum(Totals(sale.lines)) < TWO_63
    ensures HeaderMirrors(CreditHeader(sale.header), sale.header)
    ensures sale.header.total == ExactSum(Totals(sale.lines)) && sale.header.tax == ExactSum(Taxes(sale.lines))
  {
    forall i | 0 <= i < |sale.lines| ensures Taxed(sale.lines[i]) {
      AcceptedIsTaxed(sale.lines[i]);
    }
    TaxedSums(sale.lines);
    SumWhenItFits(Totals(sale.lines));
    SumWhenItFits(Taxes(sale.lines));
    SumWhenItFits(Taxables(sale.lines));
    CreditHeaderMirrorsSale(sale.header);
  }

  /* ------------------------------------------------- the VAT table of a receipt */

  datatype VatRow = VatRow(category: string, taxable: int64, tax: int64)

  function InCategory(lines: seq<Line>, category: string): seq<Line> {
    if lines == [] then []
    else
      var rest := InCategory(lines[..|lines| - 1], category);
      var l := lines[|lines| - 1];
      if l.category == category then rest + [l] else rest
  }

  /** The row a category must have: the sums over its own lines. */
  function RowOf(lines: seq<Line>, category: string): VatRow {
    VatRow(category, Sum(Taxables(InCategory(lines, category))), Sum(Taxes(InCategory(lines, category))))
  }

  predicate Distinct(order: seq<string>) {
    forall i, j :: 0 <= i < j < |order| ==> order[i] != order[j]
  }

  lemma RowGrows(lines: seq<Line>, l: Line, category: string)
    ensures RowOf(lines + [l], category) ==
      var row := RowOf(lines, category);
      if l.category == category
      then VatRow(category, Add(row.taxable, Sub(l.total, l.tax)), Add(row.tax, l.tax))
      else row
  {
    assert (lines + [l])[..|lines|] == lines;
    var own := InCategory(lines, category);
    ColumnsSnoc(own, l);
    SumSnoc(Taxables(own), Sub(l.total, l.tax));
    SumSnoc(Taxes(own), l.tax);
  }

  function RowsOf(lines: seq<Line>, order: seq<string>): seq<VatRow> {
    seq(|order|, i requires 0 <= i < |order| => RowOf(lines, order[i]))
  }

  /** The categories of a sale in order of first appearance. */
  function Categories(lines: seq<Line>): seq<string> {
    if lines == [] then []
    else
      var before, c := Categories(lines[..|lines| - 1]), lines[|lines| - 1].category;
      if c in before then before else before + [c]
  }

  lemma {:induction false} CategoriesOnceEach(lines: seq<Line>)
    ensures Distinct(Categories(lines))
    ensures forall i :: 0 <= i < |lines| ==> lines[i].category in Categories(lines)
    ensures forall c :: c in Categories(lines) ==> exists i :: 0 <= i < |lines| && lines[i].category == c
  {
    if lines != [] {
      CategoriesOnceEach(lines[..|lines| - 1]);
      assert lines[|lines| - 1].category in Categories(lines);
    }
  }

  /** What the grouping loop keeps: one finished row per category seen so far. */
  ghost predicate GroupedBy(byCat: map<string, VatRow>, order: seq<string>, lines: seq<Line>) {
    && order == Categories(lines)
    && (forall c :: c in byCat <==> c in order)
    && (forall c :: c in byCat ==> byCat[c] == RowOf(lines, c))
  }

  function WithLine(row: VatRow, l: Line): VatRow {
    VatRow(row.category, Add(row.taxable, Sub(l.total, l.tax)), Add(row.tax, l.tax))
  }

  /** The grouping loop as a function. */
  function Groups(lines: seq<Line>): (map<string, VatRow>, seq<string>) {
    if lines == [] then (map[], [])
    else
      var (byCat, order) := Groups(lines[..|lines| - 1]);
      (Put(byCat, lines[|lines| - 1]), Listed(byCat, order, lines[|lines| - 1]))
  }

  /** The row of the line's category, made if it is new, with the line added. */
  function Put(byCat: map<string, VatRow>, l: Line): map<string, VatRow> {
    byCat[l.category := WithLine(if l.category in byCat then byCat[l.category] else VatRow(l.category, 0, 0), l)]
  }

  function Listed(byCat: map<string, VatRow>, order: seq<string>, l: Line): seq<string> {
    if l.category in byCat then order else order + [l.category]
  }

  lemma {:induction false} GroupsAreRight(lines: seq<Line>)
    ensures GroupedBy(Groups(lines).0, Groups(lines).1, lines)
  {
    if lines != [] {
      var init, l := lines[..|lines| - 1], lines[|lines| - 1];
      GroupsAreRight(init);
      GroupStep(Groups(init).0, Groups(init).1, init, l);
      GroupsUnfold(lines, init, l);
    }
  }

  lemma GroupsUnfold(lines: seq<Line>, init: seq<Line>, l: Line)
    requires lines != [] && init == lines[..|lines| - 1] && l == lines[|lines| - 1]
    ensures lines == init + [l]
    ensures Groups(lines) == (Put(Groups(init).0, l), Listed(Groups(init).0, Groups(init).1, l))
  {
  }

  lemma GroupStep(byCat: map<string, VatRow>, order: seq<string>, lines: seq<Line>, l: Line)
    requires GroupedBy(byCat, order, lines)
    ensures GroupedBy(Put(byCat, l), Listed(byCat, order, l), lines + [l])
  {
    assert (lines + [l])[..|lines|] == lines;
    forall c | c in Put(byCat, l) ensures Put(byCat, l)[c] == RowOf(lines + [l], c) {
      RowPut(byCat, order, lines, l, c);
    }
  }

  lemma RowPut(byCat: map<string, VatRow>, order: seq<string>, lines: seq<Line>, l: Line, c: string)
    requires GroupedBy(byCat, order, lines) && c in Put(byCat, l)
    ensures Put(byCat, l)[c] == RowOf(lines + [l], c)
  {
    if l.category !in byCat {
      CategoriesOnceEach(lines);
      FirstOfCategory(lines, l.category);
    }
    RowGrows(lines, l, c);
  }

  /** build: the VAT table, one row per category in order of first appearance, summing to the header columns. */
  method VatByCategory(lines: seq<Line>) returns (rows: seq<VatRow>)
    ensures rows == RowsOf(lines, Categories(lines))
    ensures forall i, j :: 0 <= i < j < |rows| ==> rows[i].category != rows[j].category
    ensures Sum(TaxColumn(rows)) == Sum(Taxes(lines)) && Sum(TaxableColumn(rows)) == Sum(Taxables(lines))
  {
    var byCat, order := GroupLines(lines);
    rows := ListRows(byCat, order, lines);
    CategoriesOnceEach(lines);
    VatTableSumsToHeader(lines, order);
  }

  /** The first loop: the rows by category, and the categories in order of appearance. */
  method GroupLines(lines: seq<Line>) returns (byCat: map<string, VatRow>, order: seq<string>)
    ensures GroupedBy(byCat, order, lines)
  {
    byCat, order := map[], [];
    for i := 0 to |lines|
      invariant (byCat, order) == Groups(lines[..i])
    {
      var l := lines[i];
      assert lines[..i + 1][..i] == lines[..i];
      var row := VatRow(l.category, 0, 0);
      if l.category in byCat {
        row := byCat[l.category];
      } else {
        order := order + [l.category];
      }
      byCat := byCat[l.category := WithLine(row, l)];
    }
    assert lines[..|lines|] == lines;
    GroupsAreRight(lines);
  }

  /** The second loop: the rows in the order their categories appeared. */
  method ListRows(byCat: map<string, VatRow>, order: seq<string>, lines: seq<Line>) returns (rows: seq<VatRow>)
    requires GroupedBy(byCat, order, lines)
    ensures rows == RowsOf(lines, order)
  {
    rows := [];
    for k := 0 to |order|
      invariant |rows| == k && forall j :: 0 <= j < k ==> rows[j] == RowOf(lines, order[j])
    {
      assert order[k] in order;
      rows := rows + [byCat[order[k]]];
    }
  }

  lemma {:induction false} FirstOfCategory(lines: seq<Line>, category: string)
    requires forall i :: 0 <= i < |lines| ==> lines[i].category != category
    ensures RowOf(lines, category) == VatRow(category, 0, 0)
  {
    assert InCategory(lines, category) == [] by { NoneOfCategory(lines, category); }
  }

  lemma {:induction false} NoneOfCategory(lines: seq<Line>, category: string)
    requires forall i :: 0 <= i < |lines| ==> lines[i].category != category
    ensures InCategory(lines, category) == []
  {
    if lines != [] {
      NoneOfCategory(lines[..|lines| - 1], category);
    }
  }

  function TaxColumn(rows: seq<VatRow>): seq<int64> {
    seq(|rows|, i requires 0 <= i < |rows| => rows[i].tax)
  }

  function TaxableColumn(rows: seq<VatRow>): seq<int64> {
    seq(|rows|, i requires 0 <= i < |rows| => rows[i].taxable)
  }

  /** One more line adds to exactly one row. */
  lemma {:induction false} TableGrows(lines: seq<Line>, l: Line, order: seq<string>)
    requires Distinct(order)
    ensures var before, after := RowsOf(lines, order), RowsOf(lines + [l], order);
      && Sum(TaxColumn(after)) == (if l.category in order then Add(Sum(TaxColumn(before)), l.tax) else Sum(TaxColumn(before)))
      && Sum(TaxableColumn(after)) ==
           (if l.category in order then Add(Sum(TaxableColumn(before)), Sub(l.total, l.tax)) else Sum(TaxableColumn(before)))
  {
    if order != [] {
      var init, c := order[..|order| - 1], order[|order| - 1];
      TableGrows(lines, l, init);
      RowGrows(lines, l, c);
      TableSnoc(lines, init, c);
      TableSnoc(lines + [l], init, c);
      assert order == init + [c];
      assert c == l.category ==> l.category !in init;
      var row := RowOf(lines, c);
      AddSwap(Sum(TaxColumn(RowsOf(lines, init))), row.tax, l.tax);
      AddSwap(Sum(TaxableColumn(RowsOf(lines, init))), row.taxable, Sub(l.total, l.tax));
    }
  }

  lemma TableSnoc(lines: seq<Line>, order: seq<string>, c: string)
    ensures Sum(TaxColumn(RowsOf(lines, order + [c]))) == Add(Sum(TaxColumn(RowsOf(lines, order))), RowOf(lines, c).tax)
    ensures Sum(TaxableColumn(RowsOf(lines, order + [c]))) == Add(Sum(TaxableColumn(RowsOf(lines, order))), RowOf(lines, c).taxable)
  {
    assert RowsOf(lines, order + [c]) == RowsOf(lines, order) + [RowOf(lines, c)];
    assert TaxColumn(RowsOf(lines, order + [c])) == TaxColumn(RowsOf(lines, order)) + [RowOf(lines, c).tax];
    assert TaxableColumn(RowsOf(lines, order + [c])) == TaxableColumn(RowsOf(lines, order)) + [RowOf(lines, c).taxable];
    SumSnoc(TaxColumn(RowsOf(lines, order)), RowOf(lines, c).tax);
    SumSnoc(TaxableColumn(RowsOf(lines, order)), RowOf(lines, c).taxable);
  }

  lemma AddSwap(a: int64, b: int64, c: int64)
    ensures Add(a, Add(b, c)) == Add(Add(a, b), c) && Add(Add(a, c), b) == Add(Add(a, b), c)
  {
    WrappedGross(b, c, a);
    WrappedGross(a, b, c);
    WrappedGross(a, c, b);
  }

  lemma {:induction false} EmptyTable(order: seq<string>)
    ensures Sum(TaxColumn(RowsOf([], order))) == 0 && Sum(TaxableColumn(RowsOf([], order))) == 0
  {
    if order != [] {
      var init, c := order[..|order| - 1], order[|order| - 1];
      EmptyTable(init);
      TableSnoc([], init, c);
      assert order == init + [c];
    }
  }

  /** The VAT table sums to the sale's header: nothing is lost or counted twice by grouping. */
  lemma {:induction false} VatTableSumsToHeader(lines: seq<Line>, order: seq<string>)
    requires Distinct(order)
    requires forall i :: 0 <= i < |lines| ==> lines[i].category in order
    ensures Sum(TaxColumn(RowsOf(lines, order))) == Sum(Taxes(lines))
    ensures Sum(TaxableColumn(RowsOf(lines, order))) == Sum(Taxables(lines))
  {
    if lines == [] {
      EmptyTable(order);
    } else {
      var init, l := lines[..|lines| - 1], lines[|lines| - 1];
      assert lines == init + [l];
      VatTableSumsToHeader(init, order);
      TableGrows(init, l, order);
      ColumnsSnoc(init, l);
      SumSnoc(Taxes(init), l.tax);
      SumSnoc(Taxables(init), Sub(l.total, l.tax));
    }
  }
}
