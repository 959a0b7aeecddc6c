/**
  The ledger: sales, payments and fiscal documents, and the transactions that
  change them (backend/internal/ledger/service.go, handler.go and the queries
  in backend/internal/platform/db/gen). Each operation is one database
  transaction: it gives the new ledger, or an error and no change.
  Documents and sales are numbered in order of creation.
 */
module Ledger {
  import opened Prelude
  import opened Matcher
  import opened Vat

  type OrgId = nat
  type DocId = nat
  type TransId = string

  datatype SaleStatus = Open | Paid

  datatype Figures = Figures(subtotal: int, tax: int, total: int)

  datatype Sale = Sale(
    org: OrgId,
    ref: string,
    status: SaleStatus,
    customer: Option<string>,      // hash of the customer's number
    figures: Figures,
    createdAt: int)

  datatype Payment = Payment(
    org: OrgId,
    payer: Option<string>,         // hash of the payer's number
    amount: int,
    paidAt: int,
    status: Status,
    sale: Option<SaleId>,
    rule: Option<Rule>)

  datatype DocKind = Invoice | CreditNote

  datatype Doc = Doc(
    sale: SaleId,
    payment: Option<TransId>,
    kind: DocKind,
    parent: Option<DocId>,
    supersededBy: Option<DocId>,
    figures: Figures,
    acked: bool)                   // its fiscal state is ACKED

  datatype Ledger = Ledger(sales: seq<Sale>, payments: map<TransId, Payment>, docs: seq<Doc>)

  datatype LedgerError =
    | NotFound
    | Duplicate
    | CheckViolation
    | DefaultItemError
    | NoItem
    | NotAnOpenSale
    | CannotReissueCreditNote
    | NotAnInvoice
    | AlreadySuperseded
    | CreditNoteExists

  type Outcome = Result<Ledger, LedgerError>

  /* --------------------------------------------------------- row-level writes */

  function MinusFigures(f: Figures): Figures {
    Figures(-f.subtotal, -f.tax, -f.total)
  }

  function MinusAbsFigures(f: Figures): Figures {
    Figures(0 - AbsInt(f.subtotal), 0 - AbsInt(f.tax), 0 - AbsInt(f.total))
  }

  /** MarkSalePaid: only an open sale changes. */
  function MarkSalePaid(l: Ledger, s: SaleId): Ledger {
    if s < |l.sales| && l.sales[s].status == Open
    then l.(sales := l.sales[s := l.sales[s].(status := Paid)])
    else l
  }

  function AddDoc(l: Ledger, d: Doc): Ledger {
    l.(docs := l.docs + [d])
  }

  /** SupersedeInvoice has no guard of its own. */
  function Supersede(l: Ledger, d: DocId, newer: DocId): Ledger
    requires d < |l.docs|
  {
    l.(docs := l.docs[d := l.docs[d].(supersededBy := Some(newer))])
  }

  /** CreateInvoiceForSale: the original document of a sale, with the sale's own figures. */
  function CreateInvoiceForSale(l: Ledger, s: SaleId, payment: Option<TransId>): Outcome {
    if s >= |l.sales| then Failure(NotFound)
    else Success(AddDoc(l, Doc(s, payment, Invoice, None, None, l.sales[s].figures, false)))
  }

  /** The one-line sale of an unreferenced payment. */
  function CashFigures(amount: int, category: TaxCategory): Figures {
    var tax := LineTax(amount, RateBP(category));
    Figures(amount - tax, tax, amount)
  }

  datatype DefaultItem = Usable(category: TaxCategory) | Broken

  datatype Shortcode = Shortcode(org: OrgId, autoInvoice: bool, defaultItem: Option<DefaultItem>)

  /** A confirmation; the bill reference is trimmed. */
  datatype C2B = C2B(transId: TransId, shortcode: string, amount: int, payer: Option<string>, billRef: string, paidAt: int)

  /** What the database hands out for a new sale: its reference and its creation time. */
  datatype Stamp = Stamp(ref: string, at: int)

  function AddSale(l: Ledger, s: Sale): Ledger {
    l.(sales := l.sales + [s])
  }

  /** createCashSale: one line for the whole amount, already paid. */
  function CreateCashSale(l: Ledger, org: OrgId, payer: Option<string>, amount: int, item: Option<DefaultItem>, stamp: Stamp): Outcome {
    if item.None? then Failure(NoItem)
    else if item.value.Broken? then Failure(DefaultItemError)
    else Success(AddSale(l, Sale(org, stamp.ref, Paid, payer, CashFigures(amount, item.value.category), stamp.at)))
  }

  /* ------------------------------------------------------------------ ingest */

  const COUNTER_WINDOW: int := 5 * 60

  function UpperChar(c: char): char {
    if 'a' <= c <= 'z' then (c as int - 'a' as int + 'A' as int) as char else c
  }

  predicate SameRef(a: string, b: string) {
    |a| == |b| && forall i :: 0 <= i < |a| ==> UpperChar(a[i]) == UpperChar(b[i])
  }

  predicate IsOpen(l: Ledger, org: OrgId, s: SaleId) {
    s < |l.sales| && l.sales[s].org == org && l.sales[s].status == Open
  }

  predicate AnswersRef(l: Ledger, org: OrgId, ref: string, s: SaleId) {
    IsOpen(l, org, s) && SameRef(l.sales[s].ref, ref)
  }

  predicate AnswersCustomer(l: Ledger, org: OrgId, payer: Option<string>, since: int, s: SaleId) {
    IsOpen(l, org, s) && payer.Some? && l.sales[s].customer == payer && l.sales[s].createdAt >= since
  }

  predicate AnswersAmount(l: Ledger, org: OrgId, amount: int, since: int, s: SaleId) {
    IsOpen(l, org, s) && l.sales[s].figures.total == amount && l.sales[s].createdAt >= since
  }

  /** `c` may answer a query that selects the sales in `q`, the latest first: one of them, or none when there is none. */
  ghost predicate IsAnswer(l: Ledger, c: Option<Candidate>, q: SaleId -> bool, latest: bool) {
    match c
    case Some(x) =>
      && x.sale < |l.sales| && q(x.sale) && x.total == l.sales[x.sale].figures.total
      && (latest ==> forall s: SaleId :: s < |l.sales| && q(s) ==> l.sales[s].createdAt <= l.sales[x.sale].createdAt)
    case None => forall s: SaleId :: s < |l.sales| ==> !q(s)
  }

  function ByRef(l: Ledger, org: OrgId, input: C2B): SaleId -> bool {
    (s: SaleId) => AnswersRef(l, org, input.billRef, s)
  }

  function ByCustomer(l: Ledger, org: OrgId, input: C2B): SaleId -> bool {
    (s: SaleId) => AnswersCustomer(l, org, input.payer, input.paidAt - COUNTER_WINDOW, s)
  }

  function ByAmount(l: Ledger, org: OrgId, input: C2B): SaleId -> bool {
    (s: SaleId) => AnswersAmount(l, org, input.amount, input.paidAt - COUNTER_WINDOW, s)
  }

  ghost predicate Truthful(l: Ledger, org: OrgId, input: C2B, a: Answers) {
    && IsAnswer(l, a.byRef, ByRef(l, org, input), false)
    && IsAnswer(l, a.byCustomer, ByCustomer(l, org, input), true)
    && IsAnswer(l, a.byAmount, ByAmount(l, org, input), true)
  }

  function Decide(input: C2B, sc: Shortcode, a: Answers): Decision {
    Match(input.amount, input.billRef != "", input.payer.Some?, sc.autoInvoice, sc.defaultItem.Some?, a)
  }

  /** The rules the payments table admits in match_rule (its CHECK constraint). */
  const SCHEMA_RULES: set<Rule> := {BillRef, AutoInvoice, Manual}

  /** CreatePayment: the table's checks, then the unique transaction id. */
  function CreatePayment(l: Ledger, t: TransId, p: Payment, rules: set<Rule>): Outcome {
    if p.amount <= 0 || (p.rule.Some? && p.rule.value !in rules) then Failure(CheckViolation)
    else if t in l.payments then Failure(Duplicate)
    else Success(l.(payments := l.payments[t := p]))
  }

  /** The sale side of applyPayment: a new cash sale, an open sale marked paid, or nothing. */
  function SettleDecision(l: Ledger, input: C2B, sc: Shortcode, d: Decision, stamp: Stamp): Outcome {
    if d.createCashSale then CreateCashSale(l, sc.org, input.payer, input.amount, sc.defaultItem, stamp)
    else if d.status == Matched && d.sale.Some? then Success(MarkSalePaid(l, d.sale.value))
    else Success(l)
  }

  /** applyPayment: the tenant transaction of one confirmation. */
  function ApplyPayment(l: Ledger, input: C2B, sc: Shortcode, a: Answers, stamp: Stamp, rules: set<Rule>): Outcome {
    var d := Decide(input, sc, a);
    var sale := if d.createCashSale then Some(|l.sales|) else d.sale;
    var settled := SettleDecision(l, input, sc, d, stamp);
    if settled.Failure? then settled
    else
      var p := Payment(sc.org, input.payer, input.amount, input.paidAt, d.status, sale, d.rule);
      var paid := CreatePayment(settled.value, input.transId, p, rules);
      if paid.Failure? || sale.None? || d.status == Partial then paid
      else CreateInvoiceForSale(paid.value, sale.value, Some(input.transId))
  }

  /* ------------------------------------------------ what the merchant can do */

  datatype Target =
    | ToSale(sale: SaleId)
    | ToLines(figures: Figures, customer: Option<string>)
    | ToItem(item: Option<DefaultItem>)

  /** The sale a conversion settles, after it. */
  function SettleTarget(l: Ledger, p: Payment, target: Target, stamp: Stamp): Outcome {
    match target
    case ToSale(s) => if IsOpen(l, p.org, s) then Success(MarkSalePaid(l, s)) else Failure(NotAnOpenSale)
    case ToLines(f, customer) => Success(AddSale(l, Sale(p.org, stamp.ref, Paid, customer, f, stamp.at)))
    case ToItem(item) => CreateCashSale(l, p.org, p.payer, p.amount, item, stamp)
  }

  /** AttachPaymentToSale. */
  function Attach(l: Ledger, t: TransId, s: SaleId, status: Status): Ledger
    requires t in l.payments
  {
    l.(payments := l.payments[t := l.payments[t].(sale := Some(s), status := status, rule := Some(Manual))])
  }

  /** convertPayment: an unmatched or partial payment gets a sale and its invoice. */
  function Convert(l: Ledger, t: TransId, target: Target, stamp: Stamp): Outcome {
    if t !in l.payments then Failure(NotFound)
    else
      var p := l.payments[t];
      if p.status != Unmatched && p.status != Partial then Failure(Duplicate)
      else
        var settled := SettleTarget(l, p, target, stamp);
        var s := if target.ToSale? then target.sale else |l.sales|;
        if settled.Failure? then settled
        else CreateInvoiceForSale(Attach(settled.value, t, s, if target.ToItem? then CashSale else Matched), s, Some(t))
  }

  /** The partial payments of a sale become matched. */
  function MatchPartials(l: Ledger, s: SaleId): Ledger {
    l.(payments := map t | t in l.payments ::
         if l.payments[t].sale == Some(s) && l.payments[t].status == Partial
         then l.payments[t].(status := Matched) else l.payments[t])
  }

  /** settleSale: the rest of an open sale is paid in cash. `last` is the sale's latest payment. */
  function Settle(l: Ledger, s: SaleId, last: Option<TransId>): Outcome {
    if s >= |l.sales| then Failure(NotFound)
    else if l.sales[s].status != Open then Failure(Duplicate)
    else CreateInvoiceForSale(MatchPartials(MarkSalePaid(l, s), s), s, last)
  }

  /** `last` may come last when a sale's payments are listed by time. */
  predicate IsLastPayment(l: Ledger, s: SaleId, last: Option<TransId>) {
    match last
    case Some(t) =>
      && t in l.payments && l.payments[t].sale == Some(s)
      && forall u | u in l.payments && l.payments[u].sale == Some(s) :: l.payments[u].paidAt <= l.payments[t].paidAt
    case None => forall u | u in l.payments :: l.payments[u].sale != Some(s)
  }

  /** createSale: an open sale, or a settled one with its invoice. */
  function CreateSale(l: Ledger, org: OrgId, customer: Option<string>, f: Figures, paid: bool, stamp: Stamp): Outcome {
    var l1 := AddSale(l, Sale(org, stamp.ref, if paid then Paid else Open, customer, f, stamp.at));
    if paid then CreateInvoiceForSale(l1, |l.sales|, None) else Success(l1)
  }

  /* ------------------------------------------------------ re-issue and credit */

  /** Follow superseded_by while it points to a stored, newer document. */
  function Head(docs: seq<Doc>, d: DocId): (h: DocId)
    requires d < |docs|
    ensures d <= h < |docs|
    decreases |docs| - d
  {
    if docs[d].supersededBy.Some? && d < docs[d].supersededBy.value < |docs|
    then Head(docs, docs[d].supersededBy.value)
    else d
  }

  /** ReissueInvoice: from any document of a family, the head is credited if it was acknowledged, and replaced. */
  function Reissue(l: Ledger, d: DocId): Outcome {
    if d >= |l.docs| then Failure(NotFound)
    else
      var h := Head(l.docs, d);
      var orig := l.docs[h];
      if orig.kind != Invoice then Failure(CannotReissueCreditNote)
      else if orig.acked then
        var n := |l.docs|;
        var cn := Doc(orig.sale, orig.payment, CreditNote, Some(h), None, MinusFigures(orig.figures), false);
        var inv := Doc(orig.sale, orig.payment, Invoice, Some(n), None, orig.figures, false);
        Success(Supersede(Supersede(AddDoc(AddDoc(l, cn), inv), h, n + 1), n, n + 1))
      else
        var inv := Doc(orig.sale, orig.payment, Invoice, Some(h), None, orig.figures, false);
        Success(Supersede(AddDoc(l, inv), h, |l.docs|))
  }

  predicate HasCreditNote(l: Ledger, d: DocId) {
    exists c :: 0 <= c < |l.docs| && l.docs[c].kind == CreditNote && l.docs[c].parent == Some(d)
  }

  function MarkReversed(l: Ledger, t: Option<TransId>): Ledger {
    if t.Some? && t.value in l.payments
    then l.(payments := l.payments[t.value := l.payments[t.value].(status := Reversed)])
    else l
  }

  /** CreateCreditNoteForInvoice: cancels an invoice that nothing supersedes yet. */
  function Credit(l: Ledger, d: DocId): Outcome {
    if d >= |l.docs| then Failure(NotFound)
    else
      var orig := l.docs[d];
      if orig.kind != Invoice then Failure(NotAnInvoice)
      else if orig.supersededBy.Some? then Failure(AlreadySuperseded)
      else if HasCreditNote(l, d) then Failure(CreditNoteExists)
      else
        var cn := Doc(orig.sale, orig.payment, CreditNote, Some(d), None, MinusAbsFigures(orig.figures), false);
        Success(MarkReversed(Supersede(AddDoc(l, cn), d, |l.docs|), orig.payment))
  }

  /** The newest INVOICE among the first `upTo` documents that `q` selects. */
  function Newest(docs: seq<Doc>, upTo: nat, q: Doc -> bool): Option<DocId>
    requires upTo <= |docs|
  {
    if upTo == 0 then None
    else if docs[upTo - 1].kind == Invoice && q(docs[upTo - 1]) then Some(upTo - 1)
    else Newest(docs, upTo - 1, q)
  }

  /** GetInvoiceByPayment, and GetInvoiceBySale when the payment has none. */
  function InvoiceOfPayment(l: Ledger, t: TransId): Option<DocId>
    requires t in l.payments
  {
    var own := Newest(l.docs, |l.docs|, (d: Doc) => d.payment == Some(t));
    if own.Some? then own
    else if l.payments[t].sale.Some? then
      var s := l.payments[t].sale.value;
      Newest(l.docs, |l.docs|, (d: Doc) => d.sale == s)
    else None
  }

  /** IngestReversal: a reversed payment cancels its invoice. An existing credit note counts as success. */
  function Reverse(l: Ledger, t: TransId): Outcome {
    if t !in l.payments then Failure(NotFound)
    else
      var d := InvoiceOfPayment(l, t);
      if d.None? then Failure(NotFound)
      else
        var r := Credit(l, d.value);
        if r == Failure(CreditNoteExists) then Success(l) else r
  }

  /* --------------------------------------------------------------------- runs */

  datatype Op =
    | Ingest(input: C2B, sc: Shortcode, answers: Answers, stamp: Stamp)
    | ConvertPayment(t: TransId, target: Target, convertStamp: Stamp)
    | SettleSale(sale: SaleId, last: Option<TransId>)
    | NewSale(org: OrgId, customer: Option<string>, figures: Figures, paid: bool, saleStamp: Stamp)
    | ReissueDoc(doc: DocId)
    | CreditDoc(credited: DocId)
    | ReversePayment(reversed: TransId)
    | AckDoc(acked: DocId)                 // the fiscal machine acknowledged a document

  function Acknowledge(l: Ledger, d: DocId): Outcome {
    if d >= |l.docs| then Failure(NotFound) else Success(l.(docs := l.docs[d := l.docs[d].(acked := true)]))
  }

  /** One transaction; `rules` are the match rules the schema admits. */
  function Apply(l: Ledger, op: Op, rules: set<Rule>): Outcome {
    match op
    case Ingest(input, sc, a, stamp) => ApplyPayment(l, input, sc, a, stamp, rules)
    case ConvertPayment(t, target, stamp) => Convert(l, t, target, stamp)
    case SettleSale(s, last) => Settle(l, s, last)
    case NewSale(org, customer, f, paid, stamp) => CreateSale(l, org, customer, f, paid, stamp)
    case ReissueDoc(d) => Reissue(l, d)
    case CreditDoc(d) => Credit(l, d)
    case ReversePayment(t) => Reverse(l, t)
    case AckDoc(d) => Acknowledge(l, d)
  }

  /** A failed transaction is rolled back: it leaves the ledger as it was. */
  function Step(l: Ledger, op: Op, rules: set<Rule>): Ledger {
    var r := Apply(l, op, rules);
    if r.Success? then r.value else l
  }

  /** The database answers truthfully to the lookups of a transaction. */
  ghost predicate Possible(l: Ledger, op: Op) {
    match op
    case Ingest(input, sc, answers, _) => Truthful(l, sc.org, input, answers)
    case SettleSale(s, last) => IsLastPayment(l, s, last)
    case _ => true
  }

  const EMPTY := Ledger([], map[], [])

  ghost predicate Run(l: Ledger, ops: seq<Op>, rules: set<Rule>)
    decreases |ops|
  {
    ops == [] || (Possible(l, ops[0]) && Run(Step(l, ops[0], rules), ops[1..], rules))
  }

  function End(l: Ledger, ops: seq<Op>, rules: set<Rule>): Ledger
    decreases |ops|
  {
    if ops == [] then l else End(Step(l, ops[0], rules), ops[1..], rules)
  }
}
