/**
  What single ledger transactions achieve, in terms of the family, the sale and
  the payment they act on.
 */
module LedgerEffects {
  import opened Prelude
  import opened Matcher
  import opened Vat
  import opened Ledger
  import LedgerPaid
  import opened LedgerFamilies

  /** A cash sale adds up, its tax is the one nearest integer to the VAT it contains, and no figure is negative. */
  lemma CashFiguresAddUp(amount: nat, c: TaxCategory, x: int)
    ensures var f := CashFigures(amount, c); var r := RateBP(c);
      && f.total == amount && f.subtotal + f.tax == f.total && 0 <= f.tax && 0 <= f.subtotal
      && (x == f.tax <==> 2 * AbsInt(x * (10000 + r) - amount * r) <= 10000 + r)
  {
    LineTaxInRange(amount, RateBP(c));
    LineTaxIsTheNearest(amount, c, x);
  }

  /** With truthful lookups a payment is matched only to a sale it covers, and partial only on one it does not. */
  lemma MatchedMeansCovered(l: Ledger, input: C2B, sc: Shortcode, a: Answers)
    requires Truthful(l, sc.org, input, a)
    ensures var d := Decide(input, sc, a);
      && (d.sale.Some? ==> d.sale.value < |l.sales|)
      && (d.status == Matched ==> input.amount >= l.sales[d.sale.value].figures.total)
      && (d.status == Partial ==> input.amount < l.sales[d.sale.value].figures.total)
      && (d.status == Unmatched && input.billRef != "" ==> forall s: SaleId :: s < |l.sales| ==> !AnswersRef(l, sc.org, input.billRef, s))
  {
    assert forall s: SaleId :: ByRef(l, sc.org, input)(s) == AnswersRef(l, sc.org, input.billRef, s);
  }

  /* ------------------------------------------------------------------- matching */

  /** The same letter, in either case. */
  predicate SameLetter(c: char, d: char) {
    || c == d
    || ('a' <= c <= 'z' && d as int == c as int - 32)
    || ('A' <= c <= 'Z' && d as int == c as int + 32)
  }

  predicate SameText(a: string, b: string) {
    |a| == |b| && forall i :: 0 <= i < |a| ==> SameLetter(a[i], b[i])
  }

  /** References match whatever the case of their letters, and only then. */
  lemma RefsMatchInAnyCase(a: string, b: string)
    ensures SameRef(a, b) <==> SameText(a, b)
  {
    forall i | 0 <= i < |a| && i < |b| ensures UpperChar(a[i]) == UpperChar(b[i]) <==> SameLetter(a[i], b[i]) {
      UpperOfBoth(a[i], b[i]);
    }
  }

  lemma UpperOfBoth(c: char, d: char)
    ensures UpperChar(c) == UpperChar(d) <==> SameLetter(c, d)
  {
  }

  /** An open sale of the seller whose reference the payer typed, in any case, is found first; and only such a sale is found by reference. */
  lemma ReferenceDecides(l: Ledger, input: C2B, sc: Shortcode, a: Answers, s: SaleId)
    requires Truthful(l, sc.org, input, a)
    ensures var d := Decide(input, sc, a);
      && (input.billRef != "" && IsOpen(l, sc.org, s) && SameText(l.sales[s].ref, input.billRef) ==> d.rule == Some(BillRef))
      && (d.rule == Some(BillRef) ==> d.sale.Some? && IsOpen(l, sc.org, d.sale.value) && SameText(l.sales[d.sale.value].ref, input.billRef))
  {
    assert ByRef(l, sc.org, input)(s) == AnswersRef(l, sc.org, input.billRef, s);
    if s < |l.sales| { RefsMatchInAnyCase(l.sales[s].ref, input.billRef); }
    if a.byRef.Some? { RefsMatchInAnyCase(l.sales[a.byRef.value.sale].ref, input.billRef); }
  }

  /** An open sale of the seller made at most 300 seconds before the payment, to the same customer or for the same amount. */
  predicate AtTheCounter(l: Ledger, org: OrgId, input: C2B, s: SaleId) {
    && IsOpen(l, org, s) && l.sales[s].createdAt >= input.paidAt - 300
    && ((input.payer.Some? && l.sales[s].customer == input.payer) || l.sales[s].figures.total == input.amount)
  }

  /** The counter rules name such a sale, and without a match by reference they always find one when there is one. */
  lemma CounterDecides(l: Ledger, input: C2B, sc: Shortcode, a: Answers, s: SaleId)
    requires Truthful(l, sc.org, input, a)
    ensures var d := Decide(input, sc, a);
      && (d.rule == Some(CounterWindow) ==> d.sale.Some? && AtTheCounter(l, sc.org, input, d.sale.value))
      && (AtTheCounter(l, sc.org, input, s) ==> d.rule == Some(BillRef) || d.rule == Some(CounterWindow))
  {
    assert ByCustomer(l, sc.org, input)(s) == AnswersCustomer(l, sc.org, input.payer, input.paidAt - COUNTER_WINDOW, s);
    assert ByAmount(l, sc.org, input)(s) == AnswersAmount(l, sc.org, input.amount, input.paidAt - COUNTER_WINDOW, s);
  }

  predicate CustomerAt(l: Ledger, org: OrgId, input: C2B, s: SaleId) {
    IsOpen(l, org, s) && l.sales[s].createdAt >= input.paidAt - 300 && input.payer.Some? && l.sales[s].customer == input.payer
  }

  predicate AmountAt(l: Ledger, org: OrgId, input: C2B, s: SaleId) {
    IsOpen(l, org, s) && l.sales[s].createdAt >= input.paidAt - 300 && l.sales[s].figures.total == input.amount
  }

  /** The customer comes before the amount, and the latest sale before older ones. */
  lemma CounterOrder(l: Ledger, input: C2B, sc: Shortcode, a: Answers, s: SaleId)
    requires Truthful(l, sc.org, input, a) && Decide(input, sc, a).rule == Some(CounterWindow)
    ensures var c := Decide(input, sc, a).sale;
      && c.Some? && c.value < |l.sales|
      && (CustomerAt(l, sc.org, input, s) ==> CustomerAt(l, sc.org, input, c.value) && l.sales[s].createdAt <= l.sales[c.value].createdAt)
      && (AmountAt(l, sc.org, input, s) && !CustomerAt(l, sc.org, input, c.value) ==> l.sales[s].createdAt <= l.sales[c.value].createdAt)
  {
    assert ByCustomer(l, sc.org, input)(s) == AnswersCustomer(l, sc.org, input.payer, input.paidAt - COUNTER_WINDOW, s);
    assert ByAmount(l, sc.org, input)(s) == AnswersAmount(l, sc.org, input.amount, input.paidAt - COUNTER_WINDOW, s);
  }

  /* --------------------------------------------------------------------- ingest */

  /** The schema admits every rule but the counter's. */
  lemma SchemaAdmits(r: Rule)
    ensures r in SCHEMA_RULES <==> r != CounterWindow
  {
  }

  /** Exactly when a confirmation is recorded: a positive amount, a new id, a rule the schema admits, and a usable item where a cash sale is due. */
  lemma RecordedExactly(l: Ledger, input: C2B, sc: Shortcode, a: Answers, stamp: Stamp, rules: set<Rule>)
    requires Truthful(l, sc.org, input, a)
    ensures var d := Decide(input, sc, a);
      ApplyPayment(l, input, sc, a, stamp, rules).Success? <==>
        && input.amount > 0 && input.transId !in l.payments && (d.rule.Some? ==> d.rule.value in rules)
        && (d.createCashSale ==> sc.defaultItem.Some? && sc.defaultItem.value.Usable?)
  {
    LedgerPaid.MatchesAreOpen(l, input, sc, a);
  }

  /** What is recorded of a confirmation, as it was delivered; every other payment is as before. */
  lemma PaymentAsDelivered(l: Ledger, input: C2B, sc: Shortcode, a: Answers, stamp: Stamp, rules: set<Rule>, m: Ledger)
    requires Truthful(l, sc.org, input, a) && ApplyPayment(l, input, sc, a, stamp, rules) == Success(m)
    ensures var d := Decide(input, sc, a); var sale := if d.createCashSale then Some(|l.sales|) else d.sale;
      && m.payments == l.payments[input.transId := Payment(sc.org, input.payer, input.amount, input.paidAt, d.status, sale, d.rule)]
  {
  }

  /** What it does to sales and documents: nothing for an unmatched or partial payment, else the sale it names is paid and invoiced. */
  lemma IngestEffect(l: Ledger, input: C2B, sc: Shortcode, a: Answers, stamp: Stamp, rules: set<Rule>, m: Ledger)
    requires Truthful(l, sc.org, input, a) && ApplyPayment(l, input, sc, a, stamp, rules) == Success(m)
    ensures var d := Decide(input, sc, a);
      && (d.status == Unmatched || d.status == Partial ==> m.sales == l.sales && m.docs == l.docs)
      && (d.status == Matched ==>
            && d.sale.Some? && d.sale.value < |l.sales| && l.sales[d.sale.value].status == Open
            && m.sales == l.sales[d.sale.value := l.sales[d.sale.value].(status := Paid)]
            && m.docs == l.docs + [Doc(d.sale.value, Some(input.transId), Invoice, None, None, l.sales[d.sale.value].figures, false)])
      && (d.status == CashSale ==>
            && |m.sales| == |l.sales| + 1 && m.sales[..|l.sales|] == l.sales
            && m.docs == l.docs + [Doc(|l.sales|, Some(input.transId), Invoice, None, None, m.sales[|l.sales|].figures, false)]
            && var s := m.sales[|l.sales|];
               s.org == sc.org && s.ref == stamp.ref && s.status == Paid && s.customer == input.payer && s.createdAt == stamp.at && s.figures.total == input.amount)
  {
    LedgerPaid.MatchesAreOpen(l, input, sc, a);
  }

  /** A sale entered by hand is stored as entered; a paid one gets its original invoice, without a payment. */
  lemma CreateSaleEffect(l: Ledger, org: OrgId, customer: Option<string>, f: Figures, paid: bool, stamp: Stamp)
    ensures var r := CreateSale(l, org, customer, f, paid, stamp);
      && r.Success? && r.value.payments == l.payments
      && r.value.sales == l.sales + [Sale(org, stamp.ref, if paid then Paid else Open, customer, f, stamp.at)]
      && r.value.docs == if paid then l.docs + [Doc(|l.sales|, None, Invoice, None, None, f, false)] else l.docs
  {
  }

  /** The payments of a settled sale are all used, the sale is paid, and its one original is backed by the latest of them. */
  lemma SettleEffect(l: Ledger, s: SaleId, last: Option<TransId>, m: Ledger)
    requires LedgerPaid.Inv(l) && IsLastPayment(l, s, last) && Settle(l, s, last) == Success(m)
    ensures !LedgerPaid.SaleIsPaid(l, s) && LedgerPaid.SaleIsPaid(m, s) && LedgerPaid.Inv(m)
    ensures LedgerPaid.IsOriginal(m, |l.docs|, s) && m.docs[|l.docs|].payment == last && m.docs[|l.docs|].figures == l.sales[s].figures
    ensures m.payments.Keys == l.payments.Keys
    ensures forall t :: t in m.payments ==> m.payments[t].amount == l.payments[t].amount && m.payments[t].sale == l.payments[t].sale
    ensures forall t :: t in m.payments && m.payments[t].sale == Some(s) ==> m.payments[t].status == Matched
    ensures forall t :: t in m.payments && m.payments[t].sale != Some(s) ==> m.payments[t] == l.payments[t]
  {
    LedgerPaid.SettleKeeps(l, s, last);
    forall t | t in l.payments && l.payments[t].sale == Some(s) ensures l.payments[t].status == Partial {
      assert LedgerPaid.PaymentTrail(l, l.payments[t]);
    }
  }

  /** A conversion succeeds exactly for a payment that awaits a sale and a target that is there; then both are settled together. */
  lemma ConvertEffect(l: Ledger, t: TransId, target: Target, stamp: Stamp)
    requires LedgerPaid.Inv(l)
    ensures Convert(l, t, target, stamp).Success? <==>
      && t in l.payments && LedgerPaid.Awaiting(l.payments[t])
      && (target.ToSale? ==> IsOpen(l, l.payments[t].org, target.sale))
      && (target.ToItem? ==> target.item.Some? && target.item.value.Usable?)
    ensures Convert(l, t, target, stamp).Success? ==>
      var m := Convert(l, t, target, stamp).value; var s := if target.ToSale? then target.sale else |l.sales|;
      && LedgerPaid.Used(m, t, s) && LedgerPaid.SaleIsPaid(m, s) && !LedgerPaid.SaleIsPaid(l, s)
      && LedgerPaid.IsOriginal(m, |l.docs|, s) && m.docs[|l.docs|].payment == Some(t)
      && (forall u :: u in l.payments && u != t ==> u in m.payments && m.payments[u] == l.payments[u])
      && m.payments[t] == l.payments[t].(sale := Some(s), status := if target.ToItem? then CashSale else Matched, rule := Some(Manual))
      && m.docs[|l.docs|].figures == m.sales[s].figures
      && (target.ToLines? ==> m.sales[s].figures == target.figures && m.sales[s].customer == target.customer)
      && (target.ToItem? ==> m.sales[s].figures.total == l.payments[t].amount && m.sales[s].customer == l.payments[t].payer)
      && (!target.ToSale? ==> m.sales[s].org == l.payments[t].org && m.sales[s].ref == stamp.ref)
  {
  }

  /** A re-issue succeeds exactly when the family's head is an invoice; a new invoice with the same sale, payment and figures becomes the head. */
  lemma ReissueEffect(l: Ledger, d: DocId)
    requires LedgerFamilies.Inv(l) && d < |l.docs|
    ensures Reissue(l, d).Success? <==> l.docs[Head(l.docs, d)].kind == Invoice
    ensures Reissue(l, d).Success? ==>
      var m := Reissue(l, d).value; var h := Head(l.docs, d); var n := |m.docs| - 1;
      && m.sales == l.sales && m.payments == l.payments
      && |m.docs| == |l.docs| + (if l.docs[h].acked then 2 else 1)
      && Head(m.docs, d) == n && m.docs[n].kind == Invoice && !m.docs[n].acked
      && m.docs[n].sale == l.docs[h].sale && m.docs[n].payment == l.docs[h].payment && m.docs[n].figures == l.docs[h].figures
      && m.docs[n].parent == Some(if l.docs[h].acked then n - 1 else h)
      && (l.docs[h].acked ==> IsCreditFor(m.docs, n - 1, h) && m.docs[n - 1].figures == MinusFigures(l.docs[h].figures))
      && (forall e: DocId :: e < |l.docs| && e != h ==> m.docs[e] == l.docs[e])
  {
    if Reissue(l, d).Success? {
      LedgerFamilies.StepKeeps(l, ReissueDoc(d), {});
      NewHead(l, d, Reissue(l, d).value);
    }
  }

  lemma NewHead(l: Ledger, d: DocId, m: Ledger)
    requires Family(l.docs) && Family(m.docs) && Reissue(l, d) == Success(m)
    ensures d < |m.docs| && Head(m.docs, d) == |m.docs| - 1
  {
    ChainEndsInHead(l.docs, d);
    ChainEndsInHead(m.docs, d);
    assert IsHead(m.docs, |m.docs| - 1, l.docs[d].sale);
  }

  /** An acknowledgement marks its document and nothing else; from then on a re-issue of it is credited first. */
  lemma AckEffect(l: Ledger, d: DocId)
    ensures Acknowledge(l, d).Success? <==> d < |l.docs|
    ensures d < |l.docs| ==>
      var m := Acknowledge(l, d).value;
      && m.sales == l.sales && m.payments == l.payments && |m.docs| == |l.docs| && m.docs[d].acked
      && forall e: DocId :: e < |l.docs| ==> m.docs[e] == l.docs[e].(acked := m.docs[e].acked) && (e != d ==> m.docs[e] == l.docs[e])
  {
  }

  /** A credit note succeeds exactly on an unsuperseded invoice; it becomes the head, and only the invoice's payment is marked reversed. */
  lemma CreditEffect(l: Ledger, d: DocId)
    requires LedgerFamilies.Inv(l)
    ensures Credit(l, d).Success? <==> d < |l.docs| && l.docs[d].kind == Invoice && l.docs[d].supersededBy.None?
    ensures Credit(l, d).Success? ==>
      var m := Credit(l, d).value; var n := |l.docs|;
      && m.sales == l.sales && |m.docs| == n + 1
      && Head(m.docs, d) == n && IsCreditFor(m.docs, n, d) && m.docs[n].figures == MinusAbsFigures(l.docs[d].figures)
      && m.payments.Keys == l.payments.Keys
      && (forall t :: t in l.payments ==>
            m.payments[t] == if l.docs[d].payment == Some(t) then l.payments[t].(status := Reversed) else l.payments[t])
      && (forall e: DocId :: e < n && e != d ==> m.docs[e] == l.docs[e])
  {
    if d < |l.docs| && l.docs[d].kind == Invoice {
      CreditAnswers(l, d);
    }
  }
}
