/**
  Paid exactly when invoiced: over every run of ingests, conversions,
  settlements, new sales, re-issues, credit notes and reversals.
 */
module LedgerPaid {
  import opened Prelude
  import opened Matcher
  import opened Ledger

  /** The original invoice of a sale: it replaces no other document. */
  predicate IsOriginal(l: Ledger, d: DocId, s: SaleId) {
    d < |l.docs| && l.docs[d].kind == Invoice && l.docs[d].parent.None? && l.docs[d].sale == s
  }

  ghost function Originals(l: Ledger, s: SaleId): set<DocId> {
    set d: DocId | d < |l.docs| && IsOriginal(l, d, s)
  }

  ghost predicate OneOriginalWhenPaid(l: Ledger) {
    && (forall s: SaleId :: SaleIsPaid(l, s) ==> exists d: DocId :: IsOriginal(l, d, s))
    && (forall s: SaleId, d: DocId, e: DocId :: IsOriginal(l, d, s) && IsOriginal(l, e, s) ==> d == e)
  }

  predicate Awaiting(p: Payment) {
    p.status == Unmatched || p.status == Partial
  }

  predicate SaleIsPaid(l: Ledger, s: SaleId) {
    s < |l.sales| && l.sales[s].status == Paid
  }

  /** Every document belongs to a paid sale, and its payment was used for that same sale. */
  predicate DocTrail(l: Ledger, d: Doc) {
    && SaleIsPaid(l, d.sale)
    && (d.payment.Some? ==>
          && d.payment.value in l.payments
          && l.payments[d.payment.value].sale == Some(d.sale)
          && !Awaiting(l.payments[d.payment.value]))
  }

  /** A cash sale is worth exactly the payment that made it. */
  predicate CashTrail(l: Ledger, p: Payment) {
    p.status == CashSale && p.sale.Some? && p.sale.value < |l.sales| ==> l.sales[p.sale.value].figures.total == p.amount
  }

  /** Only an unmatched payment has no sale; only a partial one may have a sale that is not paid. */
  predicate PaymentTrail(l: Ledger, p: Payment) {
    && p.amount > 0 && CashTrail(l, p)
    && (p.sale.None? <==> p.status == Unmatched)
    && (p.sale.Some? ==> p.sale.value < |l.sales|)
    && (p.sale.Some? && p.status != Partial ==> SaleIsPaid(l, p.sale.value))
  }

  ghost predicate Inv(l: Ledger) {
    && OneOriginalWhenPaid(l)
    && (forall d: DocId :: d < |l.docs| ==> DocTrail(l, l.docs[d]))
    && (forall t :: t in l.payments ==> PaymentTrail(l, l.payments[t]))
  }

  /* ---------------------------------------------------------------- one step */

  /** With truthful lookups the matcher only ever names an open sale. */
  lemma MatchesAreOpen(l: Ledger, input: C2B, sc: Shortcode, a: Answers)
    requires Truthful(l, sc.org, input, a)
    ensures var d := Decide(input, sc, a); d.sale.Some? ==> IsOpen(l, sc.org, d.sale.value)
  {
  }

  lemma IngestKeeps(l: Ledger, input: C2B, sc: Shortcode, a: Answers, stamp: Stamp, rules: set<Rule>)
    requires Inv(l) && Truthful(l, sc.org, input, a)
    requires ApplyPayment(l, input, sc, a, stamp, rules).Success?
    ensures Inv(ApplyPayment(l, input, sc, a, stamp, rules).value)
  {
    MatchesAreOpen(l, input, sc, a);
    var d := Decide(input, sc, a);
    MatchShape(input.amount, input.billRef != "", input.payer.Some?, sc.autoInvoice, sc.defaultItem.Some?, a);
    var sale := if d.createCashSale then Some(|l.sales|) else d.sale;
    var p := Payment(sc.org, input.payer, input.amount, input.paidAt, d.status, sale, d.rule);
    RecordKeeps(l, SettleDecision(l, input, sc, d, stamp).value, input.transId, p);
  }

  /** Sales are only added, and keep their figures. */
  predicate KeepsFigures(l: Ledger, m: Ledger) {
    |l.sales| <= |m.sales| && forall s: SaleId :: s < |l.sales| ==> m.sales[s].figures == l.sales[s].figures
  }

  /** A new payment, and the invoice of the sale it settles. */
  lemma RecordKeeps(l: Ledger, m: Ledger, t: TransId, p: Payment)
    requires Inv(l) && (t in l.payments ==> Awaiting(l.payments[t])) && m.docs == l.docs && m.payments == l.payments
    requires (p.sale.None? <==> p.status == Unmatched) && p.amount > 0 && CashTrail(m, p) && KeepsFigures(l, m)
    requires p.sale.Some? ==> p.sale.value < |m.sales| && !SaleIsPaid(l, p.sale.value)
    requires forall s: SaleId :: SaleIsPaid(m, s) <==> SaleIsPaid(l, s) || (p.status != Partial && p.sale == Some(s))
    ensures var n := m.(payments := m.payments[t := p]);
      Inv(if p.sale.None? || p.status == Partial then n else CreateInvoiceForSale(n, p.sale.value, Some(t)).value)
  {
    var n := m.(payments := m.payments[t := p]);
    RecordKeepsTrails(l, m, t, p);
    if p.sale.None? || p.status == Partial {
      SameOriginals(l, n);
    } else {
      var i := CreateInvoiceForSale(n, p.sale.value, Some(t)).value;
      assert forall d: DocId :: d < |n.docs| ==> DocTrail(n, n.docs[d]) && DocTrail(i, n.docs[d]);
      assert forall u :: u in n.payments ==> PaymentTrail(n, n.payments[u]) && PaymentTrail(i, n.payments[u]);
      InvoiceKeepsOriginals(l, i);
    }
  }

  lemma RecordKeepsTrails(l: Ledger, m: Ledger, t: TransId, p: Payment)
    requires Inv(l) && (t in l.payments ==> Awaiting(l.payments[t])) && m.docs == l.docs && m.payments == l.payments
    requires (p.sale.None? <==> p.status == Unmatched) && p.amount > 0 && CashTrail(m, p) && KeepsFigures(l, m)
    requires p.sale.Some? ==> p.sale.value < |m.sales|
    requires forall s: SaleId :: SaleIsPaid(m, s) <==> SaleIsPaid(l, s) || (p.status != Partial && p.sale == Some(s))
    ensures var n := m.(payments := m.payments[t := p]);
      && (forall d: DocId :: d < |n.docs| ==> DocTrail(n, n.docs[d]))
      && (forall u :: u in n.payments ==> PaymentTrail(n, n.payments[u]))
  {
    var n := m.(payments := m.payments[t := p]);
    forall d: DocId | d < |n.docs| ensures DocTrail(n, n.docs[d]) { assert DocTrail(l, l.docs[d]); }
    forall u | u in n.payments ensures PaymentTrail(n, n.payments[u]) { assert u != t ==> PaymentTrail(l, l.payments[u]); }
  }

  /** A first invoice for a sale that had none and is now paid, or is new and paid. */
  lemma InvoiceKeepsOriginals(l: Ledger, m: Ledger)
    requires Inv(l)
    requires |m.docs| == |l.docs| + 1 && m.docs[..|l.docs|] == l.docs
    requires var d := m.docs[|l.docs|];
      && d.kind == Invoice && d.parent.None? && !SaleIsPaid(l, d.sale) && SaleIsPaid(m, d.sale)
      && (forall s: SaleId :: SaleIsPaid(m, s) <==> SaleIsPaid(l, s) || s == d.sale)
    ensures OneOriginalWhenPaid(m)
  {
    assert forall d: DocId :: d < |l.docs| ==> m.docs[d] == m.docs[..|l.docs|][d];
    assert forall d: DocId, s: SaleId :: IsOriginal(m, d, s) <==> IsOriginal(l, d, s) || (d == |l.docs| && s == m.docs[d].sale);
    assert forall d: DocId, s: SaleId :: IsOriginal(l, d, s) ==> SaleIsPaid(l, s);
    forall s: SaleId | SaleIsPaid(m, s) ensures exists d: DocId :: IsOriginal(m, d, s) {
      if SaleIsPaid(l, s) {
        var d: DocId :| IsOriginal(l, d, s);
        assert IsOriginal(m, d, s);
      } else {
        assert IsOriginal(m, |l.docs|, s);
      }
    }
  }

  lemma SameOriginals(l: Ledger, m: Ledger)
    requires OneOriginalWhenPaid(l)
    requires forall s: SaleId :: SaleIsPaid(m, s) <==> SaleIsPaid(l, s)
    requires forall d: DocId, s: SaleId :: IsOriginal(m, d, s) <==> IsOriginal(l, d, s)
    ensures OneOriginalWhenPaid(m)
  {
    forall s: SaleId | SaleIsPaid(m, s) ensures exists d: DocId :: IsOriginal(m, d, s) {
      var d: DocId :| IsOriginal(l, d, s);
      assert IsOriginal(m, d, s);
    }
  }

  lemma ConvertKeeps(l: Ledger, t: TransId, target: Target, stamp: Stamp)
    requires Inv(l) && Convert(l, t, target, stamp).Success?
    ensures Inv(Convert(l, t, target, stamp).value)
  {
    var p := l.payments[t];
    assert PaymentTrail(l, p);
    var s := if target.ToSale? then target.sale else |l.sales|;
    var q := p.(sale := Some(s), status := if target.ToItem? then CashSale else Matched, rule := Some(Manual));
    RecordKeeps(l, SettleTarget(l, p, target, stamp).value, t, q);
  }

  lemma SettleKeeps(l: Ledger, s: SaleId, last: Option<TransId>)
    requires Inv(l) && IsLastPayment(l, s, last) && Settle(l, s, last).Success?
    ensures Inv(Settle(l, s, last).value)
  {
    var m := Settle(l, s, last).value;
    forall d: DocId | d < |m.docs| ensures DocTrail(m, m.docs[d]) { if d < |l.docs| { assert DocTrail(l, l.docs[d]); } }
    forall t | t in m.payments ensures PaymentTrail(m, m.payments[t]) { assert PaymentTrail(l, l.payments[t]); }
    InvoiceKeepsOriginals(l, m);
  }

  lemma CreateSaleKeeps(l: Ledger, org: OrgId, customer: Option<string>, f: Figures, paid: bool, stamp: Stamp)
    requires Inv(l)
    ensures var r := CreateSale(l, org, customer, f, paid, stamp); r.Success? && Inv(r.value)
  {
    var m := CreateSale(l, org, customer, f, paid, stamp).value;
    if paid {
      InvoiceKeepsOriginals(l, m);
    } else {
      SameOriginals(l, m);
    }
  }

  /** Documents that replace or cancel others are no originals, and follow the same sale and payment. */
  lemma DerivedDocsKeep(l: Ledger, m: Ledger)
    requires Inv(l) && m.sales == l.sales && m.payments == l.payments
    requires |l.docs| <= |m.docs|
    requires forall d: DocId :: d < |l.docs| ==> SameTrail(l.docs[d], m.docs[d])
    requires forall d: DocId :: |l.docs| <= d < |m.docs| ==> m.docs[d].parent.Some? && DocTrail(l, m.docs[d])
    ensures Inv(m)
  {
    forall d: DocId, s: SaleId ensures IsOriginal(m, d, s) <==> IsOriginal(l, d, s) {
      if d < |l.docs| { assert SameTrail(l.docs[d], m.docs[d]); }
    }
    SameOriginals(l, m);
    forall d: DocId | d < |m.docs| ensures DocTrail(m, m.docs[d]) {
      if d < |l.docs| { assert DocTrail(l, l.docs[d]) && SameTrail(l.docs[d], m.docs[d]); }
    }
    assert forall t :: t in m.payments ==> PaymentTrail(l, m.payments[t]) && PaymentTrail(m, m.payments[t]);
  }

  predicate SameTrail(d: Doc, e: Doc) {
    d.sale == e.sale && d.payment == e.payment && d.kind == e.kind && d.parent == e.parent
  }

  lemma ReissueKeeps(l: Ledger, d: DocId)
    requires Inv(l) && Reissue(l, d).Success?
    ensures Inv(Reissue(l, d).value)
  {
    assert DocTrail(l, l.docs[Head(l.docs, d)]);
    DerivedDocsKeep(l, Reissue(l, d).value);
  }

  lemma CreditKeeps(l: Ledger, d: DocId)
    requires Inv(l) && Credit(l, d).Success?
    ensures Inv(Credit(l, d).value)
  {
    var orig := l.docs[d];
    assert DocTrail(l, orig);
    var cn := Doc(orig.sale, orig.payment, CreditNote, Some(d), None, MinusAbsFigures(orig.figures), false);
    var m := Supersede(AddDoc(l, cn), d, |l.docs|);
    DerivedDocsKeep(l, m);
    ReversalKeeps(m, orig.payment);
  }

  lemma ReversalKeeps(l: Ledger, t: Option<TransId>)
    requires Inv(l)
    requires t.Some? && t.value in l.payments ==> !Awaiting(l.payments[t.value])
    ensures Inv(MarkReversed(l, t))
  {
    SameOriginals(l, MarkReversed(l, t));
  }

  lemma AcknowledgeKeeps(l: Ledger, d: DocId)
    requires Inv(l) && d < |l.docs|
    ensures Inv(Acknowledge(l, d).value)
  {
    DerivedDocsKeep(l, Acknowledge(l, d).value);
  }

  lemma StepKeeps(l: Ledger, op: Op, rules: set<Rule>)
    requires Inv(l) && Possible(l, op)
    ensures Inv(Step(l, op, rules))
  {
    if Apply(l, op, rules).Success? {
      match op
      case Ingest(input, sc, a, stamp) => IngestKeeps(l, input, sc, a, stamp, rules);
      case ConvertPayment(t, target, stamp) => ConvertKeeps(l, t, target, stamp);
      case SettleSale(s, last) => SettleKeeps(l, s, last);
      case NewSale(org, customer, f, paid, stamp) => CreateSaleKeeps(l, org, customer, f, paid, stamp);
      case ReissueDoc(d) => ReissueKeeps(l, d);
      case CreditDoc(d) => CreditKeeps(l, d);
      case ReversePayment(t) =>
        if Credit(l, InvoiceOfPayment(l, t).value).Success? { CreditKeeps(l, InvoiceOfPayment(l, t).value); }
      case AckDoc(d) => AcknowledgeKeeps(l, d);
    }
  }

  lemma {:induction false} RunKeeps(l: Ledger, ops: seq<Op>, rules: set<Rule>)
    requires Inv(l) && Run(l, ops, rules)
    ensures Inv(End(l, ops, rules))
    decreases |ops|
  {
    if ops != [] {
      StepKeeps(l, ops[0], rules);
      RunKeeps(Step(l, ops[0], rules), ops[1..], rules);
    }
  }

  /* ---------------------------------------------------------------- theorems */

  /** In every run a sale is paid exactly when it has one original invoice, and open exactly when it has none. */
  lemma PaidIffInvoiced(ops: seq<Op>, rules: set<Rule>, s: SaleId)
    requires Run(EMPTY, ops, rules) && s < |End(EMPTY, ops, rules).sales|
    ensures var l := End(EMPTY, ops, rules);
      && (l.sales[s].status == Paid <==> |Originals(l, s)| == 1)
      && (l.sales[s].status == Open <==> Originals(l, s) == {})
  {
    RunKeeps(EMPTY, ops, rules);
    var l := End(EMPTY, ops, rules);
    if l.sales[s].status == Paid {
      assert SaleIsPaid(l, s);
      var d: DocId :| IsOriginal(l, d, s);
      assert Originals(l, s) == {d};
    } else {
      assert Originals(l, s) == {};
    }
  }

  /** In every run a matched or cash-sale payment points to a paid sale, an unmatched one to none. */
  lemma UsedPaymentsArePaidFor(ops: seq<Op>, rules: set<Rule>, t: TransId)
    requires Run(EMPTY, ops, rules) && t in End(EMPTY, ops, rules).payments
    ensures var l := End(EMPTY, ops, rules); var p := l.payments[t];
      && (p.status == Matched || p.status == CashSale ==> p.sale.Some? && SaleIsPaid(l, p.sale.value))
      && (p.status == Unmatched <==> p.sale.None?)
  {
    RunKeeps(EMPTY, ops, rules);
  }

  /** In every run a cash sale is worth exactly its payment. */
  lemma CashSaleWorthItsPayment(ops: seq<Op>, rules: set<Rule>, t: TransId)
    requires Run(EMPTY, ops, rules) && t in End(EMPTY, ops, rules).payments
    ensures var l := End(EMPTY, ops, rules); var p := l.payments[t];
      && p.amount > 0
      && (p.status == CashSale ==> p.sale.Some? && p.sale.value < |l.sales| && l.sales[p.sale.value].figures.total == p.amount)
  {
    RunKeeps(EMPTY, ops, rules);
    var l := End(EMPTY, ops, rules);
    assert PaymentTrail(l, l.payments[t]);
  }

  /** In every run no payment backs the original invoices of two sales, nor any document while it awaits a sale. */
  lemma OneSalePerPayment(ops: seq<Op>, rules: set<Rule>, t: TransId, d: DocId, e: DocId)
    requires Run(EMPTY, ops, rules)
    requires var l := End(EMPTY, ops, rules);
      d < |l.docs| && e < |l.docs| && l.docs[d].payment == Some(t) && l.docs[e].payment == Some(t)
    ensures var l := End(EMPTY, ops, rules);
      && l.docs[d].sale == l.docs[e].sale
      && (IsOriginal(l, d, l.docs[d].sale) && IsOriginal(l, e, l.docs[e].sale) ==> d == e)
      && t in l.payments && !Awaiting(l.payments[t])
  {
    RunKeeps(EMPTY, ops, rules);
    var l := End(EMPTY, ops, rules);
    assert DocTrail(l, l.docs[d]) && DocTrail(l, l.docs[e]);
  }

  /* --------------------------------------------------- no second conversion */

  /** How often a run converts payment `t`. */
  function Conversions(l: Ledger, ops: seq<Op>, rules: set<Rule>, t: TransId): nat
    decreases |ops|
  {
    if ops == [] then 0
    else
      (if ops[0].ConvertPayment? && ops[0].t == t && Apply(l, ops[0], rules).Success? then 1 else 0)
      + Conversions(Step(l, ops[0], rules), ops[1..], rules, t)
  }

  /** A payment that has found its sale keeps it, and never awaits one again. */
  predicate Used(l: Ledger, t: TransId, s: SaleId) {
    t in l.payments && !Awaiting(l.payments[t]) && l.payments[t].sale == Some(s)
  }

  lemma UseIsFinal(l: Ledger, op: Op, rules: set<Rule>, t: TransId, s: SaleId)
    requires Used(l, t, s)
    ensures Used(Step(l, op, rules), t, s)
    ensures op.ConvertPayment? && op.t == t ==> Apply(l, op, rules) == Failure(Duplicate)
  {
  }

  lemma {:induction false} UsedNeverConverts(l: Ledger, ops: seq<Op>, rules: set<Rule>, t: TransId, s: SaleId)
    requires Used(l, t, s)
    ensures Conversions(l, ops, rules, t) == 0 && Used(End(l, ops, rules), t, s)
    decreases |ops|
  {
    if ops != [] {
      UseIsFinal(l, ops[0], rules, t, s);
      UsedNeverConverts(Step(l, ops[0], rules), ops[1..], rules, t, s);
    }
  }

  /** In every run a payment is converted at most once. */
  lemma {:induction false} ConvertedAtMostOnce(l: Ledger, ops: seq<Op>, rules: set<Rule>, t: TransId)
    ensures Conversions(l, ops, rules, t) <= 1
    decreases |ops|
  {
    if ops != [] {
      var m := Step(l, ops[0], rules);
      if ops[0].ConvertPayment? && ops[0].t == t && Apply(l, ops[0], rules).Success? {
        UsedNeverConverts(m, ops[1..], rules, t, m.payments[t].sale.value);
      } else {
        ConvertedAtMostOnce(m, ops[1..], rules, t);
      }
    }
  }

  /* ---------------------------------------------- the rule the schema forbids */

  /** An open sale of 100 cents made at the counter, and a payment of 100 cents without a reference a moment later. */
  const COUNTER_SALE := NewSale(0, None, Figures(100, 0, 100), false, Stamp("S-1", 0))
  const COUNTER_PAYMENT := C2B("T", "600000", 100, None, "", 60)
  const COUNTER_ANSWERS := Answers(None, None, Some(Candidate(0, 100)))

  /** The counter rules do decide payments of reachable ledgers. */
  lemma CounterWindowArises(rules: set<Rule>, sc: Shortcode)
    requires sc.org == 0
    ensures Run(EMPTY, [COUNTER_SALE], rules)
    ensures Truthful(End(EMPTY, [COUNTER_SALE], rules), 0, COUNTER_PAYMENT, COUNTER_ANSWERS)
    ensures Decide(COUNTER_PAYMENT, sc, COUNTER_ANSWERS).rule == Some(CounterWindow)
  {
    var l := Step(EMPTY, COUNTER_SALE, rules);
    assert [COUNTER_SALE][1..] == [];
    assert End(EMPTY, [COUNTER_SALE], rules) == End(l, [], rules);
    assert !SameRef("S-1", "");
    assert |l.sales| == 1;
    assert ByAmount(l, 0, COUNTER_PAYMENT)(0);
  }

  /**
    The payments table admits no counter_window rule, so a payment the counter
    rules decide is always refused by the schema and stays without effect; had
    the schema admitted the rule, the same payment would be recorded unless it
    is a duplicate.
   */
  lemma CounterWindowIsRefused(l: Ledger, input: C2B, sc: Shortcode, a: Answers, stamp: Stamp)
    requires Decide(input, sc, a).rule == Some(CounterWindow)
    ensures ApplyPayment(l, input, sc, a, stamp, SCHEMA_RULES) == Failure(CheckViolation)
    ensures Step(l, Ingest(input, sc, a, stamp), SCHEMA_RULES) == l
    ensures Truthful(l, sc.org, input, a) && input.amount > 0 ==>
      (ApplyPayment(l, input, sc, a, stamp, SCHEMA_RULES + {CounterWindow}).Success? <==> input.transId !in l.payments)
  {
  }
}
