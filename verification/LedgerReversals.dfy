/**
  Which invoice a reversed payment cancels: the one invoice of its sale that
  still stands, however often it was re-issued
  (backend/internal/ledger/service.go, IngestReversal).
 */
module LedgerReversals {
  import opened Prelude
  import opened Matcher
  import opened Ledger
  import LedgerPaid
  import opened LedgerFamilies

  /** All documents of a sale are backed by the same payment, or by none. */
  ghost predicate OnePayment(docs: seq<Doc>) {
    forall d: DocId, e: DocId :: d < |docs| && e < |docs| && docs[d].sale == docs[e].sale ==> docs[d].payment == docs[e].payment
  }

  ghost predicate Inv(l: Ledger) {
    LedgerFamilies.Inv(l) && OnePayment(l.docs)
  }

  lemma StepKeeps(l: Ledger, op: Op, rules: set<Rule>)
    requires Inv(l) && Possible(l, op)
    ensures Inv(Step(l, op, rules))
  {
    LedgerFamilies.StepKeeps(l, op, rules);
    var c := Classified(l, op, rules);
    ChangeKeepsPayment(l, c);
  }

  lemma ChangeKeepsPayment(l: Ledger, c: Change)
    requires Inv(l) && ChangeOk(l, c)
    ensures OnePayment(Changed(l, c))
  {
    assert forall e: DocId :: e < |l.docs| ==> LedgerPaid.DocTrail(l, l.docs[e]);
  }

  lemma {:induction false} RunKeeps(l: Ledger, ops: seq<Op>, rules: set<Rule>)
    requires Inv(l) && Run(l, ops, rules)
    ensures Inv(End(l, ops, rules))
    decreases |ops|
  {
    if ops != [] {
      StepKeeps(l, ops[0], rules);
      RunKeeps(Step(l, ops[0], rules), ops[1..], rules);
    }
  }

  /** The query's answer: an invoice it selects, and no newer one; or none when there is none. */
  lemma {:induction false} NewestIsLatest(docs: seq<Doc>, n: nat, q: Doc -> bool, d: DocId)
    requires n <= |docs| && d < n && docs[d].kind == Invoice && q(docs[d])
    ensures Newest(docs, n, q).Some? && d <= Newest(docs, n, q).value < n
    ensures var f := Newest(docs, n, q).value; docs[f].kind == Invoice && q(docs[f])
  {
    if d < n - 1 { NewestIsLatest(docs, n - 1, q, d); }
  }

  /** No document of a sale is newer than the sale's head. */
  lemma HeadIsLatest(docs: seq<Doc>, d: DocId)
    requires Family(docs) && d < |docs|
    ensures forall e: DocId :: e < |docs| && docs[e].sale == docs[d].sale ==> e <= Head(docs, d)
  {
    forall e: DocId | e < |docs| && docs[e].sale == docs[d].sale ensures e <= Head(docs, d) {
      ChainEndsInHead(docs, d);
      ChainEndsInHead(docs, e);
      assert Head(docs, e) == Head(docs, d);
    }
  }

  /** The invoice found for a payment with a sale is an invoice of that sale, and the head itself when the head is an invoice. */
  lemma FindsTheStandingInvoice(l: Ledger, t: TransId, d: DocId)
    requires Inv(l) && t in l.payments && d < |l.docs| && l.payments[t].sale == Some(l.docs[d].sale)
    ensures var f := InvoiceOfPayment(l, t); var h := Head(l.docs, d);
      && (f.Some? ==> f.value < |l.docs| && l.docs[f.value].kind == Invoice && l.docs[f.value].sale == l.docs[d].sale)
      && (l.docs[h].kind == Invoice ==> f == Some(h))
  {
    var s := l.docs[d].sale;
    var own, ofSale := (x: Doc) => x.payment == Some(t), (x: Doc) => x.sale == s;
    var h := Head(l.docs, d);
    ChainEndsInHead(l.docs, d);
    HeadIsLatest(l.docs, d);
    NewestFound(l.docs, |l.docs|, own);
    NewestFound(l.docs, |l.docs|, ofSale);
    var f := Newest(l.docs, |l.docs|, own);
    if f.Some? { assert LedgerPaid.DocTrail(l, l.docs[f.value]); }
    if l.docs[h].kind == Invoice {
      NewestIsLatest(l.docs, |l.docs|, ofSale, h);
      if f.Some? { NewestIsLatest(l.docs, |l.docs|, own, h); }
    }
  }

  /**
    In every run, from any document of a payment's sale: reversing the payment
    succeeds exactly when the head of the family is an invoice, and then the new
    credit note cancels that head.
   */
  lemma ReversalCreditsHead(ops: seq<Op>, rules: set<Rule>, t: TransId, d: DocId)
    requires Run(EMPTY, ops, rules)
    requires var l := End(EMPTY, ops, rules); t in l.payments && d < |l.docs| && l.payments[t].sale == Some(l.docs[d].sale)
    ensures var l := End(EMPTY, ops, rules); var h := Head(l.docs, d);
      && (Reverse(l, t).Success? <==> l.docs[h].kind == Invoice)
      && (Reverse(l, t).Success? ==> |Reverse(l, t).value.docs| == |l.docs| + 1 && IsCreditFor(Reverse(l, t).value.docs, |l.docs|, h))
      && (Reverse(l, t).Failure? ==> Reverse(l, t).error == AlreadySuperseded)
  {
    RunKeeps(EMPTY, ops, rules);
    ReversalFrom(End(EMPTY, ops, rules), t, d);
  }

  lemma ReversalFrom(l: Ledger, t: TransId, d: DocId)
    requires Inv(l) && t in l.payments && d < |l.docs| && l.payments[t].sale == Some(l.docs[d].sale)
    ensures var h := Head(l.docs, d);
      && (Reverse(l, t).Success? <==> l.docs[h].kind == Invoice)
      && (Reverse(l, t).Success? ==> |Reverse(l, t).value.docs| == |l.docs| + 1 && IsCreditFor(Reverse(l, t).value.docs, |l.docs|, h))
      && (Reverse(l, t).Failure? ==> Reverse(l, t).error == AlreadySuperseded)
  {
    var h := Head(l.docs, d);
    ChainEndsInHead(l.docs, d);
    FindsTheStandingInvoice(l, t, d);
    SaleHasAnInvoice(l, t, d);
    CreditAnswers(l, InvoiceOfPayment(l, t).value);
    if l.docs[h].kind != Invoice {
      SupersededUnlessHead(l.docs, InvoiceOfPayment(l, t).value, h);
    }
  }

  /** A payment that has found no sale, or none that is invoiced, has nothing to cancel. */
  lemma NothingToReverse(l: Ledger, t: TransId)
    requires Inv(l)
    requires t in l.payments && l.payments[t].sale.Some? ==> forall d: DocId :: d < |l.docs| ==> l.docs[d].sale != l.payments[t].sale.value
    ensures Reverse(l, t) == Failure(NotFound)
  {
    if t in l.payments {
      NewestFound(l.docs, |l.docs|, (x: Doc) => x.payment == Some(t));
      assert forall d: DocId :: d < |l.docs| ==> LedgerPaid.DocTrail(l, l.docs[d]);
      if l.payments[t].sale.Some? {
        var s := l.payments[t].sale.value;
        NewestFound(l.docs, |l.docs|, (x: Doc) => x.sale == s);
      }
    }
  }

  lemma SupersededUnlessHead(docs: seq<Doc>, f: DocId, h: DocId)
    requires Family(docs) && f < |docs| && f != h && IsHead(docs, h, docs[f].sale)
    ensures docs[f].supersededBy.Some?
  {
    if docs[f].supersededBy.None? { assert IsHead(docs, f, docs[f].sale); }
  }

  /** A sale with documents is paid and has its original, so some invoice is always found. */
  lemma SaleHasAnInvoice(l: Ledger, t: TransId, d: DocId)
    requires Inv(l) && t in l.payments && d < |l.docs| && l.payments[t].sale == Some(l.docs[d].sale)
    ensures InvoiceOfPayment(l, t).Some?
  {
    var s := l.docs[d].sale;
    assert LedgerPaid.DocTrail(l, l.docs[d]);
    var o: DocId :| LedgerPaid.IsOriginal(l, o, s);
    NewestIsLatest(l.docs, |l.docs|, (x: Doc) => x.sale == s, o);
  }

}
