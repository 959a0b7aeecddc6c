/**
  Document families: what re-issues, credit notes and reversals leave behind.
  The documents of a sale form one tree that leads to a single head, and their
  figures add up to what the sale owes.
 */
module LedgerFamilies {
  import opened Prelude
  import opened Matcher
  import opened Vat
  import opened Ledger
  import LedgerPaid

  /* --------------------------------------------------------------- the forest */

  /** superseded_by points to a newer document of the same sale. */
  predicate LinkOk(docs: seq<Doc>, d: DocId)
    requires d < |docs|
  {
    docs[d].supersededBy.Some? ==>
      d < docs[d].supersededBy.value < |docs| && docs[docs[d].supersededBy.value].sale == docs[d].sale
  }

  ghost predicate Forest(docs: seq<Doc>) {
    forall d: DocId :: d < |docs| ==> LinkOk(docs, d)
  }

  predicate IsHead(docs: seq<Doc>, d: DocId, s: SaleId) {
    d < |docs| && docs[d].sale == s && docs[d].supersededBy.None?
  }

  ghost predicate OneHead(docs: seq<Doc>) {
    forall d: DocId, e: DocId, s: SaleId :: IsHead(docs, d, s) && IsHead(docs, e, s) ==> d == e
  }

  predicate IsCreditFor(docs: seq<Doc>, c: DocId, d: DocId) {
    c < |docs| && docs[c].kind == CreditNote && docs[c].parent == Some(d)
  }

  /** A credit note cancels one superseded invoice, which no other credit note cancels. */
  ghost predicate OneCreditPerInvoice(docs: seq<Doc>) {
    && (forall c: DocId, d: DocId :: IsCreditFor(docs, c, d) ==> d < |docs| && docs[d].kind == Invoice && docs[d].supersededBy.Some?)
    && (forall b: DocId, c: DocId, d: DocId :: IsCreditFor(docs, b, d) && IsCreditFor(docs, c, d) ==> b == c)
  }

  ghost predicate Family(docs: seq<Doc>) {
    Forest(docs) && OneHead(docs) && OneCreditPerInvoice(docs)
  }

  ghost predicate Inv(l: Ledger) {
    LedgerPaid.Inv(l) && Family(l.docs)
  }

  /** From any document, the chain ends in the one head of its sale. */
  lemma {:induction false} ChainEndsInHead(docs: seq<Doc>, d: DocId)
    requires Forest(docs) && d < |docs|
    ensures IsHead(docs, Head(docs, d), docs[d].sale)
    decreases |docs| - d
  {
    assert LinkOk(docs, d);
    if docs[d].supersededBy.Some? {
      ChainEndsInHead(docs, docs[d].supersededBy.value);
    }
  }

  /* ---------------------------------------------------------------- one step */

  /** The first document of a sale starts a family. */
  lemma OriginalKeepsFamily(docs: seq<Doc>, d: Doc)
    requires Family(docs)
    requires d.kind == Invoice && d.supersededBy.None?
    requires forall e: DocId :: e < |docs| ==> docs[e].sale != d.sale
    ensures Family(docs + [d])
  {
    var m := docs + [d];
    forall e: DocId | e < |m| ensures LinkOk(m, e) {
      if e < |docs| { assert LinkOk(docs, e); }
    }
    assert forall e: DocId, s: SaleId :: IsHead(m, e, s) ==> IsHead(docs, e, s) || (e == |docs| && s == d.sale);
    assert forall c: DocId, e: DocId :: IsCreditFor(m, c, e) ==> IsCreditFor(docs, c, e);
  }

  /** Re-issue of an invoice that was not acknowledged, and a credit note: one new document replaces the head. */
  function Replaced(docs: seq<Doc>, h: DocId, d: Doc): seq<Doc>
    requires h < |docs|
  {
    docs[h := docs[h].(supersededBy := Some(|docs|))] + [d]
  }

  lemma ReplacedKeepsFamily(docs: seq<Doc>, h: DocId, d: Doc)
    requires Family(docs) && h < |docs| && docs[h].kind == Invoice && docs[h].supersededBy.None?
    requires d.sale == docs[h].sale && d.supersededBy.None? && d.parent == Some(h)
    ensures Family(Replaced(docs, h, d))
  {
    var m := Replaced(docs, h, d);
    forall e: DocId | e < |m| ensures LinkOk(m, e) {
      if e < |docs| { assert LinkOk(docs, e); }
    }
    assert IsHead(docs, h, d.sale);
    assert forall e: DocId, s: SaleId :: IsHead(m, e, s) ==> (e == |docs| && s == d.sale) || (IsHead(docs, e, s) && e != h);
    assert forall c: DocId, e: DocId :: IsCreditFor(m, c, e) ==> IsCreditFor(docs, c, e) || (c == |docs| && e == h);
  }

  /** Re-issue of an acknowledged invoice: a credit note and the new invoice. */
  function CreditedAndReplaced(docs: seq<Doc>, h: DocId, cn: Doc, d: Doc): seq<Doc>
    requires h < |docs|
  {
    docs[h := docs[h].(supersededBy := Some(|docs| + 1))] + [cn.(supersededBy := Some(|docs| + 1)), d]
  }

  lemma CreditedAndReplacedKeepsFamily(docs: seq<Doc>, h: DocId, cn: Doc, d: Doc)
    requires Family(docs) && h < |docs| && docs[h].kind == Invoice && docs[h].supersededBy.None?
    requires cn.kind == CreditNote && cn.sale == docs[h].sale && cn.parent == Some(h)
    requires d.kind == Invoice && d.sale == docs[h].sale && d.supersededBy.None?
    ensures Family(CreditedAndReplaced(docs, h, cn, d))
  {
    var m := CreditedAndReplaced(docs, h, cn, d);
    forall e: DocId | e < |m| ensures LinkOk(m, e) {
      if e < |docs| { assert LinkOk(docs, e); }
    }
    assert IsHead(docs, h, d.sale);
    assert forall e: DocId, s: SaleId :: IsHead(m, e, s) ==> (e == |docs| + 1 && s == d.sale) || (IsHead(docs, e, s) && e != h);
    assert forall c: DocId, e: DocId :: IsCreditFor(m, c, e) ==> IsCreditFor(docs, c, e) || (c == |docs| && e == h);
  }

  lemma AckKeepsFamily(docs: seq<Doc>, d: DocId)
    requires Family(docs) && d < |docs|
    ensures Family(docs[d := docs[d].(acked := true)])
  {
    var m := docs[d := docs[d].(acked := true)];
    forall e: DocId | e < |m| ensures LinkOk(m, e) {
      assert LinkOk(docs, e);
    }
    assert forall e: DocId, s: SaleId :: IsHead(m, e, s) ==> IsHead(docs, e, s);
    assert forall c: DocId, e: DocId :: IsCreditFor(m, c, e) ==> IsCreditFor(docs, c, e);
  }

  /** What one transaction does to the documents. */
  datatype Change =
    | Unchanged
    | Started(d: Doc)
    | Re(h: DocId, d: Doc)
    | Swapped(h: DocId, cn: Doc, d: Doc)
    | Acked(doc: DocId)

  ghost predicate ChangeOk(l: Ledger, c: Change) {
    match c
    case Unchanged => true
    case Started(d) =>
      && d.kind == Invoice && d.parent.None? && d.supersededBy.None? && !LedgerPaid.SaleIsPaid(l, d.sale)
    case Re(h, d) =>
      && h < |l.docs| && l.docs[h].kind == Invoice && l.docs[h].supersededBy.None?
      && d.sale == l.docs[h].sale && d.payment == l.docs[h].payment && d.supersededBy.None? && d.parent == Some(h)
      && d.figures == (if d.kind == Invoice then l.docs[h].figures else MinusAbsFigures(l.docs[h].figures))
    case Swapped(h, cn, d) =>
      && h < |l.docs| && l.docs[h].kind == Invoice && l.docs[h].supersededBy.None?
      && cn.kind == CreditNote && cn.sale == l.docs[h].sale && cn.parent == Some(h)
      && d.kind == Invoice && d.sale == l.docs[h].sale && d.supersededBy.None?
      && cn.payment == l.docs[h].payment && d.payment == l.docs[h].payment
      && cn.figures == MinusFigures(l.docs[h].figures) && d.figures == l.docs[h].figures
    case Acked(d) => d < |l.docs|
  }

  ghost function Changed(l: Ledger, c: Change): seq<Doc>
    requires ChangeOk(l, c)
  {
    match c
    case Unchanged => l.docs
    case Started(d) => l.docs + [d]
    case Re(h, d) => Replaced(l.docs, h, d)
    case Swapped(h, cn, d) => CreditedAndReplaced(l.docs, h, cn, d)
    case Acked(d) => l.docs[d := l.docs[d].(acked := true)]
  }

  /** The step re-issued an invoice of sale `s` that was not acknowledged. */
  predicate ReissuesUnacked(l: Ledger, op: Op, s: SaleId) {
    op.ReissueDoc? && op.doc < |l.docs| &&
    var h := Head(l.docs, op.doc); l.docs[h].kind == Invoice && !l.docs[h].acked && l.docs[h].sale == s
  }

  predicate IsUnackedReissue(c: Change, s: SaleId) {
    c.Re? && c.d.kind == Invoice && c.d.sale == s
  }

  lemma ReissueChange(l: Ledger, d: DocId) returns (c: Change)
    requires Inv(l) && Reissue(l, d).Success?
    ensures ChangeOk(l, c) && Reissue(l, d).value.docs == Changed(l, c)
    ensures l.docs[Head(l.docs, d)].acked ==> c.Swapped?
    ensures !l.docs[Head(l.docs, d)].acked ==> c.Re? && c.h == Head(l.docs, d) && c.d.kind == Invoice
  {
    ChainEndsInHead(l.docs, d);
    var docs := Reissue(l, d).value.docs;
    var n := |l.docs|;
    if l.docs[Head(l.docs, d)].acked {
      c := Swapped(Head(l.docs, d), docs[n], docs[n + 1]);
    } else {
      c := Re(Head(l.docs, d), docs[n]);
    }
  }

  lemma CreditChange(l: Ledger, d: DocId) returns (c: Change)
    requires Credit(l, d).Success?
    ensures ChangeOk(l, c) && Credit(l, d).value.docs == Changed(l, c) && c.Re? && c.d.kind == CreditNote
  {
    c := Re(d, Credit(l, d).value.docs[|l.docs|]);
  }

  /** A transaction on sales and payments starts at most one family, of a sale that had none, with the sale's figures. */
  lemma SaleChange(l: Ledger, op: Op, rules: set<Rule>) returns (c: Change)
    requires Inv(l) && Possible(l, op)
    requires op.Ingest? || op.ConvertPayment? || op.SettleSale? || op.NewSale?
    ensures ChangeOk(l, c) && Step(l, op, rules).docs == Changed(l, c) && (c.Unchanged? || c.Started?)
    ensures c.Started? ==> c.d.sale < |Step(l, op, rules).sales| && c.d.figures == Step(l, op, rules).sales[c.d.sale].figures
  {
    if op.Ingest? {
      c := IngestChange(l, op.input, op.sc, op.answers, op.stamp, rules);
    } else {
      var m := Step(l, op, rules);
      c := if |m.docs| > |l.docs| then Started(m.docs[|l.docs|]) else Unchanged;
    }
  }

  lemma IngestChange(l: Ledger, input: C2B, sc: Shortcode, a: Answers, stamp: Stamp, rules: set<Rule>) returns (c: Change)
    requires Inv(l) && Truthful(l, sc.org, input, a)
    ensures var m := Step(l, Ingest(input, sc, a, stamp), rules);
      && ChangeOk(l, c) && m.docs == Changed(l, c) && (c.Unchanged? || c.Started?)
      && (c.Started? ==> c.d.sale < |m.sales| && c.d.figures == m.sales[c.d.sale].figures)
  {
    LedgerPaid.MatchesAreOpen(l, input, sc, a);
    var m := Step(l, Ingest(input, sc, a, stamp), rules);
    c := if |m.docs| > |l.docs| then Started(m.docs[|l.docs|]) else Unchanged;
  }

  /** Every transaction is one of these changes, and a started family has its sale's figures. */
  lemma Classified(l: Ledger, op: Op, rules: set<Rule>) returns (c: Change)
    requires Inv(l) && Possible(l, op)
    ensures ChangeOk(l, c) && Step(l, op, rules).docs == Changed(l, c)
    ensures c.Started? ==> c.d.sale < |Step(l, op, rules).sales| && c.d.figures == Step(l, op, rules).sales[c.d.sale].figures
    ensures forall s: SaleId :: IsUnackedReissue(c, s) <==> ReissuesUnacked(l, op, s)
  {
    if op.Ingest? || op.ConvertPayment? || op.SettleSale? || op.NewSale? {
      c := SaleChange(l, op, rules);
    } else if Apply(l, op, rules).Failure? {
      c := Unchanged;
    } else if op.ReissueDoc? {
      c := ReissueChange(l, op.doc);
    } else if op.CreditDoc? {
      c := CreditChange(l, op.credited);
    } else if op.AckDoc? {
      c := Acked(op.acked);
    } else {
      var d := InvoiceOfPayment(l, op.reversed).value;
      if Credit(l, d).Success? { c := CreditChange(l, d); } else { c := Unchanged; }
    }
  }

  lemma ChangeKeepsFamily(l: Ledger, c: Change)
    requires Inv(l) && ChangeOk(l, c)
    ensures Family(Changed(l, c))
  {
    match c
    case Unchanged =>
    case Started(d) =>
      assert forall e: DocId :: e < |l.docs| ==> LedgerPaid.DocTrail(l, l.docs[e]);
      OriginalKeepsFamily(l.docs, d);
    case Re(h, d) => ReplacedKeepsFamily(l.docs, h, d);
    case Swapped(h, cn, d) => CreditedAndReplacedKeepsFamily(l.docs, h, cn, d);
    case Acked(d) => AckKeepsFamily(l.docs, d);
  }

  /** No change moves a document to another sale, alters its kind or overwrites a link. */
  lemma ChangeKeepsDocs(l: Ledger, c: Change, d: DocId)
    requires ChangeOk(l, c) && d < |l.docs|
    ensures d < |Changed(l, c)| && Changed(l, c)[d].sale == l.docs[d].sale && Changed(l, c)[d].kind == l.docs[d].kind
    ensures l.docs[d].supersededBy.Some? ==> Changed(l, c)[d].supersededBy == l.docs[d].supersededBy
  {
  }

  lemma StepKeepsDocs(l: Ledger, op: Op, rules: set<Rule>, d: DocId, docs: seq<Doc>)
    requires Inv(l) && Possible(l, op) && d < |l.docs| && docs == Step(l, op, rules).docs
    ensures d < |docs| && docs[d].sale == l.docs[d].sale && docs[d].kind == l.docs[d].kind
    ensures l.docs[d].supersededBy.Some? ==> docs[d].supersededBy == l.docs[d].supersededBy
  {
    var c := Classified(l, op, rules);
    ChangeKeepsDocs(l, c, d);
  }

  lemma StepKeeps(l: Ledger, op: Op, rules: set<Rule>)
    requires Inv(l) && Possible(l, op)
    ensures Inv(Step(l, op, rules))
  {
    LedgerPaid.StepKeeps(l, op, rules);
    var c := Classified(l, op, rules);
    ChangeKeepsFamily(l, c);
  }

  lemma {:induction false} RunKeeps(l: Ledger, ops: seq<Op>, rules: set<Rule>)
    requires Inv(l) && Run(l, ops, rules)
    ensures Inv(End(l, ops, rules))
    decreases |ops|
  {
    if ops != [] {
      StepKeeps(l, ops[0], rules);
      RunKeeps(Step(l, ops[0], rules), ops[1..], rules);
    }
  }

  /* ------------------------------------------------------------ shape theorems */

  /** In every run all documents of a sale lead to one and the same head, which nothing supersedes. */
  lemma OneHeadPerSale(ops: seq<Op>, rules: set<Rule>, d: DocId, e: DocId)
    requires Run(EMPTY, ops, rules)
    requires var docs := End(EMPTY, ops, rules).docs; d < |docs| && e < |docs|
    ensures var docs := End(EMPTY, ops, rules).docs;
      && (docs[d].sale == docs[e].sale <==> Head(docs, d) == Head(docs, e))
      && IsHead(docs, Head(docs, d), docs[d].sale)
  {
    RunKeeps(EMPTY, ops, rules);
    var docs := End(EMPTY, ops, rules).docs;
    ChainEndsInHead(docs, d);
    ChainEndsInHead(docs, e);
  }

  /** In every run a link points from an older to a newer document of the same sale. */
  lemma LinksPointForward(ops: seq<Op>, rules: set<Rule>, d: DocId)
    requires Run(EMPTY, ops, rules)
    requires d < |End(EMPTY, ops, rules).docs| && End(EMPTY, ops, rules).docs[d].supersededBy.Some?
    ensures var docs := End(EMPTY, ops, rules).docs; var n := docs[d].supersededBy.value;
      d < n < |docs| && docs[n].sale == docs[d].sale
  {
    RunKeeps(EMPTY, ops, rules);
    assert LinkOk(End(EMPTY, ops, rules).docs, d);
  }

  /** Once set, superseded_by never changes: in particular SupersedeInvoice, which has no guard, never overwrites. */
  lemma {:induction false} SupersededOnce(l: Ledger, ops: seq<Op>, rules: set<Rule>, d: DocId)
    requires Inv(l) && Run(l, ops, rules) && d < |l.docs| && l.docs[d].supersededBy.Some?
    ensures var docs := End(l, ops, rules).docs; d < |docs| && docs[d].supersededBy == l.docs[d].supersededBy
    decreases |ops|
  {
    if ops != [] {
      StepKeepsDocs(l, ops[0], rules, d, Step(l, ops[0], rules).docs);
      StepKeeps(l, ops[0], rules);
      SupersededOnce(Step(l, ops[0], rules), ops[1..], rules, d);
    }
  }

  /** In every run an invoice is cancelled by at most one credit note, whatever reversals are repeated. */
  lemma AtMostOneCreditNote(ops: seq<Op>, rules: set<Rule>, b: DocId, c: DocId, d: DocId)
    requires Run(EMPTY, ops, rules)
    requires var docs := End(EMPTY, ops, rules).docs; IsCreditFor(docs, b, d) && IsCreditFor(docs, c, d)
    ensures b == c
  {
    RunKeeps(EMPTY, ops, rules);
  }

  /**
    In no reachable ledger does the "credit note exists" answer arise, which
    reversals count as an idempotent success: the invoice is then superseded,
    and that is refused first. A reversal succeeds only by issuing a new credit note.
   */
  lemma RepeatedReversalIsRefused(l: Ledger, t: TransId)
    requires Inv(l) && t in l.payments && InvoiceOfPayment(l, t).Some?
    ensures var d := InvoiceOfPayment(l, t).value;
      && d < |l.docs| && l.docs[d].kind == Invoice
      && Credit(l, d) != Failure(CreditNoteExists)
      && (Reverse(l, t) == Failure(AlreadySuperseded) <==> l.docs[d].supersededBy.Some?)
      && (Reverse(l, t).Success? <==> IsHead(l.docs, d, l.docs[d].sale))
      && (Reverse(l, t).Success? ==> Reverse(Reverse(l, t).value, t) == Failure(AlreadySuperseded))
  {
    InvoiceFound(l, t);
    var d := InvoiceOfPayment(l, t).value;
    CreditAnswers(l, d);
    if Credit(l, d).Success? { SameInvoiceAfter(l, t, d); }
  }

  /** A payment of 100 cents that becomes a cash sale. */
  const SMALL_PAYMENT := Ingest(C2B("T", "600000", 100, None, "", 0), Shortcode(0, true, Some(Usable(Exempt))), Answers(None, None, None), Stamp("S-1", 0))

  /** A concrete run: the payment is reversed once, and the repeated notification is refused with an error. */
  lemma ReversalRepeated(rules: set<Rule>)
    requires AutoInvoice in rules
    ensures Run(EMPTY, [SMALL_PAYMENT, ReversePayment("T")], rules)
    ensures var l := Step(EMPTY, SMALL_PAYMENT, rules); var m := End(EMPTY, [SMALL_PAYMENT, ReversePayment("T")], rules);
      Reverse(l, "T") == Success(m) && |m.docs| == 2 && IsCreditFor(m.docs, 1, 0) && Reverse(m, "T") == Failure(AlreadySuperseded)
  {
    var l := Step(EMPTY, SMALL_PAYMENT, rules);
    SmallPaymentRecorded(rules);
    StepKeeps(EMPTY, SMALL_PAYMENT, rules);
    ReversedOnce(l, l.docs[0].figures);
    TwoOps(SMALL_PAYMENT, ReversePayment("T"), rules);
  }

  lemma TwoOps(a: Op, b: Op, rules: set<Rule>)
    requires Possible(EMPTY, a) && Possible(Step(EMPTY, a, rules), b)
    ensures Run(EMPTY, [a, b], rules) && End(EMPTY, [a, b], rules) == Step(Step(EMPTY, a, rules), b, rules)
  {
    FirstOp(Step(EMPTY, a, rules), b, [], rules);
    FirstOp(EMPTY, a, [b], rules);
  }

  lemma FirstOp(l: Ledger, op: Op, rest: seq<Op>, rules: set<Rule>)
    requires Possible(l, op) && Run(Step(l, op, rules), rest, rules)
    ensures Run(l, [op] + rest, rules) && End(l, [op] + rest, rules) == End(Step(l, op, rules), rest, rules)
  {
    assert ([op] + rest)[1..] == rest;
  }

  lemma SmallPaymentRecorded(rules: set<Rule>)
    requires AutoInvoice in rules
    ensures Possible(EMPTY, SMALL_PAYMENT)
    ensures var l := Step(EMPTY, SMALL_PAYMENT, rules);
      && "T" in l.payments && |l.docs| == 1
      && l.docs[0] == Doc(0, Some("T"), Invoice, None, None, l.docs[0].figures, false)
  {
  }

  lemma ReversedOnce(l: Ledger, f: Figures)
    requires Inv(l) && "T" in l.payments && l.docs == [Doc(0, Some("T"), Invoice, None, None, f, false)]
    ensures Reverse(l, "T").Success?
    ensures var m := Reverse(l, "T").value;
      |m.docs| == 2 && IsCreditFor(m.docs, 1, 0) && Reverse(m, "T") == Failure(AlreadySuperseded)
  {
    assert InvoiceOfPayment(l, "T") == Some(0);
    RepeatedReversalIsRefused(l, "T");
  }

  lemma InvoiceFound(l: Ledger, t: TransId)
    requires t in l.payments && InvoiceOfPayment(l, t).Some?
    ensures var d := InvoiceOfPayment(l, t).value; d < |l.docs| && l.docs[d].kind == Invoice
  {
    NewestFound(l.docs, |l.docs|, (x: Doc) => x.payment == Some(t));
    if l.payments[t].sale.Some? {
      var s := l.payments[t].sale.value;
      NewestFound(l.docs, |l.docs|, (x: Doc) => x.sale == s);
    }
  }

  /** Crediting an invoice succeeds exactly when nothing supersedes it. */
  lemma CreditAnswers(l: Ledger, d: DocId)
    requires Family(l.docs) && d < |l.docs| && l.docs[d].kind == Invoice
    ensures Credit(l, d).Success? <==> l.docs[d].supersededBy.None?
    ensures Credit(l, d).Failure? ==> Credit(l, d).error == AlreadySuperseded
  {
    if HasCreditNote(l, d) {
      var c :| 0 <= c < |l.docs| && l.docs[c].kind == CreditNote && l.docs[c].parent == Some(d);
      assert IsCreditFor(l.docs, c, d);
    }
  }

  lemma SameInvoiceAfter(l: Ledger, t: TransId, d: DocId)
    requires t in l.payments && InvoiceOfPayment(l, t) == Some(d) && Credit(l, d).Success?
    ensures var m := Credit(l, d).value;
      && t in m.payments && InvoiceOfPayment(m, t) == Some(d)
      && d < |m.docs| && m.docs[d].kind == Invoice && m.docs[d].supersededBy.Some?
  {
    var m := Credit(l, d).value;
    SameNewest(l.docs, m.docs, (x: Doc) => x.payment == Some(t));
    if l.payments[t].sale.Some? {
      var s := l.payments[t].sale.value;
      SameNewest(l.docs, m.docs, (x: Doc) => x.sale == s);
    }
  }

  lemma {:induction false} NewestFound(docs: seq<Doc>, n: nat, q: Doc -> bool)
    requires n <= |docs|
    ensures match Newest(docs, n, q)
      case Some(d) => d < n && docs[d].kind == Invoice && q(docs[d])
      case None => forall d: DocId :: d < n && docs[d].kind == Invoice ==> !q(docs[d])
  {
    if n > 0 { NewestFound(docs, n - 1, q); }
  }

  lemma {:induction false} SameNewest(docs: seq<Doc>, m: seq<Doc>, q: Doc -> bool)
    requires |m| == |docs| + 1 && m[|docs|].kind == CreditNote
    requires forall d: DocId :: d < |docs| ==> m[d].kind == docs[d].kind && q(m[d]) == q(docs[d])
    ensures Newest(m, |m|, q) == Newest(docs, |docs|, q)
  {
    SameNewestUpTo(docs, m, |docs|, q);
  }

  lemma {:induction false} SameNewestUpTo(docs: seq<Doc>, m: seq<Doc>, n: nat, q: Doc -> bool)
    requires n <= |docs| <= |m|
    requires forall d: DocId :: d < n ==> m[d].kind == docs[d].kind && q(m[d]) == q(docs[d])
    ensures Newest(m, n, q) == Newest(docs, n, q)
  {
    if n > 0 { SameNewestUpTo(docs, m, n - 1, q); }
  }
}
