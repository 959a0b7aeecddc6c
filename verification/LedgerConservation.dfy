/**
  Net conservation: the figures of all documents of a sale add up to the sale's
  own while its head is an invoice and to zero once it is a credit note, except
  that every re-issue of an invoice KRA never acknowledged adds them once more.
 */
module LedgerConservation {
  import opened Prelude
  import opened Matcher
  import opened Ledger
  import opened LedgerFamilies

  const ZERO := Figures(0, 0, 0)

  function Plus(f: Figures, g: Figures): Figures {
    Figures(f.subtotal + g.subtotal, f.tax + g.tax, f.total + g.total)
  }

  function Scale(f: Figures, k: int): Figures {
    Figures(f.subtotal * k, f.tax * k, f.total * k)
  }

  predicate NonNegative(f: Figures) {
    f.subtotal >= 0 && f.tax >= 0 && f.total >= 0
  }

  /** The figures of the first `n` documents of sale `s`, summed. */
  function Net(docs: seq<Doc>, n: nat, s: SaleId): Figures
    requires n <= |docs|
  {
    if n == 0 then ZERO
    else Plus(Net(docs, n - 1, s), if docs[n - 1].sale == s then docs[n - 1].figures else ZERO)
  }

  /** Invoices less credit notes among the first `n` documents of sale `s`. */
  function Balance(docs: seq<Doc>, n: nat, s: SaleId): int
    requires n <= |docs|
  {
    if n == 0 then 0
    else Balance(docs, n - 1, s) + (if docs[n - 1].sale != s then 0 else if docs[n - 1].kind == Invoice then 1 else -1)
  }

  /** The head of the sale's family is an invoice. */
  ghost predicate Active(docs: seq<Doc>, s: SaleId) {
    exists d: DocId :: IsHead(docs, d, s) && docs[d].kind == Invoice
  }

  ghost function Excess(docs: seq<Doc>, s: SaleId): int {
    Balance(docs, |docs|, s) - (if Active(docs, s) then 1 else 0)
  }

  /** While a sale's figures are not negative, its documents repeat or negate them. */
  predicate DocFigures(l: Ledger, d: Doc) {
    d.sale < |l.sales| && NonNegative(l.sales[d.sale].figures) ==>
      d.figures == (if d.kind == Invoice then l.sales[d.sale].figures else MinusFigures(l.sales[d.sale].figures))
  }

  ghost predicate Inv(l: Ledger) {
    LedgerFamilies.Inv(l) && forall d: DocId :: d < |l.docs| ==> DocFigures(l, l.docs[d])
  }

  /* ------------------------------------------------------------- two sums */

  /** Every document of sale `s` carries the figures `f`, negated on a credit note. */
  ghost predicate Repeats(docs: seq<Doc>, s: SaleId, f: Figures) {
    forall d: DocId :: d < |docs| && docs[d].sale == s ==> docs[d].figures == (if docs[d].kind == Invoice then f else MinusFigures(f))
  }

  lemma {:induction false} NetIsBalance(docs: seq<Doc>, n: nat, s: SaleId, f: Figures)
    requires n <= |docs| && Repeats(docs, s, f)
    ensures Net(docs, n, s) == Scale(f, Balance(docs, n, s))
  {
    if n > 0 {
      NetIsBalance(docs, n - 1, s, f);
      AddToNet(f, Net(docs, n - 1, s), Balance(docs, n - 1, s), docs[n - 1], s);
    }
  }

  /** One more document moves the sum by as many times `f` as it moves the balance. */
  lemma AddToNet(f: Figures, net: Figures, b: int, d: Doc, s: SaleId)
    requires net == Scale(f, b)
    requires d.sale == s ==> d.figures == (if d.kind == Invoice then f else MinusFigures(f))
    ensures Plus(net, if d.sale == s then d.figures else ZERO)
         == Scale(f, b + (if d.sale != s then 0 else if d.kind == Invoice then 1 else -1))
  {
    ScaleStep(f, b);
  }

  lemma ScaleStep(f: Figures, k: int)
    ensures Scale(f, k + 1) == Plus(Scale(f, k), f)
    ensures Scale(f, k - 1) == Plus(Scale(f, k), MinusFigures(f))
    ensures Scale(f, k) == Plus(Scale(f, k), ZERO)
  {
  }

  /** The balance looks only at sale and kind. */
  lemma {:induction false} BalanceSame(docs: seq<Doc>, m: seq<Doc>, n: nat, s: SaleId)
    requires n <= |docs| && n <= |m|
    requires forall d: DocId :: d < n ==> docs[d].sale == m[d].sale && docs[d].kind == m[d].kind
    ensures Balance(docs, n, s) == Balance(m, n, s)
  {
    if n > 0 { BalanceSame(docs, m, n - 1, s); }
  }

  lemma ExcessStarted(docs: seq<Doc>, d: Doc, s: SaleId)
    requires d.kind == Invoice && d.supersededBy.None?
    requires forall e: DocId :: e < |docs| ==> docs[e].sale != d.sale
    ensures Excess(docs + [d], s) == Excess(docs, s)
  {
    var m := docs + [d];
    BalanceSame(docs, m, |docs|, s);
    if s == d.sale {
      assert IsHead(m, |docs|, s);
    } else {
      assert forall e: DocId :: IsHead(m, e, s) <==> IsHead(docs, e, s);
      SameActive(docs, m, s);
    }
  }

  lemma SameActive(docs: seq<Doc>, m: seq<Doc>, s: SaleId)
    requires |docs| <= |m|
    requires forall e: DocId :: IsHead(m, e, s) <==> IsHead(docs, e, s)
    requires forall e: DocId :: e < |docs| ==> m[e].kind == docs[e].kind
    ensures Active(m, s) <==> Active(docs, s)
  {
    if Active(docs, s) {
      var e: DocId :| IsHead(docs, e, s) && docs[e].kind == Invoice;
      assert IsHead(m, e, s);
    }
  }

  lemma ExcessReplaced(docs: seq<Doc>, h: DocId, d: Doc, s: SaleId)
    requires OneHead(docs) && h < |docs| && docs[h].kind == Invoice && docs[h].supersededBy.None?
    requires d.sale == docs[h].sale && d.supersededBy.None?
    ensures Excess(Replaced(docs, h, d), s) == Excess(docs, s) + (if d.kind == Invoice && d.sale == s then 1 else 0)
  {
    var m := Replaced(docs, h, d);
    BalanceSame(docs, m, |docs|, s);
    if s == d.sale {
      assert IsHead(docs, h, s) && IsHead(m, |docs|, s);
      assert forall e: DocId :: IsHead(m, e, s) ==> e == |docs| || IsHead(docs, e, s);
    } else {
      assert forall e: DocId :: IsHead(m, e, s) <==> IsHead(docs, e, s);
      SameActive(docs, m, s);
    }
  }

  lemma ExcessSwapped(docs: seq<Doc>, h: DocId, cn: Doc, d: Doc, s: SaleId)
    requires h < |docs| && docs[h].kind == Invoice && docs[h].supersededBy.None?
    requires cn.kind == CreditNote && cn.sale == docs[h].sale
    requires d.kind == Invoice && d.sale == docs[h].sale && d.supersededBy.None?
    ensures Excess(CreditedAndReplaced(docs, h, cn, d), s) == Excess(docs, s)
  {
    var m := CreditedAndReplaced(docs, h, cn, d);
    BalanceSame(docs, m, |docs|, s);
    assert Balance(m, |m|, s) == Balance(docs, |docs|, s) by {
      assert m[|docs|].sale == d.sale && m[|docs| + 1].sale == d.sale;
      assert Balance(m, |docs| + 1, s) == Balance(m, |docs|, s) - (if d.sale == s then 1 else 0);
    }
    if s == d.sale {
      assert IsHead(docs, h, s) && IsHead(m, |docs| + 1, s);
    } else {
      assert forall e: DocId :: IsHead(m, e, s) <==> IsHead(docs, e, s);
      SameActive(docs, m, s);
    }
  }

  lemma ExcessAcked(docs: seq<Doc>, d: DocId, s: SaleId)
    requires d < |docs|
    ensures Excess(docs[d := docs[d].(acked := true)], s) == Excess(docs, s)
  {
    var m := docs[d := docs[d].(acked := true)];
    BalanceSame(docs, m, |docs|, s);
    assert forall e: DocId :: IsHead(m, e, s) <==> IsHead(docs, e, s);
    SameActive(docs, m, s);
  }

  /* ---------------------------------------------------------------- one step */

  lemma ChangeExcess(l: Ledger, c: Change, s: SaleId)
    requires LedgerFamilies.Inv(l) && ChangeOk(l, c)
    ensures Excess(Changed(l, c), s) == Excess(l.docs, s) + (if IsUnackedReissue(c, s) then 1 else 0)
  {
    match c
    case Unchanged =>
    case Started(d) =>
      assert forall e: DocId :: e < |l.docs| ==> LedgerPaid.DocTrail(l, l.docs[e]);
      ExcessStarted(l.docs, d, s);
    case Re(h, d) => ExcessReplaced(l.docs, h, d, s);
    case Swapped(h, cn, d) => ExcessSwapped(l.docs, h, cn, d, s);
    case Acked(d) => ExcessAcked(l.docs, d, s);
  }

  lemma ChangeKeepsFigures(l: Ledger, c: Change, m: Ledger)
    requires Inv(l) && ChangeOk(l, c) && m.docs == Changed(l, c) && |l.sales| <= |m.sales|
    requires forall s: SaleId :: s < |l.sales| ==> m.sales[s].figures == l.sales[s].figures
    requires c.Started? ==> c.d.sale < |m.sales| && c.d.figures == m.sales[c.d.sale].figures
    ensures forall d: DocId :: d < |m.docs| ==> DocFigures(m, m.docs[d])
  {
    forall d: DocId | d < |m.docs| ensures DocFigures(m, m.docs[d]) {
      if d < |l.docs| {
        assert DocFigures(l, l.docs[d]) && LedgerPaid.DocTrail(l, l.docs[d]);
      } else if c.Re? || c.Swapped? {
        assert DocFigures(l, l.docs[c.h]) && LedgerPaid.DocTrail(l, l.docs[c.h]);
      }
    }
  }

  /** A sale's figures are written once. */
  lemma SalesKeepFigures(l: Ledger, op: Op, rules: set<Rule>)
    ensures |l.sales| <= |Step(l, op, rules).sales|
    ensures forall s: SaleId :: s < |l.sales| ==> Step(l, op, rules).sales[s].figures == l.sales[s].figures
  {
  }

  lemma StepKeeps(l: Ledger, op: Op, rules: set<Rule>, s: SaleId)
    requires Inv(l) && Possible(l, op)
    ensures Inv(Step(l, op, rules))
    ensures Excess(Step(l, op, rules).docs, s) == Excess(l.docs, s) + (if ReissuesUnacked(l, op, s) then 1 else 0)
  {
    var m := Step(l, op, rules);
    LedgerFamilies.StepKeeps(l, op, rules);
    SalesKeepFigures(l, op, rules);
    var c := Classified(l, op, rules);
    assert IsUnackedReissue(c, s) <==> ReissuesUnacked(l, op, s);
    ChangeExcess(l, c, s);
    ChangeKeepsFigures(l, c, m);
  }

  /* ---------------------------------------------------------------- theorems */

  /** How many steps of a run re-issue an invoice of sale `s` that was not acknowledged. */
  function UnackedReissues(l: Ledger, ops: seq<Op>, rules: set<Rule>, s: SaleId): nat
    decreases |ops|
  {
    if ops == [] then 0
    else (if ReissuesUnacked(l, ops[0], s) then 1 else 0) + UnackedReissues(Step(l, ops[0], rules), ops[1..], rules, s)
  }

  lemma {:induction false} ExcessCounts(l: Ledger, ops: seq<Op>, rules: set<Rule>, s: SaleId)
    requires Inv(l) && Run(l, ops, rules)
    ensures Inv(End(l, ops, rules))
    ensures Excess(End(l, ops, rules).docs, s) == Excess(l.docs, s) + UnackedReissues(l, ops, rules, s)
    decreases |ops|
  {
    if ops != [] {
      StepKeeps(l, ops[0], rules, s);
      ExcessCounts(Step(l, ops[0], rules), ops[1..], rules, s);
    }
  }

  /** What a sale's documents should add up to. */
  ghost function Owed(l: Ledger, s: SaleId): Figures
    requires s < |l.sales|
  {
    if Active(l.docs, s) then l.sales[s].figures else ZERO
  }

  lemma NetFromExcess(l: Ledger, s: SaleId, f: Figures, k: nat)
    requires s < |l.sales| && l.sales[s].figures == f && Repeats(l.docs, s, f) && Excess(l.docs, s) == k
    ensures Net(l.docs, |l.docs|, s) == Plus(Owed(l, s), Scale(f, k))
  {
    NetIsBalance(l.docs, |l.docs|, s, f);
    ScaleStep(f, k);
  }

  /** The exact sum of a sale's documents, after any run. */
  lemma ExactNet(ops: seq<Op>, rules: set<Rule>, s: SaleId)
    requires Run(EMPTY, ops, rules)
    requires var l := End(EMPTY, ops, rules); s < |l.sales| && NonNegative(l.sales[s].figures)
    ensures var l := End(EMPTY, ops, rules);
      Net(l.docs, |l.docs|, s) == Plus(Owed(l, s), Scale(l.sales[s].figures, UnackedReissues(EMPTY, ops, rules, s)))
  {
    var l := End(EMPTY, ops, rules);
    var k, f := UnackedReissues(EMPTY, ops, rules, s), l.sales[s].figures;
    ExcessCounts(EMPTY, ops, rules, s);
    assert Repeats(l.docs, s, f) by {
      assert forall d: DocId :: d < |l.docs| ==> DocFigures(l, l.docs[d]);
    }
    NetFromExcess(l, s, f, k);
  }

  /**
    Conservation: a sale's documents add up to the sale while its head is an
    invoice and to zero once it is a credit note, exactly when no re-issue
    acted on an unacknowledged invoice of a sale worth anything.
   */
  lemma NetConservation(ops: seq<Op>, rules: set<Rule>, s: SaleId)
    requires Run(EMPTY, ops, rules)
    requires var l := End(EMPTY, ops, rules); s < |l.sales| && NonNegative(l.sales[s].figures)
    ensures var l := End(EMPTY, ops, rules);
      Net(l.docs, |l.docs|, s) == Owed(l, s) <==> UnackedReissues(EMPTY, ops, rules, s) == 0 || l.sales[s].figures == ZERO
  {
    ExactNet(ops, rules, s);
    var f, k := End(EMPTY, ops, rules).sales[s].figures, UnackedReissues(EMPTY, ops, rules, s);
    PlusIsSame(Owed(End(EMPTY, ops, rules), s), Scale(f, k));
    ZeroScale(f, k);
  }

  lemma PlusIsSame(f: Figures, g: Figures)
    ensures Plus(f, g) == f <==> g == ZERO
  {
  }

  lemma ZeroScale(f: Figures, k: nat)
    ensures Scale(f, k) == ZERO <==> k == 0 || f == ZERO
  {
    ZeroProduct(f.subtotal, k);
    ZeroProduct(f.tax, k);
    ZeroProduct(f.total, k);
  }

  lemma ZeroProduct(x: int, k: nat)
    ensures x * k == 0 <==> k == 0 || x == 0
  {
  }

  /** A paid sale of 116 cents, re-issued before KRA acknowledged its invoice. */
  const OVERSTATED: seq<Op> := [NewSale(0, None, Figures(100, 16, 116), true, Stamp("S-1", 0)), ReissueDoc(0)]

  /** So after one such re-issue the documents claim twice what is owed. */
  lemma ReissueOverstates(rules: set<Rule>)
    ensures Run(EMPTY, OVERSTATED, rules)
    ensures var l := End(EMPTY, OVERSTATED, rules);
      |l.sales| == 1 && Owed(l, 0) == Figures(100, 16, 116) && Net(l.docs, |l.docs|, 0) == Figures(200, 32, 232)
  {
    var a, b := OVERSTATED[0], OVERSTATED[1];
    var l := Step(EMPTY, a, rules);
    var m := Step(l, b, rules);
    assert OVERSTATED[1..] == [b] && [b][1..] == [];
    assert End(l, [b], rules) == m && End(EMPTY, OVERSTATED, rules) == m;
    var f := Figures(100, 16, 116);
    assert m.docs == [Doc(0, None, Invoice, None, Some(1), f, false), Doc(0, None, Invoice, Some(0), None, f, false)];
    assert IsHead(m.docs, 1, 0);
    assert Net(m.docs, 1, 0) == f;
  }

  /** The head that decides is where every document of the sale leads. */
  lemma ActiveIsHeadKind(l: Ledger, d: DocId)
    requires LedgerFamilies.Inv(l) && d < |l.docs|
    ensures Active(l.docs, l.docs[d].sale) <==> l.docs[Head(l.docs, d)].kind == Invoice
  {
    ChainEndsInHead(l.docs, d);
  }
}
