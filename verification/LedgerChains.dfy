/**
  Following superseded_by: the loop in the service walks to the end of the
  chain, the receipt query stops after ten rows. What the bound changes, and
  why claiming a receipt is nevertheless right for chains of any length.
 */
module LedgerChains {
  import opened Prelude
  import opened Matcher
  import opened Ledger
  import opened LedgerFamilies

  /* ------------------------------------------------------ the unbounded walk */

  /** The loop of ReissueInvoice and of the resend handler; it ends because links point to newer documents. */
  method FollowChain(docs: seq<Doc>, d: DocId) returns (h: DocId)
    requires Forest(docs) && d < |docs|
    ensures h == Head(docs, d) && IsHead(docs, h, docs[d].sale)
  {
    ChainEndsInHead(docs, d);
    h := d;
    while docs[h].supersededBy.Some?
      invariant h < |docs| && Head(docs, h) == Head(docs, d)
      decreases |docs| - h
    {
      assert LinkOk(docs, h);
      var next := docs[h].supersededBy.value;
      if next >= |docs| { break; }
      h := next;
    }
  }

  /* -------------------------------------------------------- the bounded query */

  const MAX_DEPTH: nat := 10

  /** The rows of the recursive query, from depth `depth` on. */
  function Rows(docs: seq<Doc>, d: DocId, depth: nat): (rows: seq<DocId>)
    requires d < |docs|
    ensures rows != [] && forall i :: 0 <= i < |rows| ==> rows[i] < |docs|
    decreases MAX_DEPTH - depth
  {
    [d] + (if docs[d].supersededBy.Some? && docs[d].supersededBy.value < |docs| && depth < MAX_DEPTH
           then Rows(docs, docs[d].supersededBy.value, depth + 1) else [])
  }

  /** GetInvoiceByReceiptCode, from the document that carries the code: the deepest row. */
  function Lookup(docs: seq<Doc>, d: DocId): (r: DocId)
    requires d < |docs|
    ensures r < |docs|
  {
    var rows := Rows(docs, d, 1);
    rows[|rows| - 1]
  }

  /** The document `k` hops along the chain, or its end. */
  function Along(docs: seq<Doc>, d: DocId, k: nat): (r: DocId)
    requires d < |docs|
    ensures r < |docs|
    decreases k
  {
    if k > 0 && docs[d].supersededBy.Some? && docs[d].supersededBy.value < |docs|
    then Along(docs, docs[d].supersededBy.value, k - 1)
    else d
  }

  /** How many hops it is to the head. */
  function Hops(docs: seq<Doc>, d: DocId): nat
    requires d < |docs|
    decreases |docs| - d
  {
    if docs[d].supersededBy.Some? && d < docs[d].supersededBy.value < |docs|
    then 1 + Hops(docs, docs[d].supersededBy.value)
    else 0
  }

  lemma {:induction false} RowsWalk(docs: seq<Doc>, d: DocId, depth: nat)
    requires d < |docs| && depth <= MAX_DEPTH
    ensures var rows := Rows(docs, d, depth); rows[|rows| - 1] == Along(docs, d, MAX_DEPTH - depth)
    decreases MAX_DEPTH - depth
  {
    if docs[d].supersededBy.Some? && docs[d].supersededBy.value < |docs| && depth < MAX_DEPTH {
      RowsWalk(docs, docs[d].supersededBy.value, depth + 1);
    }
  }

  lemma {:induction false} AlongLaws(docs: seq<Doc>, d: DocId, k: nat)
    requires Forest(docs) && d < |docs|
    ensures Head(docs, Along(docs, d, k)) == Head(docs, d)
    ensures Hops(docs, Along(docs, d, k)) == (if Hops(docs, d) <= k then 0 else Hops(docs, d) - k)
    ensures docs[Along(docs, d, k)].sale == docs[d].sale
    decreases k
  {
    assert LinkOk(docs, d);
    if k > 0 && docs[d].supersededBy.Some? {
      AlongLaws(docs, docs[d].supersededBy.value, k - 1);
    }
  }

  /** The query finds the head of a chain of at most nine hops; on a longer one it stops exactly nine hops along, short of the head. */
  lemma BoundedLookup(docs: seq<Doc>, d: DocId)
    requires Forest(docs) && d < |docs|
    ensures Lookup(docs, d) == Head(docs, d) <==> Hops(docs, d) <= 9
    ensures Lookup(docs, d) == Along(docs, d, 9)
    ensures Hops(docs, d) > 9 ==> Hops(docs, Lookup(docs, d)) == Hops(docs, d) - 9
  {
    RowsWalk(docs, d, 1);
    AlongLaws(docs, d, 9);
    NoHopsIffHead(docs, d);
    NoHopsIffHead(docs, Lookup(docs, d));
  }

  lemma {:induction false} NoHopsIffHead(docs: seq<Doc>, d: DocId)
    requires d < |docs|
    ensures Hops(docs, d) == 0 <==> Head(docs, d) == d
    ensures Hops(docs, Head(docs, d)) == 0
    decreases |docs| - d
  {
    if docs[d].supersededBy.Some? && d < docs[d].supersededBy.value < |docs| {
      NoHopsIffHead(docs, docs[d].supersededBy.value);
    }
  }

  /* ------------------------------------------------------------------- claims */

  lemma {:induction false} DocsKeepIdentity(l: Ledger, ops: seq<Op>, rules: set<Rule>, d: DocId)
    requires Inv(l) && Run(l, ops, rules) && d < |l.docs|
    ensures var docs := End(l, ops, rules).docs; d < |docs| && docs[d].sale == l.docs[d].sale && docs[d].kind == l.docs[d].kind
    decreases |ops|
  {
    if ops != [] {
      StepKeepsDocs(l, ops[0], rules, d, Step(l, ops[0], rules).docs);
      StepKeeps(l, ops[0], rules);
      DocsKeepIdentity(Step(l, ops[0], rules), ops[1..], rules, d);
    }
  }

  /**
    ClaimReceiptByCode reads in one transaction and re-issues in another. Any
    code of the family, a chain of any length and any run of transactions in
    between: what is re-issued is the head at the time of the re-issue.
   */
  lemma ClaimReissuesHead(l: Ledger, ops: seq<Op>, rules: set<Rule>, d: DocId, e: DocId)
    requires Inv(l) && Run(l, ops, rules) && d < |l.docs|
    requires IsHead(End(l, ops, rules).docs, e, l.docs[d].sale)
    ensures Lookup(l.docs, d) < |End(l, ops, rules).docs| && Head(End(l, ops, rules).docs, Lookup(l.docs, d)) == e
    ensures Reissue(End(l, ops, rules), Lookup(l.docs, d)) == Reissue(End(l, ops, rules), e)
  {
    LookupStaysInFamily(l.docs, d);
    RunKeeps(l, ops, rules);
    DocsKeepIdentity(l, ops, rules, Lookup(l.docs, d));
    ReissueOfHead(End(l, ops, rules), Lookup(l.docs, d), e);
  }

  lemma LookupStaysInFamily(docs: seq<Doc>, d: DocId)
    requires Forest(docs) && d < |docs|
    ensures docs[Lookup(docs, d)].sale == docs[d].sale
  {
    RowsWalk(docs, d, 1);
    AlongLaws(docs, d, 9);
  }

  /** A re-issue looks at nothing but the head. */
  lemma ReissueOfHead(l: Ledger, d: DocId, e: DocId)
    requires Family(l.docs) && d < |l.docs| && IsHead(l.docs, e, l.docs[d].sale)
    ensures Head(l.docs, d) == e && Reissue(l, d) == Reissue(l, e)
  {
    ChainEndsInHead(l.docs, d);
    assert Head(l.docs, e) == e;
  }

  /**
    IngestReversal finds the payment's invoice in one transaction and credits
    it in another. Whatever runs in between, it succeeds exactly when that
    invoice is still the head, and is otherwise refused as superseded.
   */
  lemma InterruptedReversal(l: Ledger, ops: seq<Op>, rules: set<Rule>, t: TransId)
    requires Inv(l) && Run(l, ops, rules) && t in l.payments && InvoiceOfPayment(l, t).Some?
    ensures var d := InvoiceOfPayment(l, t).value; var m := End(l, ops, rules);
      && d < |m.docs| && (Credit(m, d).Success? <==> IsHead(m.docs, d, m.docs[d].sale))
      && (Credit(m, d).Failure? ==> Credit(m, d).error == AlreadySuperseded)
  {
    InvoiceFound(l, t);
    RunKeeps(l, ops, rules);
    DocsKeepIdentity(l, ops, rules, InvoiceOfPayment(l, t).value);
    CreditAnswers(End(l, ops, rules), InvoiceOfPayment(l, t).value);
  }

  /* -------------------------------------------------- chains have no bound */

  /** A re-issue makes the chain from any document of the family one hop longer. */
  lemma ReissueAddsOneHop(l: Ledger, d: DocId)
    requires Inv(l) && Reissue(l, d).Success?
    ensures d < |l.docs| && Hops(Reissue(l, d).value.docs, d) == Hops(l.docs, d) + 1
  {
    ChainEndsInHead(l.docs, d);
    Extended(l.docs, Reissue(l, d).value.docs, d, Head(l.docs, d));
  }

  lemma {:induction false} Extended(docs: seq<Doc>, m: seq<Doc>, d: DocId, h: DocId)
    requires Forest(docs) && d < |docs| < |m| && Head(docs, d) == h && docs[h].supersededBy.None?
    requires forall e: DocId :: e < |docs| && e != h ==> m[e].supersededBy == docs[e].supersededBy
    requires m[h].supersededBy == Some(|m| - 1) && m[|m| - 1].supersededBy.None?
    ensures Hops(m, d) == Hops(docs, d) + 1
    decreases |docs| - d
  {
    assert LinkOk(docs, d);
    if docs[d].supersededBy.Some? {
      assert docs[d].supersededBy.value != d;
      Extended(docs, m, docs[d].supersededBy.value, h);
    }
  }

  function Again(k: nat): (ops: seq<Op>)
    ensures |ops| == k && forall i :: 0 <= i < k ==> ops[i] == ReissueDoc(0)
  {
    if k == 0 then [] else [ReissueDoc(0)] + Again(k - 1)
  }

  lemma {:induction false} ReissuingAgain(l: Ledger, k: nat, rules: set<Rule>)
    requires Inv(l) && l.docs != [] && l.docs[Head(l.docs, 0)].kind == Invoice
    ensures Run(l, Again(k), rules)
    ensures var docs := End(l, Again(k), rules).docs; docs != [] && Hops(docs, 0) == Hops(l.docs, 0) + k
    decreases k
  {
    if k > 0 {
      assert Again(k)[1..] == Again(k - 1);
      ReissueOnceMore(l, rules);
      ReissuingAgain(Step(l, ReissueDoc(0), rules), k - 1, rules);
    }
  }

  lemma ReissueOnceMore(l: Ledger, rules: set<Rule>)
    requires Inv(l) && l.docs != [] && l.docs[Head(l.docs, 0)].kind == Invoice
    ensures var m := Step(l, ReissueDoc(0), rules);
      && Inv(m) && m.docs != [] && m.docs[Head(m.docs, 0)].kind == Invoice && Hops(m.docs, 0) == Hops(l.docs, 0) + 1
  {
    ReissueAddsOneHop(l, 0);
    LedgerFamilies.StepKeeps(l, ReissueDoc(0), rules);
    ReissuedHead(l, 0, Reissue(l, 0).value);
  }

  /** The head after a re-issue is the new invoice. */
  lemma ReissuedHead(l: Ledger, d: DocId, m: Ledger)
    requires Inv(l) && Inv(m) && Reissue(l, d) == Success(m)
    ensures d < |m.docs| && Head(m.docs, d) == |m.docs| - 1 && m.docs[|m.docs| - 1].kind == Invoice
  {
    ChainEndsInHead(l.docs, d);
    ChainEndsInHead(m.docs, d);
    assert IsHead(m.docs, |m.docs| - 1, l.docs[d].sale);
  }

  /** So for every length there is a run with a chain that long, and beyond nine hops the query misses its head. */
  lemma ChainsOfEveryLength(k: nat, rules: set<Rule>)
    ensures var ops := [NewSale(0, None, Figures(0, 0, 0), true, Stamp("", 0))] + Again(k); var docs := End(EMPTY, ops, rules).docs;
      && Run(EMPTY, ops, rules)
      && docs != [] && Hops(docs, 0) == k && (k > 9 ==> Lookup(docs, 0) != Head(docs, 0))
  {
    var start := NewSale(0, None, Figures(0, 0, 0), true, Stamp("", 0));
    var ops := [start] + Again(k);
    var l := Step(EMPTY, start, rules);
    LedgerFamilies.StepKeeps(EMPTY, start, rules);
    ReissuingAgain(l, k, rules);
    assert ops[0] == start && ops[1..] == Again(k);
    LedgerFamilies.RunKeeps(EMPTY, ops, rules);
    BoundedLookup(End(EMPTY, ops, rules).docs, 0);
  }
}
