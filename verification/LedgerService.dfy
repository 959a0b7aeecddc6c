/**
  The ledger service as it runs: rows are inserted and updated step by step
  inside a transaction, and rolled back when a later step fails. Every method
  is proved to do what its transaction in Ledger does, and to keep the shape of
  the ledger and the exactly-once invariant.
 */
module LedgerService {
  import opened Prelude
  import opened Matcher
  import opened Ledger
  import opened Ingest
  import opened Vat
  import LedgerPaid
  import LedgerFamilies
  import LedgerChains

  /** A transaction ends as `r` says: its new ledger and no error, or its error and the ledger as before. */
  ghost predicate Did(before: Ledger, after: Ledger, e: Option<LedgerError>, r: Outcome) {
    match r
    case Success(m) => e.None? && after == m
    case Failure(x) => e == Some(x) && after == before
  }

  lemma DidKeeps(s: System, op: Op, after: Ledger, e: Option<LedgerError>, rules: set<Rule>)
    requires LedgerFamilies.Inv(s.ledger) && Ingest.Inv(s, rules) && Possible(s.ledger, op)
    requires op.Ingest? ==> op.input.transId in s.events && s.events[op.input.transId].input == op.input
    requires Did(s.ledger, after, e, Apply(s.ledger, op, rules))
    ensures LedgerFamilies.Inv(after)
    ensures Ingest.Inv(s.(ledger := after, log := if e.None? then s.log + [op] else s.log), rules)
    ensures op.Ingest? && (e.None? || e == Some(Duplicate)) ==> op.input.transId in after.payments
  {
    LedgerFamilies.StepKeeps(s.ledger, op, rules);
    CommitKeeps(s, op, rules);
    if op.Ingest? && (e.None? || e == Some(Duplicate)) { PaymentAfter(s.ledger, op, rules); }
  }

  /** The payments of a sale as the query lists them: each once, by time. */
  ghost predicate IsListing(l: Ledger, s: SaleId, ts: seq<TransId>) {
    && (forall i, k :: 0 <= i < k < |ts| ==> ts[i] != ts[k])
    && (forall t :: t in ts <==> t in l.payments && l.payments[t].sale == Some(s))
    && (forall i, k :: 0 <= i < k < |ts| && ts[i] in l.payments && ts[k] in l.payments ==> l.payments[ts[i]].paidAt <= l.payments[ts[k]].paidAt)
  }

  function AsMatched(p: Payment): Payment {
    if p.status == Partial then p.(status := Matched) else p
  }

  datatype C2BResult = C2BResult(error: Option<LedgerError>, duplicate: bool, unknown: bool)

  datatype Counts = Counts(processed: nat, skipped: nat, failed: nat)

  datatype Stats = Stats(seen: nat, counts: Counts)

  /** A listed event: a confirmation, or of a kind the sweep does not know. */
  datatype Listing = Ours(t: TransId) | Foreign

  /** What resolving a listed confirmation comes to: a shortcode, none that is verified (or a payload that no longer parses), or a database error. */
  datatype Resolution = Known(sc: Shortcode) | Unusable | ResolveError

  /** The event is processed without an error. */
  predicate Settled(events: map<TransId, Event>, t: TransId) {
    t in events && events[t].processed && !events[t].error
  }

  /** The event is processed without an error, or carries one. */
  predicate Handled(events: map<TransId, Event>, t: TransId) {
    t in events && (Settled(events, t) || events[t].error)
  }

  predicate SettledEntry(events: map<TransId, Event>, e: Listing) {
    e.Ours? && Settled(events, e.t)
  }

  /** How many of the first `n` listed events are processed without an error, and how many are skipped. */
  function SettledAmong(events: map<TransId, Event>, es: seq<Listing>, n: nat): nat
    requires n <= |es|
  {
    if n == 0 then 0 else SettledAmong(events, es, n - 1) + (if SettledEntry(events, es[n - 1]) then 1 else 0)
  }

  function ForeignAmong(es: seq<Listing>, n: nat): nat
    requires n <= |es|
  {
    if n == 0 then 0 else ForeignAmong(es, n - 1) + (if es[n - 1].Foreign? then 1 else 0)
  }

  /** The confirmations among the first `n` entries. */
  function Names(es: seq<Listing>, n: nat): set<TransId>
    requires n <= |es|
  {
    if n == 0 then {} else Names(es, n - 1) + (if es[n - 1].Ours? then {es[n - 1].t} else {})
  }

  /** The entries list stored events, each once. */
  predicate Listed(events: map<TransId, Event>, es: seq<Listing>) {
    forall i :: 0 <= i < |es| && es[i].Ours? ==> es[i].t in events && es[i].t !in Names(es, i)
  }

  /** A sweep over the first `n` entries handled each of them, finished `c.processed`, and touched no other event. */
  ghost predicate Swept(first: map<TransId, Event>, events: map<TransId, Event>, es: seq<Listing>, n: nat, c: Counts)
    requires n <= |es|
  {
    && events.Keys == first.Keys && c.processed == SettledAmong(events, es, n) && c.skipped == ForeignAmong(es, n)
    && c.processed + c.skipped + c.failed == n
    && (forall t :: t in Names(es, n) ==> Handled(events, t))
    && (forall t :: t in first && t !in Names(es, n) ==> t in events && events[t] == first[t])
  }

  /** The database failed while a confirmation was resolved: the sweep stops there. */
  predicate Fails(e: Listing, answer: Resolution) {
    e.Ours? && answer.ResolveError?
  }

  /** The first entry from `i` on whose resolution fails, or the length of the batch. */
  function FirstFailure(batch: seq<Listing>, answers: seq<Resolution>, i: nat): (n: nat)
    requires |answers| == |batch| && i <= |batch|
    ensures i <= n <= |batch|
    decreases |batch| - i
  {
    if i == |batch| || Fails(batch[i], answers[i]) then i else FirstFailure(batch, answers, i + 1)
  }

  lemma {:induction false} FirstFailureIsFirst(batch: seq<Listing>, answers: seq<Resolution>, i: nat)
    requires |answers| == |batch| && i <= |batch|
    ensures var n := FirstFailure(batch, answers, i);
      (forall k :: i <= k < n ==> !Fails(batch[k], answers[k])) && (n < |batch| ==> Fails(batch[n], answers[n]))
    decreases |batch| - i
  {
    if i < |batch| && !Fails(batch[i], answers[i]) { FirstFailureIsFirst(batch, answers, i + 1); }
  }

  /** The counters after one more entry. */
  function Counting(st: Counts, foreign: bool, done: bool): Counts {
    Counts(if !foreign && done then st.processed + 1 else st.processed,
           if foreign then st.skipped + 1 else st.skipped,
           if !foreign && !done then st.failed + 1 else st.failed)
  }

  /** The events after the entry `e` got the new mark `m`. */
  function WithMark(events: map<TransId, Event>, e: Listing, m: Event): map<TransId, Event> {
    if e.Ours? then events[e.t := m] else events
  }

  /** A position up to the first failure is that failure exactly when the sweep stops there. */
  lemma StopsThere(batch: seq<Listing>, answers: seq<Resolution>, i: nat)
    requires |answers| == |batch| && i <= FirstFailure(batch, answers, 0)
    ensures i == FirstFailure(batch, answers, 0) <==> i == |batch| || Fails(batch[i], answers[i])
  {
    FirstFailureIsFirst(batch, answers, 0);
  }

  lemma SweptStep(first: map<TransId, Event>, was: map<TransId, Event>, events: map<TransId, Event>, m: Event,
                  es: seq<Listing>, i: nat, c: Counts, done: bool)
    requires i < |es| && Listed(first, es) && Swept(first, was, es, i, c) && events == WithMark(was, es[i], m)
    requires es[i].Ours? ==> (done || m.error) && (done <==> m.processed && !m.error)
    ensures Swept(first, events, es, i + 1, Counting(c, es[i].Foreign?, done))
  {
    assert es[i].Ours? ==> es[i].t in first.Keys;
    assert events.Keys == was.Keys;
    SameAmong(was, events, es, i, es[i]);
    assert forall t :: t in Names(es, i) ==> Handled(was, t) && Handled(events, t);
  }

  lemma {:induction false} SameAmong(was: map<TransId, Event>, events: map<TransId, Event>, es: seq<Listing>, n: nat, e: Listing)
    requires n <= |es| && (e.Ours? ==> e.t !in Names(es, n)) && events.Keys == was.Keys
    requires forall u :: u in was && Ours(u) != e ==> events[u] == was[u]
    ensures SettledAmong(events, es, n) == SettledAmong(was, es, n)
  {
    if n > 0 {
      var x := es[n - 1];
      assert x.Ours? ==> x.t in Names(es, n) && (x.t in events.Keys <==> x.t in was.Keys);
      SameAmong(was, events, es, n - 1, e);
    }
  }

  class Service {
    const rules: set<Rule>
    var sales: seq<Sale>
    var payments: map<TransId, Payment>
    var docs: seq<Doc>
    var events: map<TransId, Event>
    ghost var log: seq<Op>

    function Value(): Ledger
      reads this
    {
      Ledger(sales, payments, docs)
    }

    ghost function Sys(): System
      reads this
    {
      System(Value(), events, map[], log)
    }

    ghost predicate Valid()
      reads this
    {
      LedgerFamilies.Inv(Value()) && Ingest.Inv(Sys(), rules)
    }

    constructor (admitted: set<Rule>)
      ensures Valid() && Value() == EMPTY && events == map[] && rules == admitted
    {
      rules, sales, payments, docs, events, log := admitted, [], map[], [], map[], [];
      new;
      StartIsFine(rules);
    }

    /* ------------------------------------------------------------ statements */

    method Rollback(l: Ledger)
      modifies this`sales, this`payments, this`docs
      ensures Value() == l
    {
      sales, payments, docs := l.sales, l.payments, l.docs;
    }

    method MarkPaid(s: SaleId)
      modifies this`sales
      ensures Value() == MarkSalePaid(old(Value()), s)
    {
      if s < |sales| && sales[s].status == Open {
        sales := sales[s := sales[s].(status := Paid)];
      }
    }

    method InsertPayment(t: TransId, p: Payment) returns (e: Option<LedgerError>)
      modifies this`payments
      ensures Did(old(Value()), Value(), e, CreatePayment(old(Value()), t, p, rules))
    {
      if p.amount <= 0 || (p.rule.Some? && p.rule.value !in rules) { return Some(CheckViolation); }
      if t in payments { return Some(Duplicate); }
      payments := payments[t := p];
      e := None;
    }

    method InsertInvoice(s: SaleId, payment: Option<TransId>) returns (e: Option<LedgerError>)
      modifies this`docs
      ensures Did(old(Value()), Value(), e, CreateInvoiceForSale(old(Value()), s, payment))
    {
      if s >= |sales| { return Some(NotFound); }
      docs := docs + [Doc(s, payment, Invoice, None, None, sales[s].figures, false)];
      e := None;
    }

    method CashSale(org: OrgId, payer: Option<string>, amount: int, item: Option<DefaultItem>, stamp: Stamp) returns (e: Option<LedgerError>)
      modifies this`sales
      ensures Did(old(Value()), Value(), e, CreateCashSale(old(Value()), org, payer, amount, item, stamp))
    {
      if item.None? { return Some(NoItem); }
      if item.value.Broken? { return Some(DefaultItemError); }
      var tax := LineTax(amount, RateBP(item.value.category));
      sales := sales + [Sale(org, stamp.ref, Paid, payer, Figures(amount - tax, tax, amount), stamp.at)];
      e := None;
    }

    /** A SELECT … LIMIT 1 over sales. */
    method FindSale(q: SaleId -> bool, latest: bool) returns (c: Option<Candidate>)
      ensures IsAnswer(Value(), c, q, latest)
    {
      c := None;
      var i := 0;
      while i < |sales|
        invariant 0 <= i <= |sales|
        invariant c.None? ==> forall s: SaleId :: s < i ==> !q(s)
        invariant c.Some? ==> c.value.sale < i && q(c.value.sale) && c.value.total == sales[c.value.sale].figures.total
        invariant c.Some? ==> forall s: SaleId :: s < i && q(s) ==> sales[s].createdAt <= sales[c.value.sale].createdAt
      {
        if q(i) && (c.None? || sales[c.value.sale].createdAt < sales[i].createdAt) {
          c := Some(Candidate(i, sales[i].figures.total));
        }
        i := i + 1;
      }
    }

    method Lookups(org: OrgId, input: C2B) returns (a: Answers)
      ensures Truthful(Value(), org, input, a)
    {
      var l := Value();
      var r := FindSale(ByRef(l, org, input), false);
      var c := FindSale(ByCustomer(l, org, input), true);
      var m := FindSale(ByAmount(l, org, input), true);
      a := Answers(r, c, m);
    }

    /* ---------------------------------------------------------------- ingest */

    /** applyPayment inside its transaction. */
    method RecordPayment(input: C2B, sc: Shortcode, stamp: Stamp) returns (a: Answers, e: Option<LedgerError>)
      modifies this`sales, this`payments, this`docs
      ensures Truthful(old(Value()), sc.org, input, a)
      ensures Did(old(Value()), Value(), e, ApplyPayment(old(Value()), input, sc, a, stamp, rules))
    {
      var before := Value();
      a := Lookups(sc.org, input);
      var d := Decide(input, sc, a);
      e := None;
      var sale := d.sale;
      if d.createCashSale {
        e := CashSale(sc.org, input.payer, input.amount, sc.defaultItem, stamp);
        if e.Some? { return; }
        sale := Some(|sales| - 1);
      } else if d.sale.Some? && d.status == Matched {
        MarkPaid(d.sale.value);
      }
      e := InsertPayment(input.transId, Payment(sc.org, input.payer, input.amount, input.paidAt, d.status, sale, d.rule));
      if e.Some? {
        Rollback(before);
        return;
      }
      if sale.None? || d.status == Partial { return; }
      e := InsertInvoice(sale.value, Some(input.transId));
    }

    /** ProcessStoredC2B: the tenant transaction, then the mark on the event. */
    method ProcessStored(input: C2B, sc: Shortcode, stamp: Stamp) returns (res: C2BResult)
      requires Valid() && input.transId in events && events[input.transId].input == input
      modifies this
      ensures Valid() && (res.duplicate ==> res.error.None?) && !res.unknown
      ensures events == old(events)[input.transId := Marked(old(events)[input.transId], res.error.Some?)]
      ensures var e := events[input.transId];
        && e.input == input
        && (res.error.None? ==> e.processed && !e.error)
        && (res.error.Some? ==> e.error && e.processed == old(events)[input.transId].processed)
      ensures res.duplicate ==> input.transId in old(payments)
      ensures res.error.None? ==> input.transId in payments
      ensures res.duplicate || res.error.Some? ==> Value() == old(Value()) && log == old(log)
      ensures !res.duplicate && res.error.None? ==> input.transId !in old(payments) && |log| == |old(log)| + 1
      ensures res.error != Some(Duplicate)
      ensures forall u :: u in old(payments) ==> u in payments
    {
      var e := TenantTransaction(input, sc, stamp);
      res := if e == Some(Duplicate) then C2BResult(None, true, false) else C2BResult(e, false, false);
      MarkEvent(input.transId, Marked(events[input.transId], res.error.Some?));
    }

    /** The tenant transaction: a new payment, or nothing. */
    method TenantTransaction(input: C2B, sc: Shortcode, stamp: Stamp) returns (e: Option<LedgerError>)
      requires Valid() && input.transId in events && events[input.transId].input == input
      modifies this`sales, this`payments, this`docs, this`log
      ensures Valid()
      ensures e.None? || e == Some(Duplicate) ==> input.transId in payments
      ensures e == Some(Duplicate) ==> input.transId in old(payments)
      ensures e.Some? ==> Value() == old(Value()) && log == old(log)
      ensures e.None? ==> input.transId !in old(payments) && |log| == |old(log)| + 1
      ensures forall u :: u in old(payments) ==> u in payments
    {
      ghost var before := Sys();
      var a;
      a, e := RecordPayment(input, sc, stamp);
      ghost var op := Op.Ingest(input, sc, a, stamp);
      DidKeeps(before, op, Value(), e, rules);
      if e.None? {
        PaymentsOfStep(before.ledger, op, rules);
        log := log + [op];
      }
    }

    /** A new mark on a stored event; a clean one only when its payment is there. */
    method MarkEvent(t: TransId, e: Event)
      requires Valid() && t in events && e.input == events[t].input && (e.processed && !e.error ==> t in payments)
      modifies this`events
      ensures Valid() && events == old(events)[t := e]
    {
      EventKeeps(Sys(), t, e, rules);
      events := events[t := e];
    }

    /** IngestC2B: the event is stored once; a repeated delivery or an unknown shortcode changes no ledger row. */
    method IngestC2B(input: C2B, resolved: Option<Shortcode>, stamp: Stamp) returns (res: C2BResult)
      requires Valid()
      modifies this
      ensures Valid()
      ensures input.transId in old(events) ==> res.duplicate && Value() == old(Value()) && events == old(events)
      ensures input.transId !in old(events) && resolved.None? ==>
        res.unknown && Value() == old(Value()) && events == old(events)[input.transId := Event(input, true, true)]
      ensures input.transId !in old(events) && resolved.Some? ==>
        events == old(events)[input.transId := Event(input, res.error.None?, res.error.Some?)]
      ensures res.error.Some? ==> Value() == old(Value())
      ensures !res.unknown && !res.duplicate ==> input.transId !in old(payments)
      ensures !res.unknown && !res.duplicate && res.error.None? ==> input.transId in payments && |log| == |old(log)| + 1
    {
      if input.transId in events {
        res := C2BResult(None, true, false);
      } else if resolved.None? {
        StoreEvent(Event(input, true, true));
        res := C2BResult(None, false, true);
      } else {
        res := IngestNew(input, resolved.value, stamp);
      }
    }

    /** A first delivery to a verified shortcode: store, then process. */
    method IngestNew(input: C2B, sc: Shortcode, stamp: Stamp) returns (res: C2BResult)
      requires Valid() && input.transId !in events
      modifies this
      ensures Valid() && !res.unknown && !res.duplicate && input.transId !in old(payments)
      ensures events == old(events)[input.transId := Event(input, res.error.None?, res.error.Some?)]
      ensures res.error.Some? ==> Value() == old(Value())
      ensures res.error.None? ==> input.transId in payments && |log| == |old(log)| + 1
    {
      StoreEvent(Event(input, false, false));
      res := ProcessStored(input, sc, stamp);
      UpdatedTwice(old(events), input.transId, Event(input, false, false), Marked(Event(input, false, false), res.error.Some?));
    }

    /** InsertWebhookEvent of an id not seen before. */
    method StoreEvent(e: Event)
      requires Valid() && e.input.transId !in events && (e.processed ==> e.error)
      modifies this`events
      ensures Valid() && events == old(events)[e.input.transId := e] && e.input.transId !in payments
    {
      StoredKeeps(Sys(), e, rules);
      events := events[e.input.transId := e];
    }

    /** The sweep's work on one listed event: it ends processed with its payment, or with an error `m`. */
    method ReconcileEvent(t: TransId, sc: Option<Shortcode>, stamp: Stamp) returns (done: bool, ghost m: Event)
      requires Valid() && t in events
      modifies this
      ensures Valid() && events == old(events)[t := m]
      ensures done <==> m.processed && !m.error
      ensures if done then t in payments else m.error && Value() == old(Value())
      ensures sc.None? ==> !done && m.processed
    {
      assert EventOk(Sys(), t);
      if sc.None? {
        m := events[t].(processed := true, error := true);
        MarkEvent(t, events[t].(processed := true, error := true));
        done := false;
      } else {
        var res := ProcessStored(events[t].input, sc.value, stamp);
        done := res.error.None?;
        m := events[t];
      }
    }

    /** One listed entry whose resolution did not fail: skipped, rejected or processed. */
    method ReconcileEntry(e: Listing, answer: Resolution, stamp: Stamp) returns (done: bool, ghost m: Event)
      requires Valid() && (e.Ours? ==> e.t in events && !answer.ResolveError?)
      modifies this
      ensures Valid() && events == WithMark(old(events), e, m)
      ensures e.Ours? ==> (done || m.error) && (done <==> m.processed && !m.error)
    {
      done, m := false, Event(C2B("", "", 0, None, "", 0), false, false);
      if e.Ours? {
        done, m := ReconcileEvent(e.t, if answer.Known? then Some(answer.sc) else None, stamp);
      }
    }

    /** The sweep's loop body. */
    method ReconcileNext(es: seq<Listing>, i: nat, answer: Resolution, stamp: Stamp, c: Counts, ghost first: map<TransId, Event>)
      returns (counts: Counts)
      requires Valid() && i < |es| && Listed(first, es) && !Fails(es[i], answer) && Swept(first, events, es, i, c)
      modifies this
      ensures Valid() && Swept(first, events, es, i + 1, counts)
    {
      ghost var was := events;
      assert es[i].Ours? ==> es[i].t in first.Keys;
      var done, m := ReconcileEntry(es[i], answer, stamp);
      SweptStep(first, was, events, m, es, i, c, done);
      counts := Counting(c, es[i].Foreign?, done);
    }

    /** The sweep's loop over the first `n` entries, none of which fails to resolve. */
    method ReconcileFirst(batch: seq<Listing>, answers: seq<Resolution>, stamps: seq<Stamp>, n: nat) returns (counts: Counts)
      requires Valid() && |stamps| == |batch| && |answers| == |batch| && Listed(events, batch)
      requires n <= FirstFailure(batch, answers, 0)
      modifies this
      ensures Valid() && Swept(old(events), events, batch, n, counts)
    {
      ghost var first := events;
      counts := Counts(0, 0, 0);
      for i := 0 to n
        invariant Valid() && Swept(first, events, batch, i, counts)
      {
        StopsThere(batch, answers, i);
        counts := ReconcileNext(batch, i, answers[i], stamps[i], counts, first);
      }
    }

    /**
      One sweep over listed events. It stops at the first database error while
      resolving; what it got through is handled, and the counts say how.
     */
    method Reconcile(batch: seq<Listing>, answers: seq<Resolution>, stamps: seq<Stamp>) returns (st: Stats, ghost handled: nat)
      requires Valid() && |stamps| == |batch| && |answers| == |batch| && Listed(events, batch)
      modifies this
      ensures Valid() && handled == FirstFailure(batch, answers, 0)
      ensures st.seen == if handled < |batch| then handled + 1 else handled
      ensures Swept(old(events), events, batch, handled, st.counts)
    {
      var n := FirstFailure(batch, answers, 0);
      handled := n;
      var counts := ReconcileFirst(batch, answers, stamps, n);
      st := Stats(if n < |batch| then n + 1 else n, counts);
    }

    /* -------------------------------------------------- the merchant's actions */

    method ConvertPayment(t: TransId, target: Target, stamp: Stamp) returns (e: Option<LedgerError>)
      requires Valid()
      modifies this`sales, this`payments, this`docs, this`log
      ensures Valid() && Did(old(Value()), Value(), e, Convert(old(Value()), t, target, stamp))
    {
      ghost var before := Sys();
      e := ConvertBody(t, target, stamp);
      DidKeeps(before, Op.ConvertPayment(t, target, stamp), Value(), e, rules);
      if e.None? { log := log + [Op.ConvertPayment(t, target, stamp)]; }
    }

    method ConvertBody(t: TransId, target: Target, stamp: Stamp) returns (e: Option<LedgerError>)
      modifies this`sales, this`payments, this`docs
      ensures Did(old(Value()), Value(), e, Convert(old(Value()), t, target, stamp))
    {
      var before := Value();
      if t !in payments { return Some(NotFound); }
      var p := payments[t];
      if p.status != Unmatched && p.status != Partial { return Some(Duplicate); }
      e := None;
      var s := |sales|;
      var status := Matched;
      match target {
        case ToSale(open) =>
          if !IsOpen(before, p.org, open) { return Some(NotAnOpenSale); }
          MarkPaid(open);
          s := open;
        case ToLines(f, customer) =>
          sales := sales + [Sale(p.org, stamp.ref, Paid, customer, f, stamp.at)];
        case ToItem(item) =>
          e := CashSale(p.org, p.payer, p.amount, item, stamp);
          if e.Some? { return; }
          status := Status.CashSale;
      }
      payments := payments[t := p.(sale := Some(s), status := status, rule := Some(Manual))];
      e := InsertInvoice(s, Some(t));
    }

    method SettleSale(s: SaleId, listed: seq<TransId>) returns (e: Option<LedgerError>)
      requires Valid() && IsListing(Value(), s, listed)
      modifies this`sales, this`payments, this`docs, this`log
      ensures Valid()
      ensures var last := if listed == [] then None else Some(listed[|listed| - 1]);
        IsLastPayment(old(Value()), s, last) && Did(old(Value()), Value(), e, Settle(old(Value()), s, last))
    {
      ghost var before := Sys();
      var last: Option<TransId>;
      e, last := SettleBody(s, listed);
      ListedLast(before.ledger, s, listed);
      DidKeeps(before, Op.SettleSale(s, last), Value(), e, rules);
      if e.None? { log := log + [Op.SettleSale(s, last)]; }
    }

    method SettleBody(s: SaleId, listed: seq<TransId>) returns (e: Option<LedgerError>, last: Option<TransId>)
      requires IsListing(Value(), s, listed)
      modifies this`sales, this`payments, this`docs
      ensures last == if listed == [] then None else Some(listed[|listed| - 1])
      ensures Did(old(Value()), Value(), e, Settle(old(Value()), s, last))
    {
      var before := Value();
      last := None;
      for i := 0 to |listed|
        invariant last == if i == 0 then None else Some(listed[i - 1])
      {
        last := Some(listed[i]);
      }
      if s >= |sales| { return Some(NotFound), last; }
      if sales[s].status != Open { return Some(Duplicate), last; }
      MarkPaid(s);
      MatchListed(s, listed);
      e := InsertInvoice(s, last);
    }

    /** The second loop: every partial payment listed becomes matched. */
    method MatchListed(s: SaleId, listed: seq<TransId>)
      requires IsListing(Value(), s, listed)
      modifies this`payments
      ensures Value() == MatchPartials(old(Value()), s)
    {
      ghost var before := payments;
      for i := 0 to |listed|
        invariant payments.Keys == before.Keys
        invariant forall t :: t in before ==> payments[t] == if t in listed[..i] then AsMatched(before[t]) else before[t]
      {
        var t := listed[i];
        assert t in listed && t in before.Keys && t !in listed[..i];
        assert forall u :: u in listed[..i + 1] <==> u in listed[..i] || u == t;
        if payments[t].status == Partial {
          payments := payments[t := payments[t].(status := Matched)];
        }
      }
      assert listed[..|listed|] == listed;
      assert payments == MatchPartials(old(Value()), s).payments;
    }

    method NewSale(org: OrgId, customer: Option<string>, f: Figures, paid: bool, stamp: Stamp)
      requires Valid()
      modifies this`sales, this`docs, this`log
      ensures Valid() && CreateSale(old(Value()), org, customer, f, paid, stamp) == Success(Value())
    {
      ghost var before := Sys();
      sales := sales + [Sale(org, stamp.ref, if paid then Paid else Open, customer, f, stamp.at)];
      if paid {
        var _ := InsertInvoice(|sales| - 1, None);
      }
      DidKeeps(before, Op.NewSale(org, customer, f, paid, stamp), Value(), None, rules);
      log := log + [Op.NewSale(org, customer, f, paid, stamp)];
    }

    method ReissueInvoice(d: DocId) returns (e: Option<LedgerError>)
      requires Valid()
      modifies this`docs, this`log
      ensures Valid() && Did(old(Value()), Value(), e, Reissue(old(Value()), d))
    {
      ghost var before := Sys();
      e := ReissueBody(d);
      DidKeeps(before, ReissueDoc(d), Value(), e, rules);
      if e.None? { log := log + [ReissueDoc(d)]; }
    }

    method ReissueBody(d: DocId) returns (e: Option<LedgerError>)
      requires LedgerFamilies.Forest(docs)
      modifies this`docs
      ensures Did(old(Value()), Value(), e, Reissue(old(Value()), d))
    {
      if d >= |docs| { return Some(NotFound); }
      var h := LedgerChains.FollowChain(docs, d);
      var orig := docs[h];
      if orig.kind != Invoice { return Some(CannotReissueCreditNote); }
      var parent := h;
      if orig.acked {
        parent := |docs|;
        docs := docs + [Doc(orig.sale, orig.payment, CreditNote, Some(h), None, MinusFigures(orig.figures), false)];
      }
      var n := |docs|;
      docs := docs + [Doc(orig.sale, orig.payment, Invoice, Some(parent), None, orig.figures, false)];
      docs := docs[h := docs[h].(supersededBy := Some(n))];
      if parent != h {
        docs := docs[parent := docs[parent].(supersededBy := Some(n))];
      }
      e := None;
    }

    method CreditInvoice(d: DocId) returns (e: Option<LedgerError>)
      requires Valid()
      modifies this`docs, this`payments, this`log
      ensures Valid() && Did(old(Value()), Value(), e, Credit(old(Value()), d))
    {
      ghost var before := Sys();
      e := CreditBody(d);
      DidKeeps(before, CreditDoc(d), Value(), e, rules);
      if e.None? { log := log + [CreditDoc(d)]; }
    }

    method CreditBody(d: DocId) returns (e: Option<LedgerError>)
      modifies this`docs, this`payments
      ensures Did(old(Value()), Value(), e, Credit(old(Value()), d))
    {
      if d >= |docs| { return Some(NotFound); }
      var orig := docs[d];
      if orig.kind != Invoice { return Some(NotAnInvoice); }
      if orig.supersededBy.Some? { return Some(AlreadySuperseded); }
      if HasCreditNote(Value(), d) { return Some(CreditNoteExists); }
      var n := |docs|;
      docs := docs + [Doc(orig.sale, orig.payment, CreditNote, Some(d), None, MinusAbsFigures(orig.figures), false)];
      docs := docs[d := docs[d].(supersededBy := Some(n))];
      if orig.payment.Some? && orig.payment.value in payments {
        payments := payments[orig.payment.value := payments[orig.payment.value].(status := Reversed)];
      }
      e := None;
    }

    method IngestReversal(t: TransId) returns (e: Option<LedgerError>)
      requires Valid()
      modifies this`docs, this`payments, this`log
      ensures Valid() && Did(old(Value()), Value(), e, Reverse(old(Value()), t))
    {
      if t !in payments { return Some(NotFound); }
      var d := InvoiceOfPayment(Value(), t);
      if d.None? { return Some(NotFound); }
      e := CreditInvoice(d.value);
      if e == Some(CreditNoteExists) { e := None; }
    }
  }

  /* ------------------------------------------------------------ small lemmas */

  /** A new mark on an event keeps the invariant when a clean mark has its payment. */
  lemma EventKeeps(s: System, t: TransId, e: Event, rules: set<Rule>)
    requires Ingest.Inv(s, rules) && s.jobs == map[] && t in s.events && e.input == s.events[t].input
    requires e.processed && !e.error ==> t in s.ledger.payments
    ensures Ingest.Inv(UpdateEvent(s, t, e), rules)
  {
    var m := UpdateEvent(s, t, e);
    forall u | u in m.events ensures EventOk(m, u) { assert EventOk(s, u); }
  }

  /** In a valid service an event processed without an error has its payment. */
  lemma SettledHasPayment(s: System, rules: set<Rule>, t: TransId)
    requires Ingest.Inv(s, rules) && Settled(s.events, t)
    ensures t in s.ledger.payments
  {
    assert EventOk(s, t);
  }

  /** A new event, with no claim that it is processed. */
  lemma StoredKeeps(s: System, e: Event, rules: set<Rule>)
    requires Ingest.Inv(s, rules) && s.jobs == map[] && e.input.transId !in s.events && (e.processed ==> e.error)
    ensures Ingest.Inv(UpdateEvent(s, e.input.transId, e), rules) && e.input.transId !in s.ledger.payments
  {
    var m := UpdateEvent(s, e.input.transId, e);
    forall t | t in m.events ensures EventOk(m, t) { assert t in s.events ==> EventOk(s, t); }
    UnseenHasNoPayment(s, e.input.transId, rules);
  }

  lemma UpdatedTwice(events: map<TransId, Event>, t: TransId, a: Event, b: Event)
    ensures events[t := a][t := b] == events[t := b] && events[t := a][t] == a
  {
  }

  /** An id never stored has no payment. */
  lemma UnseenHasNoPayment(s: System, t: TransId, rules: set<Rule>)
    requires Ingest.Inv(s, rules) && t !in s.events
    ensures t !in s.ledger.payments
  {
    assert Logged(s.log, t) ==> t in s.events;
  }

  lemma ListedLast(l: Ledger, s: SaleId, ts: seq<TransId>)
    requires IsListing(l, s, ts)
    ensures IsLastPayment(l, s, if ts == [] then None else Some(ts[|ts| - 1]))
  {
    if ts != [] {
      var t := ts[|ts| - 1];
      assert t in ts;
      forall u | u in l.payments && l.payments[u].sale == Some(s) ensures l.payments[u].paidAt <= l.payments[t].paidAt {
        assert u in ts;
        var i :| 0 <= i < |ts| && ts[i] == u;
      }
    }
  }
}
