/**
  The matcher (backend/internal/ledger/matcher.go): which sale a payment
  settles. It only decides; the answers to its read-only questions are given.
  The STK rule is left out: no request-to-pay is ever created.
 */
module Matcher {
  import opened Prelude

  type SaleId = nat

  datatype Status = Matched | CashSale | Unmatched | Partial | Reversed

  datatype Rule = BillRef | CounterWindow | AutoInvoice | Manual

  datatype Candidate = Candidate(sale: SaleId, total: int)

  /** What the three lookups answer. */
  datatype Answers = Answers(byRef: Option<Candidate>, byCustomer: Option<Candidate>, byAmount: Option<Candidate>)

  datatype Decision = Decision(status: Status, rule: Option<Rule>, sale: Option<SaleId>, createCashSale: bool)

  function AgainstSale(amount: int, c: Candidate, rule: Rule): Decision {
    Decision(if amount >= c.total then Matched else Partial, Some(rule), Some(c.sale), false)
  }

  /** The rules in order: bill reference, customer at the counter, amount at the counter, auto-invoice. */
  function Match(amount: int, hasRef: bool, hasPayer: bool, autoInvoice: bool, hasDefaultItem: bool, a: Answers): Decision {
    if hasRef && a.byRef.Some? then AgainstSale(amount, a.byRef.value, BillRef)
    else if hasPayer && a.byCustomer.Some? then AgainstSale(amount, a.byCustomer.value, CounterWindow)
    else if a.byAmount.Some? then Decision(Matched, Some(CounterWindow), Some(a.byAmount.value.sale), false)
    else if autoInvoice && hasDefaultItem then Decision(CashSale, Some(AutoInvoice), None, true)
    else Decision(Unmatched, None, None, false)
  }

  /** When each rule decides, when each status arises, and the shape of the decision. */
  lemma MatchShape(amount: int, hasRef: bool, hasPayer: bool, autoInvoice: bool, hasDefaultItem: bool, a: Answers)
    ensures var d := Match(amount, hasRef, hasPayer, autoInvoice, hasDefaultItem, a);
      && d.status != Reversed
      && (d.status == Matched || d.status == Partial <==> d.sale.Some?)
      && (d.status == CashSale <==> d.createCashSale)
      && (d.createCashSale ==> d.sale.None? && autoInvoice && hasDefaultItem)
      && (d.status == Unmatched <==> d.rule.None?)
      && (d.status == Unmatched ==> d.sale.None? && !(autoInvoice && hasDefaultItem))
      && (d.rule == Some(BillRef) <==> hasRef && a.byRef.Some?)
      && (d.rule == Some(CounterWindow) <==>
            d.rule != Some(BillRef) && ((hasPayer && a.byCustomer.Some?) || a.byAmount.Some?))
      && (d.rule == Some(AutoInvoice) <==> d.createCashSale)
      && (d.rule == Some(BillRef) ==> d.sale == Some(a.byRef.value.sale) && (d.status == Matched <==> amount >= a.byRef.value.total))
      && (d.rule == Some(CounterWindow) && hasPayer && a.byCustomer.Some? ==>
            d.sale == Some(a.byCustomer.value.sale) && (d.status == Matched <==> amount >= a.byCustomer.value.total))
      && (d.rule == Some(CounterWindow) && !(hasPayer && a.byCustomer.Some?) ==>
            d.sale == Some(a.byAmount.value.sale) && d.status == Matched)
  {
  }
}
