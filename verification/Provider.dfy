/**
  The fiscal provider port and the contract its adapters owe the submission
  protocol (backend/internal/fiscal/provider.go). A document is identified by
  its invoice id; the empty id is the id of a document that was never built.
 */
module Provider {
  import opened Prelude
  import opened FiscalState

  type InvoiceId = string

  /** What the fiscal backend has acknowledged so far: document id to KRA invoice number. */
  type AckBook = map<InvoiceId, string>

  datatype DocKind = Invoice | CreditNote

  datatype SubmitReply = Accepted(kraNo: string) | Rejected(err: SubmitError)

  datatype LookupReply = Found(kraNo: string) | NotSupported | LookupFailed(err: SubmitError)

  /**
    One SubmitInvoice or SubmitCreditNote call. An acknowledgement is kept for
    ever and replayed; a call may fail without effect, succeed, or take effect
    and lose its response. Nothing is acknowledged for a document without id,
    nor for a credit note that names no original.
   */
  predicate SubmitContract(before: AckBook, id: InvoiceId, kind: DocKind, originalKraNo: string,
                           reply: SubmitReply, after: AckBook)
  {
    && (after == before || (id !in before && id in after && after == before[id := after[id]]))
    && (reply.Accepted? ==> id in after && reply.kraNo == after[id])
    && (id !in before && id in after ==> after[id] != "" && id != "" && (kind == CreditNote ==> originalKraNo != ""))
  }

  /** One LookupInvoice call: an answer is never invented and never changes anything. */
  predicate LookupContract(acks: AckBook, id: InvoiceId, reply: LookupReply) {
    reply.Found? ==> id in acks && reply.kraNo == acks[id]
  }

  /** The contract excludes no accident: a submission may fail without effect, take effect and be reported, or take effect and lose its answer; a replay may fail too. */
  lemma AccidentsAreAllowed(book: AckBook, id: InvoiceId, kraNo: string, e: SubmitError)
    requires id != "" && kraNo != ""
    ensures SubmitContract(book, id, Invoice, "", Rejected(e), book)
    ensures id !in book ==> SubmitContract(book, id, Invoice, "", Accepted(kraNo), book[id := kraNo])
    ensures id !in book ==> SubmitContract(book, id, Invoice, "", Rejected(e), book[id := kraNo])
    ensures id in book ==> SubmitContract(book, id, Invoice, "", Accepted(book[id]), book)
    ensures LookupContract(book, id, NotSupported) && LookupContract(book, id, LookupFailed(e))
    ensures id in book ==> LookupContract(book, id, Found(book[id]))
  {
  }

  /**
    The contract is idempotency over any number of calls: once a document has
    a number, every later accepted submission and every later found lookup of
    it returns that number, whatever was submitted in between.
   */
  datatype Call =
    | SubmitCall(id: InvoiceId, kind: DocKind, originalKraNo: string, reply: SubmitReply, after: AckBook)
    | LookupCall(lookedUp: InvoiceId, answer: LookupReply)

  ghost predicate Calls(acks: AckBook, calls: seq<Call>)
    decreases |calls|
  {
    calls == [] ||
    match calls[0]
    case SubmitCall(id, kind, orig, reply, after) => SubmitContract(acks, id, kind, orig, reply, after) && Calls(after, calls[1..])
    case LookupCall(id, answer) => LookupContract(acks, id, answer) && Calls(acks, calls[1..])
  }

  predicate Answers(c: Call, id: InvoiceId, kraNo: string) {
    match c
    case SubmitCall(i, _, _, reply, _) => i == id && reply == Accepted(kraNo)
    case LookupCall(i, answer) => i == id && answer == Found(kraNo)
  }

  lemma {:induction false} AnswersComeFromBook(acks: AckBook, calls: seq<Call>, i: nat, id: InvoiceId, kraNo: string)
    requires Calls(acks, calls) && id in acks
    requires i < |calls| && Answers(calls[i], id, kraNo)
    ensures kraNo == acks[id]
    decreases |calls|
  {
    if i > 0 {
      var after := if calls[0].SubmitCall? then calls[0].after else acks;
      AnswersComeFromBook(after, calls[1..], i - 1, id, kraNo);
    }
  }

  lemma {:induction false} ProviderIdempotent(acks: AckBook, calls: seq<Call>, i: nat, j: nat, id: InvoiceId, k1: string, k2: string)
    requires Calls(acks, calls)
    requires i < |calls| && j < |calls|
    requires Answers(calls[i], id, k1) && Answers(calls[j], id, k2)
    ensures k1 == k2
    decreases |calls|
  {
    if i == 0 || j == 0 {
      var after := if calls[0].SubmitCall? then calls[0].after else acks;
      if i != j {
        AnswersComeFromBook(after, calls[1..], (if i == 0 then j else i) - 1, id, if i == 0 then k2 else k1);
      }
    } else {
      var after := if calls[0].SubmitCall? then calls[0].after else acks;
      ProviderIdempotent(after, calls[1..], i - 1, j - 1, id, k1, k2);
    }
  }
}
