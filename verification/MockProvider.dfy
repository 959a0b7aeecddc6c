/**
  The reference fiscal backend (backend/internal/fiscal/mock/mock.go): it keeps
  its acknowledgements in memory, under one mutex, and can be told to fail.
  Every call of it meets the provider contract.
 */
module MockProvider {
  import opened Prelude
  import opened FiscalState
  import opened Provider
  import opened Int64
  import opened Documents

  datatype FailMode = FailNone | FailRetryable | FailTerminal

  /** A SHA-256 digest in hex. */
  type Hex = s: string | |s| == 64 witness seq(64, _ => '0')

  datatype Backend = Backend(
    acks: AckBook,
    failMode: FailMode,
    failTimes: nat,                  // 0 means always fail
    failures: map<InvoiceId, nat>,
    lookupErr: Option<SubmitError>)

  function Failures(b: Backend, id: InvoiceId): nat {
    if id in b.failures then b.failures[id] else 0
  }

  predicate Fails(b: Backend, id: InvoiceId) {
    b.failMode != FailNone && (b.failTimes == 0 || Failures(b, id) < b.failTimes)
  }

  const INJECTED_TERMINAL := SubmitError(ValidationError, false)
  const INJECTED_TRANSIENT := SubmitError(TransientError, false)
  const NOT_FOUND := SubmitError(UnknownError, true)
  const INVALID := SubmitError(ValidationError, false)

  function Injected(b: Backend): SubmitError {
    if b.failMode == FailTerminal then INJECTED_TERMINAL else INJECTED_TRANSIENT
  }

  const INVOICE_PREFIX := "KRACU0100000001/"
  const CREDIT_PREFIX := "KRACU0100000001/CN"

  /** A submission that got past validation: replay, injected failure, or a new acknowledgement. */
  function Process(b: Backend, id: InvoiceId, kraNo: string): (Backend, SubmitReply) {
    if id in b.acks then (b, Accepted(b.acks[id]))
    else if Fails(b, id) then (b.(failures := b.failures[id := Failures(b, id) + 1]), Rejected(Injected(b)))
    else (b.(acks := b.acks[id := kraNo]), Accepted(kraNo))
  }

  function LookedUp(b: Backend, id: InvoiceId): LookupReply {
    if b.lookupErr.Some? then LookupFailed(b.lookupErr.value)
    else if id in b.acks then Found(b.acks[id])
    else LookupFailed(NOT_FOUND)
  }

  /** The book after `n` submissions of `id`, and the last answer. */
  function Resubmitted(b: Backend, id: InvoiceId, kraNo: string, n: nat): (Backend, SubmitReply)
    requires n > 0
  {
    if n == 1 then Process(b, id, kraNo) else Process(Resubmitted(b, id, kraNo, n - 1).0, id, kraNo)
  }

  /** A backend told to fail without a limit refuses a new document for ever, with the error its mode names. */
  lemma {:induction false} FailsForEver(b: Backend, id: InvoiceId, kraNo: string, n: nat)
    requires n > 0 && b.failMode != FailNone && b.failTimes == 0 && id !in b.acks
    ensures var (b', reply) := Resubmitted(b, id, kraNo, n);
      && reply == Rejected(SubmitError(if b.failMode == FailTerminal then ValidationError else TransientError, false))
      && b'.acks == b.acks && b'.failMode == b.failMode && b'.failTimes == 0 && Failures(b', id) == Failures(b, id) + n
  {
    if n > 1 { FailsForEver(b, id, kraNo, n - 1); }
  }

  class Mock {
    const digest: string -> Hex
    var acks: AckBook
    var failMode: FailMode
    var failTimes: nat
    var failures: map<InvoiceId, nat>
    var calls: nat
    var lookupErr: Option<SubmitError>

    constructor (mode: FailMode, times: nat, digest: string -> Hex)
      ensures State() == Backend(map[], mode, times, map[], None) && calls == 0 && this.digest == digest
    {
      this.digest := digest;
      acks, failMode, failTimes, failures, calls, lookupErr := map[], mode, times, map[], 0, None;
    }

    function State(): Backend
      reads this
    {
      Backend(acks, failMode, failTimes, failures, lookupErr)
    }

    function KraNo(prefix: string, id: InvoiceId): string {
      prefix + digest(id)[..10]
    }

    /** submit: everything after validation, under the mutex; `ctxErr` is the caller's cancelled context. */
    method Send(ctxErr: Option<SubmitError>, id: InvoiceId, prefix: string) returns (reply: SubmitReply)
      requires prefix != ""
      modifies this`acks, this`failures, this`calls
      ensures (State(), reply) ==
        if ctxErr.Some? then (old(State()), Rejected(ctxErr.value)) else Process(old(State()), id, KraNo(prefix, id))
      ensures calls == if ctxErr.Some? then old(calls) else old(calls) + 1
    {
      if ctxErr.Some? {
        return Rejected(ctxErr.value);
      }
      calls := calls + 1;
      if id in acks {
        return Accepted(acks[id]);
      }
      var failed := if id in failures then failures[id] else 0;
      if failMode != FailNone && (failTimes == 0 || failed < failTimes) {
        failures := failures[id := failed + 1];
        return Rejected(if failMode == FailTerminal then INJECTED_TERMINAL else INJECTED_TRANSIENT);
      }
      var kraNo := KraNo(prefix, id);
      acks := acks[id := kraNo];
      return Accepted(kraNo);
    }

    /** SubmitInvoice: idempotent by document id. */
    method SubmitInvoice(ctxErr: Option<SubmitError>, d: Document) returns (reply: SubmitReply)
      modifies this`acks, this`failures, this`calls
      ensures SubmitContract(old(acks), d.id, Invoice, "", reply, acks)
      ensures (State(), reply) ==
        if !Acceptable(d) then (old(State()), Rejected(INVALID))
        else if ctxErr.Some? then (old(State()), Rejected(ctxErr.value))
        else Process(old(State()), d.id, KraNo(INVOICE_PREFIX, d.id))
    {
      var fault := ValidateInvoice(d);
      if fault.Some? {
        return Rejected(INVALID);
      }
      reply := Send(ctxErr, d.id, INVOICE_PREFIX);
    }

    /** SubmitCreditNote: refused without the number of the original or with a total that is not negative. */
    method SubmitCreditNote(ctxErr: Option<SubmitError>, id: InvoiceId, originalKraNo: string, total: int64) returns (reply: SubmitReply)
      modifies this`acks, this`failures, this`calls
      ensures SubmitContract(old(acks), id, CreditNote, originalKraNo, reply, acks) <==> id != "" || id in old(acks) || reply.Rejected?
      ensures (State(), reply) ==
        if originalKraNo == "" || total >= 0 then (old(State()), Rejected(INVALID))
        else if ctxErr.Some? then (old(State()), Rejected(ctxErr.value))
        else Process(old(State()), id, KraNo(CREDIT_PREFIX, id))
    {
      if originalKraNo == "" {
        return Rejected(INVALID);
      }
      if total >= 0 {
        return Rejected(INVALID);
      }
      reply := Send(ctxErr, id, CREDIT_PREFIX);
    }

    /** LookupInvoice only reads. */
    method LookupInvoice(ctxErr: Option<SubmitError>, id: InvoiceId) returns (reply: LookupReply)
      ensures LookupContract(acks, id, reply)
      ensures reply == if ctxErr.Some? then LookupFailed(ctxErr.value) else LookedUp(State(), id)
    {
      if ctxErr.Some? {
        return LookupFailed(ctxErr.value);
      }
      if lookupErr.Some? {
        return LookupFailed(lookupErr.value);
      }
      if id in acks {
        return Found(acks[id]);
      }
      return LookupFailed(NOT_FOUND);
    }
  }
}
