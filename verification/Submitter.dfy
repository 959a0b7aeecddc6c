/**
  The submitter and the watchdog as the source runs them: statement by
  statement over a table of invoice rows, each transaction rolling back on
  error (backend/internal/fiscal/submitter.go, watchdog.go and the queries in
  backend/internal/platform/db/gen/fiscal.sql.go). Every transaction is proved
  to have exactly the effect of the corresponding step of the protocol.
 */
module Submitter {
  import opened Prelude
  import opened FiscalState
  import opened Provider
  import opened Int64
  import opened Documents
  import opened MockProvider
  import opened Submission
  import opened SubmissionPaths

  /** One write to the state column. */
  datatype Write = Write(id: InvoiceId, state: State)

  class InvoiceTable {
    var rows: map<InvoiceId, Row>
    var now: nat
    ghost var writes: seq<Write>      // the writes of committed transactions, and of the open one

    constructor (rows: map<InvoiceId, Row>, now: nat)
      ensures this.rows == rows && this.now == now && writes == []
    {
      this.rows, this.now, writes := rows, now, [];
    }

    /** SetInvoiceState: compare-and-set on the state column; a missing attempt keeps the stored one. */
    method SetInvoiceState(id: InvoiceId, state: State, attempt: Option<nat>, nextAttemptAt: Option<nat>, expected: State)
      returns (ok: bool)
      modifies this`rows, this`writes
      ensures ok <==> id in old(rows) && old(rows)[id].state == expected
      ensures !ok ==> rows == old(rows) && writes == old(writes)
      ensures ok ==>
        && writes == old(writes) + [Write(id, state)]
        && rows == old(rows)[id := old(rows)[id].(
                     state := state, attempt := if attempt.Some? then attempt.value else old(rows)[id].attempt,
                     nextAttemptAt := nextAttemptAt, updatedAt := now)]
    {
      if id !in rows || rows[id].state != expected {
        return false;
      }
      var r := rows[id];
      rows := rows[id := r.(state := state, attempt := if attempt.Some? then attempt.value else r.attempt,
                            nextAttemptAt := nextAttemptAt, updatedAt := now)];
      writes := writes + [Write(id, state)];
      return true;
    }

    /** AckInvoice: no expected state. */
    method AckInvoice(id: InvoiceId, kraNo: string) returns (ok: bool)
      modifies this`rows, this`writes
      ensures ok <==> id in old(rows)
      ensures !ok ==> rows == old(rows) && writes == old(writes)
      ensures ok ==>
        && writes == old(writes) + [Write(id, Acked)]
        && rows == old(rows)[id := old(rows)[id].(state := Acked, kraNo := Some(kraNo), nextAttemptAt := None, updatedAt := now)]
    {
      if id !in rows {
        return false;
      }
      rows := rows[id := rows[id].(state := Acked, kraNo := Some(kraNo), nextAttemptAt := None, updatedAt := now)];
      writes := writes + [Write(id, Acked)];
      return true;
    }

    /** ListStaleSubmittedInvoices: every stale row once. */
    method ListStaleSubmittedInvoices() returns (listed: seq<Stale>)
      ensures forall i, j :: 0 <= i < j < |listed| ==> listed[i].id != listed[j].id
      ensures forall e :: e in listed ==> e.id in rows && IsStale(rows[e.id], now) && e.attempt == rows[e.id].attempt
      ensures forall id :: id in rows && IsStale(rows[id], now) ==> Stale(id, rows[id].attempt) in listed
    {
      listed := [];
      var left := rows.Keys;
      while left != {}
        invariant left <= rows.Keys
        invariant forall i, j :: 0 <= i < j < |listed| ==> listed[i].id != listed[j].id
        invariant forall e :: e in listed ==>
          e.id in rows && e.id !in left && IsStale(rows[e.id], now) && e.attempt == rows[e.id].attempt
        invariant forall id :: id in rows && id !in left && IsStale(rows[id], now) ==> Stale(id, rows[id].attempt) in listed
        decreases left
      {
        var id :| id in left;
        if rows[id].state == Submitted && rows[id].updatedAt + STALE_AFTER < now {
          assert forall i :: 0 <= i < |listed| ==> listed[i] in listed;
          listed := listed + [Stale(id, rows[id].attempt)];
        }
        left := left - {id};
      }
    }

    /** Submitter.Retry: ResetInvoiceForRetry, or an error when the invoice is not awaiting review. */
    method Retry(id: InvoiceId, ghost s: World) returns (ok: bool)
      requires s.rows == rows && s.now == now
      modifies this`rows, this`writes
      ensures id in s.rows ==> Enabled(s, Submission.Retry(id)) && rows == Next(s, Submission.Retry(id)).rows
      ensures writes == old(writes) + Tagged(id, WritesTo(s, Submission.Retry(id), id))
      ensures ok <==> id in old(rows) && (old(rows)[id].state == NeedsReview || old(rows)[id].state == FailedTerminal)
      ensures rows == if id in old(rows) then old(rows)[id := RetryRow(old(rows)[id], now)] else old(rows)
    {
      if id !in rows || (rows[id].state != NeedsReview && rows[id].state != FailedTerminal) {
        assert id in rows ==> rows == rows[id := rows[id]];
        return false;
      }
      rows := rows[id := rows[id].(state := Queued, attempt := 0, nextAttemptAt := None, updatedAt := now)];
      writes := writes + [Write(id, Queued)];
      return true;
    }
  }

  /** The claim a worker holds after the claim transaction, if any. */
  function ClaimOf(rows: map<InvoiceId, Row>, id: InvoiceId, now: nat): Option<Claim>
    requires id in rows
  {
    var r := rows[id];
    match ClaimDecision(r, now)
    case Skipped => None
    case Exhausted => Some(Claim(id, "", Invoice, "", 0, now, MustSubmit))
    case Granted(isRetry) =>
      Some(Claim(id, id, r.kind, ParentKraNo(rows, r), r.attempt + 1, now, if isRetry then MayLookup else MustSubmit))
  }

  /** The document a worker goes on with: the empty one after the exhausted branch. */
  function DocOf(docs: map<InvoiceId, Document>, c: Claim): Document {
    if c.docId != "" && c.docId in docs then docs[c.docId] else EMPTY
  }

  /** Whether the claim transaction gets past building the document. */
  predicate Buildable(docs: map<InvoiceId, Document>, id: InvoiceId) {
    id in docs && docs[id].id == id
  }

  const EMPTY := Document("", "", "", [], 0)

  /** What the backend answers to one attempt (submitter.go:178-215), and how it changes. */
  function Attempt(b: Backend, c: Claim, d: Document, invoiceNo: string, creditNo: string): (Backend, SubmitReply) {
    React(b, c, if c.kind == CreditNote then c.parentKraNo != "" && NegatedTotal(d) < 0 else Acceptable(d),
          if c.kind == CreditNote then creditNo else invoiceNo)
  }

  /** The same, once it is known whether the backend would find the document valid. */
  function React(b: Backend, c: Claim, valid: bool, kraNo: string): (Backend, SubmitReply) {
    var phase := if c.phase == MayLookup then AfterLookup(LookedUp(b, c.docId)) else c.phase;
    if phase.Answered? then (b, phase.reply)
    else if !valid then (b, Rejected(INVALID))
    else Process(b, c.docId, kraNo)
  }

  function NegatedTotal(d: Document): int64 {
    if d.total > 0 then Neg(d.total) else d.total
  }

  /** How Submit ends: before it acts, or with an outcome that committed or was rolled back. */
  datatype SubmitResult = NoRow | DocumentError | SkippedRun | Acted(persisted: bool)

  /** When each of them happens. */
  function Submits(rows: map<InvoiceId, Row>, id: InvoiceId, now: nat, docs: map<InvoiceId, Document>, reply: SubmitReply): SubmitResult {
    if id !in rows then NoRow
    else if ClaimDecision(rows[id], now).Skipped? then SkippedRun
    else if ClaimDecision(rows[id], now).Granted? && !Buildable(docs, id) then DocumentError
    else Acted(OutcomeCommits(ClaimRow(rows[id], now), reply))
  }

  /** The states one attempt writes: those of its claim, then those of its outcome. */
  function AttemptWrites(r: Row, reply: SubmitReply, attempt: nat, now: nat): seq<State> {
    ClaimWrites(ClaimDecision(r, now)) + OutcomeWrites(ClaimRow(r, now), reply, attempt)
  }

  class Submitter {
    const table: InvoiceTable
    const provider: Mock
    const docs: map<InvoiceId, Document>

    constructor (table: InvoiceTable, provider: Mock, docs: map<InvoiceId, Document>)
      ensures this.table == table && this.provider == provider && this.docs == docs
    {
      this.table, this.provider, this.docs := table, provider, docs;
    }

    /** The claim transaction: what it reads and writes, and the claim the worker then holds. */
    method ClaimTransaction(id: InvoiceId) returns (res: SubmitResult, claim: Option<Claim>)
      modifies table`rows, table`writes
      ensures res.NoRow? <==> id !in old(table.rows)
      ensures res.NoRow? || res.DocumentError? ==> claim == None && table.rows == old(table.rows) && table.writes == old(table.writes)
      ensures !res.NoRow? && !res.DocumentError? ==>
        var r := old(table.rows)[id]; var d := ClaimDecision(r, table.now);
        && table.rows == old(table.rows)[id := ClaimRow(r, table.now)]
        && claim == ClaimOf(old(table.rows), id, table.now) && (res.SkippedRun? <==> d.Skipped?)
        && table.writes == old(table.writes) + Tagged(id, ClaimWrites(d))
      ensures res.DocumentError? <==>
        id in old(table.rows) && ClaimDecision(old(table.rows)[id], table.now).Granted? && !Buildable(docs, id)
    {
      if id !in table.rows {
        return NoRow, None;
      }
      var saved := table.rows;
      ghost var savedWrites := table.writes;
      var r := table.rows[id];
      if r.state != Queued && r.state != FailedRetryable {
        assert table.rows == table.rows[id := r];
        return SkippedRun, None;
      }
      if r.state == Queued && r.nextAttemptAt.Some? && r.nextAttemptAt.value > table.now {
        assert table.rows == table.rows[id := r];
        return SkippedRun, None;
      }
      if r.state == FailedRetryable {
        var outcome := Resolve(r.attempt, Some(SubmitError(UnknownError, false)));
        if outcome.next == FailedTerminal {
          var first := table.SetInvoiceState(id, FailedTerminal, None, None, FailedRetryable);
          var second := table.SetInvoiceState(id, NeedsReview, None, None, FailedTerminal);
          assert first && second;
          return Acted(true), Some(Claim(id, "", Invoice, "", 0, table.now, MustSubmit));
        }
      }
      var isRetry := r.attempt > 0;
      var moved := table.SetInvoiceState(id, Submitted, Some(r.attempt + 1), None, r.state);
      assert moved;
      if id !in docs || docs[id].id != id {
        table.rows := saved;
        table.writes := savedWrites;
        return DocumentError, None;
      }
      var parentKraNo := "";
      if r.kind == CreditNote && r.parent.Some? && r.parent.value in table.rows && table.rows[r.parent.value].kraNo.Some? {
        parentKraNo := table.rows[r.parent.value].kraNo.value;
      }
      return Acted(true), Some(Claim(id, id, r.kind, parentKraNo, r.attempt + 1, table.now, if isRetry then MayLookup else MustSubmit));
    }

    /** The provider calls of one attempt, outside any transaction. */
    method CallProvider(c: Claim, d: Document) returns (reply: SubmitReply)
      requires c.phase == MayLookup || c.phase == MustSubmit
      requires d.id == c.docId
      modifies provider`acks, provider`failures, provider`calls
      ensures (provider.State(), reply) ==
        Attempt(old(provider.State()), c, d, provider.KraNo(INVOICE_PREFIX, c.docId), provider.KraNo(CREDIT_PREFIX, c.docId))
    {
      var phase := c.phase;
      if phase == MayLookup {
        var found := provider.LookupInvoice(None, c.docId);
        phase := AfterLookup(found);
      }
      if phase.Answered? {
        return phase.reply;
      }
      if c.kind == CreditNote {
        reply := provider.SubmitCreditNote(None, c.docId, c.parentKraNo, NegatedTotal(d));
      } else {
        reply := provider.SubmitInvoice(None, d);
      }
    }

    /** The outcome transaction: it commits whole or leaves no trace. */
    method OutcomeTransaction(c: Claim, reply: SubmitReply) returns (ok: bool)
      requires c.invoice in table.rows
      modifies table`rows, table`writes
      ensures ok <==> OutcomeCommits(old(table.rows)[c.invoice], reply)
      ensures table.rows == old(table.rows)[c.invoice := OutcomeRow(old(table.rows)[c.invoice], reply, c.attempt, table.now)]
      ensures table.writes == old(table.writes) + Tagged(c.invoice, OutcomeWrites(old(table.rows)[c.invoice], reply, c.attempt))
    {
      var id := c.invoice;
      var saved := table.rows;
      ghost var savedWrites := table.writes;
      var outcome := Resolve(c.attempt, ReplyError(reply));
      match reply
      case Accepted(kraNo) =>
        ok := table.AckInvoice(id, kraNo);
      case Rejected(e) =>
        if outcome.next == Queued {
          ok := table.SetInvoiceState(id, FailedRetryable, None, None, Submitted);
          if ok {
            ok := table.SetInvoiceState(id, Queued, None, Some(table.now + outcome.retryIn), FailedRetryable);
          }
        } else {
          ok := table.SetInvoiceState(id, FailedTerminal, None, None, Submitted);
          if ok {
            ok := table.SetInvoiceState(id, NeedsReview, None, None, FailedTerminal);
          }
        }
        if !ok {
          table.rows := saved;
          table.writes := savedWrites;
          assert saved == saved[id := saved[id]];
        }
    }

    /** The provider calls and the outcome of a claim, with nobody else in between. */
    method Finish(c: Claim, d: Document) returns (ok: bool, ghost reply: SubmitReply)
      requires c.phase == MayLookup || c.phase == MustSubmit
      requires d.id == c.docId && c.invoice in table.rows
      modifies table`rows, table`writes, provider`acks, provider`failures, provider`calls
      ensures var r := old(table.rows)[c.invoice];
        && (provider.State(), reply) == Attempt(old(provider.State()), c, d, provider.KraNo(INVOICE_PREFIX, c.docId), provider.KraNo(CREDIT_PREFIX, c.docId))
        && (ok <==> OutcomeCommits(r, reply))
        && table.rows == old(table.rows)[c.invoice := OutcomeRow(r, reply, c.attempt, table.now)]
        && table.writes == old(table.writes) + Tagged(c.invoice, OutcomeWrites(r, reply, c.attempt))
    {
      var answer := CallProvider(c, d);
      ok := OutcomeTransaction(c, answer);
      reply := answer;
    }

    /** Submit: claim, call, persist, with nobody else in between. */
    method Submit(id: InvoiceId) returns (res: SubmitResult, ghost reply: SubmitReply)
      requires id != ""                 // invoice ids are UUIDs
      modifies table`rows, table`writes, provider`acks, provider`failures, provider`calls
      ensures res == Submits(old(table.rows), id, table.now, docs, reply)
      ensures !res.Acted? ==>
        table.writes == old(table.writes) && table.rows == old(table.rows) && provider.State() == old(provider.State())
      ensures res.Acted? ==>
        var r := ClaimRow(old(table.rows)[id], table.now);
        var c := ClaimOf(old(table.rows), id, table.now).value;
        && (provider.State(), reply) == Attempt(old(provider.State()), c, DocOf(docs, c), provider.KraNo(INVOICE_PREFIX, c.docId), provider.KraNo(CREDIT_PREFIX, c.docId))
        && table.rows == old(table.rows)[id := OutcomeRow(r, reply, c.attempt, table.now)]
        && table.writes == old(table.writes) + Tagged(id, AttemptWrites(old(table.rows)[id], reply, c.attempt, table.now))
    {
      var claim;
      res, claim := ClaimTransaction(id);
      reply := Rejected(INVALID);
      if claim.Some? {
        ghost var r := table.rows[id];
        var ok;
        ok, reply := Finish(claim.value, DocOf(docs, claim.value));
        res := Acted(ok);
        TwoTransactions(old(table.rows), id, r, OutcomeRow(r, reply, claim.value.attempt, table.now), old(table.writes),
                        ClaimWrites(ClaimDecision(old(table.rows)[id], table.now)), OutcomeWrites(r, reply, claim.value.attempt));
      }
    }

    /**
      Submit by worker `w` in a world `s` that shows this table and this
      provider's book: what it does is a run of the protocol, a claim, the
      calls and an outcome, with the same rows, book and writes at its end.
     */
    method SubmitAsRun(id: InvoiceId, ghost s: World, ghost w: WorkerId) returns (res: SubmitResult, ghost run: seq<Action>)
      requires id != "" && s.rows == table.rows && s.acks == provider.acks && s.now == table.now && w !in s.claims
      modifies table`rows, table`writes, provider`acks, provider`failures, provider`calls
      ensures Run(s, run) && End(s, run).rows == table.rows && End(s, run).acks == provider.acks && End(s, run).claims == s.claims
      ensures res.Acted? ==> IsAttempt(run, w, id)
      ensures table.writes == old(table.writes) + Tagged(id, RunWrites(s, run, id))
    {
      run := [];
      ghost var b := provider.State();
      ghost var reply;
      res, reply := Submit(id);
      if res.Acted? {
        ghost var c := ClaimOf(s.rows, id, s.now).value;
        run := SubmitIsARun(s, w, id, b, DocOf(docs, c), provider.KraNo(INVOICE_PREFIX, c.docId), provider.KraNo(CREDIT_PREFIX, c.docId));
      }
    }
  }

  /** Rescuing a list of rows one after the other, each from its own listed attempt. */
  function Rescued(rows: map<InvoiceId, Row>, listed: seq<Stale>, now: nat): map<InvoiceId, Row> {
    if listed == [] then rows
    else
      var before := Rescued(rows, listed[..|listed| - 1], now);
      var e := listed[|listed| - 1];
      if e.id in before then before[e.id := RescueRow(before[e.id], e.attempt, now)] else before
  }

  /** RescueStaleInvoices.Work: the sweep over what it listed. */
  method SweepStale(table: InvoiceTable, ghost s: World) returns (listed: seq<Stale>)
    requires s.rows == table.rows && s.now == table.now && s.sweep.None?
    modifies table`rows, table`writes
    ensures var run := [SweepList(listed)] + Rescues(|listed|) + [SweepEnd];
      Run(s, run) && End(s, run) == s.(rows := table.rows)
    ensures table.rows == Rescued(old(table.rows), listed, table.now)
    ensures forall i, j :: 0 <= i < j < |listed| ==> listed[i].id != listed[j].id
    ensures forall id :: id in old(table.rows) && IsStale(old(table.rows)[id], table.now) ==> Stale(id, old(table.rows)[id].attempt) in listed
    ensures forall e :: e in listed ==>
      e.id in old(table.rows) && IsStale(old(table.rows)[e.id], table.now) && e.attempt == old(table.rows)[e.id].attempt
  {
    listed := table.ListStaleSubmittedInvoices();
    for i := 0 to |listed|
      invariant table.rows == Rescued(old(table.rows), listed[..i], table.now)
    {
      var e := listed[i];
      assert listed[..i + 1][..i] == listed[..i];
      ghost var before := table.rows;
      var ok := table.SetInvoiceState(e.id, FailedRetryable, Some(e.attempt + 1), None, Submitted);
      assert e.id in before ==> before == before[e.id := before[e.id]];
    }
    assert listed[..|listed|] == listed;
    SweepIsARun(s, listed);
  }

  /** Swept alone, the watchdog moves every stale row to FAILED_RETRYABLE with one more attempt and touches no other. */
  lemma {:induction false} SweepRescuesExactlyStale(rows: map<InvoiceId, Row>, listed: seq<Stale>, now: nat, id: InvoiceId)
    requires forall i, j :: 0 <= i < j < |listed| ==> listed[i].id != listed[j].id
    requires forall e :: e in listed ==> e.id in rows && IsStale(rows[e.id], now) && e.attempt == rows[e.id].attempt
    requires id in rows
    ensures var out := Rescued(rows, listed, now);
      id in out && out[id] == if Stale(id, rows[id].attempt) in listed then RescueRow(rows[id], rows[id].attempt, now) else rows[id]
  {
    if listed != [] {
      var init, e := listed[..|listed| - 1], listed[|listed| - 1];
      assert listed == init + [e];
      SweepRescuesExactlyStale(rows, init, now, id);
      SweepRescuesExactlyStale(rows, init, now, e.id);
    }
  }

  /* -------------------------------------------- the methods are protocol runs */

  function Tagged(id: InvoiceId, states: seq<State>): seq<Write> {
    seq(|states|, i requires 0 <= i < |states| => Write(id, states[i]))
  }

  /** What one enabled step writes to `id`. */
  ghost function WritesTo(s: World, a: Action, id: InvoiceId): seq<State> {
    if id in s.rows && Enabled(s, a) then Writes(s, a, id) else []
  }

  /** What a run writes to the state of `id`, in order. */
  ghost function RunWrites(s: World, actions: seq<Action>, id: InvoiceId): seq<State>
    requires Run(s, actions)
    decreases |actions|
  {
    if actions == [] then [] else WritesTo(s, actions[0], id) + RunWrites(Next(s, actions[0]), actions[1..], id)
  }

  lemma RunFirst(s: World, a: Action, rest: seq<Action>, id: InvoiceId)
    requires Enabled(s, a) && Run(Next(s, a), rest)
    ensures Run(s, [a] + rest) && End(s, [a] + rest) == End(Next(s, a), rest)
    ensures RunWrites(s, [a] + rest, id) == WritesTo(s, a, id) + RunWrites(Next(s, a), rest, id)
  {
    assert ([a] + rest)[1..] == rest;
  }

  lemma {:induction false} RunsJoin(s: World, first: seq<Action>, second: seq<Action>)
    requires Run(s, first) && Run(End(s, first), second)
    ensures Run(s, first + second) && End(s, first + second) == End(End(s, first), second)
    decreases |first|
  {
    if first == [] {
      assert first + second == second;
    } else {
      assert (first + second)[1..] == first[1..] + second;
      RunsJoin(Next(s, first[0]), first[1..], second);
    }
  }

  lemma {:induction false} WritesJoin(s: World, first: seq<Action>, second: seq<Action>, id: InvoiceId)
    requires Run(s, first) && Run(End(s, first), second) && Run(s, first + second)
    ensures RunWrites(s, first + second, id) == RunWrites(s, first, id) + RunWrites(End(s, first), second, id)
    decreases |first|
  {
    if first == [] {
      assert first + second == second;
    } else {
      var a, rest := first[0], first[1..];
      assert (first + second)[1..] == rest + second;
      WritesJoin(Next(s, a), rest, second, id);
      Associates(WritesTo(s, a, id), RunWrites(Next(s, a), rest, id), RunWrites(End(s, first), second, id));
    }
  }

  lemma Associates(a: seq<State>, b: seq<State>, c: seq<State>)
    ensures a + (b + c) == a + b + c
  {
  }

  lemma RunLast(s: World, actions: seq<Action>, a: Action, id: InvoiceId)
    requires Run(s, actions) && Enabled(End(s, actions), a)
    ensures Run(s, actions + [a]) && End(s, actions + [a]) == Next(End(s, actions), a)
    ensures RunWrites(s, actions + [a], id) == RunWrites(s, actions, id) + WritesTo(End(s, actions), a, id)
  {
    RunFirst(End(s, actions), a, [], id);
    RunsJoin(s, actions, [a]);
    WritesJoin(s, actions, [a], id);
  }

  /** What the claim transaction does is what the protocol's BeginClaim does: row, claim, writes. */
  lemma ClaimIsAStep(s: World, w: WorkerId, id: InvoiceId)
    requires Enabled(s, BeginClaim(w, id)) && !ClaimDecision(s.rows[id], s.now).Skipped?
    ensures var s' := Next(s, BeginClaim(w, id));
      && s'.rows == s.rows[id := ClaimRow(s.rows[id], s.now)] && s'.claims == s.claims[w := NewClaim(s, id)]
      && s'.acks == s.acks && s'.now == s.now
    ensures WritesTo(s, BeginClaim(w, id), id) == ClaimWrites(ClaimDecision(s.rows[id], s.now))
  {
  }

  /** What the outcome transaction does is what the protocol's Commit does. */
  lemma OutcomeIsAStep(s: World, w: WorkerId)
    requires Enabled(s, Commit(w)) && s.claims[w].invoice in s.rows
    ensures var c := s.claims[w]; var s' := Next(s, Commit(w));
      && s'.rows == s.rows[c.invoice := OutcomeRow(s.rows[c.invoice], c.phase.reply, c.attempt, s.now)]
      && s'.claims == s.claims - {w} && s'.acks == s.acks
    ensures WritesTo(s, Commit(w), s.claims[w].invoice) == OutcomeWrites(s.rows[s.claims[w].invoice], s.claims[w].phase.reply, s.claims[w].attempt)
  {
  }

  /** Two transactions on one row, seen as one. */
  lemma TwoTransactions(rows: map<InvoiceId, Row>, id: InvoiceId, r: Row, r': Row, writes: seq<Write>, a: seq<State>, b: seq<State>)
    ensures rows[id := r][id := r'] == rows[id := r'] && rows[id := r][id] == r
    ensures writes + Tagged(id, a) + Tagged(id, b) == writes + Tagged(id, a + b)
  {
    assert Tagged(id, a + b) == Tagged(id, a) + Tagged(id, b);
  }

  /** A worker's calls: a lookup on a retry, and a submission unless the lookup answered. */
  function Calls(b: Backend, c: Claim, w: WorkerId, reply: SubmitReply, after: AckBook): seq<Action> {
    if c.phase != MayLookup then [Submission.Submit(w, reply, after)]
    else if AfterLookup(LookedUp(b, c.docId)).Answered? then [Lookup(w, LookedUp(b, c.docId))]
    else [Lookup(w, LookedUp(b, c.docId)), Submission.Submit(w, reply, after)]
  }

  /** What the protocol needs to know of a claim and of the document the worker holds. */
  predicate CanCall(c: Claim, valid: bool, kraNo: string) {
    !c.phase.Answered? && kraNo != "" && (valid ==> c.docId != "" && (c.kind == CreditNote ==> c.parentKraNo != ""))
  }

  lemma SubmissionMeetsContract(b: Backend, c: Claim, valid: bool, kraNo: string)
    requires CanCall(c, valid, kraNo) && c.phase == MustSubmit
    ensures var (b', reply) := React(b, c, valid, kraNo); SubmitContract(b.acks, c.docId, c.kind, c.parentKraNo, reply, b'.acks)
  {
  }

  /** The run leaves rows and clock alone, ends with this book, and with `w` holding this answer. */
  ghost predicate Answers(s: World, run: seq<Action>, w: WorkerId, reply: SubmitReply, acks: AckBook, id: InvoiceId) {
    && w in s.claims && Run(s, run) && RunWrites(s, run, id) == []
    && End(s, run).rows == s.rows && End(s, run).now == s.now && End(s, run).acks == acks
    && End(s, run).claims == s.claims[w := s.claims[w].(phase := Answered(reply))]
  }

  /** The provider calls of one attempt are enabled steps of the protocol with the same effect on the book and the claim. */
  lemma CallsAreARun(s: World, w: WorkerId, id: InvoiceId, b: Backend, valid: bool, kraNo: string)
    requires w in s.claims && CanCall(s.claims[w], valid, kraNo) && b.acks == s.acks
    ensures var (b', reply) := React(b, s.claims[w], valid, kraNo);
      Answers(s, Calls(b, s.claims[w], w, reply, b'.acks), w, reply, b'.acks, id)
  {
    var c := s.claims[w];
    var (b', reply) := React(b, c, valid, kraNo);
    if c.phase == MayLookup {
      var found := LookedUp(b, c.docId);
      LookupStep(s, w, found, id);
      if !AfterLookup(found).Answered? {
        var s1 := Next(s, Lookup(w, found));
        SubmitStep(s1, w, id, b, valid, kraNo);
        RunFirst(s, Lookup(w, found), [Submission.Submit(w, reply, b'.acks)], id);
        SameClaim(s.claims, w, AfterLookup(found), Answered(reply));
      }
    } else {
      SubmitStep(s, w, id, b, valid, kraNo);
    }
  }

  lemma SameClaim(claims: map<WorkerId, Claim>, w: WorkerId, p: Phase, q: Phase)
    requires w in claims
    ensures claims[w := claims[w].(phase := p)][w := claims[w].(phase := p).(phase := q)] == claims[w := claims[w].(phase := q)]
  {
  }

  lemma LookupStep(s: World, w: WorkerId, found: LookupReply, id: InvoiceId)
    requires w in s.claims && s.claims[w].phase == MayLookup && LookupContract(s.acks, s.claims[w].docId, found)
    ensures var a := Lookup(w, found);
      && Enabled(s, a) && Next(s, a).rows == s.rows && Next(s, a).acks == s.acks && Next(s, a).now == s.now
      && Next(s, a).claims == s.claims[w := s.claims[w].(phase := AfterLookup(found))] && WritesTo(s, a, id) == []
      && Run(s, [a]) && End(s, [a]) == Next(s, a) && RunWrites(s, [a], id) == []
  {
    RunFirst(s, Lookup(w, found), [], id);
  }

  lemma SubmitStep(s: World, w: WorkerId, id: InvoiceId, b: Backend, valid: bool, kraNo: string)
    requires w in s.claims && CanCall(s.claims[w], valid, kraNo) && s.claims[w].phase == MustSubmit && b.acks == s.acks
    ensures var (b', reply) := React(b, s.claims[w], valid, kraNo);
      Answers(s, [Submission.Submit(w, reply, b'.acks)], w, reply, b'.acks, id)
  {
    var c := s.claims[w];
    var (b', reply) := React(b, c, valid, kraNo);
    SubmissionMeetsContract(b, c, valid, kraNo);
    RunFirst(s, Submission.Submit(w, reply, b'.acks), [], id);
  }

  /** A claim, one or two calls, an outcome, all by `w`. */
  predicate IsAttempt(run: seq<Action>, w: WorkerId, id: InvoiceId) {
    && 3 <= |run| <= 4 && run[0] == BeginClaim(w, id) && run[|run| - 1] == Commit(w)
    && forall i :: 0 < i < |run| - 1 ==> (run[i].Lookup? || run[i].Submit?) && run[i].w == w
  }

  /** The run has these rows and this book at its end, leaves no claim behind, and writes these states to `id`. */
  ghost predicate Achieves(s: World, run: seq<Action>, rows: map<InvoiceId, Row>, acks: AckBook, id: InvoiceId, writes: seq<State>) {
    && Run(s, run) && End(s, run).rows == rows && End(s, run).acks == acks && End(s, run).claims == s.claims
    && RunWrites(s, run, id) == writes
  }

  /** One attempt on an invoice, claim to outcome, is a run of the protocol with the same rows, book and writes. */
  lemma AttemptIsARun(s: World, w: WorkerId, id: InvoiceId, b: Backend, valid: bool, kraNo: string) returns (run: seq<Action>)
    requires id in s.rows && id != "" && w !in s.claims && b.acks == s.acks && !ClaimDecision(s.rows[id], s.now).Skipped?
    requires CanCall(NewClaim(s, id), valid, kraNo)
    ensures var r := ClaimRow(s.rows[id], s.now); var c := NewClaim(s, id); var (b', reply) := React(b, c, valid, kraNo);
      && IsAttempt(run, w, id)
      && Achieves(s, run, s.rows[id := OutcomeRow(r, reply, c.attempt, s.now)], b'.acks, id,
                  AttemptWrites(s.rows[id], reply, c.attempt, s.now))
  {
    var c := NewClaim(s, id);
    var (b', reply) := React(b, c, valid, kraNo);
    var calls := Calls(b, c, w, reply, b'.acks);
    ClaimIsAStep(s, w, id);
    CallsAreARun(Next(s, BeginClaim(w, id)), w, id, b, valid, kraNo);
    ThreePhases(s, w, id, calls, reply, b'.acks);
    ShapeOfAttempt(b, c, w, id, reply, b'.acks);
    run := [BeginClaim(w, id)] + (calls + [Commit(w)]);
  }

  lemma ShapeOfAttempt(b: Backend, c: Claim, w: WorkerId, id: InvoiceId, reply: SubmitReply, after: AckBook)
    ensures IsAttempt([BeginClaim(w, id)] + (Calls(b, c, w, reply, after) + [Commit(w)]), w, id)
  {
  }

  /** The same in the terms of Submit: the claim it makes and the document it sends. */
  lemma SubmitIsARun(s: World, w: WorkerId, id: InvoiceId, b: Backend, d: Document, invoiceNo: string, creditNo: string)
    returns (run: seq<Action>)
    requires id in s.rows && id != "" && w !in s.claims && b.acks == s.acks && invoiceNo != "" && creditNo != ""
    requires var claim := ClaimOf(s.rows, id, s.now); claim.Some? && d.id == claim.value.docId
    ensures var r := ClaimRow(s.rows[id], s.now); var c := ClaimOf(s.rows, id, s.now).value; var (b', reply) := Attempt(b, c, d, invoiceNo, creditNo);
      && IsAttempt(run, w, id)
      && Achieves(s, run, s.rows[id := OutcomeRow(r, reply, c.attempt, s.now)], b'.acks, id,
                  AttemptWrites(s.rows[id], reply, c.attempt, s.now))
  {
    var c := ClaimOf(s.rows, id, s.now).value;
    assert c == NewClaim(s, id);
    var valid := if c.kind == CreditNote then c.parentKraNo != "" && NegatedTotal(d) < 0 else Acceptable(d);
    var kraNo := if c.kind == CreditNote then creditNo else invoiceNo;
    assert valid && c.kind == Invoice ==> d.id != "";
    run := AttemptIsARun(s, w, id, b, valid, kraNo);
  }

  /** A claim, calls that end with `reply`, and an outcome. */
  lemma ThreePhases(s: World, w: WorkerId, id: InvoiceId, calls: seq<Action>, reply: SubmitReply, acks: AckBook)
    requires id in s.rows && w !in s.claims && !ClaimDecision(s.rows[id], s.now).Skipped?
    requires Answers(Next(s, BeginClaim(w, id)), calls, w, reply, acks, id)
    ensures var r := ClaimRow(s.rows[id], s.now); var c := NewClaim(s, id);
      Achieves(s, [BeginClaim(w, id)] + (calls + [Commit(w)]), s.rows[id := OutcomeRow(r, reply, c.attempt, s.now)], acks, id,
               AttemptWrites(s.rows[id], reply, c.attempt, s.now))
  {
    var s1 := Next(s, BeginClaim(w, id));
    ClaimIsAStep(s, w, id);
    CallsThenOutcome(s1, w, calls, reply, acks);
    RunFirst(s, BeginClaim(w, id), calls + [Commit(w)], id);
    assert s.claims[w := NewClaim(s, id)] - {w} == s.claims;
  }

  lemma CallsThenOutcome(s: World, w: WorkerId, calls: seq<Action>, reply: SubmitReply, acks: AckBook)
    requires w in s.claims && s.claims[w].invoice in s.rows && Answers(s, calls, w, reply, acks, s.claims[w].invoice)
    ensures var c := s.claims[w]; var run := calls + [Commit(w)]; var r := s.rows[c.invoice];
      && Run(s, run) && End(s, run).claims == s.claims - {w} && End(s, run).acks == acks
      && End(s, run).rows == s.rows[c.invoice := OutcomeRow(r, reply, c.attempt, s.now)]
      && RunWrites(s, run, c.invoice) == OutcomeWrites(r, reply, c.attempt)
  {
    var c := s.claims[w];
    OutcomeIsAStep(End(s, calls), w);
    RunLast(s, calls, Commit(w), c.invoice);
    assert s.claims[w := c.(phase := Answered(reply))] - {w} == s.claims - {w};
  }

  /* ------------------------------------------------------- the sweep is a run */

  function Rescues(n: nat): seq<Action> {
    if n == 0 then [] else Rescues(n - 1) + [SweepRescue(true)]
  }

  lemma {:induction false} RescuesRun(s: World, listed: seq<Stale>, n: nat)
    requires s.sweep == Some(listed) && n <= |listed|
    ensures Run(s, Rescues(n))
    ensures End(s, Rescues(n)) == s.(rows := Rescued(s.rows, listed[..n], s.now), sweep := Some(listed[n..]))
  {
    if n > 0 {
      RescuesRun(s, listed, n - 1);
      var s1 := End(s, Rescues(n - 1));
      RescueStep(s1);
      RunLast(s, Rescues(n - 1), SweepRescue(true), "");
      assert listed[..n][..n - 1] == listed[..n - 1];
    }
  }

  lemma RescueStep(s: World)
    requires s.sweep.Some? && s.sweep.value != []
    ensures Enabled(s, SweepRescue(true))
    ensures var e := s.sweep.value[0];
      Next(s, SweepRescue(true)) ==
        s.(rows := if e.id in s.rows then s.rows[e.id := RescueRow(s.rows[e.id], e.attempt, s.now)] else s.rows,
           sweep := Some(s.sweep.value[1..]))
  {
  }

  lemma SweepIsARun(s: World, listed: seq<Stale>)
    requires s.sweep.None? && ListsStale(s, listed)
    ensures var run := [SweepList(listed)] + Rescues(|listed|) + [SweepEnd];
      Run(s, run) && End(s, run) == s.(rows := Rescued(s.rows, listed, s.now))
  {
    var s1 := s.(sweep := Some(listed));
    var rescues := Rescues(|listed|);
    ListStep(s, listed);
    RescuesRun(s1, listed, |listed|);
    assert listed[..|listed|] == listed;
    EndStep(End(s1, rescues));
    RunsJoin(s, [SweepList(listed)], rescues);
    RunsJoin(s, [SweepList(listed)] + rescues, [SweepEnd]);
  }

  lemma ListStep(s: World, listed: seq<Stale>)
    requires s.sweep.None? && ListsStale(s, listed)
    ensures Run(s, [SweepList(listed)]) && End(s, [SweepList(listed)]) == s.(sweep := Some(listed))
  {
    assert Next(s, SweepList(listed)) == s.(sweep := Some(listed));
    RunFirst(s, SweepList(listed), [], "");
  }

  lemma EndStep(s: World)
    requires s.sweep.Some?
    ensures Run(s, [SweepEnd]) && End(s, [SweepEnd]) == s.(sweep := None)
  {
    assert Next(s, SweepEnd) == s.(sweep := None);
    RunFirst(s, SweepEnd, [], "");
  }

  /* ----------------------------------------------- driving one invoice to its end */

  /** A backend that fails the first k submissions of every document with a retryable error. */
  predicate FailsFirst(b: Backend, k: nat) {
    b.failMode == (if k == 0 then FailNone else FailRetryable) && b.failTimes == k && b.lookupErr == None
  }

  /** The document is queued after `failed` failed attempts. */
  predicate Waiting(r: Row, b: Backend, id: InvoiceId, k: nat, failed: nat) {
    && r.state == Queued && r.kraNo == None && r.attempt == failed <= 5
    && failed <= k && FailsFirst(b, k) && id !in b.acks && Failures(b, id) == failed
  }

  predicate Finished(r: Row, k: nat, kraNo: string) {
    if k <= 5 then r.state == Acked && r.attempt == k + 1 && r.kraNo == Some(kraNo)
    else r.state == NeedsReview && r.attempt == 6 && r.kraNo == None
  }

  /** The backend has nothing against the document: an invoice passes its checks, a credit note names its original and has a total. */
  predicate Sendable(kind: DocKind, original: string, d: Document) {
    d.id != "" && if kind == CreditNote then original != "" && d.total != 0 else Acceptable(d)
  }

  function NumberFor(kind: DocKind, invoiceNo: string, creditNo: string): string {
    if kind == CreditNote then creditNo else invoiceNo
  }

  /** An exhausted invoice: the empty document the worker goes on with is refused and its outcome is rolled back. */
  lemma ExhaustedIsRolledBack(b: Backend, r: Row, id: InvoiceId, now: nat, invoiceNo: string, creditNo: string)
    requires ClaimDecision(r, now).Exhausted?
    ensures var c := Claim(id, "", Invoice, "", 0, now, MustSubmit); var (b', reply) := Attempt(b, c, EMPTY, invoiceNo, creditNo);
      b' == b && !OutcomeCommits(ClaimRow(r, now), reply) && OutcomeRow(ClaimRow(r, now), reply, 0, now) == r.(state := NeedsReview, nextAttemptAt := None, updatedAt := now)
  {
  }

  /** One attempt on a waiting document: it waits again after one more failure, or it is finished. */
  lemma AttemptAdvances(r: Row, b: Backend, d: Document, original: string, k: nat, failed: nat, now: nat, invoiceNo: string, creditNo: string)
    requires Waiting(r, b, d.id, k, failed) && Sendable(r.kind, original, d)
    requires r.nextAttemptAt.Some? ==> r.nextAttemptAt.value <= now
    ensures ClaimDecision(r, now) == Granted(failed > 0)
    ensures var c := Claim(d.id, d.id, r.kind, original, failed + 1, now, if failed > 0 then MayLookup else MustSubmit);
      var (b', reply) := Attempt(b, c, d, invoiceNo, creditNo);
      var r' := OutcomeRow(ClaimRow(r, now), reply, failed + 1, now);
      && (Waiting(r', b', d.id, k, failed + 1) || Finished(r', k, NumberFor(r.kind, invoiceNo, creditNo)))
      && r'.kind == r.kind && r'.parent == r.parent
  {
    assert Fails(b, d.id) <==> failed < k;
    assert r.kind == CreditNote ==> NegatedTotal(d) < 0 by { if d.total > 0 { WrapInRange(-(d.total as int)); } }
  }

  /** The same in the terms of Submit. */
  lemma SubmitAdvances(rows: map<InvoiceId, Row>, b: Backend, docs: map<InvoiceId, Document>, d: Document, k: nat, failed: nat, now: nat,
                       invoiceNo: string, creditNo: string)
    requires d.id in rows && d.id in docs && docs[d.id] == d
    requires var r := rows[d.id];
      Waiting(r, b, d.id, k, failed) && Sendable(r.kind, ParentKraNo(rows, r), d) && (r.nextAttemptAt.Some? ==> r.nextAttemptAt.value <= now)
    ensures ClaimDecision(rows[d.id], now).Granted? && Buildable(docs, d.id)
    ensures var claim := ClaimOf(rows, d.id, now);
      && claim.Some? && claim.value.docId == d.id
      && var (b', reply) := Attempt(b, claim.value, DocOf(docs, claim.value), invoiceNo, creditNo);
         var r' := OutcomeRow(ClaimRow(rows[d.id], now), reply, claim.value.attempt, now);
         && (Waiting(r', b', d.id, k, failed + 1) || Finished(r', k, NumberFor(rows[d.id].kind, invoiceNo, creditNo)))
         && r'.kind == rows[d.id].kind && r'.parent == rows[d.id].parent
  {
    AttemptAdvances(rows[d.id], b, d, ParentKraNo(rows, rows[d.id]), k, failed, now, invoiceNo, creditNo);
  }

  /** A document's own row does not decide its original's number. */
  lemma OriginalStays(rows: map<InvoiceId, Row>, id: InvoiceId, r: Row)
    requires id in rows && r.kind == rows[id].kind && r.parent == rows[id].parent && r.parent != Some(id)
    ensures ParentKraNo(rows[id := r], r) == ParentKraNo(rows, rows[id])
  {
  }

  /** Wait until the document is due, and submit it once. */
  method DriveOnce(s: Submitter, id: InvoiceId, d: Document, k: nat, ghost failed: nat)
    requires id != "" && d.id == id && id in s.docs && s.docs[id] == d && id in s.table.rows
    requires var r := s.table.rows[id];
      Waiting(r, s.provider.State(), id, k, failed) && Sendable(r.kind, ParentKraNo(s.table.rows, r), d) && r.parent != Some(id)
    modifies s.table, s.provider
    ensures id in s.table.rows && s.table.rows == old(s.table.rows)[id := s.table.rows[id]]
    ensures var r, r' := old(s.table.rows)[id], s.table.rows[id];
      && (Waiting(r', s.provider.State(), id, k, failed + 1)
          || Finished(r', k, NumberFor(r.kind, s.provider.KraNo(INVOICE_PREFIX, id), s.provider.KraNo(CREDIT_PREFIX, id))))
      && r'.kind == r.kind && r'.parent == r.parent && Sendable(r'.kind, ParentKraNo(s.table.rows, r'), d)
  {
    var t := s.table;
    if t.rows[id].nextAttemptAt.Some? && t.rows[id].nextAttemptAt.value > t.now {
      t.now := t.rows[id].nextAttemptAt.value;
    }
    SubmitAdvances(t.rows, s.provider.State(), s.docs, d, k, failed, t.now,
                   s.provider.KraNo(INVOICE_PREFIX, id), s.provider.KraNo(CREDIT_PREFIX, id));
    var _, _ := s.Submit(id);
    OriginalStays(old(t.rows), id, t.rows[id]);
  }

  /** Submit a fresh document until it is no longer queued. */
  method Drive(s: Submitter, id: InvoiceId, d: Document, k: nat) returns (row: Row)
    requires id != "" && d.id == id && id in s.docs && s.docs[id] == d && id in s.table.rows
    requires var r := s.table.rows[id];
      Waiting(r, s.provider.State(), id, k, 0) && Sendable(r.kind, ParentKraNo(s.table.rows, r), d) && r.parent != Some(id)
    modifies s.table, s.provider
    ensures Finished(row, k, NumberFor(old(s.table.rows)[id].kind, s.provider.KraNo(INVOICE_PREFIX, id), s.provider.KraNo(CREDIT_PREFIX, id)))
  {
    ghost var failed := 0;
    ghost var kind := s.table.rows[id].kind;
    while s.table.rows[id].state == Queued
      invariant id in s.table.rows && s.table.rows[id].kind == kind && s.table.rows[id].parent != Some(id)
      invariant Sendable(kind, ParentKraNo(s.table.rows, s.table.rows[id]), d)
      invariant Waiting(s.table.rows[id], s.provider.State(), id, k, failed)
             || Finished(s.table.rows[id], k, NumberFor(kind, s.provider.KraNo(INVOICE_PREFIX, id), s.provider.KraNo(CREDIT_PREFIX, id)))
      decreases s.table.rows[id].state == Queued, 6 - failed
    {
      DriveOnce(s, id, d, k, failed);
      failed := failed + 1;
    }
    row := s.table.rows[id];
  }

  /**
    The submitter composed with the mock: whatever number k of retryable
    failures the backend injects, the invoice is ACKED on attempt k + 1 when k
    is at most five, and ends in NEEDS_REVIEW after six attempts otherwise.
   */
  method DriveToEnd(id: InvoiceId, k: nat, org: OrgId, d: Document, digest: string -> Hex) returns (row: Row)
    requires id != "" && d.id == id && Acceptable(d)
    ensures Finished(row, k, "KRACU0100000001/" + digest(id)[..10])
  {
    var provider := new Mock(if k == 0 then FailNone else FailRetryable, k, digest);
    var table := new InvoiceTable(map[id := NewRow(org, Invoice, None, true, 0)], 0);
    var s := new Submitter(table, provider, map[id := d]);
    row := Drive(s, id, d, k);
  }

  /** The same for a credit note of an acknowledged invoice: it is sent with the invoice's number and gets its own. */
  method DriveCreditNote(id: InvoiceId, parent: InvoiceId, original: Row, k: nat, org: OrgId, d: Document, digest: string -> Hex) returns (row: Row)
    requires id != "" && parent != id && d.id == id && d.total != 0
    requires original.state == Acked && original.kraNo.Some? && original.kraNo.value != ""
    ensures Finished(row, k, "KRACU0100000001/CN" + digest(id)[..10])
  {
    var provider := new Mock(if k == 0 then FailNone else FailRetryable, k, digest);
    var table := new InvoiceTable(map[parent := original, id := NewRow(org, CreditNote, Some(parent), true, 0)], 0);
    var s := new Submitter(table, provider, map[id := d]);
    row := Drive(s, id, d, k);
  }

  /** Without the number of its original a credit note is refused at once and waits for review. */
  lemma CreditNoteNeedsOriginal(r: Row, b: Backend, d: Document, original: string, now: nat, invoiceNo: string, creditNo: string)
    requires r.kind == CreditNote && Waiting(r, b, d.id, 0, 0) && d.id != "" && (r.nextAttemptAt.Some? ==> r.nextAttemptAt.value <= now)
    ensures var c := Claim(d.id, d.id, CreditNote, original, 1, now, MustSubmit); var (_, reply) := Attempt(b, c, d, invoiceNo, creditNo);
      var r' := OutcomeRow(ClaimRow(r, now), reply, 1, now);
      && (r'.state == Acked <==> original != "" && d.total != 0)
      && (r'.state != Acked ==> r'.state == NeedsReview && r'.attempt == 1)
  {
    if d.total > 0 { WrapInRange(-(d.total as int)); }
  }

  /** A retry of a document that was acknowledged, its answer lost, recovers the number by lookup and submits nothing. */
  lemma LostAnswerIsRecovered(b: Backend, c: Claim, d: Document, invoiceNo: string, creditNo: string)
    requires c.phase == MayLookup && c.docId in b.acks && b.acks[c.docId] != "" && b.lookupErr == None
    ensures Attempt(b, c, d, invoiceNo, creditNo) == (b, Accepted(b.acks[c.docId]))
  {
  }
}
