/**
  Legal paths: which states each transaction writes to a row, and exactly when
  they follow the transition table. The compare-and-set writes always do; the
  one that can fail is the acknowledgement, whose query has no expected state
  (backend/internal/platform/db/gen/fiscal.sql.go). No timing is assumed.
 */
module SubmissionPaths {
  import opened Prelude
  import opened FiscalState
  import opened Provider
  import opened Submission
  import opened SubmissionAcks

  /** The states a claim transaction writes, in order. */
  function ClaimWrites(d: ClaimResult): seq<State> {
    match d
    case Skipped => []
    case Exhausted => [FailedTerminal, NeedsReview]
    case Granted(_) => [Submitted]
  }

  /** The states an outcome transaction writes, in order; none when it is rolled back. */
  function OutcomeWrites(r: Row, reply: SubmitReply, attempt: nat): seq<State> {
    if !OutcomeCommits(r, reply) then []
    else if reply.Accepted? then [Acked]
    else if Resolve(attempt, ReplyError(reply)).next == Queued then [FailedRetryable, Queued]
    else [FailedTerminal, NeedsReview]
  }

  /** The states one transaction writes to the row of `id`, in order. */
  ghost function Writes(s: World, a: Action, id: InvoiceId): seq<State>
    requires Enabled(s, a) && id in s.rows
  {
    var r := s.rows[id];
    match a
    case Activate(org) => if r.org == org && r.state == TaxPending then [Queued] else []
    case BeginClaim(_, i) => if i == id then ClaimWrites(ClaimDecision(r, s.now)) else []
    case Commit(w) =>
      if s.claims[w].invoice == id then OutcomeWrites(r, s.claims[w].phase.reply, s.claims[w].attempt) else []
    case SweepRescue(ok) =>
      if ok && s.sweep.value[0].id == id && r.state == Submitted then [FailedRetryable] else []
    case Retry(i) => if i == id && (r.state == NeedsReview || r.state == FailedTerminal) then [Queued] else []
    case Requeue(i) =>
      if i == id && (r.state == FailedTerminal || r.state == NeedsReview || r.state == FailedRetryable) then [Queued] else []
    case _ => []
  }

  /** The state a row has, followed by those the transaction writes to it. */
  ghost function Path(s: World, a: Action, id: InvoiceId): (path: seq<State>)
    requires Enabled(s, a) && id in s.rows
    ensures path != []
  {
    [s.rows[id].state] + Writes(s, a, id)
  }

  function Last(path: seq<State>): State
    requires path != []
  {
    path[|path| - 1]
  }

  /** An acknowledgement of a row that is not SUBMITTED. */
  predicate AcksElsewhere(s: World, a: Action, id: InvoiceId) {
    && a.Commit? && a.w in s.claims && s.claims[a.w].invoice == id
    && s.claims[a.w].phase.Answered? && s.claims[a.w].phase.reply.Accepted?
    && id in s.rows && s.rows[id].state != Submitted
  }

  lemma OutcomePath(r: Row, reply: SubmitReply, attempt: nat, now: nat)
    ensures var path := [r.state] + OutcomeWrites(r, reply, attempt);
      && Last(path) == OutcomeRow(r, reply, attempt, now).state
      && (LegalPath(path) <==> !(reply.Accepted? && r.state != Submitted))
  {
    var path := [r.state] + OutcomeWrites(r, reply, attempt);
    assert reply.Accepted? ==> path[0] == r.state && path[1] == Acked;
  }

  lemma ClaimPath(r: Row, now: nat)
    ensures var path := [r.state] + ClaimWrites(ClaimDecision(r, now)); LegalPath(path) && Last(path) == ClaimRow(r, now).state
  {
  }

  lemma OtherPath(s: World, a: Action, id: InvoiceId)
    requires Enabled(s, a) && id in s.rows && s.rows[id].state != FailedTerminal
    requires !(a.Commit? && s.claims[a.w].invoice == id) && !(a.BeginClaim? && a.id == id)
    ensures LegalPath(Path(s, a, id)) && Last(Path(s, a, id)) == NextRow(s, a, id).state
  {
  }

  lemma StepPath(s: World, a: Action, id: InvoiceId)
    requires Inv(s) && Enabled(s, a) && id in s.rows
    ensures Last(Path(s, a, id)) == NextRow(s, a, id).state
    ensures LegalPath(Path(s, a, id)) <==> !AcksElsewhere(s, a, id)
  {
    if a.Commit? && s.claims[a.w].invoice == id {
      OutcomePath(s.rows[id], s.claims[a.w].phase.reply, s.claims[a.w].attempt, s.now);
    } else if a.BeginClaim? && a.id == id {
      ClaimPath(s.rows[id], s.now);
    } else {
      OtherPath(s, a, id);
    }
  }

  /**
    The exact condition, over every run and with no timing at all: what a
    transaction writes to a row ends in the state the row then shows, and it is
    a legal path through the table if and only if it is not the acknowledgement
    of a row that is not SUBMITTED.
   */
  lemma LegalUnlessAckedElsewhere(actions: seq<Action>, a: Action, id: InvoiceId)
    requires Run(INITIAL, actions) && Enabled(End(INITIAL, actions), a) && id in End(INITIAL, actions).rows
    ensures var s := End(INITIAL, actions);
      && id in Next(s, a).rows && Last(Path(s, a, id)) == Next(s, a).rows[id].state
      && (LegalPath(Path(s, a, id)) <==> !AcksElsewhere(s, a, id))
  {
    RunKeepsInv(INITIAL, actions);
    RowsPersist(End(INITIAL, actions), a, id);
    StepPath(End(INITIAL, actions), a, id);
  }
}
