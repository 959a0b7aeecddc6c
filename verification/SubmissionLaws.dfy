/**
  The policy of the submission protocol with its numbers written out: which
  errors end an invoice, when it may be claimed again, what the watchdog, the
  merchant, the administrator and the eTIMS activation do to it
  (backend/internal/fiscal/state.go, errors.go, watchdog.go, submitter.go).
 */
module SubmissionLaws {
  import opened Prelude
  import opened FiscalState
  import opened Provider
  import opened Submission
  import opened SubmissionAcks
  import opened SubmissionTiming

  /** The transition table has these eleven entries and no other. */
  lemma TransitionTable(a: State, b: State)
    ensures CanTransition(a, b) <==>
      || (a == Draft && b == Queued) || (a == TaxPending && b == Queued) || (a == Queued && b == Submitted)
      || (a == Submitted && (b == Acked || b == FailedRetryable || b == FailedTerminal))
      || (a == FailedRetryable && (b == Queued || b == Submitted || b == FailedTerminal))
      || (a == FailedTerminal && b == NeedsReview) || (a == NeedsReview && b == Queued)
  {
  }

  predicate IsTerminalKind(k: ErrorKind) {
    k == ValidationError || k == ConfigError
  }

  /** The delay after failed attempt 1, 2, 3, 4 and 5, in seconds. */
  function Delay(n: nat): nat {
    if n <= 1 then 60 else if n == 2 then 300 else if n == 3 then 3600 else 43200
  }

  /**
    A failed attempt n: the invoice waits for review after a rejected document,
    a broken configuration or the sixth attempt, and otherwise can be claimed
    again from exactly one minute, five minutes, one hour, twelve hours and
    twelve hours on.
   */
  lemma AfterFailure(r: Row, e: SubmitError, n: nat, now: nat, t: nat)
    requires r.state == Submitted && r.attempt == n >= 1 && now <= t
    ensures var r' := OutcomeRow(r, Rejected(e), n, now);
      && (IsTerminalKind(e.kind) || n >= 6 ==> r'.state == NeedsReview && ClaimDecision(r', t).Skipped?)
      && (!IsTerminalKind(e.kind) && n <= 5 ==>
            r'.state == Queued && r'.attempt == n && ClaimDecision(r', t) == if t >= now + Delay(n) then Granted(true) else Skipped)
  {
  }

  /** A rescued invoice can be claimed again at once, until it has used its attempts up: then it is taken to review. */
  lemma AfterRescue(r: Row, now: nat, t: nat)
    requires r.state == Submitted
    ensures var r' := RescueRow(r, r.attempt, now);
      && r'.attempt == r.attempt + 1 && r'.updatedAt == now
      && ClaimDecision(r', t) == (if r.attempt >= 5 then Exhausted else Granted(true))
      && (r.attempt >= 5 ==> ClaimRow(r', t).state == NeedsReview)
      && (r.attempt < 5 ==> ClaimRow(r', t).state == Submitted && ClaimRow(r', t).attempt == r.attempt + 2)
  {
  }

  /** A retry starts an invoice under review over, at once and as a first attempt; a requeue goes on counting. Neither touches an invoice that is waiting or done. */
  lemma AfterReview(r: Row, now: nat, t: nat)
    requires now <= t
    ensures r.state == NeedsReview ==>
      && ClaimDecision(RetryRow(r, now), t) == Granted(false) && ClaimRow(RetryRow(r, now), t).attempt == 1
      && ClaimDecision(RequeueRow(r, now), t) == Granted(r.attempt > 0) && ClaimRow(RequeueRow(r, now), t).attempt == r.attempt + 1
    ensures r.state == Acked || r.state == Submitted || r.state == TaxPending || r.state == Queued ==>
      RetryRow(r, now) == r && RequeueRow(r, now) == r
  {
  }

  /** A new document of a configured seller can be claimed at once; another one not before its seller's activation. */
  lemma NewDocuments(org: OrgId, kind: DocKind, parent: Option<InvoiceId>, now: nat, t: nat, u: nat)
    ensures ClaimDecision(NewRow(org, kind, parent, true, now), t) == Granted(false)
    ensures ClaimDecision(NewRow(org, kind, parent, false, now), t).Skipped?
    ensures ClaimDecision(ActivateRow(NewRow(org, kind, parent, false, now), org, u), t) == Granted(false)
  {
  }

  /** The claim of a first attempt submits at once; that of a later one looks the document up first. It names the document, its attempt and its time. */
  lemma RetriesLookUpFirst(s: World, w: WorkerId, id: InvoiceId)
    requires Enabled(s, BeginClaim(w, id)) && ClaimDecision(s.rows[id], s.now).Granted?
    ensures var s' := Next(s, BeginClaim(w, id));
      && w in s'.claims && s'.claims[w].phase == (if s.rows[id].attempt == 0 then MustSubmit else MayLookup)
      && s'.claims[w].invoice == id && s'.claims[w].docId == id && s'.claims[w].kind == s.rows[id].kind
      && s'.claims[w].attempt == s.rows[id].attempt + 1 && s'.claims[w].at == s.now
      && (s.rows[id].kind == Invoice ==> s'.claims[w].parentKraNo == "")
  {
  }

  /** Activation queues every withheld document of the seller, and touches nothing else. */
  lemma ActivationQueuesAll(s: World, org: OrgId, id: InvoiceId)
    requires Enabled(s, Activate(org)) && id in s.rows
    ensures var s' := Next(s, Activate(org)); var r := s.rows[id];
      && id in s'.rows && !(s'.rows[id].org == org && s'.rows[id].state == TaxPending)
      && s'.rows[id] == (if r.org == org && r.state == TaxPending then r.(state := Queued, updatedAt := s.now) else r)
      && s'.claims == s.claims && s'.acks == s.acks
  {
  }

  /** Nothing of the environment is excluded: time passes, workers stop, claim and look up, documents are retried, requeued and superseded, at any moment. */
  lemma EnvironmentIsFree(s: World, seconds: nat, org: OrgId, id: InvoiceId, w: WorkerId)
    ensures Enabled(s, Tick(seconds)) && Enabled(s, ConfigureEtims(org)) && Enabled(s, FailEtims(org))
    ensures w in s.claims ==> Enabled(s, Crash(w))
    ensures w in s.claims && s.claims[w].phase.Answered? ==> Enabled(s, Commit(w))
    ensures w in s.claims && s.claims[w].phase == MayLookup ==> Enabled(s, Lookup(w, NotSupported))
    ensures id in s.rows ==> Enabled(s, Retry(id)) && Enabled(s, Requeue(id)) && Enabled(s, Supersede(id))
    ensures id in s.rows && w !in s.claims ==> Enabled(s, BeginClaim(w, id))
    ensures id != "" && id !in s.rows ==> Enabled(s, Create(id, org, Invoice, None))
  {
  }

  /** A sweep lists a row exactly when it has been SUBMITTED, untouched, for more than 900 seconds. */
  lemma StaleIsFifteenMinutes(s: World, listed: seq<Stale>, id: InvoiceId)
    requires Enabled(s, SweepList(listed)) && id in s.rows
    ensures Stale(id, s.rows[id].attempt) in listed <==> s.rows[id].state == Submitted && s.rows[id].updatedAt + 900 < s.now
  {
  }

  /** A worker may write for 90 seconds. */
  lemma LiveIsNinetySeconds(c: Claim, now: nat)
    ensures Live(c, now) <==> now <= c.at + 90
  {
  }

  /** After a lookup a worker submits exactly when the provider cannot look up, does not know the document or names no number. */
  lemma SubmitsAfterLookup(found: LookupReply)
    ensures AfterLookup(found) == MustSubmit <==>
      found == NotSupported || found == Found("") || (found.LookupFailed? && found.err.notFound)
    ensures found.Found? && found.kraNo != "" ==> AfterLookup(found) == Answered(Accepted(found.kraNo))
    ensures found.LookupFailed? && !found.err.notFound ==> AfterLookup(found) == Answered(Rejected(found.err))
  {
  }

  /* ---------------------------------------------------------- due only in QUEUED */

  ghost predicate DueInQueue(s: World) {
    forall id :: id in s.rows ==> RowDueInQueue(s.rows[id])
  }

  predicate RowDueInQueue(r: Row) {
    r.nextAttemptAt.Some? ==> r.state == Queued
  }

  lemma NextRowDueInQueue(s: World, a: Action, id: InvoiceId)
    requires Enabled(s, a) && id in s.rows && RowDueInQueue(s.rows[id])
    ensures RowDueInQueue(NextRow(s, a, id))
  {
  }

  lemma {:induction false} RunKeepsDueInQueue(s: World, actions: seq<Action>)
    requires Run(s, actions) && DueInQueue(s)
    ensures DueInQueue(End(s, actions))
    decreases |actions|
  {
    if actions != [] {
      var s' := Next(s, actions[0]);
      forall id | id in s'.rows ensures RowDueInQueue(s'.rows[id]) {
        if id in s.rows { NextRowDueInQueue(s, actions[0], id); }
      }
      RunKeepsDueInQueue(s', actions[1..]);
    }
  }

  /** In every run only a QUEUED row has a next attempt scheduled. */
  lemma ScheduledOnlyInQueue(actions: seq<Action>, id: InvoiceId)
    requires Run(INITIAL, actions) && id in End(INITIAL, actions).rows && End(INITIAL, actions).rows[id].nextAttemptAt.Some?
    ensures End(INITIAL, actions).rows[id].state == Queued
  {
    RunKeepsDueInQueue(INITIAL, actions);
  }
}
