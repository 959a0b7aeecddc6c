/**
  The fiscal submission protocol as a transition system: any number of workers
  (backend/internal/fiscal/submitter.go), the watchdog
  (backend/internal/fiscal/watchdog.go), the merchant and the administrator act
  on the invoice rows, one database transaction at a time, around an unreliable
  provider. A worker may stop between its claim transaction, its provider calls
  and its outcome transaction. Time is in seconds on one clock.
 */
module Submission {
  import opened Prelude
  import opened FiscalState
  import opened Provider

  type WorkerId = nat
  type OrgId = nat

  datatype Row = Row(
    org: OrgId,
    kind: DocKind,
    parent: Option<InvoiceId>,
    state: State,
    attempt: nat,
    nextAttemptAt: Option<nat>,
    updatedAt: nat,
    kraNo: Option<string>)

  /** How far a worker got after its claim transaction. */
  datatype Phase = MayLookup | MustSubmit | Answered(reply: SubmitReply)

  /**
    A worker past its claim transaction. `docId` is the id of the document it
    will send: the invoice's own, or "" for a worker that went through the
    exhausted branch and goes on with the document it never built.
   */
  datatype Claim = Claim(
    invoice: InvoiceId,
    docId: InvoiceId,
    kind: DocKind,
    parentKraNo: string,
    attempt: nat,
    at: nat,
    phase: Phase)

  predicate Ghost(c: Claim) {
    c.docId == ""
  }

  /** A row the watchdog listed, as it was when it was listed. */
  datatype Stale = Stale(id: InvoiceId, attempt: nat)

  /** Which worker's claim was granted last, and when. */
  datatype Grant = Grant(w: WorkerId, at: nat)

  datatype World = World(
    now: nat,
    rows: map<InvoiceId, Row>,
    claims: map<WorkerId, Claim>,
    sweep: Option<seq<Stale>>,
    acks: AckBook,
    initialised: set<OrgId>,
    everInitialised: set<OrgId>,
    sent: set<InvoiceId>,                    // documents handed to the provider so far
    kraWrites: set<(InvoiceId, string)>,     // every KRA number written to a row so far
    granted: map<InvoiceId, Grant>)          // the claim that set each row SUBMITTED last

  const WORKER_TIMEOUT: nat := 90            // submitter.go:403
  const STALE_AFTER: nat := 15 * MINUTE      // ListStaleSubmittedInvoices

  /* ------------------------------------------------- one transaction on one row */

  datatype ClaimResult = Skipped | Exhausted | Granted(isRetry: bool)

  /** The decision of the claim transaction (submitter.go:95-156). */
  function ClaimDecision(r: Row, now: nat): ClaimResult {
    if r.state != Queued && r.state != FailedRetryable then Skipped
    else if r.state == Queued && r.nextAttemptAt.Some? && r.nextAttemptAt.value > now then Skipped
    else if r.state == FailedRetryable && Resolve(r.attempt, Some(SubmitError(UnknownError, false))).next == FailedTerminal then Exhausted
    else Granted(r.attempt > 0)
  }

  /** The row after the claim transaction. */
  function ClaimRow(r: Row, now: nat): Row {
    match ClaimDecision(r, now)
    case Skipped => r
    case Exhausted => r.(state := NeedsReview, nextAttemptAt := None, updatedAt := now)
    case Granted(_) => r.(state := Submitted, attempt := r.attempt + 1, nextAttemptAt := None, updatedAt := now)
  }

  function ReplyError(reply: SubmitReply): Option<SubmitError> {
    match reply
    case Accepted(_) => None
    case Rejected(e) => Some(e)
  }

  /**
    Whether the outcome transaction commits: acknowledging writes
    unconditionally (AckInvoice has no expected state), everything else is a
    compare-and-set from SUBMITTED whose failure rolls the transaction back.
   */
  predicate OutcomeCommits(r: Row, reply: SubmitReply) {
    reply.Accepted? || r.state == Submitted
  }

  /** The row after the outcome transaction of attempt `attempt` (submitter.go:230-308). */
  function OutcomeRow(r: Row, reply: SubmitReply, attempt: nat, now: nat): Row {
    if !OutcomeCommits(r, reply) then r
    else
      match reply
      case Accepted(k) => r.(state := Acked, kraNo := Some(k), nextAttemptAt := None, updatedAt := now)
      case Rejected(e) =>
        var o := Resolve(attempt, Some(e));
        if o.next == Queued then r.(state := Queued, nextAttemptAt := Some(now + o.retryIn), updatedAt := now)
        else r.(state := NeedsReview, nextAttemptAt := None, updatedAt := now)
  }

  /** The watchdog's compare-and-set on one listed row (watchdog.go:64-73). */
  function RescueRow(r: Row, listedAttempt: nat, now: nat): Row {
    if r.state == Submitted
    then r.(state := FailedRetryable, attempt := listedAttempt + 1, nextAttemptAt := None, updatedAt := now)
    else r
  }

  /** ResetInvoiceForRetry. */
  function RetryRow(r: Row, now: nat): Row {
    if r.state == NeedsReview || r.state == FailedTerminal
    then r.(state := Queued, attempt := 0, nextAttemptAt := None, updatedAt := now)
    else r
  }

  /** The administrator's requeue: the attempt counter is kept. */
  function RequeueRow(r: Row, now: nat): Row {
    if r.state == FailedTerminal || r.state == NeedsReview || r.state == FailedRetryable
    then r.(state := Queued, nextAttemptAt := Some(now), updatedAt := now)
    else r
  }

  function ActivateRow(r: Row, org: OrgId, now: nat): Row {
    if r.org == org && r.state == TaxPending then r.(state := Queued, updatedAt := now) else r
  }

  /** SupersedeInvoice, on a row in any state: the trigger stamps updated_at. */
  function SupersedeRow(r: Row, now: nat): Row {
    r.(updatedAt := now)
  }

  predicate IsStale(r: Row, now: nat) {
    r.state == Submitted && r.updatedAt + STALE_AFTER < now
  }

  /** The row a document starts as: withheld until the seller has configured eTIMS. */
  function NewRow(org: OrgId, kind: DocKind, parent: Option<InvoiceId>, ready: bool, now: nat): Row {
    Row(org, kind, parent, if ready then Queued else TaxPending, 0, None, now, None)
  }

  /* ------------------------------------------------------------------- actions */

  datatype Action =
    | Tick(seconds: nat)
    | ConfigureEtims(org: OrgId)                       // etims_status becomes initialized
    | FailEtims(org: OrgId)                            // a later configuration attempt failed
    | Activate(org: OrgId)
    | Create(id: InvoiceId, org: OrgId, kind: DocKind, parent: Option<InvoiceId>)
    | BeginClaim(w: WorkerId, id: InvoiceId)
    | Lookup(w: WorkerId, found: LookupReply)
    | Submit(w: WorkerId, reply: SubmitReply, after: AckBook)
    | Commit(w: WorkerId)
    | Crash(w: WorkerId)
    | SweepList(listed: seq<Stale>)
    | SweepRescue(ok: bool)                            // ok is false when that transaction failed
    | SweepEnd
    | Retry(id: InvoiceId)
    | Requeue(id: InvoiceId)
    | Supersede(id: InvoiceId)                         // a re-issue or a credit note replaces the document

  /** The stored KRA number of the parent of a credit note, "" when there is none. */
  function ParentKraNo(rows: map<InvoiceId, Row>, r: Row): string {
    if r.kind == CreditNote && r.parent.Some? && r.parent.value in rows && rows[r.parent.value].kraNo.Some?
    then rows[r.parent.value].kraNo.value
    else ""
  }

  /** The claim a worker holds after its claim transaction committed. */
  function NewClaim(s: World, id: InvoiceId): Claim
    requires id in s.rows && !ClaimDecision(s.rows[id], s.now).Skipped?
  {
    var r := s.rows[id];
    var d := ClaimDecision(r, s.now);
    if d.Granted?
    then Claim(id, id, r.kind, ParentKraNo(s.rows, r), r.attempt + 1, s.now, if d.isRetry then MayLookup else MustSubmit)
    else Claim(id, "", Invoice, "", 0, s.now, MustSubmit)
  }

  /** What a lookup answer leads to (submitter.go:182-200). */
  function AfterLookup(found: LookupReply): Phase {
    match found
    case Found(k) => if k != "" then Answered(Accepted(k)) else MustSubmit
    case NotSupported => MustSubmit
    case LookupFailed(e) => if e.notFound then MustSubmit else Answered(Rejected(e))
  }

  ghost predicate ListsStale(s: World, listed: seq<Stale>) {
    && (forall i, j :: 0 <= i < j < |listed| ==> listed[i].id != listed[j].id)
    && (forall e :: e in listed ==> e.id in s.rows && IsStale(s.rows[e.id], s.now) && e.attempt == s.rows[e.id].attempt)
    && (forall id :: id in s.rows && IsStale(s.rows[id], s.now) ==> Stale(id, s.rows[id].attempt) in listed)
  }

  ghost predicate Enabled(s: World, a: Action) {
    match a
    case Tick(_) => true
    case ConfigureEtims(_) => true
    case FailEtims(_) => true
    case Activate(org) => org in s.everInitialised
    case Create(id, _, _, parent) => id != "" && id !in s.rows && (parent.Some? ==> parent.value in s.rows)
    case BeginClaim(w, id) => w !in s.claims && id in s.rows
    case Lookup(w, found) => w in s.claims && s.claims[w].phase == MayLookup && LookupContract(s.acks, s.claims[w].docId, found)
    case Submit(w, reply, after) =>
      w in s.claims && s.claims[w].phase == MustSubmit
      && SubmitContract(s.acks, s.claims[w].docId, s.claims[w].kind, s.claims[w].parentKraNo, reply, after)
    case Commit(w) => w in s.claims && s.claims[w].phase.Answered?
    case Crash(w) => w in s.claims
    case SweepList(listed) => s.sweep.None? && ListsStale(s, listed)
    case SweepRescue(_) => s.sweep.Some? && s.sweep.value != []
    case SweepEnd => s.sweep.Some?
    case Retry(id) => id in s.rows
    case Requeue(id) => id in s.rows
    case Supersede(id) => id in s.rows
  }

  /** The row `id` after action `a`; only Create adds rows. */
  ghost function NextRow(s: World, a: Action, id: InvoiceId): Row
    requires Enabled(s, a) && id in s.rows
  {
    var r := s.rows[id];
    match a
    case Activate(org) => ActivateRow(r, org, s.now)
    case BeginClaim(_, i) => if i == id then ClaimRow(r, s.now) else r
    case Commit(w) =>
      var c := s.claims[w];
      if c.invoice == id then OutcomeRow(r, c.phase.reply, c.attempt, s.now) else r
    case SweepRescue(ok) =>
      var e := s.sweep.value[0];
      if ok && e.id == id then RescueRow(r, e.attempt, s.now) else r
    case Retry(i) => if i == id then RetryRow(r, s.now) else r
    case Requeue(i) => if i == id then RequeueRow(r, s.now) else r
    case Supersede(i) => if i == id then SupersedeRow(r, s.now) else r
    case _ => r
  }

  ghost function NextRows(s: World, a: Action): map<InvoiceId, Row>
    requires Enabled(s, a)
  {
    var kept := map id | id in s.rows :: NextRow(s, a, id);
    if a.Create? then kept[a.id := NewRow(a.org, a.kind, a.parent, a.org in s.initialised, s.now)] else kept
  }

  ghost function NextClaims(s: World, a: Action): map<WorkerId, Claim>
    requires Enabled(s, a)
  {
    match a
    case BeginClaim(w, id) =>
      if ClaimDecision(s.rows[id], s.now).Skipped? then s.claims else s.claims[w := NewClaim(s, id)]
    case Lookup(w, found) => s.claims[w := s.claims[w].(phase := AfterLookup(found))]
    case Submit(w, reply, _) => s.claims[w := s.claims[w].(phase := Answered(reply))]
    case Commit(w) => s.claims - {w}
    case Crash(w) => s.claims - {w}
    case _ => s.claims
  }

  ghost function NextSweep(s: World, a: Action): Option<seq<Stale>>
    requires Enabled(s, a)
  {
    match a
    case SweepList(listed) => Some(listed)
    case SweepRescue(_) => Some(s.sweep.value[1..])
    case SweepEnd => None
    case _ => s.sweep
  }

  ghost function NextKraWrites(s: World, a: Action): set<(InvoiceId, string)>
    requires Enabled(s, a)
  {
    if a.Commit? && s.claims[a.w].phase.reply.Accepted?
    then s.kraWrites + {(s.claims[a.w].invoice, s.claims[a.w].phase.reply.kraNo)}
    else s.kraWrites
  }

  ghost function NextGranted(s: World, a: Action): map<InvoiceId, Grant>
    requires Enabled(s, a)
  {
    if a.BeginClaim? && ClaimDecision(s.rows[a.id], s.now).Granted?
    then s.granted[a.id := Grant(a.w, s.now)]
    else s.granted
  }

  ghost function Next(s: World, a: Action): World
    requires Enabled(s, a)
  {
    World(
      if a.Tick? then s.now + a.seconds else s.now,
      NextRows(s, a),
      NextClaims(s, a),
      NextSweep(s, a),
      if a.Submit? then a.after else s.acks,
      if a.ConfigureEtims? then s.initialised + {a.org} else if a.FailEtims? then s.initialised - {a.org} else s.initialised,
      if a.ConfigureEtims? then s.everInitialised + {a.org} else s.everInitialised,
      if a.Lookup? || a.Submit? then s.sent + {s.claims[a.w].docId} else s.sent,
      NextKraWrites(s, a),
      NextGranted(s, a))
  }

  const INITIAL := World(0, map[], map[], None, map[], {}, {}, {}, {}, map[])

  /** A run: every action is enabled when it happens. */
  ghost predicate Run(s: World, actions: seq<Action>)
    decreases |actions|
  {
    actions == [] || (Enabled(s, actions[0]) && Run(Next(s, actions[0]), actions[1..]))
  }

  /** The world at the end of a run. */
  ghost function End(s: World, actions: seq<Action>): World
    requires Run(s, actions)
    decreases |actions|
  {
    if actions == [] then s else End(Next(s, actions[0]), actions[1..])
  }
}
