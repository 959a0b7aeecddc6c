/**
  Lease safety: under the timing the deployment enforces, a claim of an invoice
  is exclusive. Two facts make a run timely and disciplined:

  - an outcome transaction commits within the 90 seconds a job may run
    (Worker.Timeout), and the watchdog's sweeps do not overlap (Enabled);
  - nobody re-queues an invoice while a worker that found it exhausted may
    still write its outcome.

  The second one is exact: `RequeueIsSafeIffNoLiveGhost` shows that one retry or
  requeue can break the lease if and only if such a worker is live.
 */
module SubmissionLease {
  import opened Prelude
  import opened FiscalState
  import opened Provider
  import opened Submission
  import opened SubmissionAcks
  import opened SubmissionTiming
  import opened SubmissionPaths

  /** `w` is inside its time limit and holds a document to submit. */
  predicate Working(s: World, w: WorkerId)
    requires w in s.claims
  {
    Live(s.claims[w], s.now) && !Ghost(s.claims[w])
  }

  ghost predicate LiveGhost(s: World, id: InvoiceId) {
    exists g :: LiveOn(s, g, id) && Ghost(s.claims[g])
  }

  ghost predicate Disciplined(s: World, a: Action) {
    (a.Retry? || a.Requeue?) ==> !LiveGhost(s, a.id)
  }

  ghost predicate LeasedRun(s: World, actions: seq<Action>)
    decreases |actions|
  {
    actions == []
    || (Enabled(s, actions[0]) && Timely(s, actions[0]) && Disciplined(s, actions[0])
        && LeasedRun(Next(s, actions[0]), actions[1..]))
  }

  /** The row is SUBMITTED by exactly the claim `w` holds: no other claim was granted since. */
  predicate Owns(s: World, w: WorkerId)
    requires w in s.claims
  {
    var c := s.claims[w];
    && c.invoice in s.rows && s.rows[c.invoice].state == Submitted && s.rows[c.invoice].attempt == c.attempt
    && c.at <= s.rows[c.invoice].updatedAt
    && c.invoice in s.granted && s.granted[c.invoice] == Grant(w, c.at)
  }

  ghost predicate LiveClaimsOwn(s: World) {
    forall w :: w in s.claims && Working(s, w) ==> Owns(s, w)
  }

  /** While an exhausted worker is live its invoice waits for review, and it will look nothing up. */
  predicate Harmless(s: World, c: Claim) {
    c.invoice in s.rows && s.rows[c.invoice].state == NeedsReview && c.phase != MayLookup
  }

  ghost predicate GhostsHarmless(s: World) {
    forall w :: w in s.claims && Live(s.claims[w], s.now) && Ghost(s.claims[w]) ==> Harmless(s, s.claims[w])
  }

  ghost predicate Leased(s: World) {
    Timed(s) && LiveClaimsOwn(s) && GhostsHarmless(s)
  }

  /* ------------------------------------------------------ one step at a time */

  /** The row as it was, but for a new updated_at when it is superseded. */
  ghost predicate Untouched(s: World, a: Action, id: InvoiceId)
    requires Enabled(s, a)
  {
    id in s.rows && NextRow(s, a, id) == if a == Supersede(id) then SupersedeRow(s.rows[id], s.now) else s.rows[id]
  }

  /** No step but its own outcome moves a row that a live worker owns. */
  lemma OwnedRowIsStable(s: World, a: Action, w: WorkerId)
    requires Inv(s) && Leased(s) && Enabled(s, a) && Timely(s, a) && Disciplined(s, a)
    requires w in s.claims && Working(s, w) && !(a.Commit? && a.w == w)
    ensures Untouched(s, a, s.claims[w].invoice)
  {
    assert Owns(s, w) && LiveOn(s, w, s.claims[w].invoice);
    if a.Commit? {
      OnlyOwnOutcomes(s, a.w);
    } else {
      assert a.SweepRescue? ==> s.sweep.value[0] in s.sweep.value && ListedIsIdle(s, s.sweep.value[0]);
    }
  }

  /** A live outcome takes effect on the row its worker owns, or not at all. */
  lemma OnlyOwnOutcomes(s: World, w: WorkerId)
    requires Inv(s) && Leased(s) && Enabled(s, Commit(w)) && Timely(s, Commit(w))
    ensures s.claims[w].invoice in s.rows
    ensures Ghost(s.claims[w]) ==> s.rows[s.claims[w].invoice].state == NeedsReview && s.claims[w].phase.reply.Rejected?
    ensures !Ghost(s.claims[w]) ==> Owns(s, w)
  {
    var c := s.claims[w];
    assert ClaimTruthful(s, c);
    assert if Ghost(c) then Harmless(s, c) else Working(s, w);
  }

  /** A row waiting for review does not move while an exhausted worker may still write. */
  lemma ReviewedRowIsStable(s: World, a: Action, w: WorkerId)
    requires Inv(s) && Leased(s) && Enabled(s, a) && Timely(s, a) && Disciplined(s, a)
    requires w in s.claims && Live(s.claims[w], s.now) && Ghost(s.claims[w])
    ensures Untouched(s, a, s.claims[w].invoice)
  {
    assert LiveOn(s, w, s.claims[w].invoice) && Harmless(s, s.claims[w]);
    if a.Commit? { OnlyOwnOutcomes(s, a.w); }
  }

  lemma NewClaimIsGood(s: World, w: WorkerId, id: InvoiceId)
    requires Inv(s) && Leased(s) && Enabled(s, BeginClaim(w, id)) && !ClaimDecision(s.rows[id], s.now).Skipped?
    ensures var s' := Next(s, BeginClaim(w, id));
      && w in s'.claims && (!Ghost(s'.claims[w]) ==> Owns(s', w)) && (Ghost(s'.claims[w]) ==> Harmless(s', s'.claims[w]))
  {
    RowsPersist(s, BeginClaim(w, id), id);
  }

  /** A claim is granted only from QUEUED or FAILED_RETRYABLE, so nobody live owned the row. */
  lemma HeldClaimStays(s: World, a: Action, w: WorkerId)
    requires Inv(s) && Leased(s) && Enabled(s, a) && Timely(s, a) && Disciplined(s, a)
    requires w in s.claims && Live(s.claims[w], s.now) && w in Next(s, a).claims
    requires Next(s, a).claims[w] == s.claims[w].(phase := Next(s, a).claims[w].phase) && !(a.Commit? && a.w == w)
    ensures !Ghost(s.claims[w]) ==> Owns(Next(s, a), w)
    ensures Ghost(s.claims[w]) ==> Harmless(Next(s, a), Next(s, a).claims[w])
  {
    if Ghost(s.claims[w]) { GhostStays(s, a, w); } else { OwnerStays(s, a, w); }
  }

  lemma OwnerStays(s: World, a: Action, w: WorkerId)
    requires Inv(s) && Leased(s) && Enabled(s, a) && Timely(s, a) && Disciplined(s, a)
    requires w in s.claims && Working(s, w) && w in Next(s, a).claims
    requires Next(s, a).claims[w] == s.claims[w].(phase := Next(s, a).claims[w].phase) && !(a.Commit? && a.w == w)
    ensures Owns(Next(s, a), w)
  {
    var id := s.claims[w].invoice;
    assert Owns(s, w);
    OwnedRowIsStable(s, a, w);
    RowsPersist(s, a, id);
    GrantStays(s, a, id);
    assert s.rows[id].updatedAt <= s.now;
  }

  /** No claim is granted on a SUBMITTED row. */
  lemma GrantStays(s: World, a: Action, id: InvoiceId)
    requires Enabled(s, a) && id in s.rows && s.rows[id].state == Submitted && id in s.granted
    ensures id in Next(s, a).granted && Next(s, a).granted[id] == s.granted[id]
  {
  }

  lemma GhostStays(s: World, a: Action, w: WorkerId)
    requires Inv(s) && Leased(s) && Enabled(s, a) && Timely(s, a) && Disciplined(s, a)
    requires w in s.claims && Live(s.claims[w], s.now) && Ghost(s.claims[w]) && w in Next(s, a).claims
    requires Next(s, a).claims[w] == s.claims[w].(phase := Next(s, a).claims[w].phase)
    ensures Harmless(Next(s, a), Next(s, a).claims[w])
  {
    assert Harmless(s, s.claims[w]);
    ReviewedRowIsStable(s, a, w);
    RowsPersist(s, a, s.claims[w].invoice);
    LooksUpOnce(s, a, w);
  }

  /** A worker that will not look anything up never will. */
  lemma LooksUpOnce(s: World, a: Action, w: WorkerId)
    requires Enabled(s, a) && w in s.claims && w in NextClaims(s, a) && s.claims[w].phase != MayLookup
    ensures NextClaims(s, a)[w].phase != MayLookup
  {
  }

  lemma LiveClaimStays(s: World, a: Action, w: WorkerId)
    requires Inv(s) && Leased(s) && Enabled(s, a) && Timely(s, a) && Disciplined(s, a)
    requires w in Next(s, a).claims && Live(Next(s, a).claims[w], Next(s, a).now)
    ensures var s' := Next(s, a);
      (!Ghost(s'.claims[w]) ==> Owns(s', w)) && (Ghost(s'.claims[w]) ==> Harmless(s', s'.claims[w]))
  {
    var id := Next(s, a).claims[w].invoice;
    assert LiveOn(Next(s, a), w, id);
    LiveShrinks(s, a, w, id);
    if a.BeginClaim? && a.w == w {
      NewClaimIsGood(s, w, id);
    } else {
      HeldClaimStays(s, a, w);
    }
  }

  lemma StepKeepsLeased(s: World, a: Action)
    requires Inv(s) && Leased(s) && Enabled(s, a) && Timely(s, a) && Disciplined(s, a)
    ensures Inv(Next(s, a)) && Leased(Next(s, a))
  {
    StepKeepsTimed(s, a);
    var s' := Next(s, a);
    forall w | w in s'.claims && Live(s'.claims[w], s'.now)
      ensures !Ghost(s'.claims[w]) ==> Owns(s', w)
      ensures Ghost(s'.claims[w]) ==> Harmless(s', s'.claims[w])
    {
      LiveClaimStays(s, a, w);
    }
  }

  lemma {:induction false} LeasedRunKeeps(s: World, actions: seq<Action>)
    requires Inv(s) && Leased(s) && LeasedRun(s, actions)
    ensures Run(s, actions) && Inv(End(s, actions)) && Leased(End(s, actions))
    decreases |actions|
  {
    if actions != [] {
      StepKeepsLeased(s, actions[0]);
      LeasedRunKeeps(Next(s, actions[0]), actions[1..]);
    }
  }

  /* ------------------------------------------------------------ the theorems */

  /**
    Lease safety. In every timely and disciplined run no two claims of one
    invoice are in flight together, and a live claim owns its row.
   */
  lemma LeaseSafety(actions: seq<Action>, w1: WorkerId, w2: WorkerId)
    requires LeasedRun(INITIAL, actions) && Run(INITIAL, actions)
    requires var s := End(INITIAL, actions);
      && w1 in s.claims && w2 in s.claims && Working(s, w1) && Working(s, w2)
      && s.claims[w1].invoice == s.claims[w2].invoice
    ensures w1 == w2 && Owns(End(INITIAL, actions), w1)
  {
    LeasedRunKeeps(INITIAL, actions);
    var s := End(INITIAL, actions);
    assert Owns(s, w1) && Owns(s, w2);
  }

  /**
    Every outcome that takes effect belongs to the claim that set SUBMITTED
    last; the outcome of an exhausted worker never does.
   */
  lemma OutcomeBelongsToClaim(actions: seq<Action>, w: WorkerId)
    requires LeasedRun(INITIAL, actions) && Run(INITIAL, actions)
    requires Enabled(End(INITIAL, actions), Commit(w)) && Timely(End(INITIAL, actions), Commit(w))
    ensures var s := End(INITIAL, actions); var c := s.claims[w];
      && c.invoice in s.rows
      && (OutcomeCommits(s.rows[c.invoice], c.phase.reply) <==> !Ghost(c))
      && (!Ghost(c) ==> Owns(s, w))
  {
    LeasedRunKeeps(INITIAL, actions);
    var s := End(INITIAL, actions);
    assert Ghost(s.claims[w]) ==> Harmless(s, s.claims[w]);
  }

  /** So in a timely, disciplined run every write is a legal path through the table: no row is acknowledged but SUBMITTED. */
  lemma WritesAreLegal(actions: seq<Action>, a: Action, id: InvoiceId)
    requires LeasedRun(INITIAL, actions) && Run(INITIAL, actions)
    requires Enabled(End(INITIAL, actions), a) && Timely(End(INITIAL, actions), a) && id in End(INITIAL, actions).rows
    ensures var s := End(INITIAL, actions);
      LegalPath(Path(s, a, id)) && id in Next(s, a).rows && Last(Path(s, a, id)) == Next(s, a).rows[id].state
  {
    LegalUnlessAckedElsewhere(actions, a, id);
    LeasedRunKeeps(INITIAL, actions);
    if a.Commit? { OnlyOwnOutcomes(End(INITIAL, actions), a.w); }
  }

  /* ------------------------------------------------- a condition anyone can check */

  /** An exhausted worker found its row later than the row was last touched, so after 90 quiet seconds none is live. */
  lemma QuietRowHasNoGhost(s: World, id: InvoiceId)
    requires Timed(s) && id in s.rows && s.rows[id].updatedAt + WORKER_TIMEOUT < s.now
    ensures !LiveGhost(s, id)
  {
  }

  /** Every retry and requeue comes more than 90 seconds after the row was last touched. */
  ghost predicate PatientRun(s: World, actions: seq<Action>)
    decreases |actions|
  {
    actions == []
    || (Enabled(s, actions[0]) && Timely(s, actions[0])
        && (actions[0].Retry? || actions[0].Requeue? ==> s.rows[actions[0].id].updatedAt + WORKER_TIMEOUT < s.now)
        && PatientRun(Next(s, actions[0]), actions[1..]))
  }

  /** A merchant and an administrator who look at updated_at first keep the discipline. */
  lemma {:induction false} PatientRunIsLeased(s: World, actions: seq<Action>)
    requires Inv(s) && Leased(s) && PatientRun(s, actions)
    ensures LeasedRun(s, actions)
    decreases |actions|
  {
    if actions != [] {
      if actions[0].Retry? || actions[0].Requeue? { QuietRowHasNoGhost(s, actions[0].id); }
      StepKeepsLeased(s, actions[0]);
      PatientRunIsLeased(Next(s, actions[0]), actions[1..]);
    }
  }

  /* -------------------------------------------- exactly when the discipline is needed */

  /** The merchant's retry or the administrator's requeue of `id`. */
  predicate Requeues(a: Action, id: InvoiceId) {
    a == Retry(id) || a == Requeue(id)
  }

  /** `rest` is a timely and disciplined run after `a` that ends with a live worker who owns nothing. */
  ghost predicate BreaksLease(s: World, a: Action, rest: seq<Action>)
    requires Enabled(s, a)
  {
    LeasedRun(Next(s, a), rest) && Run(Next(s, a), rest) && !LiveClaimsOwn(End(Next(s, a), rest))
  }

  /**
    The exact condition. From any leased world and for any free worker: a retry
    or requeue of `id` can be continued, timely and disciplined, to a broken
    lease if and only if a worker that found `id` exhausted is live.
   */
  lemma RequeueIsSafeIffNoLiveGhost(s: World, a: Action, id: InvoiceId, w: WorkerId)
    requires Inv(s) && Leased(s) && id in s.rows && w !in s.claims && Requeues(a, id)
    ensures LiveGhost(s, id) <==> exists rest :: BreaksLease(s, a, rest)
  {
    if LiveGhost(s, id) {
      var g :| LiveOn(s, g, id) && Ghost(s.claims[g]);
      GhostBreaksLease(s, a, id, g, w);
    } else {
      StepKeepsLeased(s, a);
      forall rest | LeasedRun(Next(s, a), rest) ensures !BreaksLease(s, a, rest) {
        LeasedRunKeeps(Next(s, a), rest);
      }
    }
  }

  const REFUSED := Rejected(SubmitError(ValidationError, false))

  /** The answer an exhausted worker without one gets for its empty document, then another worker's claim, then its outcome. */
  function Takeover(s: World, id: InvoiceId, g: WorkerId, w: WorkerId): seq<Action>
    requires g in s.claims
  {
    (if s.claims[g].phase.Answered? then [] else [Submit(g, REFUSED, s.acks)]) + [BeginClaim(w, id), Commit(g)]
  }

  /** The world after a re-queue under a live exhausted worker: anyone may claim, and the exhausted worker is about to answer. */
  predicate Exposed(s: World, id: InvoiceId, g: WorkerId, w: WorkerId) {
    && id != "" && id in s.rows && s.rows[id].state == Queued
    && (s.rows[id].nextAttemptAt.Some? ==> s.rows[id].nextAttemptAt.value <= s.now)
    && LiveOn(s, g, id) && Ghost(s.claims[g]) && w !in s.claims
    && s.claims[g].phase != MayLookup && (s.claims[g].phase.Answered? ==> s.claims[g].phase.reply.Rejected?)
  }

  lemma RequeueExposes(s: World, a: Action, id: InvoiceId, g: WorkerId, w: WorkerId)
    requires Inv(s) && Leased(s) && LiveOn(s, g, id) && Ghost(s.claims[g]) && w !in s.claims && Requeues(a, id)
    ensures Enabled(s, a) && Exposed(Next(s, a), id, g, w) && Next(s, a).acks == s.acks && Next(s, a).claims == s.claims
  {
    assert Harmless(s, s.claims[g]) && ClaimTruthful(s, s.claims[g]);
    RowsPersist(s, a, id);
  }

  /** Without an answer yet, the exhausted worker may always get a refusal. */
  lemma GhostIsRefused(s: World, id: InvoiceId, g: WorkerId, w: WorkerId)
    requires Exposed(s, id, g, w) && !s.claims[g].phase.Answered?
    ensures var a := Submit(g, REFUSED, s.acks);
      && Enabled(s, a) && Exposed(Next(s, a), id, g, w) && Next(s, a).claims[g].phase == Answered(REFUSED)
      && Next(s, a).acks == s.acks && Next(s, a).rows == s.rows
  {
  }

  lemma ClaimExposed(s: World, id: InvoiceId, g: WorkerId, w: WorkerId)
    requires Exposed(s, id, g, w)
    ensures Enabled(s, BeginClaim(w, id))
    ensures var s' := Next(s, BeginClaim(w, id));
      && id in s'.rows && s'.rows[id].state == Submitted && s'.now == s.now && s'.acks == s.acks
      && w in s'.claims && Working(s', w) && s'.claims[w].invoice == id && s'.claims[w].docId == id
      && s'.claims[w].phase == (if s.rows[id].attempt > 0 then MayLookup else MustSubmit) && s'.claims[w].kind == s.rows[id].kind
      && g in s'.claims && s'.claims[g] == s.claims[g] && s'.claims[w].attempt == s.rows[id].attempt + 1
  {
  }

  lemma LateOutcomeOverwrites(s: World, g: WorkerId, w: WorkerId)
    requires g in s.claims && s.claims[g].phase.Answered? && s.claims[g].phase.reply.Rejected? && g != w
    requires s.claims[g].invoice in s.rows && s.rows[s.claims[g].invoice].state == Submitted
    requires w in s.claims && Working(s, w) && s.claims[w].invoice == s.claims[g].invoice
    ensures Enabled(s, Commit(g))
    ensures var s' := Next(s, Commit(g)); var id := s.claims[g].invoice;
      && w in s'.claims && s'.claims[w] == s.claims[w] && Working(s', w) && !Owns(s', w)
      && id in s'.rows && (s'.rows[id].state == NeedsReview || s'.rows[id].state == Queued) && s'.acks == s.acks
      && (s.claims[g].phase.reply == REFUSED ==> s'.rows[id].state == NeedsReview)
  {
  }

  /** One more timely step that re-queues nothing, in front of a run. */
  lemma LeasedFirst(s: World, a: Action, rest: seq<Action>)
    requires Enabled(s, a) && Timely(s, a) && Disciplined(s, a)
    requires LeasedRun(Next(s, a), rest) && Run(Next(s, a), rest)
    ensures LeasedRun(s, [a] + rest) && Run(s, [a] + rest) && End(s, [a] + rest) == End(Next(s, a), rest)
  {
    assert ([a] + rest)[1..] == rest;
  }

  /** From an exposed world with an answered exhausted worker, a claim and its late outcome. */
  lemma ExposedBreaks(s: World, id: InvoiceId, g: WorkerId, w: WorkerId)
    requires Exposed(s, id, g, w) && s.claims[g].phase.Answered?
    ensures var rest := [BeginClaim(w, id), Commit(g)];
      && LeasedRun(s, rest) && Run(s, rest) && Overwritten(End(s, rest), id, w) && End(s, rest).acks == s.acks
      && End(s, rest).claims[w].phase == (if s.rows[id].attempt > 0 then MayLookup else MustSubmit)
      && End(s, rest).claims[w].kind == s.rows[id].kind
      && (s.claims[g].phase.reply == REFUSED ==> End(s, rest).rows[id].state == NeedsReview)
  {
    ClaimExposed(s, id, g, w);
    var s1 := Next(s, BeginClaim(w, id));
    LateOutcomeOverwrites(s1, g, w);
    LeasedFirst(s1, Commit(g), []);
    LeasedFirst(s, BeginClaim(w, id), [Commit(g)]);
  }

  /** `w` is live, holds `id` and owns nothing: its row waits for review or in the queue. */
  predicate Overwritten(s: World, id: InvoiceId, w: WorkerId) {
    && w in s.claims && Working(s, w) && !Owns(s, w) && s.claims[w].invoice == id && s.claims[w].docId == id
    && !s.claims[w].phase.Answered?
    && id in s.rows && (s.rows[id].state == NeedsReview || s.rows[id].state == Queued)
  }

  lemma GhostBreaksLease(s: World, a: Action, id: InvoiceId, g: WorkerId, w: WorkerId)
    requires Inv(s) && Leased(s) && LiveOn(s, g, id) && Ghost(s.claims[g]) && w !in s.claims && Requeues(a, id)
    ensures Enabled(s, a) && !Disciplined(s, a) && BreaksLease(s, a, Takeover(s, id, g, w))
    ensures Overwritten(End(Next(s, a), Takeover(s, id, g, w)), id, w) && End(Next(s, a), Takeover(s, id, g, w)).acks == s.acks
  {
    RequeueExposes(s, a, id, g, w);
    assert LiveGhost(s, id);
    var s1 := Next(s, a);
    TakeoverBreaks(s1, id, g, w);
    assert Takeover(s1, id, g, w) == Takeover(s, id, g, w);
  }

  lemma TakeoverBreaks(s: World, id: InvoiceId, g: WorkerId, w: WorkerId)
    requires Exposed(s, id, g, w)
    ensures var rest := Takeover(s, id, g, w);
      && LeasedRun(s, rest) && Run(s, rest) && Overwritten(End(s, rest), id, w) && End(s, rest).acks == s.acks
      && End(s, rest).claims[w].phase == (if s.rows[id].attempt > 0 then MayLookup else MustSubmit)
      && End(s, rest).claims[w].kind == s.rows[id].kind
      && (!s.claims[g].phase.Answered? ==> End(s, rest).rows[id].state == NeedsReview)
  {
    var last := [BeginClaim(w, id), Commit(g)];
    if s.claims[g].phase.Answered? {
      ExposedBreaks(s, id, g, w);
      assert Takeover(s, id, g, w) == last;
    } else {
      var submit := Submit(g, REFUSED, s.acks);
      GhostIsRefused(s, id, g, w);
      ExposedBreaks(Next(s, submit), id, g, w);
      LeasedFirst(s, submit, last);
      assert Takeover(s, id, g, w) == [submit] + last;
    }
  }

  /**
    And then, when the provider accepts `w`'s submission, `w` writes ACKED over
    NEEDS_REVIEW or QUEUED, which the transition table forbids.
   */
  lemma OverwrittenWorkerAcksIllegally(s: World, id: InvoiceId, w: WorkerId, kraNo: string)
    requires Inv(s) && Overwritten(s, id, w) && s.claims[w].phase == MustSubmit && s.claims[w].kind == Invoice
    requires id !in s.acks && kraNo != ""
    ensures var submit := Submit(w, Accepted(kraNo), s.acks[id := kraNo]);
      && Enabled(s, submit) && Timely(s, submit) && AcksIllegally(Next(s, submit), w, id) && Next(s, submit).rows[id].state == s.rows[id].state
  {
    var submit := Submit(w, Accepted(kraNo), s.acks[id := kraNo]);
    assert RowMatches(s.rows[id], id, s.acks);
    RowsPersist(s, submit, id);
    StepKeepsInv(s, submit);
    StepPath(Next(s, submit), Commit(w), id);
  }

  /** The outcome of `w` is enabled and timely, and writes ACKED where the table does not allow it. */
  ghost predicate AcksIllegally(s: World, w: WorkerId, id: InvoiceId) {
    && Enabled(s, Commit(w)) && Timely(s, Commit(w)) && id in s.rows
    && Last(Path(s, Commit(w), id)) == Acked && !LegalPath(Path(s, Commit(w), id))
  }

  lemma {:induction false} LeasedIsTimely(s: World, actions: seq<Action>)
    requires LeasedRun(s, actions)
    ensures TimelyRun(s, actions)
    decreases |actions|
  {
    if actions != [] { LeasedIsTimely(Next(s, actions[0]), actions[1..]); }
  }

  /** What a merchant's retry under a live exhausted worker of an unacknowledged invoice can be followed by. */
  function IllegalRun(s: World, id: InvoiceId, g: WorkerId, w: WorkerId, kraNo: string): seq<Action>
    requires g in s.claims
  {
    Takeover(s, id, g, w) + [Submit(w, Accepted(kraNo), s.acks[id := kraNo])]
  }

  /** From any leased world, a retry under a live exhausted worker of an invoice without a number is followed, timely, by an illegal write. */
  lemma RetryCanWriteIllegally(s: World, id: InvoiceId, g: WorkerId, w: WorkerId, kraNo: string)
    requires Inv(s) && Leased(s) && LiveOn(s, g, id) && Ghost(s.claims[g]) && w !in s.claims
    requires id in s.rows && s.rows[id].kind == Invoice && id !in s.acks && kraNo != ""
    ensures Enabled(s, Retry(id))
    ensures var s1 := Next(s, Retry(id)); var run := IllegalRun(s, id, g, w, kraNo);
      && TimelyRun(s1, run) && Run(s1, run) && AcksIllegally(End(s1, run), w, id)
      && (!s.claims[g].phase.Answered? ==> End(s1, run).rows[id].state == NeedsReview)
  {
    var s1 := Next(s, Retry(id));
    RequeueExposes(s, Retry(id), id, g, w);
    RetryStartsOver(s, id, g);
    TakeoverBreaks(s1, id, g, w);
    var rest := Takeover(s, id, g, w);
    assert rest == Takeover(s1, id, g, w);
    LeasedIsTimely(s1, rest);
    StepKeepsInv(s, Retry(id));
    RunKeepsInv(s1, rest);
    OverwrittenWorkerAcksIllegally(End(s1, rest), id, w, kraNo);
    TimelyLast(s1, rest, Submit(w, Accepted(kraNo), s.acks[id := kraNo]));
  }

  lemma RetryStartsOver(s: World, id: InvoiceId, g: WorkerId)
    requires Inv(s) && Leased(s) && LiveOn(s, g, id) && Ghost(s.claims[g]) && id in s.rows
    ensures var s1 := Next(s, Retry(id)); id in s1.rows && s1.rows[id].attempt == 0 && s1.rows[id].kind == s.rows[id].kind
  {
    assert Harmless(s, s.claims[g]);
    RowsPersist(s, Retry(id), id);
  }

  lemma {:induction false} TimelyLast(s: World, actions: seq<Action>, a: Action)
    requires TimelyRun(s, actions) && Run(s, actions) && Enabled(End(s, actions), a) && Timely(End(s, actions), a)
    ensures TimelyRun(s, actions + [a]) && Run(s, actions + [a]) && End(s, actions + [a]) == Next(End(s, actions), a)
    decreases |actions|
  {
    if actions == [] {
      assert (actions + [a])[1..] == [];
      assert Run(Next(s, a), []) && TimelyRun(Next(s, a), []);
    } else {
      assert (actions + [a])[1..] == actions[1..] + [a];
      TimelyLast(Next(s, actions[0]), actions[1..], a);
    }
  }
}
