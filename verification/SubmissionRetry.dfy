/**
  Bounded retry, in every timely run without an administrator requeue: how far
  the attempt counter goes, how often a document is submitted, that the machine
  cannot go round for ever. And, for disciplined runs, how slowly the back-off
  spreads six attempts.

  A retry under a live exhausted worker lets several live workers meet on one
  row (see SubmissionLease). The counter stays bounded all the same: the next
  claim comes at least a minute after an outcome, and a worker lives for 90
  seconds, so a live worker is never far behind the row it writes.
 */
module SubmissionRetry {
  import opened Prelude
  import opened FiscalState
  import opened Provider
  import opened Submission
  import opened SubmissionAcks
  import opened SubmissionTiming
  import opened SubmissionPaths
  import opened SubmissionLease

  predicate AttemptInRange(r: Row) {
    match r.state
    case TaxPending => r.attempt == 0
    case Queued => r.attempt <= 5
    case Submitted => 1 <= r.attempt <= 6
    case FailedRetryable => 2 <= r.attempt <= 7
    case Acked => r.attempt <= 7
    case NeedsReview => r.attempt <= 7
    case _ => false
  }

  ghost predicate AttemptsInRange(s: World) {
    forall id :: id in s.rows ==> AttemptInRange(s.rows[id])
  }

  /** The highest attempt a row can reach while a worker of attempt `a` lives. */
  function Reach(a: nat): nat {
    if a <= 1 then 2 else if a == 2 then 3 else a
  }

  predicate DueAfter(r: Row, t: nat) {
    r.nextAttemptAt.Some? && t <= r.nextAttemptAt.value
  }

  /** How far ahead of a live claim the row may be, and how long that took. */
  predicate Close(c: Claim, r: Row) {
    match r.state
    case Queued =>
      && r.attempt <= Reach(c.attempt)
      && (r.attempt >= 1 ==> DueAfter(r, c.at + MINUTE))
      && (r.attempt == 2 && c.attempt <= 1 ==> DueAfter(r, c.at + 2 * MINUTE))
      && (r.attempt >= 3 ==> DueAfter(r, c.at + 5 * MINUTE))
    case Submitted =>
      && r.attempt <= Reach(c.attempt)
      && (r.attempt == 2 && c.attempt <= 1 ==> c.at + MINUTE <= r.updatedAt)
    case _ => true
  }

  ghost predicate AllClose(s: World) {
    forall w, id :: LiveOn(s, w, id) && id in s.rows ==> Close(s.claims[w], s.rows[id])
  }

  ghost predicate NoRequeue(actions: seq<Action>) {
    forall a :: a in actions ==> !a.Requeue?
  }

  /** No merchant retry and no administrator requeue of `id`: one retry epoch. */
  ghost predicate OneEpoch(actions: seq<Action>, id: InvoiceId) {
    NoRequeue(actions) && Retry(id) !in actions
  }

  ghost predicate NoRescue(actions: seq<Action>) {
    forall a :: a in actions ==> !a.SweepRescue?
  }

  ghost predicate Good(s: World) {
    Inv(s) && Timed(s) && AttemptsInRange(s) && AllClose(s)
  }

  ghost predicate GoodStep(s: World, a: Action) {
    Enabled(s, a) && Timely(s, a) && !a.Requeue?
  }

  /* ---------------------------------------------------- a live worker is close */

  /** The back-off after an outcome of attempt `a`. */
  lemma BackoffAtLeast(a: nat)
    ensures Backoff(a) >= MINUTE && (a >= 2 ==> Backoff(a) >= 5 * MINUTE)
  {
  }

  /** Some live worker's outcome on the row: everyone who was close stays close, because the next claim is a back-off away. */
  lemma OutcomeKeepsClose(c: Claim, x: Claim, r: Row, now: nat)
    requires Close(c, r) && Close(x, r) && x.phase.Answered? && c.at <= r.updatedAt <= now
    ensures Close(c, OutcomeRow(r, x.phase.reply, x.attempt, now))
  {
    BackoffAtLeast(x.attempt);
  }

  lemma OutcomeKeepsRange(x: Claim, r: Row, now: nat)
    requires Close(x, r) && AttemptInRange(r) && x.phase.Answered?
    ensures AttemptInRange(OutcomeRow(r, x.phase.reply, x.attempt, now))
  {
  }

  /** A new claim of a queued row: a live worker that it would leave behind would have died during the back-off. */
  lemma ClaimKeepsClose(c: Claim, r: Row, now: nat)
    requires Close(c, r) && r.state == Queued && Live(c, now) && c.at <= now
    ensures Close(c, ClaimRow(r, now))
  {
  }

  lemma HeldStaysClose(s: World, a: Action, w: WorkerId, id: InvoiceId)
    requires Good(s) && GoodStep(s, a) && LiveOn(s, w, id) && id in s.rows
    requires LiveOn(Next(s, a), w, id)
    ensures Close(s.claims[w], NextRow(s, a, id))
  {
    var c, r := s.claims[w], s.rows[id];
    assert Close(c, r);
    if a.Commit? && s.claims[a.w].invoice == id {
      assert LiveOn(s, a.w, id);
      OutcomeKeepsClose(c, s.claims[a.w], r, s.now);
    } else if a.BeginClaim? && a.id == id && r.state == Queued {
      ClaimKeepsClose(c, r, s.now);
    } else {
      assert r.state != FailedRetryable;
    }
  }

  lemma NewIsClose(r: Row, now: nat, c: Claim)
    requires ClaimDecision(r, now).Granted? ==> c.attempt == r.attempt + 1
    requires !ClaimDecision(r, now).Skipped?
    ensures Close(c, ClaimRow(r, now))
  {
  }

  lemma StepKeepsClose(s: World, a: Action, w: WorkerId, id: InvoiceId)
    requires Good(s) && GoodStep(s, a) && LiveOn(Next(s, a), w, id) && id in Next(s, a).rows
    ensures Close(Next(s, a).claims[w], Next(s, a).rows[id])
  {
    LiveShrinks(s, a, w, id);
    assert id in s.rows by { if LiveOn(s, w, id) { assert ClaimTruthful(s, s.claims[w]); } }
    RowsPersist(s, a, id);
    if a.BeginClaim? && a.w == w {
      NewIsClose(s.rows[id], s.now, Next(s, a).claims[w]);
    } else {
      HeldStaysClose(s, a, w, id);
      CloseForgetsPhase(s.claims[w], Next(s, a).claims[w], Next(s, a).rows[id]);
    }
  }

  lemma CloseForgetsPhase(c: Claim, d: Claim, r: Row)
    requires Close(c, r) && d == c.(phase := d.phase)
    ensures Close(d, r)
  {
  }

  lemma RowStaysInRange(s: World, a: Action, id: InvoiceId)
    requires Good(s) && GoodStep(s, a) && id in s.rows
    ensures AttemptInRange(NextRow(s, a, id))
  {
    if a.Commit? && s.claims[a.w].invoice == id {
      assert LiveOn(s, a.w, id);
      OutcomeKeepsRange(s.claims[a.w], s.rows[id], s.now);
    }
    assert a.SweepRescue? ==> s.sweep.value[0] in s.sweep.value && ListedIsIdle(s, s.sweep.value[0]);
  }

  lemma StepKeepsGood(s: World, a: Action)
    requires Good(s) && GoodStep(s, a)
    ensures Good(Next(s, a))
  {
    StepKeepsTimed(s, a);
    var s' := Next(s, a);
    forall id | id in s'.rows ensures AttemptInRange(s'.rows[id]) {
      if id in s.rows {
        RowsPersist(s, a, id);
        RowStaysInRange(s, a, id);
      }
    }
    forall w, id | LiveOn(s', w, id) && id in s'.rows ensures Close(s'.claims[w], s'.rows[id]) {
      StepKeepsClose(s, a, w, id);
    }
  }

  lemma NoRequeueTail(actions: seq<Action>)
    requires actions != [] && NoRequeue(actions)
    ensures NoRequeue(actions[1..]) && !actions[0].Requeue?
  {
    assert actions[0] in actions;
    forall a | a in actions[1..] ensures !a.Requeue? { assert a in actions; }
  }

  lemma {:induction false} GoodRun(s: World, actions: seq<Action>)
    requires Good(s) && TimelyRun(s, actions) && NoRequeue(actions)
    ensures Run(s, actions) && Good(End(s, actions))
    decreases |actions|
  {
    if actions != [] {
      NoRequeueTail(actions);
      StepKeepsGood(s, actions[0]);
      GoodRun(Next(s, actions[0]), actions[1..]);
    }
  }

  /**
    In every timely run without an administrator requeue, whenever merchants
    retry, the counter stays at most 5 in QUEUED, in 1..6 in SUBMITTED and at
    most 7 anywhere.
   */
  lemma AttemptsBounded(actions: seq<Action>, id: InvoiceId)
    requires TimelyRun(INITIAL, actions) && Run(INITIAL, actions) && NoRequeue(actions) && id in End(INITIAL, actions).rows
    ensures AttemptInRange(End(INITIAL, actions).rows[id])
  {
    GoodRun(INITIAL, actions);
  }

  /* ------------------------------------------------------- a termination measure */

  /** Decreases with every write to a row that is not a merchant or administrator action, down to ACKED. */
  function Rank(r: Row): nat
    requires AttemptInRange(r)
  {
    match r.state
    case TaxPending => 30
    case Queued => 3 * (8 - r.attempt) + 1
    case Submitted => 3 * (8 - r.attempt) + 2
    case FailedRetryable => 3 * (8 - r.attempt) + 1
    case NeedsReview => 1
    case _ => 0
  }

  lemma ClaimLowersRank(r: Row, now: nat)
    requires AttemptInRange(r) && AttemptInRange(ClaimRow(r, now))
    ensures ClaimDecision(r, now).Skipped? ==> ClaimRow(r, now) == r
    ensures !ClaimDecision(r, now).Skipped? ==> Rank(ClaimRow(r, now)) < Rank(r)
  {
  }

  lemma OutcomeLowersRank(r: Row, reply: SubmitReply, attempt: nat, now: nat)
    requires AttemptInRange(r) && AttemptInRange(OutcomeRow(r, reply, attempt, now))
    ensures !OutcomeCommits(r, reply) ==> OutcomeRow(r, reply, attempt, now) == r
    ensures OutcomeCommits(r, reply) && r.state == Acked ==> Rank(OutcomeRow(r, reply, attempt, now)) == Rank(r)
    ensures OutcomeCommits(r, reply) && r.state != Acked ==> Rank(OutcomeRow(r, reply, attempt, now)) < Rank(r)
  {
  }

  /** A write lowers the rank, unless it acknowledges once more what is already ACKED. */
  lemma WriteLowersRank(s: World, a: Action, id: InvoiceId)
    requires Good(s) && GoodStep(s, a) && id in s.rows && a != Retry(id)
    ensures AttemptInRange(NextRow(s, a, id))
    ensures Writes(s, a, id) == [] ==> Rank(NextRow(s, a, id)) == Rank(s.rows[id])
    ensures Writes(s, a, id) != [] && s.rows[id].state == Acked ==> a.Commit? && Rank(NextRow(s, a, id)) == Rank(s.rows[id])
    ensures Writes(s, a, id) != [] && s.rows[id].state != Acked ==> Rank(NextRow(s, a, id)) < Rank(s.rows[id])
  {
    RowStaysInRange(s, a, id);
    if a.Commit? && s.claims[a.w].invoice == id {
      OutcomeLowersRank(s.rows[id], s.claims[a.w].phase.reply, s.claims[a.w].attempt, s.now);
    } else if a.BeginClaim? && a.id == id {
      ClaimLowersRank(s.rows[id], s.now);
    } else {
      OtherRank(s, a, id);
    }
  }

  lemma OtherRank(s: World, a: Action, id: InvoiceId)
    requires Good(s) && GoodStep(s, a) && id in s.rows && a != Retry(id) && AttemptInRange(NextRow(s, a, id))
    requires !(a.BeginClaim? && a.id == id) && !(a.Commit? && s.claims[a.w].invoice == id)
    ensures Writes(s, a, id) == [] ==> Rank(NextRow(s, a, id)) == Rank(s.rows[id])
    ensures Writes(s, a, id) != [] ==> s.rows[id].state != Acked && Rank(NextRow(s, a, id)) < Rank(s.rows[id])
  {
    assert a.SweepRescue? ==> s.sweep.value[0] in s.sweep.value && ListedIsIdle(s, s.sweep.value[0]);
  }

  /** How many transactions of the run write to the row of `id`. */
  ghost function WriteCount(s: World, actions: seq<Action>, id: InvoiceId): nat
    requires Run(s, actions) && id in s.rows
    decreases |actions|
  {
    if actions == [] then 0
    else
      (if Writes(s, actions[0], id) == [] then 0 else 1)
      + (if id in Next(s, actions[0]).rows then WriteCount(Next(s, actions[0]), actions[1..], id) else 0)
  }

  /** The workers on `id`, live or not. */
  function On(claims: map<WorkerId, Claim>, id: InvoiceId): set<WorkerId> {
    set w | w in claims && claims[w].invoice == id
  }

  ghost function Measure(s: World, id: InvoiceId): nat
    requires id in s.rows && AttemptInRange(s.rows[id])
  {
    2 * Rank(s.rows[id]) + |On(s.claims, id)|
  }

  /** A claim brings one worker and a lower rank; an outcome takes one worker away. */
  lemma OnStep(s: World, a: Action, id: InvoiceId)
    requires Enabled(s, a) && id in s.rows
    ensures |On(NextClaims(s, a), id)| <= |On(s.claims, id)| + (if a.BeginClaim? && Writes(s, a, id) != [] then 1 else 0)
    ensures a.Commit? && s.claims[a.w].invoice == id ==> |On(NextClaims(s, a), id)| == |On(s.claims, id)| - 1
  {
    var before, after := On(s.claims, id), On(NextClaims(s, a), id);
    if a.BeginClaim? && !ClaimDecision(s.rows[a.id], s.now).Skipped? {
      OneMore(s.claims, a.w, NewClaim(s, a.id), id);
    } else if a.Commit? {
      OneLess(s.claims, a.w, id);
    } else {
      assert after <= before;
      Subset(after, before);
    }
  }

  lemma OneMore(claims: map<WorkerId, Claim>, w: WorkerId, c: Claim, id: InvoiceId)
    requires w !in claims
    ensures |On(claims[w := c], id)| == |On(claims, id)| + (if c.invoice == id then 1 else 0)
  {
    assert On(claims[w := c], id) == On(claims, id) + (if c.invoice == id then {w} else {});
  }

  lemma OneLess(claims: map<WorkerId, Claim>, w: WorkerId, id: InvoiceId)
    requires w in claims
    ensures |On(claims - {w}, id)| == |On(claims, id)| - (if claims[w].invoice == id then 1 else 0)
  {
    assert On(claims - {w}, id) == On(claims, id) - {w};
  }

  lemma MeasureStep(s: World, a: Action, id: InvoiceId)
    requires Good(s) && GoodStep(s, a) && id in s.rows && a != Retry(id)
    ensures id in Next(s, a).rows && AttemptInRange(Next(s, a).rows[id])
    ensures Measure(Next(s, a), id) + (if Writes(s, a, id) == [] then 0 else 1) <= Measure(s, id)
  {
    RowsPersist(s, a, id);
    WriteLowersRank(s, a, id);
    OnStep(s, a, id);
  }

  lemma EpochTail(actions: seq<Action>, id: InvoiceId)
    requires actions != [] && OneEpoch(actions, id)
    ensures OneEpoch(actions[1..], id) && !actions[0].Requeue? && actions[0] != Retry(id)
  {
    NoRequeueTail(actions);
    assert actions[0] in actions;
    forall a | a in actions[1..] ensures a in actions {}
  }

  /** Termination: within one epoch the number of writes to a row is bounded. */
  lemma {:induction false} EpochTerminates(s: World, actions: seq<Action>, id: InvoiceId)
    requires Good(s) && TimelyRun(s, actions) && Run(s, actions) && OneEpoch(actions, id) && id in s.rows
    ensures WriteCount(s, actions, id) <= Measure(s, id)
    decreases |actions|
  {
    if actions != [] {
      EpochTail(actions, id);
      MeasureStep(s, actions[0], id);
      StepKeepsGood(s, actions[0]);
      EpochTerminates(Next(s, actions[0]), actions[1..], id);
    }
  }

  /* ---------------------------------------------------- at most six submissions */

  ghost predicate Grants(s: World, a: Action, id: InvoiceId)
    requires Enabled(s, a)
  {
    a.BeginClaim? && a.id == id && ClaimDecision(s.rows[id], s.now).Granted?
  }

  ghost predicate Submits(s: World, a: Action, id: InvoiceId)
    requires Enabled(s, a)
  {
    a.Submit? && s.claims[a.w].docId == id
  }

  ghost function GrantCount(s: World, actions: seq<Action>, id: InvoiceId): nat
    requires Run(s, actions)
    decreases |actions|
  {
    if actions == [] then 0
    else (if Grants(s, actions[0], id) then 1 else 0) + GrantCount(Next(s, actions[0]), actions[1..], id)
  }

  /** How often the run hands the document `id` to the provider for submission. */
  ghost function SubmitCount(s: World, actions: seq<Action>, id: InvoiceId): nat
    requires Run(s, actions)
    decreases |actions|
  {
    if actions == [] then 0
    else (if Submits(s, actions[0], id) then 1 else 0) + SubmitCount(Next(s, actions[0]), actions[1..], id)
  }

  /** How often the merchant retries `id`: each retry begins a new epoch. */
  function RetryCount(actions: seq<Action>, id: InvoiceId): nat {
    if actions == [] then 0 else (if actions[0] == Retry(id) then 1 else 0) + RetryCount(actions[1..], id)
  }

  /** Workers that may still submit `id`. */
  function Unanswered(claims: map<WorkerId, Claim>, id: InvoiceId): set<WorkerId> {
    set w | w in claims && claims[w].docId == id && !claims[w].phase.Answered?
  }

  lemma UnansweredStep(s: World, a: Action, id: InvoiceId)
    requires Enabled(s, a) && id != ""
    ensures |Unanswered(NextClaims(s, a), id)| + (if Submits(s, a, id) then 1 else 0)
            <= |Unanswered(s.claims, id)| + (if Grants(s, a, id) then 1 else 0)
  {
    var before, after := Unanswered(s.claims, id), Unanswered(NextClaims(s, a), id);
    if a.Submit? {
      Answering(s.claims, a.w, s.claims[a.w].(phase := Answered(a.reply)), id);
    } else if a.BeginClaim? && !ClaimDecision(s.rows[a.id], s.now).Skipped? {
      Claiming(s.claims, a.w, NewClaim(s, a.id), id);
    } else {
      assert after <= before;
      Subset(after, before);
    }
  }

  lemma Answering(claims: map<WorkerId, Claim>, w: WorkerId, c: Claim, id: InvoiceId)
    requires w in claims && !claims[w].phase.Answered? && c.phase.Answered?
    ensures |Unanswered(claims[w := c], id)| == |Unanswered(claims, id)| - (if claims[w].docId == id then 1 else 0)
  {
    assert Unanswered(claims[w := c], id) == Unanswered(claims, id) - {w};
  }

  lemma Claiming(claims: map<WorkerId, Claim>, w: WorkerId, c: Claim, id: InvoiceId)
    requires w !in claims && !c.phase.Answered?
    ensures |Unanswered(claims[w := c], id)| == |Unanswered(claims, id)| + (if c.docId == id then 1 else 0)
  {
    assert Unanswered(claims[w := c], id) == Unanswered(claims, id) + (if c.docId == id then {w} else {});
  }

  lemma Subset(a: set<WorkerId>, b: set<WorkerId>)
    requires a <= b
    ensures |a| <= |b|
  {
    assert b == a + (b - a);
  }

  lemma {:induction false} SubmitsNeedGrants(s: World, actions: seq<Action>, id: InvoiceId)
    requires Run(s, actions) && id != ""
    ensures SubmitCount(s, actions, id) <= |Unanswered(s.claims, id)| + GrantCount(s, actions, id)
    decreases |actions|
  {
    if actions != [] {
      UnansweredStep(s, actions[0], id);
      SubmitsNeedGrants(Next(s, actions[0]), actions[1..], id);
    }
  }

  /** How much of its six claims an epoch has used up. */
  function UsedUp(r: Row): nat {
    if r.attempt <= 6 then r.attempt else 6
  }

  ghost function Used(s: World, id: InvoiceId): nat {
    if id in s.rows then UsedUp(s.rows[id]) else 0
  }

  lemma UsedStep(s: World, a: Action, id: InvoiceId)
    requires Good(s) && GoodStep(s, a)
    ensures Used(s, id) + (if Grants(s, a, id) then 1 else 0) <= Used(Next(s, a), id) + (if a == Retry(id) then 6 else 0)
  {
    if id in s.rows {
      RowsPersist(s, a, id);
      RowUsedStep(s, a, id);
    }
  }

  lemma RowUsedStep(s: World, a: Action, id: InvoiceId)
    requires Good(s) && GoodStep(s, a) && id in s.rows
    ensures UsedUp(s.rows[id]) + (if Grants(s, a, id) then 1 else 0) <= UsedUp(NextRow(s, a, id)) + (if a == Retry(id) then 6 else 0)
  {
    assert a.SweepRescue? ==> s.sweep.value[0] in s.sweep.value && ListedIsIdle(s, s.sweep.value[0]);
  }

  /** Every epoch grants at most six claims, counting what it had used up before. */
  lemma {:induction false} GrantsBounded(s: World, actions: seq<Action>, id: InvoiceId)
    requires Good(s) && TimelyRun(s, actions) && Run(s, actions) && NoRequeue(actions)
    ensures Used(s, id) + GrantCount(s, actions, id) <= Used(End(s, actions), id) + MAX_ATTEMPTS * RetryCount(actions, id)
    ensures Used(End(s, actions), id) <= MAX_ATTEMPTS
    decreases |actions|
  {
    if actions != [] {
      NoRequeueTail(actions);
      UsedStep(s, actions[0], id);
      StepKeepsGood(s, actions[0]);
      GrantsBounded(Next(s, actions[0]), actions[1..], id);
    }
  }

  /** In every timely run without requeue a document is submitted at most six times per epoch: once for its creation, once for every merchant retry. */
  lemma AtMostSixSubmissions(actions: seq<Action>, id: InvoiceId)
    requires TimelyRun(INITIAL, actions) && Run(INITIAL, actions) && NoRequeue(actions) && id != ""
    ensures SubmitCount(INITIAL, actions, id) <= MAX_ATTEMPTS * (1 + RetryCount(actions, id))
  {
    GrantsBounded(INITIAL, actions, id);
    SubmitsNeedGrants(INITIAL, actions, id);
    assert Unanswered(INITIAL.claims, id) == {};
  }

  /** The same for a single epoch from anywhere: six, less what it had used up, plus those already at work when it began. */
  lemma EpochSubmissions(s: World, actions: seq<Action>, id: InvoiceId)
    requires Good(s) && TimelyRun(s, actions) && Run(s, actions) && OneEpoch(actions, id) && id != ""
    ensures SubmitCount(s, actions, id) + Used(s, id) <= MAX_ATTEMPTS + |Unanswered(s.claims, id)|
  {
    GrantsBounded(s, actions, id);
    SubmitsNeedGrants(s, actions, id);
    NoRetries(actions, id);
  }

  lemma {:induction false} NoRetries(actions: seq<Action>, id: InvoiceId)
    requires Retry(id) !in actions
    ensures RetryCount(actions, id) == 0
  {
    if actions != [] {
      assert actions[0] in actions;
      NoRetries(actions[1..], id);
    }
  }

  /* -------------------------------------------------------------------- pacing */

  /** Total back-off after the first n attempts. */
  function BackoffSum(n: nat): nat {
    if n == 0 then 0 else BackoffSum(n - 1) + Backoff(n)
  }

  ghost function GrantOf(s: World, id: InvoiceId): Option<nat> {
    if id in s.granted then Some(s.granted[id].at) else None
  }

  /** The row, claimed last at `g`, is no earlier in its schedule than a first claim at `start` allows. */
  predicate RowPaced(r: Row, g: Option<nat>, start: nat) {
    match r.state
    case Queued => r.attempt >= 1 && DueAfter(r, start + BackoffSum(r.attempt))
    case Submitted => r.attempt >= 1 && g.Some? && g.value >= start + BackoffSum(r.attempt - 1)
    case Acked => true
    case NeedsReview => true
    case _ => false
  }

  ghost predicate Paced(s: World, id: InvoiceId, start: nat) {
    id in s.rows && RowPaced(s.rows[id], GrantOf(s, id), start)
  }

  lemma ClaimPaced(r: Row, g: Option<nat>, now: nat, start: nat)
    requires RowPaced(r, g, start)
    ensures RowPaced(ClaimRow(r, now), if ClaimDecision(r, now).Granted? then Some(now) else g, start)
  {
  }

  lemma OutcomePaced(r: Row, g: Option<nat>, reply: SubmitReply, now: nat, start: nat)
    requires RowPaced(r, g, start) && (g.Some? ==> g.value <= now)
    ensures RowPaced(OutcomeRow(r, reply, r.attempt, now), g, start)
  {
  }

  /** Every other step leaves the state, the attempt and the due time of a paced row alone. */
  lemma OtherPaced(s: World, a: Action, id: InvoiceId, g: Option<nat>, start: nat)
    requires Enabled(s, a) && id in s.rows && RowPaced(s.rows[id], g, start) && !Requeues(a, id) && !a.SweepRescue?
    requires !(a.BeginClaim? && a.id == id) && !(a.Commit? && s.claims[a.w].invoice == id)
    ensures RowPaced(NextRow(s, a, id), g, start) && GrantOf(Next(s, a), id) == GrantOf(s, id)
  {
  }

  /** A live outcome on a paced row is its owner's, or rolled back. */
  lemma OwnOutcome(s: World, w: WorkerId, id: InvoiceId)
    requires Inv(s) && Leased(s) && Enabled(s, Commit(w)) && Timely(s, Commit(w)) && s.claims[w].invoice == id && id in s.rows
    ensures NextRow(s, Commit(w), id) == OutcomeRow(s.rows[id], s.claims[w].phase.reply, s.rows[id].attempt, s.now)
    ensures s.rows[id].state == Submitted ==> GrantOf(s, id) == Some(s.claims[w].at) && s.claims[w].at <= s.now
  {
    assert !Ghost(s.claims[w]) ==> Owns(s, w);
    assert Ghost(s.claims[w]) ==> Harmless(s, s.claims[w]) && ClaimTruthful(s, s.claims[w]);
  }

  lemma StepKeepsPace(s: World, a: Action, id: InvoiceId, start: nat)
    requires Inv(s) && Leased(s) && Enabled(s, a) && Timely(s, a) && !Requeues(a, id) && !a.SweepRescue?
    requires Paced(s, id, start)
    ensures Paced(Next(s, a), id, start)
  {
    RowsPersist(s, a, id);
    if a.Commit? && s.claims[a.w].invoice == id {
      OwnOutcome(s, a.w, id);
      OutcomePaced(s.rows[id], if s.rows[id].state == Submitted then GrantOf(s, id) else None, s.claims[a.w].phase.reply, s.now, start);
    } else if a.BeginClaim? && a.id == id {
      ClaimPaced(s.rows[id], GrantOf(s, id), s.now, start);
    } else {
      OtherPaced(s, a, id, GrantOf(s, id), start);
    }
  }

  /** No retry and no requeue of `id`, and no rescue of anything. */
  ghost predicate Undisturbed(actions: seq<Action>, id: InvoiceId) {
    NoRescue(actions) && Retry(id) !in actions && Requeue(id) !in actions
  }

  lemma UndisturbedTail(actions: seq<Action>, id: InvoiceId)
    requires actions != [] && Undisturbed(actions, id)
    ensures Undisturbed(actions[1..], id) && !Requeues(actions[0], id) && !actions[0].SweepRescue?
  {
    assert actions[0] in actions;
    forall a | a in actions[1..] ensures a in actions {}
  }

  /** Nobody was rescued, so nobody found an invoice exhausted. */
  ghost predicate Unhaunted(s: World) {
    && (forall id :: id in s.rows ==> s.rows[id].state != FailedRetryable)
    && (forall w :: w in s.claims ==> !Ghost(s.claims[w]))
  }

  lemma StepKeepsUnhaunted(s: World, a: Action)
    requires Inv(s) && Unhaunted(s) && Enabled(s, a) && !a.SweepRescue?
    ensures Unhaunted(Next(s, a)) && Disciplined(s, a)
  {
    var s' := Next(s, a);
    forall id | id in s'.rows ensures s'.rows[id].state != FailedRetryable {
      if id in s.rows && s'.rows[id].state == FailedRetryable { RescueWritesRetryable(s, a, id); }
    }
    forall w | w in s'.claims ensures !Ghost(s'.claims[w]) { ClaimStaysUnhaunted(s, a, w); }
  }

  lemma ClaimStaysUnhaunted(s: World, a: Action, w: WorkerId)
    requires Inv(s) && Unhaunted(s) && Enabled(s, a) && w in NextClaims(s, a)
    ensures !Ghost(NextClaims(s, a)[w])
  {
    if a.BeginClaim? && a.w == w { assert RowMatches(s.rows[a.id], a.id, s.acks); }
  }

  /** A timely run without rescues is disciplined: a re-queue finds no exhausted worker. */
  lemma {:induction false} UnrescuedIsLeased(s: World, actions: seq<Action>)
    requires Inv(s) && Leased(s) && Unhaunted(s) && TimelyRun(s, actions) && NoRescue(actions)
    ensures LeasedRun(s, actions) && Run(s, actions) && Unhaunted(End(s, actions))
    decreases |actions|
  {
    if actions != [] {
      assert actions[0] in actions;
      assert NoRescue(actions[1..]) by {
        forall a | a in actions[1..] ensures !a.SweepRescue? { assert a in actions; }
      }
      StepKeepsUnhaunted(s, actions[0]);
      StepKeepsLeased(s, actions[0]);
      UnrescuedIsLeased(Next(s, actions[0]), actions[1..]);
    }
  }

  lemma {:induction false} RunKeepsPace(s: World, actions: seq<Action>, id: InvoiceId, start: nat)
    requires Inv(s) && Leased(s) && LeasedRun(s, actions) && Run(s, actions) && Undisturbed(actions, id)
    requires Paced(s, id, start)
    ensures Paced(End(s, actions), id, start)
    decreases |actions|
  {
    if actions != [] {
      UndisturbedTail(actions, id);
      StepKeepsPace(s, actions[0], id, start);
      StepKeepsLeased(s, actions[0]);
      RunKeepsPace(Next(s, actions[0]), actions[1..], id, start);
    }
  }

  /** `id` is being submitted for the `n`-th time in its epoch. */
  predicate Submitting(s: World, id: InvoiceId, n: nat) {
    id in s.rows && s.rows[id].state == Submitted && s.rows[id].attempt == n && id in s.granted
  }

  /** In every timely run without rescues the first and the sixth claim of an epoch are at least 25 h 06 min apart. */
  lemma SixClaimsTakeADay(before: seq<Action>, actions: seq<Action>, id: InvoiceId)
    requires TimelyRun(INITIAL, before) && Run(INITIAL, before) && NoRescue(before)
    requires var s := End(INITIAL, before); TimelyRun(s, actions) && Run(s, actions) && Undisturbed(actions, id)
    requires Submitting(End(INITIAL, before), id, 1) && Submitting(End(End(INITIAL, before), actions), id, 6)
    ensures var s := End(INITIAL, before); End(s, actions).granted[id].at >= s.granted[id].at + 25 * HOUR + 6 * MINUTE
  {
    UnrescuedIsLeased(INITIAL, before);
    LeasedRunKeeps(INITIAL, before);
    SixClaimsFrom(End(INITIAL, before), actions, id);
  }

  lemma SixClaimsFrom(s: World, actions: seq<Action>, id: InvoiceId)
    requires Inv(s) && Leased(s) && Unhaunted(s) && TimelyRun(s, actions) && Run(s, actions) && Undisturbed(actions, id)
    requires Submitting(s, id, 1) && Submitting(End(s, actions), id, 6)
    ensures End(s, actions).granted[id].at >= s.granted[id].at + 25 * HOUR + 6 * MINUTE
  {
    UnrescuedIsLeased(s, actions);
    RunKeepsPace(s, actions, id, s.granted[id].at);
    assert BackoffSum(5) == BackoffSum(4) + Backoff(5);
    assert BackoffSum(2) == Backoff(1) + Backoff(2);
  }
}
