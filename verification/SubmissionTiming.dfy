/**
  What the clock alone guarantees. A run is timely when every outcome commits
  within the 90 seconds a job may run (Worker.Timeout); nothing else is asked of
  it. Then the watchdog, which waits 15 minutes, never meets a live worker: what
  it lists and what it has rescued is nobody's.
 */
module SubmissionTiming {
  import opened Prelude
  import opened FiscalState
  import opened Provider
  import opened Submission
  import opened SubmissionAcks

  predicate Live(c: Claim, now: nat) {
    now <= c.at + WORKER_TIMEOUT
  }

  /** `w` has claimed `id` and may still write its outcome. */
  predicate LiveOn(s: World, w: WorkerId, id: InvoiceId) {
    w in s.claims && s.claims[w].invoice == id && Live(s.claims[w], s.now)
  }

  ghost predicate NobodyOn(s: World, id: InvoiceId) {
    forall w :: !LiveOn(s, w, id)
  }

  /** A worker's outcome commits inside its time limit. */
  ghost predicate Timely(s: World, a: Action)
    requires Enabled(s, a)
  {
    a.Commit? ==> Live(s.claims[a.w], s.now)
  }

  ghost predicate TimelyRun(s: World, actions: seq<Action>)
    decreases |actions|
  {
    actions == []
    || (Enabled(s, actions[0]) && Timely(s, actions[0]) && TimelyRun(Next(s, actions[0]), actions[1..]))
  }

  /** No row was touched before its claims were made, or after now. */
  ghost predicate ClaimsPast(s: World) {
    && (forall id :: id in s.rows ==> s.rows[id].updatedAt <= s.now)
    && (forall w :: w in s.claims ==> s.claims[w].invoice in s.rows && s.claims[w].at <= s.rows[s.claims[w].invoice].updatedAt)
  }

  /** What the watchdog listed and has not reached yet: still SUBMITTED at the listed attempt, and nobody's. */
  ghost predicate ListedIsIdle(s: World, e: Stale) {
    e.id in s.rows && s.rows[e.id].state == Submitted && s.rows[e.id].attempt == e.attempt && NobodyOn(s, e.id)
  }

  ghost predicate SweepIdle(s: World) {
    s.sweep.Some? ==>
      && (forall i, j :: 0 <= i < j < |s.sweep.value| ==> s.sweep.value[i].id != s.sweep.value[j].id)
      && (forall e :: e in s.sweep.value ==> ListedIsIdle(s, e))
  }

  /** What the watchdog rescued is nobody's until it is claimed again. */
  ghost predicate RescuedIsIdle(s: World) {
    forall id :: id in s.rows && s.rows[id].state == FailedRetryable ==> NobodyOn(s, id)
  }

  ghost predicate Timed(s: World) {
    ClaimsPast(s) && SweepIdle(s) && RescuedIsIdle(s)
  }

  /* ------------------------------------------------------ one step at a time */

  /** A live worker was live before, on the same invoice, unless it has just claimed. */
  lemma LiveShrinks(s: World, a: Action, w: WorkerId, id: InvoiceId)
    requires Enabled(s, a) && LiveOn(Next(s, a), w, id)
    ensures (a.BeginClaim? && a.w == w && a.id == id && w !in s.claims && !ClaimDecision(s.rows[id], s.now).Skipped?
             && Next(s, a).claims[w] == NewClaim(s, id))
         || (LiveOn(s, w, id) && !(a.Commit? && a.w == w)
             && Next(s, a).claims[w] == s.claims[w].(phase := Next(s, a).claims[w].phase))
  {
  }

  lemma RowTouched(s: World, a: Action, id: InvoiceId)
    requires Inv(s) && Timed(s) && Enabled(s, a) && id in s.rows
    ensures s.rows[id].updatedAt <= NextRow(s, a, id).updatedAt <= s.now
  {
  }

  lemma StepKeepsClaimsPast(s: World, a: Action)
    requires Inv(s) && Timed(s) && Enabled(s, a)
    ensures ClaimsPast(Next(s, a))
  {
    var s' := Next(s, a);
    forall id | id in s'.rows ensures s'.rows[id].updatedAt <= s'.now {
      if id in s.rows {
        RowsPersist(s, a, id);
        RowTouched(s, a, id);
      }
    }
    forall w | w in s'.claims
      ensures s'.claims[w].invoice in s'.rows && s'.claims[w].at <= s'.rows[s'.claims[w].invoice].updatedAt
    {
      var id := s'.claims[w].invoice;
      RowsPersist(s, a, id);
      RowTouched(s, a, id);
    }
  }

  /** Nobody's row is moved only by the watchdog, the merchant or the administrator, or by a claim. */
  lemma IdleRowStays(s: World, a: Action, id: InvoiceId)
    requires Inv(s) && Timed(s) && Enabled(s, a) && Timely(s, a) && id in s.rows && s.rows[id].state == Submitted && NobodyOn(s, id)
    requires !(a.SweepRescue? && s.sweep.value[0].id == id)
    ensures NextRow(s, a, id).state == Submitted && NextRow(s, a, id).attempt == s.rows[id].attempt && NobodyOn(Next(s, a), id)
  {
    assert a.Commit? ==> LiveOn(s, a.w, s.claims[a.w].invoice);
    forall w ensures !LiveOn(Next(s, a), w, id) {
      if LiveOn(Next(s, a), w, id) { LiveShrinks(s, a, w, id); }
    }
  }

  /** A row stale enough to be listed is nobody's: its claims are older than it. */
  lemma StaleIsIdle(s: World, id: InvoiceId)
    requires Timed(s) && id in s.rows && IsStale(s.rows[id], s.now)
    ensures NobodyOn(s, id)
  {
  }

  lemma StepKeepsListed(s: World, a: Action, e: Stale)
    requires Inv(s) && Timed(s) && Enabled(s, a) && Timely(s, a)
    requires Next(s, a).sweep.Some? && e in Next(s, a).sweep.value
    ensures ListedIsIdle(Next(s, a), e)
  {
    if a.SweepList? {
      StaleIsIdle(s, e.id);
    } else {
      assert e in s.sweep.value;
      if a.SweepRescue? {
        var k :| 0 <= k < |s.sweep.value| - 1 && s.sweep.value[1..][k] == e;
        assert s.sweep.value[k + 1] == e;
      }
      assert ListedIsIdle(s, e);
    }
    IdleRowStays(s, a, e.id);
    RowsPersist(s, a, e.id);
  }

  lemma StepKeepsRescued(s: World, a: Action, id: InvoiceId)
    requires Inv(s) && Timed(s) && Enabled(s, a) && Timely(s, a)
    requires id in Next(s, a).rows && Next(s, a).rows[id].state == FailedRetryable
    ensures NobodyOn(Next(s, a), id)
  {
    if id in s.rows {
      RowsPersist(s, a, id);
      assert a.SweepRescue? ==> ListedIsIdle(s, s.sweep.value[0]);
      assert NobodyOn(s, id);
    }
    forall w ensures !LiveOn(Next(s, a), w, id) {
      if LiveOn(Next(s, a), w, id) { LiveShrinks(s, a, w, id); }
    }
  }

  lemma StepKeepsTimed(s: World, a: Action)
    requires Inv(s) && Timed(s) && Enabled(s, a) && Timely(s, a)
    ensures Inv(Next(s, a)) && Timed(Next(s, a))
  {
    StepKeepsInv(s, a);
    StepKeepsClaimsPast(s, a);
    var s' := Next(s, a);
    if s'.sweep.Some? {
      forall e | e in s'.sweep.value ensures ListedIsIdle(s', e) { StepKeepsListed(s, a, e); }
    }
    forall id | id in s'.rows && s'.rows[id].state == FailedRetryable ensures NobodyOn(s', id) { StepKeepsRescued(s, a, id); }
  }

  /** In every timely run, whatever merchants and administrators do, the watchdog works only on what is nobody's. */
  lemma {:induction false} TimelyRunKeeps(s: World, actions: seq<Action>)
    requires Inv(s) && Timed(s) && TimelyRun(s, actions)
    ensures Run(s, actions) && Inv(End(s, actions)) && Timed(End(s, actions))
    decreases |actions|
  {
    if actions != [] {
      StepKeepsTimed(s, actions[0]);
      TimelyRunKeeps(Next(s, actions[0]), actions[1..]);
    }
  }

  /** The watchdog never rescues an invoice that a worker inside its time limit is on. */
  lemma RescuesOnlyTheDead(actions: seq<Action>, ok: bool)
    requires TimelyRun(INITIAL, actions) && Run(INITIAL, actions) && Enabled(End(INITIAL, actions), SweepRescue(ok))
    ensures var s := End(INITIAL, actions); ListedIsIdle(s, s.sweep.value[0])
  {
    TimelyRunKeeps(INITIAL, actions);
    var s := End(INITIAL, actions);
    assert s.sweep.value[0] in s.sweep.value;
  }
}
