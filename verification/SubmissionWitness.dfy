/**
  A concrete timely and disciplined run after which one merchant retry breaks
  the lease: three claims die and are rescued, the fourth worker finds the
  invoice exhausted, moves it to NEEDS_REVIEW and goes on with an empty document.
 */
module SubmissionWitness {
  import opened Prelude
  import opened FiscalState
  import opened Provider
  import opened Submission
  import opened SubmissionAcks
  import opened SubmissionTiming
  import opened SubmissionPaths
  import opened SubmissionLease

  lemma {:induction false} LeasedRunsCompose(s: World, first: seq<Action>, second: seq<Action>)
    requires LeasedRun(s, first) && Run(s, first) && LeasedRun(End(s, first), second) && Run(End(s, first), second)
    ensures LeasedRun(s, first + second) && Run(s, first + second)
    ensures End(s, first + second) == End(End(s, first), second)
    decreases |first|
  {
    if first == [] {
      assert first + second == second;
    } else {
      assert (first + second)[1..] == first[1..] + second;
      LeasedRunsCompose(Next(s, first[0]), first[1..], second);
    }
  }

  lemma OneStep(s: World, a: Action)
    requires Enabled(s, a) && Timely(s, a) && Disciplined(s, a)
    ensures LeasedRun(s, [a]) && Run(s, [a]) && End(s, [a]) == Next(s, a)
  {
    assert [a][1..] == [];
    assert Run(Next(s, a), []) && LeasedRun(Next(s, a), []);
  }

  /** One invoice "i" of seller 0, claimed last as `g` says, no worker, no sweep. */
  function Quiet(now: nat, r: Row, g: map<InvoiceId, Grant>): World {
    World(now, map["i" := r], map[], None, map[], {0}, {0}, {}, {}, g)
  }

  /** Worker 0 was granted "i" at `at`. */
  function Held(at: nat): map<InvoiceId, Grant> {
    map["i" := Grant(0, at)]
  }

  function Rescued(attempt: nat, now: nat): Row {
    Row(0, Invoice, None, FailedRetryable, attempt, None, now, None)
  }

  const LATER: nat := STALE_AFTER + 1

  function Claimed(r: Row, now: nat): Row {
    r.(state := Submitted, attempt := r.attempt + 1, updatedAt := now)
  }

  predicate Fresh(r: Row) {
    && r.org == 0 && r.kind == Invoice && r.parent == None && r.kraNo == None && r.nextAttemptAt == None
    && r.attempt <= 4 && (r.state == Queued || r.state == FailedRetryable)
  }

  function Dying(): seq<Action> {
    [BeginClaim(0, "i"), Crash(0), Tick(LATER)]
  }

  function Rescuing(attempt: nat): seq<Action> {
    [SweepList([Stale("i", attempt)]), SweepRescue(true), SweepEnd]
  }

  /** A worker claims and dies; fifteen minutes later the watchdog rescues the invoice. */
  function LostClaim(attempt: nat): seq<Action> {
    Dying() + Rescuing(attempt)
  }

  lemma DyingRuns(now: nat, r: Row, g: map<InvoiceId, Grant>)
    requires Fresh(r) && g.Keys <= {"i"}
    ensures var s := Quiet(now, r, g);
      LeasedRun(s, Dying()) && Run(s, Dying()) && End(s, Dying()) == Quiet(now + LATER, Claimed(r, now), Held(now))
  {
    var s := Quiet(now, r, g);
    ClaimStep(now, r, g);
    var s1 := Next(s, BeginClaim(0, "i"));
    var s2 := Quiet(now, Claimed(r, now), Held(now));
    assert Next(s1, Crash(0)) == s2;
    assert Next(s2, Tick(LATER)) == Quiet(now + LATER, Claimed(r, now), Held(now));
    ThreeSteps(s, BeginClaim(0, "i"), Crash(0), Tick(LATER));
  }

  lemma ClaimStep(now: nat, r: Row, g: map<InvoiceId, Grant>)
    requires Fresh(r) && g.Keys <= {"i"}
    ensures var s := Quiet(now, r, g); var a := BeginClaim(0, "i");
      Enabled(s, a) && Next(s, a) == Quiet(now, Claimed(r, now), Held(now)).(claims := map[0 := NewClaim(s, "i")])
  {
    assert g["i" := Grant(0, now)] == Held(now);
  }

  lemma ListSteps(s: World, r: Row, listed: seq<Stale>, g: map<InvoiceId, Grant>)
    requires s == Quiet(s.now, r, g) && IsStale(r, s.now) && listed == [Stale("i", r.attempt)]
    ensures Enabled(s, SweepList(listed)) && Next(s, SweepList(listed)) == s.(sweep := Some(listed))
  {
    assert listed[0] in listed;
  }

  lemma EndSteps(s: World)
    requires s.sweep.Some?
    ensures Next(s, SweepEnd) == s.(sweep := None)
  {
  }

  lemma SweepSteps(s: World, r: Row, listed: seq<Stale>, g: map<InvoiceId, Grant>)
    requires s == Quiet(s.now, r, g) && r.state == Submitted && r.org == 0 && r.kind == Invoice && r.parent == None && r.kraNo == None
    requires listed == [Stale("i", r.attempt)]
    ensures Next(s.(sweep := Some(listed)), SweepRescue(true)) == Quiet(s.now, Rescued(r.attempt + 1, s.now), g).(sweep := Some([]))
  {
    assert listed[1..] == [];
  }

  lemma RescuingRuns(now: nat, r: Row)
    requires Fresh(r)
    ensures var s := Quiet(now + LATER, Claimed(r, now), Held(now)); var run := Rescuing(r.attempt + 1);
      LeasedRun(s, run) && Run(s, run) && End(s, run) == Quiet(now + LATER, Rescued(r.attempt + 2, now + LATER), Held(now))
  {
    var s := Quiet(now + LATER, Claimed(r, now), Held(now));
    var listed := [Stale("i", r.attempt + 1)];
    var s1 := s.(sweep := Some(listed));
    ListSteps(s, Claimed(r, now), listed, Held(now));
    var s3 := Quiet(now + LATER, Rescued(r.attempt + 2, now + LATER), Held(now));
    var s2 := s3.(sweep := Some([]));
    SweepSteps(s, Claimed(r, now), listed, Held(now));
    EndSteps(s2);
    ThreeSteps(s, SweepList(listed), SweepRescue(true), SweepEnd);
  }

  /** A run that leads to a quiet world with an invoice worth claiming can be extended by a lost claim. */
  lemma LostClaimRuns(before: seq<Action>, now: nat, r: Row, g: map<InvoiceId, Grant>)
    requires Fresh(r) && g.Keys <= {"i"}
    requires LeasedRun(INITIAL, before) && Run(INITIAL, before) && End(INITIAL, before) == Quiet(now, r, g)
    ensures var run := before + LostClaim(r.attempt + 1);
      && LeasedRun(INITIAL, run) && Run(INITIAL, run)
      && End(INITIAL, run) == Quiet(now + LATER, Rescued(r.attempt + 2, now + LATER), Held(now))
  {
    DyingRuns(now, r, g);
    RescuingRuns(now, r);
    LeasedRunsCompose(Quiet(now, r, g), Dying(), Rescuing(r.attempt + 1));
    LeasedRunsCompose(INITIAL, before, LostClaim(r.attempt + 1));
  }

  lemma ThreeSteps(s: World, a: Action, b: Action, c: Action)
    requires Enabled(s, a) && Timely(s, a) && Disciplined(s, a)
    requires var s1 := Next(s, a); Enabled(s1, b) && Timely(s1, b) && Disciplined(s1, b)
    requires var s2 := Next(Next(s, a), b); Enabled(s2, c) && Timely(s2, c) && Disciplined(s2, c)
    ensures LeasedRun(s, [a, b, c]) && Run(s, [a, b, c]) && End(s, [a, b, c]) == Next(Next(Next(s, a), b), c)
  {
    OneStep(s, a);
    OneStep(Next(s, a), b);
    OneStep(Next(Next(s, a), b), c);
    LeasedRunsCompose(Next(s, a), [b], [c]);
    LeasedRunsCompose(s, [a], [b] + [c]);
    assert [a] + ([b] + [c]) == [a, b, c];
  }

  /** The exhausted worker's claim transaction leaves it live and without an answer. */
  lemma ExhaustedClaim(now: nat, g: map<InvoiceId, Grant>)
    ensures var s := Quiet(now, Rescued(6, now), g); var run := [BeginClaim(0, "i")];
      && LeasedRun(s, run) && Run(s, run)
      && Haunted(End(s, run))
  {
    OneStep(Quiet(now, Rescued(6, now), g), BeginClaim(0, "i"));
    assert 1 !in Next(Quiet(now, Rescued(6, now), g), BeginClaim(0, "i")).claims;
  }

  const SETUP: seq<Action> := [ConfigureEtims(0), Create("i", 0, Invoice, None)]

  lemma SetupRuns()
    ensures LeasedRun(INITIAL, SETUP) && Run(INITIAL, SETUP)
    ensures End(INITIAL, SETUP) == Quiet(0, NewRow(0, Invoice, None, true, 0), map[])
  {
    var s1 := Next(INITIAL, ConfigureEtims(0));
    assert s1 == INITIAL.(initialised := {0}, everInitialised := {0});
    var create := Create("i", 0, Invoice, None);
    assert Next(s1, create) == Quiet(0, NewRow(0, Invoice, None, true, 0), map[]);
    OneStep(INITIAL, ConfigureEtims(0));
    OneStep(s1, create);
    LeasedRunsCompose(INITIAL, [ConfigureEtims(0)], [create]);
    assert [ConfigureEtims(0)] + [create] == SETUP;
  }

  function Worn(): seq<Action> {
    SETUP + LostClaim(1) + LostClaim(3) + LostClaim(5)
  }

  lemma WornRuns()
    ensures LeasedRun(INITIAL, Worn()) && Run(INITIAL, Worn())
    ensures End(INITIAL, Worn()) == Quiet(3 * LATER, Rescued(6, 3 * LATER), Held(2 * LATER))
  {
    SetupRuns();
    ThreeLosses(SETUP, NewRow(0, Invoice, None, true, 0));
  }

  lemma ThreeLosses(before: seq<Action>, r: Row)
    requires Fresh(r) && r.attempt == 0
    requires LeasedRun(INITIAL, before) && Run(INITIAL, before) && End(INITIAL, before) == Quiet(0, r, map[])
    ensures var run := before + LostClaim(1) + LostClaim(3) + LostClaim(5);
      LeasedRun(INITIAL, run) && Run(INITIAL, run) && End(INITIAL, run) == Quiet(3 * LATER, Rescued(6, 3 * LATER), Held(2 * LATER))
  {
    LostClaimRuns(before, 0, r, map[]);
    LostClaimRuns(before + LostClaim(1), LATER, Rescued(2, LATER), Held(0));
    LostClaimRuns(before + LostClaim(1) + LostClaim(3), 2 * LATER, Rescued(4, 2 * LATER), Held(LATER));
  }

  function Witness(): seq<Action> {
    Worn() + [BeginClaim(0, "i")]
  }

  /**
    The witness is a timely and disciplined run, so everything proved about
    such runs holds at its end; yet one merchant retry there can be followed,
    still timely, by the exhausted worker overwriting the claim of worker 1.
   */
  lemma LeaseCanBreak()
    ensures LeasedRun(INITIAL, Witness()) && Run(INITIAL, Witness())
    ensures var s := End(INITIAL, Witness());
      && Inv(s) && Leased(s) && 0 in s.claims && Enabled(s, Retry("i"))
      && BreaksLease(s, Retry("i"), Takeover(s, "i", 0, 1))
  {
    WornRuns();
    ExhaustedAfter(Worn());
    BreaksAfter(Witness());
  }

  /** Worker 0 has found the invoice "i" exhausted, is live and has no answer yet; worker 1 is free; nothing was acknowledged. */
  predicate Haunted(s: World) {
    && LiveOn(s, 0, "i") && Ghost(s.claims[0]) && s.claims[0].phase == MustSubmit && 1 !in s.claims
    && "i" in s.rows && s.rows["i"].kind == Invoice && s.acks == map[]
  }

  lemma ExhaustedAfter(before: seq<Action>)
    requires LeasedRun(INITIAL, before) && Run(INITIAL, before)
    requires End(INITIAL, before) == Quiet(3 * LATER, Rescued(6, 3 * LATER), Held(2 * LATER))
    ensures var run := before + [BeginClaim(0, "i")];
      LeasedRun(INITIAL, run) && Run(INITIAL, run) && Haunted(End(INITIAL, run))
  {
    ExhaustedClaim(3 * LATER, Held(2 * LATER));
    LeasedRunsCompose(INITIAL, before, [BeginClaim(0, "i")]);
  }

  lemma BreaksAfter(run: seq<Action>)
    requires LeasedRun(INITIAL, run) && Run(INITIAL, run) && Haunted(End(INITIAL, run))
    ensures var s := End(INITIAL, run);
      Inv(s) && Leased(s) && Enabled(s, Retry("i")) && BreaksLease(s, Retry("i"), Takeover(s, "i", 0, 1))
  {
    LeasedRunKeeps(INITIAL, run);
    GhostBreaksLease(End(INITIAL, run), Retry("i"), "i", 0, 1);
  }

  /* ------------------------------------------------------- a reachable illegal write */

  /** The merchant retries, worker 1 claims, worker 0's refusal overwrites that claim, and KRA accepts worker 1's submission. */
  const OVERTAKEN: seq<Action> := [
    Retry("i"), Submit(0, REFUSED, map[]), BeginClaim(1, "i"), Commit(0), Submit(1, Accepted("K"), map["i" := "K"])]

  /** A timely run from the initial world after which worker 1's outcome writes ACKED over NEEDS_REVIEW. */
  lemma IllegalWriteIsReachable()
    ensures TimelyRun(INITIAL, Witness() + OVERTAKEN) && Run(INITIAL, Witness() + OVERTAKEN)
    ensures var s := End(INITIAL, Witness() + OVERTAKEN);
      AcksIllegally(s, 1, "i") && Path(s, Commit(1), "i") == [NeedsReview, Acked]
  {
    WornRuns();
    ExhaustedAfter(Worn());
    IllegalAfter(Witness());
  }

  lemma IllegalAfter(run: seq<Action>)
    requires LeasedRun(INITIAL, run) && Run(INITIAL, run) && Haunted(End(INITIAL, run))
    ensures TimelyRun(INITIAL, run + OVERTAKEN) && Run(INITIAL, run + OVERTAKEN)
    ensures var s := End(INITIAL, run + OVERTAKEN);
      AcksIllegally(s, 1, "i") && Path(s, Commit(1), "i") == [NeedsReview, Acked]
  {
    LeasedRunKeeps(INITIAL, run);
    LeasedIsTimely(INITIAL, run);
    OvertakenFrom(End(INITIAL, run), OVERTAKEN);
    TimelyRunsCompose(INITIAL, run, OVERTAKEN);
  }

  lemma OvertakenFrom(s: World, tail: seq<Action>)
    requires Inv(s) && Leased(s) && Haunted(s) && tail == OVERTAKEN
    ensures TimelyRun(s, tail) && Run(s, tail)
    ensures AcksIllegally(End(s, tail), 1, "i") && Path(End(s, tail), Commit(1), "i") == [NeedsReview, Acked]
  {
    RetryCanWriteIllegally(s, "i", 0, 1, "K");
    var rest := IllegalRun(s, "i", 0, 1, "K");
    OvertakenIs(s);
    TimelyFirst(s, Retry("i"), rest);
    AckPath(End(s, [Retry("i")] + rest), 1, "i");
  }

  lemma OvertakenIs(s: World)
    requires 0 in s.claims && s.claims[0].phase == MustSubmit && s.acks == map[]
    ensures [Retry("i")] + IllegalRun(s, "i", 0, 1, "K") == OVERTAKEN
  {
    assert s.acks["i" := "K"] == map["i" := "K"];
  }

  lemma AckPath(s: World, w: WorkerId, id: InvoiceId)
    requires AcksIllegally(s, w, id) && s.rows[id].state == NeedsReview
    ensures Path(s, Commit(w), id) == [NeedsReview, Acked]
  {
  }

  lemma TimelyFirst(s: World, a: Action, rest: seq<Action>)
    requires Enabled(s, a) && Timely(s, a) && TimelyRun(Next(s, a), rest) && Run(Next(s, a), rest)
    ensures TimelyRun(s, [a] + rest) && Run(s, [a] + rest) && End(s, [a] + rest) == End(Next(s, a), rest)
  {
    assert ([a] + rest)[1..] == rest;
  }

  lemma {:induction false} TimelyRunsCompose(s: World, first: seq<Action>, second: seq<Action>)
    requires TimelyRun(s, first) && Run(s, first) && TimelyRun(End(s, first), second) && Run(End(s, first), second)
    ensures TimelyRun(s, first + second) && Run(s, first + second)
    ensures End(s, first + second) == End(End(s, first), second)
    decreases |first|
  {
    if first == [] {
      assert first + second == second;
    } else {
      assert (first + second)[1..] == first[1..] + second;
      TimelyRunsCompose(Next(s, first[0]), first[1..], second);
    }
  }
}
