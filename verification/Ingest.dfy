/**
  Exactly-once ingest: confirmations are delivered at least once, and handlers
  and reconcile sweeps may crash between their transactions
  (backend/internal/ledger/service.go, backend/internal/mpesa/reconcile.go).
  Every step below is one database transaction, or a crash.
 */
module Ingest {
  import opened Prelude
  import opened Matcher
  import opened Ledger

  /** A stored confirmation: its payload, whether processed_at is set, whether error is set. */
  datatype Event = Event(input: C2B, processed: bool, error: bool)

  datatype Phase =
    | Resolving                      // a sweep has listed the event
    | Rejecting                      // its shortcode is unknown
    | Applying(sc: Shortcode)        // the tenant transaction comes next
    | Marking(failed: bool)          // the event mark comes next

  datatype Job = Job(input: C2B, phase: Phase)

  /** `log` lists the ledger transactions that committed, in order. */
  datatype System = System(ledger: Ledger, events: map<TransId, Event>, jobs: map<nat, Job>, log: seq<Op>)

  datatype Action =
    | Deliver(input: C2B, resolved: Option<Shortcode>, j: nat)    // the event transaction of a delivery
    | List(t: TransId, j: nat)                                    // a sweep picks an unprocessed event
    | Resolve(j: nat, found: Option<Shortcode>)
    | Reject(j: nat)
    | Tenant(j: nat, answers: Answers, stamp: Stamp, reported: bool)   // reported: the commit was not mistaken for an error
    | TenantFails(j: nat)                                         // any other failure: rolled back
    | Mark(j: nat)
    | Crash(j: nat)
    | Merchant(op: Op)                                            // any transaction other than an ingest

  ghost predicate Enabled(s: System, a: Action) {
    match a
    case Deliver(_, _, j) => j !in s.jobs
    case List(t, j) => j !in s.jobs && t in s.events && !s.events[t].processed
    case Resolve(j, _) => j in s.jobs && s.jobs[j].phase.Resolving?
    case Reject(j) => j in s.jobs && s.jobs[j].phase.Rejecting?
    case Tenant(j, answers, _, _) =>
      && j in s.jobs && s.jobs[j].phase.Applying?
      && Truthful(s.ledger, s.jobs[j].phase.sc.org, s.jobs[j].input, answers)
    case TenantFails(j) => j in s.jobs && s.jobs[j].phase.Applying?
    case Mark(j) => j in s.jobs && s.jobs[j].phase.Marking?
    case Crash(j) => j in s.jobs
    case Merchant(op) => !op.Ingest? && Possible(s.ledger, op)
  }

  function WithPhase(s: System, j: nat, p: Phase): System
    requires j in s.jobs
  {
    s.(jobs := s.jobs[j := s.jobs[j].(phase := p)])
  }

  function Without(s: System, j: nat): System {
    s.(jobs := s.jobs - {j})
  }

  /** A transaction: on success the ledger moves and the log grows; otherwise nothing does. */
  function Commit(s: System, op: Op, rules: set<Rule>): System {
    var r := Apply(s.ledger, op, rules);
    if r.Success? then s.(ledger := r.value, log := s.log + [op]) else s
  }

  function IngestOf(job: Job, answers: Answers, stamp: Stamp): Op
    requires job.phase.Applying?
  {
    Op.Ingest(job.input, job.phase.sc, answers, stamp)
  }

  /** The event transaction of IngestC2B. */
  function Delivered(s: System, input: C2B, resolved: Option<Shortcode>, j: nat): System {
    if input.transId in s.events then s
    else if resolved.None? then s.(events := s.events[input.transId := Event(input, true, true)])
    else s.(events := s.events[input.transId := Event(input, false, false)], jobs := s.jobs[j := Job(input, Applying(resolved.value))])
  }

  /** MarkWebhookProcessed, or the bare error note that keeps the event unprocessed. */
  function Marked(e: Event, failed: bool): Event {
    if failed then e.(error := true) else e.(processed := true, error := false)
  }

  function UpdateEvent(s: System, t: TransId, e: Event): System {
    s.(events := s.events[t := e])
  }

  /** The tenant transaction of ProcessStoredC2B: a duplicate payment counts as done. */
  function Tenanted(s: System, j: nat, answers: Answers, stamp: Stamp, reported: bool, rules: set<Rule>): System
    requires j in s.jobs && s.jobs[j].phase.Applying?
  {
    var op := IngestOf(s.jobs[j], answers, stamp);
    var r := Apply(s.ledger, op, rules);
    WithPhase(Commit(s, op, rules), j, Marking(!reported || (r.Failure? && r.error != Duplicate)))
  }

  function Next(s: System, a: Action, rules: set<Rule>): System {
    match a
    case Deliver(input, resolved, j) => Delivered(s, input, resolved, j)
    case List(t, j) => if t in s.events then s.(jobs := s.jobs[j := Job(s.events[t].input, Resolving)]) else s
    case Resolve(j, found) =>
      if j in s.jobs then WithPhase(s, j, if found.Some? then Applying(found.value) else Rejecting) else s
    case Reject(j) =>
      if j in s.jobs && s.jobs[j].input.transId in s.events
      then Without(UpdateEvent(s, s.jobs[j].input.transId, s.events[s.jobs[j].input.transId].(processed := true, error := true)), j)
      else s
    case Tenant(j, answers, stamp, reported) =>
      if j in s.jobs && s.jobs[j].phase.Applying? then Tenanted(s, j, answers, stamp, reported, rules) else s
    case TenantFails(j) => if j in s.jobs then WithPhase(s, j, Marking(true)) else s
    case Mark(j) =>
      if j in s.jobs && s.jobs[j].phase.Marking? && s.jobs[j].input.transId in s.events
      then Without(UpdateEvent(s, s.jobs[j].input.transId, Marked(s.events[s.jobs[j].input.transId], s.jobs[j].phase.failed)), j)
      else s
    case Crash(j) => Without(s, j)
    case Merchant(op) => Commit(s, op, rules)
  }

  const START := System(EMPTY, map[], map[], [])

  ghost predicate Behaviour(s: System, actions: seq<Action>, rules: set<Rule>)
    decreases |actions|
  {
    actions == [] || (Enabled(s, actions[0]) && Behaviour(Next(s, actions[0], rules), actions[1..], rules))
  }

  function After(s: System, actions: seq<Action>, rules: set<Rule>): System
    decreases |actions|
  {
    if actions == [] then s else After(Next(s, actions[0], rules), actions[1..], rules)
  }

  /* ---------------------------------------------------------------- invariant */

  predicate IsIngestOf(op: Op, t: TransId) {
    op.Ingest? && op.input.transId == t
  }

  predicate Logged(log: seq<Op>, t: TransId) {
    exists i :: 0 <= i < |log| && IsIngestOf(log[i], t)
  }

  /** The log is a run that the ledger results from, in which no step failed. */
  ghost predicate LogExplains(s: System, rules: set<Rule>) {
    Run(EMPTY, s.log, rules) && End(EMPTY, s.log, rules) == s.ledger && AllSucceed(EMPTY, s.log, rules)
  }

  /** No transaction of the run fails. */
  predicate AllSucceed(l: Ledger, ops: seq<Op>, rules: set<Rule>)
    decreases |ops|
  {
    ops == [] || (Apply(l, ops[0], rules).Success? && AllSucceed(Step(l, ops[0], rules), ops[1..], rules))
  }

  /** Each transaction id is ingested at most once, from the payload stored first, and has a payment exactly then. */
  ghost predicate EachOnce(s: System) {
    && (forall i, k :: 0 <= i < k < |s.log| && s.log[i].Ingest? && s.log[k].Ingest? ==> s.log[i].input.transId != s.log[k].input.transId)
    && (forall i :: 0 <= i < |s.log| && s.log[i].Ingest? ==>
          s.log[i].input.transId in s.events && s.log[i].input == s.events[s.log[i].input.transId].input)
    && (forall t :: t in s.ledger.payments <==> Logged(s.log, t))
  }

  /** A job works on a stored payload; one that will report success leaves a payment behind. */
  predicate JobOk(s: System, job: Job) {
    && job.input.transId in s.events && s.events[job.input.transId].input == job.input
    && (job.phase == Marking(false) ==> job.input.transId in s.ledger.payments)
  }

  predicate EventOk(s: System, t: TransId)
    requires t in s.events
  {
    && s.events[t].input.transId == t
    && (s.events[t].processed && !s.events[t].error ==> t in s.ledger.payments)
  }

  ghost predicate Inv(s: System, rules: set<Rule>) {
    && LogExplains(s, rules)
    && EachOnce(s)
    && (forall j :: j in s.jobs ==> JobOk(s, s.jobs[j]))
    && (forall t :: t in s.events ==> EventOk(s, t))
  }

  /* --------------------------------------------------------- ledger steps */

  /** Payments appear only through their own ingest, and never disappear. */
  lemma PaymentsOfStep(l: Ledger, op: Op, rules: set<Rule>)
    requires Apply(l, op, rules).Success?
    ensures Apply(l, op, rules).value.payments.Keys == l.payments.Keys + (if op.Ingest? then {op.input.transId} else {})
    ensures op.Ingest? ==> op.input.transId !in l.payments
  {
  }

  lemma {:induction false} RunSnoc(l: Ledger, ops: seq<Op>, op: Op, rules: set<Rule>)
    requires Run(l, ops, rules) && Possible(End(l, ops, rules), op)
    ensures Run(l, ops + [op], rules)
    ensures End(l, ops + [op], rules) == Step(End(l, ops, rules), op, rules)
    ensures AllSucceed(l, ops, rules) && Apply(End(l, ops, rules), op, rules).Success? ==> AllSucceed(l, ops + [op], rules)
    decreases |ops|
  {
    var all := ops + [op];
    if ops == [] {
      assert all[1..] == [];
    } else {
      assert all[0] == ops[0] && all[1..] == ops[1..] + [op];
      RunSnoc(Step(l, ops[0], rules), ops[1..], op, rules);
    }
  }

  lemma LoggedSnoc(log: seq<Op>, op: Op, t: TransId)
    ensures Logged(log + [op], t) <==> Logged(log, t) || IsIngestOf(op, t)
  {
    if Logged(log, t) {
      var i :| 0 <= i < |log| && IsIngestOf(log[i], t);
      assert (log + [op])[i] == log[i];
    }
    assert (log + [op])[|log|] == op;
  }

  /** What a committed transaction adds to the log. */
  lemma LogGrows(s: System, op: Op, m: Ledger, rules: set<Rule>)
    requires Inv(s, rules)
    requires Run(EMPTY, s.log + [op], rules) && End(EMPTY, s.log + [op], rules) == m && AllSucceed(EMPTY, s.log + [op], rules)
    requires m.payments.Keys == s.ledger.payments.Keys + (if op.Ingest? then {op.input.transId} else {})
    requires op.Ingest? ==> op.input.transId !in s.ledger.payments
    requires op.Ingest? ==> op.input.transId in s.events && s.events[op.input.transId].input == op.input
    ensures Inv(s.(ledger := m, log := s.log + [op]), rules)
  {
    var n := s.(ledger := m, log := s.log + [op]);
    OnceGrows(s, n, op);
    PaymentsGrow(s, n);
  }

  lemma OnceGrows(s: System, n: System, op: Op)
    requires EachOnce(s) && n.log == s.log + [op] && n.events == s.events
    requires n.ledger.payments.Keys == s.ledger.payments.Keys + (if op.Ingest? then {op.input.transId} else {})
    requires op.Ingest? ==> op.input.transId !in s.ledger.payments
    requires op.Ingest? ==> op.input.transId in s.events && s.events[op.input.transId].input == op.input
    ensures EachOnce(n)
  {
    forall t ensures t in n.ledger.payments <==> Logged(n.log, t) {
      LoggedSnoc(s.log, op, t);
      assert t in n.ledger.payments <==> t in n.ledger.payments.Keys;
    }
    OnceSnoc(s, op);
  }

  lemma PaymentsGrow(s: System, n: System)
    requires n.jobs == s.jobs && n.events == s.events && s.ledger.payments.Keys <= n.ledger.payments.Keys
    requires forall j :: j in s.jobs ==> JobOk(s, s.jobs[j])
    requires forall t :: t in s.events ==> EventOk(s, t)
    ensures forall j :: j in n.jobs ==> JobOk(n, n.jobs[j])
    ensures forall t :: t in n.events ==> EventOk(n, t)
  {
    assert forall t :: t in s.ledger.payments ==> t in s.ledger.payments.Keys && t in n.ledger.payments;
    forall j | j in n.jobs ensures JobOk(n, n.jobs[j]) { assert JobOk(s, s.jobs[j]); }
    forall t | t in n.events ensures EventOk(n, t) { assert EventOk(s, t); }
  }

  lemma CommitKeeps(s: System, op: Op, rules: set<Rule>)
    requires Inv(s, rules) && Possible(s.ledger, op)
    requires op.Ingest? ==> op.input.transId in s.events && s.events[op.input.transId].input == op.input
    ensures Inv(Commit(s, op, rules), rules)
  {
    if Apply(s.ledger, op, rules).Success? {
      PaymentsOfStep(s.ledger, op, rules);
      RunSnoc(EMPTY, s.log, op, rules);
      LogGrows(s, op, Apply(s.ledger, op, rules).value, rules);
    }
  }

  /** After a tenant transaction that commits or is refused as a duplicate, the payment is there. */
  lemma PaymentAfter(l: Ledger, op: Op, rules: set<Rule>)
    requires op.Ingest? && (Apply(l, op, rules).Success? || Apply(l, op, rules) == Failure(Duplicate))
    ensures op.input.transId in Step(l, op, rules).payments
    ensures Apply(l, op, rules) == Failure(Duplicate) ==> op.input.transId in l.payments
  {
  }

  lemma OnceSnoc(s: System, op: Op)
    requires EachOnce(s) && (op.Ingest? ==> op.input.transId !in s.ledger.payments)
    ensures var log := s.log + [op];
      forall i, k :: 0 <= i < k < |log| && log[i].Ingest? && log[k].Ingest? ==> log[i].input.transId != log[k].input.transId
  {
    var log := s.log + [op];
    forall i, k | 0 <= i < k < |log| && log[i].Ingest? && log[k].Ingest?
      ensures log[i].input.transId != log[k].input.transId
    {
      if k == |s.log| {
        assert IsIngestOf(s.log[i], s.log[i].input.transId);
        assert Logged(s.log, s.log[i].input.transId);
      }
    }
  }

  /* ---------------------------------------------------------------- one step */

  lemma TenantKeeps(s: System, j: nat, answers: Answers, stamp: Stamp, reported: bool, rules: set<Rule>)
    requires Inv(s, rules) && Enabled(s, Tenant(j, answers, stamp, reported))
    ensures Inv(Tenanted(s, j, answers, stamp, reported, rules), rules)
  {
    var job := s.jobs[j];
    assert JobOk(s, job);
    var op := IngestOf(job, answers, stamp);
    var m := Commit(s, op, rules);
    CommitKeeps(s, op, rules);
    assert m.jobs == s.jobs && m.events == s.events;
    var r := Apply(s.ledger, op, rules);
    var failed := !reported || (r.Failure? && r.error != Duplicate);
    if !failed { PaymentAfter(s.ledger, op, rules); }
    assert m.ledger == Step(s.ledger, op, rules);
    PhaseKeeps(m, j, Marking(failed), rules);
  }

  lemma PhaseKeeps(s: System, j: nat, p: Phase, rules: set<Rule>)
    requires Inv(s, rules) && j in s.jobs
    requires p == Marking(false) ==> s.jobs[j].input.transId in s.ledger.payments
    ensures Inv(WithPhase(s, j, p), rules)
  {
    var m := WithPhase(s, j, p);
    forall k | k in m.jobs ensures JobOk(m, m.jobs[k]) { assert JobOk(s, s.jobs[k]); }
    forall t | t in m.events ensures EventOk(m, t) { assert EventOk(s, t); }
  }

  /** An event gets a new mark and its job ends. */
  lemma MarkKeeps(s: System, j: nat, e: Event, rules: set<Rule>)
    requires Inv(s, rules) && j in s.jobs && s.jobs[j].input.transId in s.events
    requires e.input == s.events[s.jobs[j].input.transId].input
    requires e.processed && !e.error ==> s.jobs[j].input.transId in s.ledger.payments
    ensures Inv(Without(UpdateEvent(s, s.jobs[j].input.transId, e), j), rules)
  {
    var m := Without(UpdateEvent(s, s.jobs[j].input.transId, e), j);
    forall k | k in m.jobs ensures JobOk(m, m.jobs[k]) { assert JobOk(s, s.jobs[k]); }
    forall t | t in m.events ensures EventOk(m, t) { assert EventOk(s, t); }
  }

  lemma JobsKeep(s: System, m: System, rules: set<Rule>)
    requires Inv(s, rules) && m == s.(jobs := m.jobs)
    requires forall j :: j in m.jobs ==> (j in s.jobs && m.jobs[j] == s.jobs[j]) || JobOk(s, m.jobs[j])
    ensures Inv(m, rules)
  {
    forall k | k in m.jobs ensures JobOk(m, m.jobs[k]) { assert k in s.jobs ==> JobOk(s, s.jobs[k]); }
    forall t | t in m.events ensures EventOk(m, t) { assert EventOk(s, t); }
  }

  lemma StepKeeps(s: System, a: Action, rules: set<Rule>)
    requires Inv(s, rules) && Enabled(s, a)
    ensures Inv(Next(s, a, rules), rules)
  {
    assert forall j :: j in s.jobs ==> JobOk(s, s.jobs[j]);
    match a
    case Deliver(input, resolved, j) => NewEventKeeps(s, input, resolved, j, rules);
    case List(t, j) =>
      assert EventOk(s, t);
      JobsKeep(s, s.(jobs := s.jobs[j := Job(s.events[t].input, Resolving)]), rules);
    case Resolve(j, found) => PhaseKeeps(s, j, if found.Some? then Applying(found.value) else Rejecting, rules);
    case Reject(j) => MarkKeeps(s, j, s.events[s.jobs[j].input.transId].(processed := true, error := true), rules);
    case Tenant(j, answers, stamp, reported) => TenantKeeps(s, j, answers, stamp, reported, rules);
    case TenantFails(j) => PhaseKeeps(s, j, Marking(true), rules);
    case Mark(j) =>
      assert EventOk(s, s.jobs[j].input.transId);
      MarkKeeps(s, j, Marked(s.events[s.jobs[j].input.transId], s.jobs[j].phase.failed), rules);
    case Crash(j) => JobsKeep(s, Without(s, j), rules);
    case Merchant(op) => CommitKeeps(s, op, rules);
  }

  lemma NewEventKeeps(s: System, input: C2B, resolved: Option<Shortcode>, j: nat, rules: set<Rule>)
    requires Inv(s, rules) && j !in s.jobs
    ensures Inv(Delivered(s, input, resolved, j), rules)
  {
    assert forall k :: k in s.jobs ==> JobOk(s, s.jobs[k]);
    assert forall t :: t in s.events ==> EventOk(s, t);
  }

  lemma {:induction false} BehaviourKeeps(s: System, actions: seq<Action>, rules: set<Rule>)
    requires Inv(s, rules) && Behaviour(s, actions, rules)
    ensures Inv(After(s, actions, rules), rules)
    decreases |actions|
  {
    if actions != [] {
      StepKeeps(s, actions[0], rules);
      BehaviourKeeps(Next(s, actions[0], rules), actions[1..], rules);
    }
  }

  lemma StartIsFine(rules: set<Rule>)
    ensures Inv(START, rules)
  {
  }

  /* ---------------------------------------------------------------- theorems */

  /**
    Exactly once: whatever is delivered again, crashes or is swept, the ledger
    is what its log of distinct transaction ids produces, each applied once and successfully
    from the payload stored first, and an id has a payment exactly when logged.
   */
  lemma ExactlyOnce(actions: seq<Action>, rules: set<Rule>)
    requires Behaviour(START, actions, rules)
    ensures var s := After(START, actions, rules);
      && Run(EMPTY, s.log, rules) && s.ledger == End(EMPTY, s.log, rules) && AllSucceed(EMPTY, s.log, rules)
      && (forall i, k :: 0 <= i < k < |s.log| && s.log[i].Ingest? && s.log[k].Ingest? ==> s.log[i].input.transId != s.log[k].input.transId)
      && (forall i :: 0 <= i < |s.log| && s.log[i].Ingest? ==>
            s.log[i].input.transId in s.events && s.log[i].input == s.events[s.log[i].input.transId].input)
      && (forall t :: t in s.ledger.payments <==> Logged(s.log, t))
  {
    StartIsFine(rules);
    BehaviourKeeps(START, actions, rules);
  }

  /** An event marked processed without an error has its payment. */
  lemma ProcessedMeansPaid(actions: seq<Action>, rules: set<Rule>, t: TransId)
    requires Behaviour(START, actions, rules)
    requires var s := After(START, actions, rules); t in s.events && s.events[t].processed && !s.events[t].error
    ensures t in After(START, actions, rules).ledger.payments
  {
    StartIsFine(rules);
    BehaviourKeeps(START, actions, rules);
    assert EventOk(After(START, actions, rules), t);
  }

  /* ------------------------------------------------- nothing is given up silently */

  /** The step gives up on `t`: its shortcode is not a verified one, at delivery or in a sweep. */
  predicate GivesUp(s: System, a: Action, t: TransId) {
    || (a.Deliver? && a.input.transId == t && a.resolved.None?)
    || (a.Reject? && a.j in s.jobs && s.jobs[a.j].input.transId == t)
  }

  ghost predicate GivenUp(s: System, actions: seq<Action>, rules: set<Rule>, t: TransId)
    decreases |actions|
  {
    actions != [] && (GivesUp(s, actions[0], t) || GivenUp(Next(s, actions[0], rules), actions[1..], rules, t))
  }

  predicate IsProcessed(s: System, t: TransId) {
    t in s.events && s.events[t].processed
  }

  lemma PaymentsStay(s: System, a: Action, rules: set<Rule>, t: TransId)
    requires Enabled(s, a) && t in s.ledger.payments
    ensures t in Next(s, a, rules).ledger.payments
  {
    if a.Tenant? {
      StillThere(s, IngestOf(s.jobs[a.j], a.answers, a.stamp), rules, t);
    } else if a.Merchant? {
      StillThere(s, a.op, rules, t);
    }
  }

  lemma StillThere(s: System, op: Op, rules: set<Rule>, t: TransId)
    requires t in s.ledger.payments
    ensures t in Commit(s, op, rules).ledger.payments
  {
    if Apply(s.ledger, op, rules).Success? {
      PaymentsOfStep(s.ledger, op, rules);
      assert t in Apply(s.ledger, op, rules).value.payments.Keys;
    }
  }

  /** An event becomes processed only with its payment there, or because the step gives it up. */
  lemma ProcessedByStep(s: System, a: Action, rules: set<Rule>, t: TransId)
    requires Inv(s, rules) && Enabled(s, a) && !IsProcessed(s, t) && IsProcessed(Next(s, a, rules), t)
    ensures t in s.ledger.payments || GivesUp(s, a, t)
  {
    assert forall j :: j in s.jobs ==> JobOk(s, s.jobs[j]);
  }

  lemma {:induction false} ProcessedFrom(s: System, actions: seq<Action>, rules: set<Rule>, t: TransId)
    requires Inv(s, rules) && Behaviour(s, actions, rules) && IsProcessed(After(s, actions, rules), t)
    ensures t in After(s, actions, rules).ledger.payments || GivenUp(s, actions, rules, t) || (IsProcessed(s, t) && t !in s.ledger.payments)
    decreases |actions|
  {
    if actions != [] {
      var n := Next(s, actions[0], rules);
      StepKeeps(s, actions[0], rules);
      ProcessedFrom(n, actions[1..], rules, t);
      if t in s.ledger.payments { PaymentsStay(s, actions[0], rules, t); }
      if t in n.ledger.payments { PaymentsLast(n, actions[1..], rules, t); }
      if !IsProcessed(s, t) && IsProcessed(n, t) { ProcessedByStep(s, actions[0], rules, t); }
    }
  }

  lemma {:induction false} PaymentsLast(s: System, actions: seq<Action>, rules: set<Rule>, t: TransId)
    requires Behaviour(s, actions, rules) && t in s.ledger.payments
    ensures t in After(s, actions, rules).ledger.payments
    decreases |actions|
  {
    if actions != [] {
      PaymentsStay(s, actions[0], rules, t);
      PaymentsLast(Next(s, actions[0], rules), actions[1..], rules, t);
    }
  }

  /** In every behaviour a processed event has its payment, or its shortcode was found unverified at some step. */
  lemma ProcessedMeansPaidOrGivenUp(actions: seq<Action>, rules: set<Rule>, t: TransId)
    requires Behaviour(START, actions, rules) && IsProcessed(After(START, actions, rules), t)
    ensures t in After(START, actions, rules).ledger.payments || GivenUp(START, actions, rules, t)
  {
    StartIsFine(rules);
    ProcessedFrom(START, actions, rules, t);
  }

  /** A first delivery to a verified shortcode is stored unprocessed and handed on; to any other it is stored as processed with an error, so that no sweep lists it. */
  lemma FirstDelivery(s: System, input: C2B, resolved: Option<Shortcode>, j: nat, rules: set<Rule>)
    requires Enabled(s, Deliver(input, resolved, j)) && input.transId !in s.events
    ensures var m := Next(s, Deliver(input, resolved, j), rules); var e := m.events[input.transId];
      && m.events.Keys == s.events.Keys + {input.transId} && e.input == input && m.ledger == s.ledger
      && (resolved.None? ==> e.processed && e.error && m.jobs == s.jobs && forall k :: !Enabled(m, List(input.transId, k)))
      && (resolved.Some? ==> !e.processed && !e.error && m.jobs == s.jobs[j := Job(input, Applying(resolved.value))])
  {
  }

  /** The event is processed, with an error. */
  predicate IsClosed(s: System, t: TransId, input: C2B) {
    t in s.events && s.events[t] == Event(input, true, true)
  }

  /** A sweep that finds the shortcode unverified closes the event with an error; one that finds it goes on with the stored payload. */
  lemma SweepResolves(s: System, t: TransId, j: nat, found: Option<Shortcode>, rules: set<Rule>)
    requires Inv(s, rules) && Enabled(s, List(t, j))
    ensures var m := Next(Next(s, List(t, j), rules), Resolve(j, found), rules);
      && j in m.jobs && m.jobs[j].input == s.events[t].input && m.events == s.events
      && (found.Some? ==> m.jobs[j].phase == Applying(found.value))
      && (found.None? ==> Enabled(m, Reject(j)) && IsClosed(Next(m, Reject(j), rules), t, s.events[t].input))
      && Next(m, Reject(j), rules).ledger == s.ledger
  {
    assert EventOk(s, t);
  }

  /** After a tenant transaction that failed and its mark, an unprocessed event carries an error, is still unprocessed, and any sweep may list it again. */
  lemma FailedStaysListed(s: System, j: nat, rules: set<Rule>, k: nat)
    requires Inv(s, rules) && j in s.jobs && s.jobs[j].phase == Marking(true) && k !in s.jobs
    requires var t := s.jobs[j].input.transId; t in s.events && !s.events[t].processed
    ensures var t := s.jobs[j].input.transId; var m := Next(s, Mark(j), rules);
      && Enabled(s, Mark(j)) && t in m.events && m.events[t].input == s.events[t].input
      && !m.events[t].processed && m.events[t].error && Enabled(m, List(t, k)) && m.ledger == s.ledger
  {
  }

  /** A tenant transaction that fails for any reason but a duplicate changes no ledger and leads to that mark. */
  lemma FailureIsMarked(s: System, j: nat, answers: Answers, stamp: Stamp, reported: bool, rules: set<Rule>)
    requires Enabled(s, Tenant(j, answers, stamp, reported))
    requires var r := ApplyPayment(s.ledger, s.jobs[j].input, s.jobs[j].phase.sc, answers, stamp, rules); r.Failure? && r.error != Duplicate
    ensures var m := Next(s, Tenant(j, answers, stamp, reported), rules);
      m.ledger == s.ledger && m.events == s.events && j in m.jobs && m.jobs[j] == Job(s.jobs[j].input, Marking(true))
  {
  }

  /** The payload stored first stays: a later delivery with the same id cannot change it. */
  lemma {:induction false} FirstPayloadStays(s: System, actions: seq<Action>, rules: set<Rule>, t: TransId)
    requires Inv(s, rules) && Behaviour(s, actions, rules) && t in s.events
    ensures t in After(s, actions, rules).events && After(s, actions, rules).events[t].input == s.events[t].input
    decreases |actions|
  {
    if actions != [] {
      StepKeeps(s, actions[0], rules);
      FirstPayloadStays(Next(s, actions[0], rules), actions[1..], rules, t);
    }
  }

  /** Once an id has its payment, no step of any handler or sweep for it changes the ledger: no second sale is marked paid. */
  lemma DuplicateChangesNothing(s: System, a: Action, rules: set<Rule>)
    requires Enabled(s, a)
    requires a.Tenant? ==> s.jobs[a.j].input.transId in s.ledger.payments
    ensures !a.Merchant? ==> Next(s, a, rules).ledger == s.ledger && Next(s, a, rules).log == s.log
    ensures a.Deliver? && a.input.transId in s.events ==> Next(s, a, rules) == s
  {
    if a.Tenant? {
      var op := IngestOf(s.jobs[a.j], a.answers, a.stamp);
      if Apply(s.ledger, op, rules).Success? { PaymentsOfStep(s.ledger, op, rules); }
    }
  }

  /**
    Recovery: from any reachable system an unprocessed event is finished by one
    sweep whose tenant transaction commits or finds the payment already there.
   */
  lemma SweepFinishes(s: System, t: TransId, j: nat, sc: Shortcode, a: Answers, stamp: Stamp, rules: set<Rule>)
    requires Inv(s, rules) && t in s.events && !s.events[t].processed && j !in s.jobs
    requires Truthful(s.ledger, sc.org, s.events[t].input, a)
    requires var r := ApplyPayment(s.ledger, s.events[t].input, sc, a, stamp, rules); r.Success? || r.error == Duplicate
    ensures var sweep := [List(t, j), Resolve(j, Some(sc)), Tenant(j, a, stamp, true), Mark(j)];
      var m := After(s, sweep, rules);
      && Behaviour(s, sweep, rules) && j !in m.jobs
      && t in m.ledger.payments && t in m.events && m.events[t].processed && !m.events[t].error
      && m.ledger == Step(s.ledger, Op.Ingest(s.events[t].input, sc, a, stamp), rules)
  {
    assert EventOk(s, t);
    var a1, a2, a3, a4 := List(t, j), Resolve(j, Some(sc)), Tenant(j, a, stamp, true), Mark(j);
    var s2 := Next(Next(s, a1, rules), a2, rules);
    var op := Op.Ingest(s.events[t].input, sc, a, stamp);
    assert s2 == s.(jobs := s.jobs[j := Job(s.events[t].input, Applying(sc))]);
    PaymentAfter(s.ledger, op, rules);
    TenantEffect(s2, j, a, stamp, rules);
    var s3 := Next(s2, a3, rules);
    assert s3.jobs[j] == Job(s.events[t].input, Marking(false));
    FourSteps(s, a1, a2, a3, a4, rules);
  }

  /** A reported tenant transaction, in terms of the ledger step. */
  lemma TenantEffect(s: System, j: nat, a: Answers, stamp: Stamp, rules: set<Rule>)
    requires j in s.jobs && s.jobs[j].phase.Applying?
    ensures var m := Tenanted(s, j, a, stamp, true, rules); var op := IngestOf(s.jobs[j], a, stamp);
      && m.ledger == Step(s.ledger, op, rules) && m.events == s.events
      && m.jobs == s.jobs[j := s.jobs[j].(phase := Marking(Apply(s.ledger, op, rules).Failure? && Apply(s.ledger, op, rules).error != Duplicate))]
  {
  }

  lemma FourSteps(s: System, a1: Action, a2: Action, a3: Action, a4: Action, rules: set<Rule>)
    requires Enabled(s, a1) && Enabled(Next(s, a1, rules), a2)
    requires Enabled(Next(Next(s, a1, rules), a2, rules), a3)
    requires Enabled(Next(Next(Next(s, a1, rules), a2, rules), a3, rules), a4)
    ensures After(s, [a1, a2, a3, a4], rules) == Next(Next(Next(Next(s, a1, rules), a2, rules), a3, rules), a4, rules)
    ensures Behaviour(s, [a1, a2, a3, a4], rules)
  {
    var s1 := Next(s, a1, rules);
    var s2 := Next(s1, a2, rules);
    var s3 := Next(s2, a3, rules);
    FirstStep(s3, a4, [], rules);
    FirstStep(s2, a3, [a4], rules);
    FirstStep(s1, a2, [a3, a4], rules);
    FirstStep(s, a1, [a2, a3, a4], rules);
  }

  lemma FirstStep(s: System, a: Action, rest: seq<Action>, rules: set<Rule>)
    requires Enabled(s, a) && Behaviour(Next(s, a, rules), rest, rules)
    ensures After(s, [a] + rest, rules) == After(Next(s, a, rules), rest, rules) && Behaviour(s, [a] + rest, rules)
  {
    assert ([a] + rest)[1..] == rest;
  }
}
