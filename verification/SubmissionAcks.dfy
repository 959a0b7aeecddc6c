/**
  What every run of the submission protocol keeps, for any number of workers,
  with no timing assumption at all: workers may outlive a rescue, responses may
  be lost, and outcomes may be written at any later time.
 */
module SubmissionAcks {
  import opened Prelude
  import opened FiscalState
  import opened Provider
  import opened Submission

  /** A KRA number is stored exactly on ACKED rows, and it is the provider's. */
  predicate RowMatches(r: Row, id: InvoiceId, acks: AckBook) {
    && id != ""
    && (r.kraNo.Some? <==> r.state == Acked)
    && (r.state == Acked ==> id in acks && r.kraNo == Some(acks[id]))
  }

  ghost predicate RowsMatchBook(s: World) {
    forall id :: id in s.rows ==> RowMatches(s.rows[id], id, s.acks)
  }

  /** States a transaction boundary never shows. */
  ghost predicate NoHiddenStates(s: World) {
    forall id :: id in s.rows ==> s.rows[id].state != FailedTerminal && s.rows[id].state != Draft
  }

  predicate AckedParent(s: World, r: Row) {
    r.parent.Some? && r.parent.value in s.rows && s.rows[r.parent.value].state == Acked
  }

  /** Acknowledged credit notes have an ACKED parent, whether or not the row knows the ack yet. */
  ghost predicate BookIsCausal(s: World) {
    && (forall id :: id in s.acks ==> id in s.rows && s.acks[id] != "")
    && (forall id :: id in s.acks && s.rows[id].kind == CreditNote ==> AckedParent(s, s.rows[id]))
  }

  /** Workers hold true facts: the document they name, its parent's number, the answer they got. */
  predicate ClaimTruthful(s: World, c: Claim) {
    && c.invoice in s.rows
    && (c.docId == c.invoice || c.docId == "")
    && (c.docId != "" ==> c.kind == s.rows[c.invoice].kind)
    && (c.kind == CreditNote && c.parentKraNo != "" ==> AckedParent(s, s.rows[c.invoice]))
    && (c.phase.Answered? && c.phase.reply.Accepted? ==>
          c.docId != "" && c.docId in s.acks && c.phase.reply.kraNo == s.acks[c.docId])
  }

  ghost predicate ClaimsTruthful(s: World) {
    forall w :: w in s.claims ==> ClaimTruthful(s, s.claims[w])
  }

  /** The eTIMS gate: whoever has left TAX_PENDING, is being worked on or was sent belongs to a seller that was initialised. */
  ghost predicate Gated(s: World) {
    && s.initialised <= s.everInitialised
    && (forall id :: id in s.rows && s.rows[id].state != TaxPending ==> s.rows[id].org in s.everInitialised)
    && (forall w :: w in s.claims && s.claims[w].invoice in s.rows ==> s.rows[s.claims[w].invoice].org in s.everInitialised)
    && (forall id :: id in s.sent && id != "" ==> id in s.rows && s.rows[id].org in s.everInitialised)
  }

  ghost predicate WritesMatchBook(s: World) {
    forall p :: p in s.kraWrites ==> p.0 in s.acks && p.1 == s.acks[p.0]
  }

  ghost predicate Inv(s: World) {
    RowsMatchBook(s) && NoHiddenStates(s) && BookIsCausal(s) && ClaimsTruthful(s) && Gated(s) && WritesMatchBook(s)
  }

  /* ------------------------------------------------------ one step at a time */

  /** Rows never disappear, never change identity, and ACKED rows never move. */
  lemma RowsPersist(s: World, a: Action, id: InvoiceId)
    requires Inv(s) && Enabled(s, a) && id in s.rows
    ensures id in Next(s, a).rows
    ensures Next(s, a).rows[id] == NextRow(s, a, id)
    ensures var r, r' := s.rows[id], Next(s, a).rows[id];
            r'.org == r.org && r'.kind == r.kind && r'.parent == r.parent
            && (r.state == Acked ==> r'.state == Acked && r'.kraNo == r.kraNo)
  {
    SameDocument(s, a, id);
    if s.rows[id].state == Acked { AckedRowStays(s, a, id); }
  }

  lemma SameDocument(s: World, a: Action, id: InvoiceId)
    requires Enabled(s, a) && id in s.rows
    ensures var r, r' := s.rows[id], NextRow(s, a, id); r'.org == r.org && r'.kind == r.kind && r'.parent == r.parent
  {
  }

  lemma AckedRowStays(s: World, a: Action, id: InvoiceId)
    requires Inv(s) && Enabled(s, a) && id in s.rows && s.rows[id].state == Acked
    ensures NextRow(s, a, id).state == Acked && NextRow(s, a, id).kraNo == s.rows[id].kraNo
  {
    assert RowMatches(s.rows[id], id, s.acks);
    if a.Commit? && s.claims[a.w].invoice == id { assert ClaimTruthful(s, s.claims[a.w]); }
  }

  lemma BookGrows(s: World, a: Action)
    requires Inv(s) && Enabled(s, a)
    ensures s.acks.Keys <= Next(s, a).acks.Keys
    ensures forall id :: id in s.acks ==> Next(s, a).acks[id] == s.acks[id]
  {
  }

  lemma StepKeepsRowsMatchBook(s: World, a: Action)
    requires Inv(s) && Enabled(s, a)
    ensures RowsMatchBook(Next(s, a)) && NoHiddenStates(Next(s, a))
  {
    var s' := Next(s, a);
    BookGrows(s, a);
    forall id | id in s'.rows
      ensures RowMatches(s'.rows[id], id, s'.acks)
      ensures s'.rows[id].state != FailedTerminal && s'.rows[id].state != Draft
    {
      if id in s.rows { NextRowMatches(s, a, id); }
    }
  }

  lemma NextRowMatches(s: World, a: Action, id: InvoiceId)
    requires Inv(s) && Enabled(s, a) && id in s.rows
    ensures RowMatches(NextRow(s, a, id), id, s.acks)
    ensures NextRow(s, a, id).state != FailedTerminal && NextRow(s, a, id).state != Draft
  {
    assert RowMatches(s.rows[id], id, s.acks);
    if a.Commit? && s.claims[a.w].invoice == id { assert ClaimTruthful(s, s.claims[a.w]); }
  }

  lemma AckedParentPersists(s: World, a: Action, id: InvoiceId)
    requires Inv(s) && Enabled(s, a) && id in s.rows && AckedParent(s, s.rows[id])
    ensures id in Next(s, a).rows && AckedParent(Next(s, a), Next(s, a).rows[id])
  {
    RowsPersist(s, a, id);
    RowsPersist(s, a, s.rows[id].parent.value);
  }

  lemma StepKeepsBookCausal(s: World, a: Action)
    requires Inv(s) && Enabled(s, a)
    ensures BookIsCausal(Next(s, a))
  {
    var s' := Next(s, a);
    forall id | id in s'.acks
      ensures id in s'.rows && s'.acks[id] != ""
      ensures s'.rows[id].kind == CreditNote ==> AckedParent(s', s'.rows[id])
    {
      if id in s.acks {
        RowsPersist(s, a, id);
        if s.rows[id].kind == CreditNote {
          AckedParentPersists(s, a, id);
        }
      } else {
        var c := s.claims[a.w];
        assert id == c.docId == c.invoice;
        RowsPersist(s, a, id);
        if s.rows[id].kind == CreditNote {
          AckedParentPersists(s, a, id);
        }
      }
    }
  }

  /** The facts a freshly granted worker starts with. */
  lemma NewClaimTruthful(s: World, id: InvoiceId)
    requires Inv(s) && id in s.rows && !ClaimDecision(s.rows[id], s.now).Skipped?
    ensures var c := NewClaim(s, id); c.kind == CreditNote && c.parentKraNo != "" ==> AckedParent(s, s.rows[id])
  {
  }

  lemma StepKeepsClaimsTruthful(s: World, a: Action)
    requires Inv(s) && Enabled(s, a)
    ensures ClaimsTruthful(Next(s, a))
  {
    forall w | w in Next(s, a).claims ensures ClaimTruthful(Next(s, a), Next(s, a).claims[w]) {
      ClaimStaysTruthful(s, a, w);
    }
  }

  lemma ClaimStaysTruthful(s: World, a: Action, w: WorkerId)
    requires Inv(s) && Enabled(s, a) && w in Next(s, a).claims
    ensures ClaimTruthful(Next(s, a), Next(s, a).claims[w])
  {
    if a.BeginClaim? && a.w == w {
      NewClaimTruthful(s, a.id);
      RowsPersist(s, a, a.id);
      if s.rows[a.id].kind == CreditNote && ParentKraNo(s.rows, s.rows[a.id]) != "" {
        AckedParentPersists(s, a, a.id);
      }
    } else {
      HeldClaimStaysTruthful(s, a, w);
    }
  }

  /** What a worker holds stays true while rows persist and the book grows. */
  lemma HeldClaimStaysTruthful(s: World, a: Action, w: WorkerId)
    requires Inv(s) && Enabled(s, a) && w in Next(s, a).claims && !(a.BeginClaim? && a.w == w)
    ensures ClaimTruthful(Next(s, a), Next(s, a).claims[w])
  {
    var c := s.claims[w];
    assert ClaimTruthful(s, c);
    HeldAnswerIsTrue(s, a, w);
    RowsPersist(s, a, c.invoice);
    if c.kind == CreditNote && c.parentKraNo != "" {
      AckedParentPersists(s, a, c.invoice);
    }
  }

  /** An accepted answer a worker holds, old or new, is the book's. */
  lemma HeldAnswerIsTrue(s: World, a: Action, w: WorkerId)
    requires Inv(s) && Enabled(s, a) && w in s.claims && w in NextClaims(s, a) && !(a.BeginClaim? && a.w == w)
    ensures NextClaims(s, a)[w] == s.claims[w].(phase := NextClaims(s, a)[w].phase)
    ensures var c := NextClaims(s, a)[w];
      c.phase.Answered? && c.phase.reply.Accepted? ==>
        c.docId != "" && c.docId in Next(s, a).acks && c.phase.reply.kraNo == Next(s, a).acks[c.docId]
  {
    assert ClaimTruthful(s, s.claims[w]);
    BookGrows(s, a);
    if (a.Lookup? || a.Submit?) && a.w == w { NewAnswerIsTrue(s, a); }
  }

  lemma NewAnswerIsTrue(s: World, a: Action)
    requires Inv(s) && Enabled(s, a) && (a.Lookup? || a.Submit?)
    ensures var c := NextClaims(s, a)[a.w];
      c.phase.Answered? && c.phase.reply.Accepted? ==>
        c.docId != "" && c.docId in Next(s, a).acks && c.phase.reply.kraNo == Next(s, a).acks[c.docId]
  {
    assert "" !in s.acks;
  }

  lemma StepKeepsGated(s: World, a: Action)
    requires Inv(s) && Enabled(s, a)
    ensures Gated(Next(s, a))
  {
    var s' := Next(s, a);
    forall id | id in s'.rows && s'.rows[id].state != TaxPending
      ensures s'.rows[id].org in s'.everInitialised
    {
      if id in s.rows { RowStaysGated(s, a, id); }
    }
    forall w | w in s'.claims && s'.claims[w].invoice in s'.rows
      ensures s'.rows[s'.claims[w].invoice].org in s'.everInitialised
    {
      ClaimStaysGated(s, a, w);
    }
    forall id | id in s'.sent && id != ""
      ensures id in s'.rows && s'.rows[id].org in s'.everInitialised
    {
      SentStaysGated(s, a, id);
    }
  }

  lemma RowStaysGated(s: World, a: Action, id: InvoiceId)
    requires Inv(s) && Enabled(s, a) && id in s.rows
    ensures NextRow(s, a, id).state != TaxPending ==> NextRow(s, a, id).org in s.everInitialised
  {
    if a.Commit? && s.claims[a.w].invoice == id { assert s.rows[id].org in s.everInitialised; }
  }

  lemma ClaimStaysGated(s: World, a: Action, w: WorkerId)
    requires Inv(s) && Enabled(s, a) && w in Next(s, a).claims && Next(s, a).claims[w].invoice in Next(s, a).rows
    ensures Next(s, a).rows[Next(s, a).claims[w].invoice].org in Next(s, a).everInitialised
  {
    var id := Next(s, a).claims[w].invoice;
    if !(a.BeginClaim? && a.w == w) { assert ClaimTruthful(s, s.claims[w]); }
    RowsPersist(s, a, id);
  }

  lemma SentStaysGated(s: World, a: Action, id: InvoiceId)
    requires Inv(s) && Enabled(s, a) && id in Next(s, a).sent && id != ""
    ensures id in Next(s, a).rows && Next(s, a).rows[id].org in Next(s, a).everInitialised
  {
    if id !in s.sent {
      assert ClaimTruthful(s, s.claims[a.w]) && id == s.claims[a.w].docId == s.claims[a.w].invoice;
    }
    RowsPersist(s, a, id);
  }

  lemma StepKeepsInv(s: World, a: Action)
    requires Inv(s) && Enabled(s, a)
    ensures Inv(Next(s, a))
  {
    StepKeepsRowsMatchBook(s, a);
    StepKeepsBookCausal(s, a);
    StepKeepsClaimsTruthful(s, a);
    StepKeepsGated(s, a);
    BookGrows(s, a);
  }

  lemma {:induction false} RunKeepsInv(s: World, actions: seq<Action>)
    requires Inv(s) && Run(s, actions)
    ensures Inv(End(s, actions))
    decreases |actions|
  {
    if actions != [] {
      StepKeepsInv(s, actions[0]);
      RunKeepsInv(Next(s, actions[0]), actions[1..]);
    }
  }

  /* ------------------------------------------------------------ the theorems */

  /**
    ACKED is absorbing: from any point of any run on, an acknowledged invoice
    stays acknowledged with the same KRA number.
   */
  lemma {:induction false} AckedIsAbsorbing(s: World, actions: seq<Action>, id: InvoiceId)
    requires Inv(s) && Run(s, actions)
    requires id in s.rows && s.rows[id].state == Acked
    ensures id in End(s, actions).rows
    ensures End(s, actions).rows[id].state == Acked && End(s, actions).rows[id].kraNo == s.rows[id].kraNo
    decreases |actions|
  {
    if actions != [] {
      RowsPersist(s, actions[0], id);
      StepKeepsInv(s, actions[0]);
      AckedIsAbsorbing(Next(s, actions[0]), actions[1..], id);
    }
  }

  /** No invoice ever has two different KRA numbers written to it. */
  lemma OneKraNumberPerInvoice(actions: seq<Action>, id: InvoiceId, k1: string, k2: string)
    requires Run(INITIAL, actions)
    requires (id, k1) in End(INITIAL, actions).kraWrites && (id, k2) in End(INITIAL, actions).kraWrites
    ensures k1 == k2
  {
    RunKeepsInv(INITIAL, actions);
    var s := End(INITIAL, actions);
    assert (id, k1).0 in s.acks && (id, k2).1 == s.acks[id];
  }

  /** A KRA number is present exactly on ACKED rows. */
  lemma KraNumberIffAcked(actions: seq<Action>, id: InvoiceId)
    requires Run(INITIAL, actions) && id in End(INITIAL, actions).rows
    ensures var r := End(INITIAL, actions).rows[id]; r.kraNo.Some? <==> r.state == Acked
  {
    RunKeepsInv(INITIAL, actions);
  }

  /**
    Causal acks: the step that acknowledges a credit note finds its parent
    already acknowledged, including when the answer came from a lookup.
   */
  lemma CreditNoteAckedAfterParent(actions: seq<Action>, a: Action, id: InvoiceId)
    requires Run(INITIAL, actions) && Enabled(End(INITIAL, actions), a)
    requires var s := End(INITIAL, actions);
             id in s.rows && s.rows[id].kind == CreditNote && s.rows[id].state != Acked && Next(s, a).rows[id].state == Acked
    ensures var s := End(INITIAL, actions); a.Commit? && AckedParent(s, s.rows[id])
  {
    RunKeepsInv(INITIAL, actions);
    AckOfCreditNote(End(INITIAL, actions), a, id);
  }

  lemma AckOfCreditNote(s: World, a: Action, id: InvoiceId)
    requires Inv(s) && Enabled(s, a) && id in s.rows && s.rows[id].kind == CreditNote
    requires s.rows[id].state != Acked && Next(s, a).rows[id].state == Acked
    ensures a.Commit? && AckedParent(s, s.rows[id])
  {
    assert NextRow(s, a, id).state == Acked;
    assert a.Commit? && s.claims[a.w].invoice == id && ClaimTruthful(s, s.claims[a.w]);
  }

  /** In every run the claim of a credit note of an acknowledged invoice carries that invoice's number, the one in the provider's book. */
  lemma ClaimCarriesOriginalNumber(actions: seq<Action>, w: WorkerId, id: InvoiceId, p: InvoiceId)
    requires Run(INITIAL, actions) && Enabled(End(INITIAL, actions), BeginClaim(w, id))
    requires var s := End(INITIAL, actions);
      && s.rows[id].kind == CreditNote && s.rows[id].parent == Some(p) && p in s.rows && s.rows[p].state == Acked
      && ClaimDecision(s.rows[id], s.now).Granted?
    ensures var s := End(INITIAL, actions); var s' := Next(s, BeginClaim(w, id));
      && w in s'.claims && s'.claims[w].docId == id && s'.claims[w].kind == CreditNote
      && s.rows[p].kraNo == Some(s'.claims[w].parentKraNo) && p in s.acks && s'.claims[w].parentKraNo == s.acks[p] != ""
  {
    RunKeepsInv(INITIAL, actions);
    var s := End(INITIAL, actions);
    assert RowMatches(s.rows[p], p, s.acks);
  }

  /** FAILED_TERMINAL is never visible at a transaction boundary; FAILED_RETRYABLE is only ever written by the watchdog. */
  lemma HiddenStatesStayHidden(actions: seq<Action>, a: Action, id: InvoiceId)
    requires Run(INITIAL, actions) && Enabled(End(INITIAL, actions), a) && id in End(INITIAL, actions).rows
    ensures var s := End(INITIAL, actions);
            && s.rows[id].state != FailedTerminal
            && (s.rows[id].state != FailedRetryable && Next(s, a).rows[id].state == FailedRetryable ==> a.SweepRescue?)
  {
    RunKeepsInv(INITIAL, actions);
    var s := End(INITIAL, actions);
    assert Next(s, a).rows[id] == NextRow(s, a, id);
    if s.rows[id].state != FailedRetryable && NextRow(s, a, id).state == FailedRetryable { RescueWritesRetryable(s, a, id); }
  }

  lemma RescueWritesRetryable(s: World, a: Action, id: InvoiceId)
    requires Enabled(s, a) && id in s.rows && s.rows[id].state != FailedRetryable && NextRow(s, a, id).state == FailedRetryable
    ensures a.SweepRescue?
  {
  }

  lemma {:induction false} EverInitialisedMeansConfigured(s: World, actions: seq<Action>, org: OrgId)
    requires Run(s, actions)
    ensures org in End(s, actions).everInitialised <==> org in s.everInitialised || ConfigureEtims(org) in actions
    decreases |actions|
  {
    if actions != [] {
      EverInitialisedMeansConfigured(Next(s, actions[0]), actions[1..], org);
      assert actions == [actions[0]] + actions[1..];
    }
  }

  /**
    The eTIMS gate: in every run, whatever document has been handed to the
    provider belongs to a seller whose eTIMS configuration succeeded in that run.
   */
  lemma SentOnlyIfConfigured(actions: seq<Action>, id: InvoiceId)
    requires Run(INITIAL, actions) && id in End(INITIAL, actions).sent && id != ""
    ensures id in End(INITIAL, actions).rows && ConfigureEtims(End(INITIAL, actions).rows[id].org) in actions
  {
    RunKeepsInv(INITIAL, actions);
    EverInitialisedMeansConfigured(INITIAL, actions, End(INITIAL, actions).rows[id].org);
  }
}
