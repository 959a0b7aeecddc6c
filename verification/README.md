# CiftPay: fiscal submission, ledger and money, verified

CiftPay turns M-Pesa payments into sales, invoices them, and submits every
invoice to KRA (eTIMS). This project models the parts of its backend where
correctness spans several operations and proves what the code promises about
them: for every input, every run and every interleaving.

| part | files |
|---|---|
| The submission protocol: workers, watchdog, merchant and administrator around an unreliable provider | `FiscalState`, `Provider`, `Submission`, `SubmissionAcks`, `SubmissionPaths`, `SubmissionTiming`, `SubmissionLease`, `SubmissionRetry`, `SubmissionLaws`, `SubmissionWitness`, `MockProvider`, `Submitter` |
| The ledger: payments, sales, document families, exactly-once ingest | `Matcher`, `Ledger`, `LedgerPaid`, `LedgerFamilies`, `LedgerEffects`, `LedgerConservation`, `LedgerChains`, `LedgerReversals`, `Ingest`, `LedgerService` |
| Money: VAT, documents that add up, printing and parsing | `Int64`, `Decimal`, `Vat`, `Documents`, `DocumentLaws`, `Amounts`, `AmountLaws` |
| Two small protocols: receipt messages, rate limiter | `Notify`, `RateLimit` |

`dafny verify dfyconfig.toml` checks everything.

## How the model is built

- One database transaction is one atomic step (`platform/db/db.go:101-117`); a
  failed one leaves no trace. Workers may stop between any two steps. The
  receipt guard of `SendReceipt` and the serial order of ledger transactions
  rest on this reading: at a weaker isolation level than serializable it is an
  assumption.
- There is one clock, in whole seconds, and every update of an invoice row
  stamps `updated_at`; a re-issue or a credit note does so on a document in any
  state. Watchdog sweeps do not overlap.
- `ActivateTaxPending` has no guard of its own; that it runs only after the
  seller's eTIMS configuration has succeeded is a fact about its caller
  (`backend/cmd/api/main.go:141`) and a premise of the activation step, on which
  `SentOnlyIfConfigured` rests.
- Time, the provider's answers, the answers of database lookups, resolved
  shortcodes, sale references and the SMS gateway's answers are parameters.
  Theorems hold for all of them; where a lookup must tell the truth, that is a
  stated premise (`Ledger.Truthful`), and `Service.Lookups` computes answers
  that meet it.
- The transition systems (`Submission`, `Ledger`, `Ingest`, `Notify`) are
  functions of a world and an action. The imperative classes (`InvoiceTable`,
  `Submitter`, `Mock`, `Service`, `Notifier`, `Limiter`) update their fields
  step by step as the source does, roll back as the source does, and are proved
  to do exactly those steps: `Submit`, the sweep, the retry and `SendReceipt`
  are runs of their transition systems, with the same rows, books and writes.
- Amounts in `Int64`, `Vat`, `Documents` and `Amounts` are 64-bit with
  wrap-around; figures in the ledger modules are unbounded.

## What turned out false, and exactly when the property holds

- **Lease safety** does not follow from the 90 s and 15 min limits alone. A
  worker that finds an invoice exhausted (`fiscal/submitter.go:104-134`) does
  not stop: it goes on with a document it never built, and its late
  compare-and-set accepts any SUBMITTED row. If the invoice is re-queued and
  another worker claims it within its 90 seconds, it overwrites that claim
  (`LeaseCanBreak` is a concrete run). The condition is exact: a retry or a
  requeue can be continued to a broken lease if and only if such a worker is
  live (`RequeueIsSafeIffNoLiveGhost`). Lease safety holds in every timely run
  that re-queues only otherwise; a merchant or administrator who re-queues no
  row touched in the last 90 seconds is on the safe side (`PatientRunIsLeased`).
  Bounded attempts, bounded submissions and everything about acknowledgements
  hold without that. The job queue's uniqueness option may rule it out; it is
  library behaviour and not modelled.
- **Legal paths** fail in exactly one way. In every run, with no premise on
  timing, a transaction's writes follow the transition table if and only if it
  does not acknowledge a row that is not SUBMITTED, the guard `AckInvoice` lacks
  (`LegalUnlessAckedElsewhere`). Timely, disciplined runs never do that
  (`WritesAreLegal`); `IllegalWriteIsReachable` is a timely run that writes ACKED
  over NEEDS_REVIEW.
- **counter_window** is missing from the CHECK on `payments.match_rule`
  (`backend/db/migrations/0001_init.sql:236`), so every payment the counter
  rules decide is rolled back (`CounterWindowIsRefused`; `CounterWindowArises`
  shows such a payment). All ledger theorems
  are proved for any set of admitted rules, hence for the schema as it is and
  as it was meant.
- **A repeated reversal** is meant to be an idempotent success
  (`ledger/service.go:854-857`), but the "already superseded" check comes first
  and makes that branch unreachable (`RepeatedReversalIsRefused`;
  `ReversalRepeated` is a concrete run).
- **Net conservation** fails by exactly one sale per re-issue of an invoice that
  KRA had not acknowledged (`ExactNet`, `NetConservation`; `ReissueOverstates`
  is a concrete run).
- **At most one message per receipt** fails when the gateway accepts a message
  and its answer is lost: the row is marked failed and the receipt is sent again
  (`ReceiptSentTwice`). At most one send reports success; the gateway accepts at
  most one message more than it loses answers for, and at most one in all if and
  only if no lost answer is followed by another accepted send
  (`AtMostOneMessage`).
- **`FormatCents`** reads back if and only if the amount is non-negative or a
  whole number of shillings; **`FormatKES`** for every amount but the smallest
  64-bit number.
- **quantity × price** may wrap (`ledger/handler.go:561`); the document the code
  builds is accepted if and only if no wrapped line total is non-positive, and an
  accepted line is worth quantity × price if and only if that product fits 64 bits.
- A crashed receipt worker leaves a row that blocks that receipt for ever
  (`OrphanBlocksForEver`): at most once, not at least once.
- The rate limiter's worst case in one window length is `2 * limit - 1`, and it
  is reached.
- The retry schedule in the architecture document differs from the code
  (1 min, 5 min, 1 h, 12 h, 12 h; six attempts); the model follows the code.

## Model

| member | source | states |
|---|---|---|
| SubmissionLease.LeaseSafety | backend/internal/fiscal/submitter.go:82-310 | In every timely, disciplined run no two claims of one invoice are in flight together, and a live claim owns its row: SUBMITTED, its attempt, and no claim granted since |
| SubmissionLease.OutcomeBelongsToClaim | backend/internal/fiscal/submitter.go:230-308 | Every outcome that takes effect belongs to the claim that was granted last and set SUBMITTED; an exhausted worker's never takes effect |
| SubmissionPaths.LegalUnlessAckedElsewhere | backend/internal/fiscal/state.go:32-41 | In every run, with no premise on timing, what a transaction writes to a row ends in the state the row then shows, and is a legal path through the table if and only if it is not the acknowledgement of a row that is not SUBMITTED |
| SubmissionPaths.StepPath | backend/internal/platform/db/gen/fiscal.sql.go:1237-1247 | The same for one step from any world that satisfies the run invariant |
| SubmissionLease.WritesAreLegal | backend/internal/fiscal/state.go:32-41 | Its corollary: in timely, disciplined runs every transaction writes a legal path that ends in the state the row then shows |
| SubmissionLease.LeasedRunKeeps | backend/internal/fiscal/submitter.go:401-403 | Ownership, and harmless exhausted workers, are invariants of all timely, disciplined runs |
| SubmissionLease.OwnedRowIsStable | backend/internal/platform/db/gen/fiscal.sql.go:1108-1112 | No step but its own outcome moves a row that a live worker owns, except that superseding the document stamps it |
| SubmissionLease.RequeueIsSafeIffNoLiveGhost | backend/internal/fiscal/submitter.go:104-134 | From any leased world a retry or requeue can be continued, timely and disciplined, to a broken lease if and only if an exhausted worker of that invoice is live |
| SubmissionLease.QuietRowHasNoGhost | backend/internal/fiscal/submitter.go:401-403 | In timely runs a row not touched for 90 seconds has no live exhausted worker |
| SubmissionLease.PatientRunIsLeased | backend/internal/fiscal/submitter.go:354-368 | A timely run whose retries and requeues all wait for that is disciplined, so lease safety and legal paths hold in it |
| SubmissionLease.GhostBreaksLease | backend/internal/fiscal/submitter.go:289-296 | The run that breaks it: the exhausted worker, answered or not yet, commits on the claim of any free worker |
| SubmissionLease.OverwrittenWorkerAcksIllegally | backend/internal/platform/db/gen/fiscal.sql.go:15-21 | When the provider accepts an overwritten worker's submission, its timely acknowledgement is no legal path |
| SubmissionLease.RetryCanWriteIllegally | backend/internal/fiscal/submitter.go:230-263 | From any leased world, a retry under a live exhausted worker of an invoice without a number can be followed, timely, by such a write |
| SubmissionWitness.LeaseCanBreak | backend/internal/fiscal/submitter.go:104-134 | A concrete timely, disciplined run from the initial world after which one merchant retry leads to a broken lease |
| SubmissionWitness.IllegalWriteIsReachable | backend/internal/platform/db/gen/fiscal.sql.go:15-21 | A concrete timely run from the initial world whose next outcome writes ACKED over NEEDS_REVIEW |
| SubmissionWitness.LeasedRunsCompose | backend/internal/fiscal/submitter.go:401-403 | Timely, disciplined runs compose |
| SubmissionTiming.TimelyRunKeeps | backend/internal/fiscal/submitter.go:401-403 | In every timely run, whatever is re-queued: claims are no newer than their rows, and what the watchdog has listed or rescued is nobody's |
| SubmissionTiming.RescuesOnlyTheDead | backend/internal/fiscal/watchdog.go:40-106 | In every timely run the watchdog rescues only rows still SUBMITTED at the listed attempt with no live worker on them |
| SubmissionAcks.AckedIsAbsorbing | backend/internal/fiscal/submitter.go:177-263 | From any reachable world, for any number of workers even past their time, an ACKED invoice stays ACKED with the same number |
| SubmissionAcks.OneKraNumberPerInvoice | backend/internal/fiscal/submitter.go:177-263 | No invoice ever has two different KRA numbers written to it |
| SubmissionAcks.KraNumberIffAcked | backend/internal/platform/db/gen/fiscal.sql.go:15-21 | A KRA number is present exactly on ACKED rows |
| SubmissionAcks.CreditNoteAckedAfterParent | backend/internal/fiscal/submitter.go:162-215 | The step that acknowledges a credit note finds its parent already ACKED, also when the answer came from a lookup |
| SubmissionAcks.ClaimCarriesOriginalNumber | backend/internal/fiscal/submitter.go:162-170 | In every run the claim granted to a credit note of an ACKED invoice carries that invoice's KRA number, the one in the provider's book |
| SubmissionAcks.HiddenStatesStayHidden | backend/internal/fiscal/watchdog.go:40-106 | FAILED_TERMINAL is never visible at a transaction boundary; only the watchdog persists FAILED_RETRYABLE |
| SubmissionAcks.SentOnlyIfConfigured | backend/internal/ledger/service.go:316-414 | No document reaches the provider unless its seller's eTIMS configuration succeeded earlier in the run |
| SubmissionAcks.EverInitialisedMeansConfigured | backend/internal/ledger/service.go:392-414 | Whoever counts as initialised was configured by a step of the run, and conversely |
| SubmissionAcks.StepKeepsInv | backend/internal/fiscal/submitter.go:82-310 | Every step keeps rows, claims and the provider's book consistent |
| SubmissionAcks.RunKeepsInv | backend/internal/fiscal/submitter.go:82-310 | The same over whole runs, with no timing premise |
| SubmissionAcks.RowsPersist | backend/internal/fiscal/submitter.go:82-310 | Rows never vanish or change identity, and ACKED rows never move |
| SubmissionRetry.AttemptsBounded | backend/internal/fiscal/state.go:78-121 | In every timely run without requeue, whenever merchants retry: attempt at most 5 in QUEUED, 1..6 in SUBMITTED, at most 7 anywhere |
| SubmissionRetry.StepKeepsClose | backend/internal/fiscal/state.go:78-99 | How far a row can get ahead of a live worker: the back-off outlives it |
| SubmissionRetry.WriteLowersRank | backend/internal/fiscal/state.go:78-121 | In timely runs every write other than a merchant or administrator action lowers a rank, unless it acknowledges an ACKED row once more |
| SubmissionRetry.EpochTerminates | backend/internal/fiscal/state.go:78-121 | So the writes of a retry epoch are bounded by its rank and the workers already on the invoice |
| SubmissionRetry.GrantsBounded | backend/internal/fiscal/submitter.go:136-157 | Over a timely run without requeue at most six claims are granted per epoch |
| SubmissionRetry.SubmitsNeedGrants | backend/internal/fiscal/submitter.go:177-215 | Every submission is paid for by a granted claim |
| SubmissionRetry.AtMostSixSubmissions | backend/internal/fiscal/state.go:108-121 | In every timely run without requeue a document is submitted at most six times for its creation and six times for each merchant retry |
| SubmissionRetry.EpochSubmissions | backend/internal/fiscal/state.go:108-121 | From any reachable world a single epoch submits at most six times, less the attempts used up, plus the workers that had not submitted yet when it began |
| SubmissionRetry.SixClaimsTakeADay | backend/internal/fiscal/state.go:78-99 | In every timely run without rescues the instants of claims one and six of an epoch are at least 25 h 06 min apart |
| SubmissionRetry.UnrescuedIsLeased | backend/internal/fiscal/submitter.go:104-134 | A timely run without rescues has no exhausted worker and is disciplined |
| SubmissionLaws.TransitionTable | backend/internal/fiscal/state.go:32-41 | The eleven legal transitions, and no other |
| SubmissionLaws.AfterFailure | backend/internal/fiscal/state.go:76-121 | After failed attempt n the invoice goes to review exactly for a validation or configuration error or n = 6, and can otherwise be claimed again exactly 60, 300, 3600, 43200 and 43200 seconds later |
| SubmissionLaws.AfterRescue | backend/internal/fiscal/watchdog.go:64-73 | A rescued invoice is claimable at once with one attempt more, and exhausted from the fifth on |
| SubmissionLaws.AfterReview | backend/internal/admin/admin.go:288-302 | A retry starts over and a requeue goes on counting, both claimable at once; neither touches a row that is waiting or done |
| SubmissionLaws.NewDocuments | backend/internal/ledger/service.go:316-386 | A document of a configured seller is claimable at once, another one only after its seller's activation |
| SubmissionLaws.RetriesLookUpFirst | backend/internal/fiscal/submitter.go:136-172 | The claim of a first attempt submits, that of a later one looks up first; it names document, kind, attempt and time |
| SubmissionLaws.SubmitsAfterLookup | backend/internal/fiscal/submitter.go:182-200 | After a lookup a worker submits exactly when lookup is not supported, the document is not found or no number is named |
| SubmissionLaws.ActivationQueuesAll | backend/internal/platform/db/gen/fiscal.sql.go:72-76 | Activation queues every withheld document of the seller and touches nothing else |
| SubmissionLaws.EnvironmentIsFree | backend/internal/fiscal/submitter.go:82-310 | Crashes, time, claims, retries, requeues and superseding are possible at any moment of a run |
| SubmissionLaws.StaleIsFifteenMinutes | backend/internal/platform/db/gen/fiscal.sql.go:1108-1112 | A sweep lists a row exactly when it has been SUBMITTED and untouched for more than 900 seconds |
| SubmissionLaws.LiveIsNinetySeconds | backend/internal/fiscal/submitter.go:401-403 | A worker may write for 90 seconds |
| SubmissionLaws.ScheduledOnlyInQueue | backend/internal/platform/db/gen/fiscal.sql.go:1237-1247 | In every run only a QUEUED row has a next attempt scheduled |
| Provider.ProviderIdempotent | backend/internal/fiscal/provider.go:19-26 | Over any sequence of calls that meet the contract, all answers for one document carry the same number |
| Provider.AnswersComeFromBook | backend/internal/fiscal/provider.go:19-26 | Once acknowledged, every later answer for a document is the booked number |
| Provider.AccidentsAreAllowed | backend/internal/fiscal/provider.go:19-26 | The contract admits failure without effect, success, a lost answer, a replay and a failing lookup |
| MockProvider.Mock.constructor | backend/internal/fiscal/mock/mock.go:57-65 | An empty book with the chosen failure mode |
| MockProvider.Mock.Send | backend/internal/fiscal/mock/mock.go:139-173 | Replay, injected failure or new acknowledgement, in that order, with the counters |
| MockProvider.Mock.SubmitInvoice | backend/internal/fiscal/mock/mock.go:98-103 | Meets the provider contract, and what it answers and books for every document and failure mode |
| MockProvider.Mock.SubmitCreditNote | backend/internal/fiscal/mock/mock.go:129-137 | What it answers and books; it meets the provider contract exactly when the document has an id, was acknowledged before or is rejected |
| MockProvider.Mock.LookupInvoice | backend/internal/fiscal/mock/mock.go:113-126 | Never invents an answer and changes nothing |
| MockProvider.FailsForEver | backend/internal/fiscal/mock/mock.go:139-173 | Told to fail without a limit, the mock refuses a new document for ever, with the error its mode names |
| Submitter.InvoiceTable.SetInvoiceState | backend/internal/platform/db/gen/fiscal.sql.go:1237-1247 | Compare-and-set on the state, with the attempt kept when none is given |
| Submitter.InvoiceTable.AckInvoice | backend/internal/platform/db/gen/fiscal.sql.go:15-21 | Writes ACKED and the number whatever the state was |
| Submitter.InvoiceTable.ListStaleSubmittedInvoices | backend/internal/platform/db/gen/fiscal.sql.go:1108-1112 | Lists every row SUBMITTED for more than 15 minutes, once, and no other |
| Submitter.InvoiceTable.Retry | backend/internal/fiscal/submitter.go:354-368 | Resets exactly the rows awaiting review, with the rows and writes of the protocol's retry step |
| Submitter.Submitter.ClaimTransaction | backend/internal/fiscal/submitter.go:90-172 | Skips, exhausts or grants as decided; the rows, the writes in order and the claim; rolled back when the document cannot be built |
| Submitter.Submitter.CallProvider | backend/internal/fiscal/submitter.go:177-215 | Lookup first on a retry, submit otherwise; answer and effect on the backend |
| Submitter.Submitter.OutcomeTransaction | backend/internal/fiscal/submitter.go:230-308 | Commits whole or leaves no trace; the writes in order |
| Submitter.Submitter.Submit | backend/internal/fiscal/submitter.go:82-310 | How it ends for every row, document and backend state, and the rows, book and writes of the claim and the outcome together |
| Submitter.Submitter.Finish | backend/internal/fiscal/submitter.go:177-308 | The calls and the outcome of a claim: answer, row and writes |
| Submitter.Submitter.SubmitAsRun | backend/internal/fiscal/submitter.go:82-310 | In any world that shows the table and the book, Submit is a run of the protocol, claim, calls, outcome, with the same rows, book and writes |
| Submitter.SweepStale | backend/internal/fiscal/watchdog.go:40-106 | The sweep is a run of the protocol, list, rescues, end, and changes nothing but the rows it listed |
| Submitter.SweepRescuesExactlyStale | backend/internal/fiscal/watchdog.go:40-106 | Swept alone, exactly the stale rows become FAILED_RETRYABLE with one more attempt |
| Submitter.ClaimIsAStep | backend/internal/fiscal/submitter.go:90-172 | The claim transaction and the protocol's claim step give the same row, claim and writes |
| Submitter.OutcomeIsAStep | backend/internal/fiscal/submitter.go:230-308 | The outcome transaction and the protocol's commit step give the same row and writes and end the claim |
| Submitter.CallsAreARun | backend/internal/fiscal/submitter.go:177-215 | The provider calls are enabled lookup and submit steps with the same effect on the book and the claim |
| Submitter.AttemptIsARun | backend/internal/fiscal/submitter.go:82-310 | One attempt, claim to outcome, is a run of the protocol with the same rows, book and writes |
| Submitter.SweepIsARun | backend/internal/fiscal/watchdog.go:40-106 | Listing, rescuing each listed row and ending the sweep is a run with exactly those rescues |
| Submitter.ExhaustedIsRolledBack | backend/internal/fiscal/submitter.go:104-134 | The exhausted branch ends in NEEDS_REVIEW, with the empty document refused and its outcome rolled back |
| Submitter.AttemptAdvances | backend/internal/fiscal/state.go:108-121 | One attempt on a waiting invoice or credit note leaves it waiting after one more failure, or finished |
| Submitter.DriveToEnd | backend/internal/fiscal/mock/mock.go:139-173 | Composed with the mock failing k times: ACKED on attempt k + 1 if k is at most 5, else NEEDS_REVIEW after six |
| Submitter.DriveCreditNote | backend/internal/fiscal/submitter.go:162-215 | The same for a credit note of an ACKED invoice with a total other than zero: ACKED on attempt k + 1 if k is at most 5, else NEEDS_REVIEW |
| Submitter.CreditNoteNeedsOriginal | backend/internal/fiscal/mock/mock.go:129-137 | With no injected failure a credit note is ACKED exactly when it names its original's number and has a total, and otherwise waits for review at once |
| Submitter.LostAnswerIsRecovered | backend/internal/fiscal/submitter.go:182-200 | A retry of a document acknowledged without an answer recovers the number by lookup and submits nothing |
| Matcher.MatchShape | backend/internal/ledger/matcher.go:91-144 | Which rule decides, when the payment is matched, partial, a cash sale or unmatched, and the sale it names |
| LedgerPaid.PaidIffInvoiced | backend/internal/ledger/handler.go:600-741 | In every run a sale is paid exactly when it has one original invoice and open exactly when it has none |
| LedgerPaid.UsedPaymentsArePaidFor | backend/internal/ledger/service.go:173-264 | Matched and cash-sale payments point to a paid sale; unmatched ones, and only they, to none |
| LedgerPaid.OneSalePerPayment | backend/internal/ledger/handler.go:600-741 | No payment backs documents of two sales or two originals, nor any document while it awaits a sale |
| LedgerPaid.ConvertedAtMostOnce | backend/internal/ledger/handler.go:600-682 | A payment is converted at most once in any run |
| LedgerPaid.UseIsFinal | backend/internal/ledger/handler.go:600-682 | A payment that has found its sale keeps it, and converting it again is refused |
| LedgerPaid.MatchesAreOpen | backend/internal/platform/db/gen/ledger.sql.go:398-440 | With truthful lookups the matcher only names an open sale of the same organisation |
| LedgerPaid.StepKeeps | backend/internal/ledger/service.go:173-264 | Every transaction keeps the paid-and-invoiced invariant, whatever rules the schema admits |
| LedgerPaid.RunKeeps | backend/internal/ledger/service.go:173-264 | The same over whole runs |
| LedgerPaid.CounterWindowIsRefused | backend/db/migrations/0001_init.sql:236 | A payment the counter rules decide is refused and has no effect under the schema as it is; with the rule admitted it would be recorded unless a duplicate |
| LedgerPaid.CounterWindowArises | backend/internal/ledger/matcher.go:116-133 | A reachable ledger and truthful answers for which the counter rules decide |
| LedgerPaid.CashSaleWorthItsPayment | backend/internal/ledger/service.go:266-304 | In every run payments are positive and a cash sale is worth exactly the payment that made it |
| LedgerEffects.CashFiguresAddUp | backend/internal/ledger/service.go:266-304 | A cash sale's figures add up, none is negative, and the tax is the one nearest integer |
| LedgerEffects.MatchedMeansCovered | backend/internal/ledger/matcher.go:91-144 | With truthful lookups a payment is matched only to a sale it covers, partial only on one it does not, and unmatched only if no open sale has its reference |
| LedgerEffects.RefsMatchInAnyCase | backend/internal/platform/db/gen/ledger.sql.go:495-497 | References match exactly when they differ only in the case of letters |
| LedgerEffects.ReferenceDecides | backend/internal/ledger/matcher.go:91-104 | An open sale whose reference was typed in any case is matched by reference, and only such a sale is |
| LedgerEffects.CounterDecides | backend/internal/ledger/matcher.go:116-133 | The counter rules name an open sale of the last 300 seconds with the same customer or amount, and find one whenever there is one and no reference matches |
| LedgerEffects.CounterOrder | backend/internal/ledger/matcher.go:116-133 | The customer comes before the amount and the latest sale before older ones |
| LedgerEffects.SchemaAdmits | backend/db/migrations/0001_init.sql:236 | The schema admits every rule but the counter's |
| LedgerEffects.RecordedExactly | backend/internal/ledger/service.go:173-264 | A confirmation is recorded exactly for a positive amount, a new id, an admitted rule and, where a cash sale is due, a usable item |
| LedgerEffects.PaymentAsDelivered | backend/internal/ledger/service.go:236-249 | The payment is stored as delivered, with status, sale and rule as decided, and no other payment changes |
| LedgerEffects.IngestEffect | backend/internal/ledger/service.go:173-304 | What each decision does to sales and documents |
| LedgerEffects.CreateSaleEffect | backend/internal/ledger/handler.go:1102-1137 | A sale is stored as entered; a paid one gets an original invoice without a payment |
| LedgerEffects.SettleEffect | backend/internal/ledger/handler.go:686-741 | Settling leaves a paid sale, one original backed by the latest payment, every payment of the sale matched and every other one untouched |
| LedgerEffects.ConvertEffect | backend/internal/ledger/handler.go:600-682 | Exactly when a conversion succeeds, and the payment, the sale with its figures and customer, and the original it then leaves |
| LedgerEffects.ReissueEffect | backend/internal/ledger/service.go:480-646 | A re-issue succeeds exactly when the head is an invoice; the new head repeats its sale, payment and figures and names its parent, an acknowledged head gets its credit note, and nothing else changes |
| LedgerEffects.CreditEffect | backend/internal/ledger/service.go:690-807 | A credit note succeeds exactly on an unsuperseded invoice, becomes the head, and reverses that invoice's payment and no other |
| LedgerEffects.AckEffect | backend/internal/fiscal/submitter.go:230-263 | An acknowledgement marks its document and nothing else |
| LedgerFamilies.OneHeadPerSale | backend/internal/ledger/service.go:480-607 | In every run two documents lead to the same unsuperseded head exactly when they belong to the same sale |
| LedgerFamilies.LinksPointForward | backend/internal/ledger/service.go:480-607 | superseded_by points from an older to a newer document of the same sale |
| LedgerFamilies.SupersededOnce | backend/internal/platform/db/gen/fiscal.sql.go:1299-1303 | superseded_by never changes once set, although the update has no guard |
| LedgerFamilies.AtMostOneCreditNote | backend/internal/ledger/service.go:690-807 | An invoice is cancelled by at most one credit note, whatever is repeated |
| LedgerFamilies.RepeatedReversalIsRefused | backend/internal/ledger/service.go:811-859 | A reversal succeeds exactly on an unsuperseded invoice, and repeated it is refused as already superseded, never as an existing credit note |
| LedgerFamilies.ReversalRepeated | backend/internal/ledger/service.go:811-859 | A run in which a payment is reversed once and the repeated notification is refused as already superseded |
| LedgerReversals.ReversalCreditsHead | backend/internal/ledger/service.go:811-859 | In every run, from any document of the payment's sale: a reversal succeeds exactly when the family's head is an invoice, and its credit note cancels that head |
| LedgerReversals.FindsTheStandingInvoice | backend/internal/platform/db/gen/fiscal.sql.go:520-524 | The invoice found for a payment is the head of its family whenever the head is an invoice |
| LedgerReversals.NewestIsLatest | backend/internal/platform/db/gen/fiscal.sql.go:701-705 | The query returns a selected invoice and no newer one is left |
| LedgerReversals.NothingToReverse | backend/internal/ledger/service.go:811-848 | An unknown payment, or one without an invoiced sale, is refused as not found |
| LedgerReversals.RunKeeps | backend/internal/ledger/service.go:480-807 | In every run all documents of a sale are backed by the same payment |
| LedgerFamilies.ChainEndsInHead | backend/internal/ledger/service.go:493-499 | From any document the chain ends in the head of its sale |
| LedgerFamilies.Classified | backend/internal/ledger/service.go:480-807 | Every transaction starts a family, replaces a head, credits and replaces one, acknowledges a document or changes none |
| LedgerFamilies.StepKeeps | backend/internal/ledger/service.go:480-807 | Every transaction keeps the forest, the single head and the single credit note |
| LedgerFamilies.RunKeeps | backend/internal/ledger/service.go:480-807 | The same over whole runs |
| LedgerConservation.NetConservation | backend/internal/ledger/service.go:529-560 | A sale's documents sum to the sale while its head is an invoice and to zero once it is a credit note, if and only if no re-issue acted on an unacknowledged invoice (or the sale is worth nothing) |
| LedgerConservation.ReissueOverstates | backend/internal/ledger/service.go:562-593 | A run of one sale and one re-issue whose documents claim twice what is owed |
| LedgerConservation.ExactNet | backend/internal/ledger/service.go:480-807 | The exact sum of subtotal, tax and total after any run: what is owed plus the sale once per such re-issue |
| LedgerConservation.ExcessCounts | backend/internal/ledger/service.go:480-807 | Invoices less credit notes less the open head counts exactly those re-issues |
| LedgerConservation.ActiveIsHeadKind | backend/internal/ledger/service.go:493-502 | The deciding head is where every document of the sale leads |
| LedgerChains.FollowChain | backend/internal/ledger/service.go:493-499 | The chain loop ends, at the one head of the family |
| LedgerChains.BoundedLookup | backend/internal/platform/db/gen/fiscal.sql.go:561-585 | The recursive query finds the head if and only if it is at most nine hops away; otherwise it stops exactly nine hops along |
| LedgerChains.ClaimReissuesHead | backend/internal/ledger/service.go:648-686 | Claiming by any code of a family of any length, with any transactions in between, re-issues the true head |
| LedgerChains.InterruptedReversal | backend/internal/ledger/service.go:811-859 | A reversal whose lookup and credit are separate transactions, with anything in between, succeeds exactly when the invoice is still the head and is otherwise refused as superseded |
| LedgerChains.ReissueAddsOneHop | backend/internal/ledger/service.go:595-607 | A re-issue makes the chain from any document of the family one hop longer |
| LedgerChains.ChainsOfEveryLength | backend/internal/platform/db/gen/fiscal.sql.go:561-585 | For every length there is a run with such a chain; beyond nine hops the query misses its head |
| Ingest.ExactlyOnce | backend/internal/ledger/service.go:97-264 | Under any duplicates, crashes and sweeps the ledger is what its log of distinct transaction ids produces, each applied once, successfully, from the payload stored first |
| Ingest.ProcessedMeansPaid | backend/internal/ledger/service.go:149-171 | An event marked processed without an error has its payment |
| Ingest.ProcessedMeansPaidOrGivenUp | backend/internal/ledger/service.go:149-171 | In every behaviour a processed event has its payment, or some step found its shortcode unverified |
| Ingest.FailedStaysListed | backend/internal/ledger/service.go:163-166 | After a failed tenant transaction and its mark an unprocessed event is still unprocessed, with an error, and a sweep may list it again |
| Ingest.FailureIsMarked | backend/internal/ledger/service.go:149-171 | A tenant transaction that fails, but not as a duplicate, changes nothing and leads to that mark |
| Ingest.FirstDelivery | backend/internal/ledger/service.go:97-136 | What a first delivery stores: unprocessed and handed on, or closed with an error when the shortcode is not verified |
| Ingest.SweepResolves | backend/internal/mpesa/reconcile.go:64-77 | A sweep goes on with the stored payload, or closes the event with an error |
| Ingest.FirstPayloadStays | backend/internal/platform/db/gen/mpesa.sql.go:314-319 | The payload stored first is never replaced |
| Ingest.DuplicateChangesNothing | backend/internal/ledger/service.go:97-171 | Once an id has its payment, no handler or sweep step for it changes the ledger: no second sale is marked paid |
| Ingest.SweepFinishes | backend/internal/mpesa/reconcile.go:41-95 | From any reachable system one sweep whose tenant transaction commits or finds a duplicate finishes an unprocessed event |
| Ingest.StepKeeps | backend/internal/ledger/service.go:97-264 | Every step of handlers, sweeps and merchants keeps the exactly-once invariant |
| Ingest.BehaviourKeeps | backend/internal/ledger/service.go:97-264 | The same over whole behaviours |
| Ingest.PaymentsOfStep | backend/internal/platform/db/gen/ledger.sql.go:158-162 | Payments appear only through their own first ingest and never disappear |
| LedgerService.Service.constructor | backend/internal/ledger/service.go:66-68 | An empty, valid ledger |
| LedgerService.Service.FindSale | backend/internal/platform/db/gen/ledger.sql.go:398-440 | A LIMIT 1 query returns a selected sale, the latest where ordered, or none exactly when there is none |
| LedgerService.Service.Lookups | backend/internal/ledger/service.go:183-217 | The three lookups answer truthfully |
| LedgerService.Service.RecordPayment | backend/internal/ledger/service.go:173-264 | applyPayment step by step equals its transaction, rolled back on every error |
| LedgerService.Service.ProcessStored | backend/internal/ledger/service.go:149-171 | Success marks the event processed without an error; failure adds an error and leaves processed as it was; when the ledger and the log move |
| LedgerService.Service.IngestC2B | backend/internal/ledger/service.go:97-136 | Duplicate, unknown shortcode, failure (the event stays unprocessed) and success: what each does to events and ledger |
| LedgerService.Service.ReconcileEvent | backend/internal/mpesa/reconcile.go:52-87 | One event of a sweep ends processed with its payment or carries an error, with the ledger untouched |
| LedgerService.Service.Reconcile | backend/internal/mpesa/reconcile.go:41-95 | A sweep handles every listed event up to the first resolver error, touches no other, and its processed, skipped and failed counts are right |
| LedgerService.SettledHasPayment | backend/internal/ledger/service.go:149-171 | In a valid service every event a sweep or handler finished has its payment |
| LedgerService.Service.ConvertPayment | backend/internal/ledger/handler.go:600-682 | Equals the conversion transaction and keeps the ledger valid |
| LedgerService.Service.SettleSale | backend/internal/ledger/handler.go:686-741 | Both loops: the latest payment backs the invoice, partial payments become matched |
| LedgerService.Service.NewSale | backend/internal/ledger/handler.go:1102-1137 | An open sale, or a paid one with its invoice |
| LedgerService.Service.ReissueInvoice | backend/internal/ledger/service.go:480-646 | Walks to the head, credits it if acknowledged, replaces it; keeps the ledger valid |
| LedgerService.Service.CreditInvoice | backend/internal/ledger/service.go:690-807 | Equals the credit-note transaction with its refusals in order |
| LedgerService.Service.IngestReversal | backend/internal/ledger/service.go:811-859 | Finds the payment's invoice and credits it |
| Vat.LineTaxIsNearest | backend/internal/fiscal/taxcodes.go:60-67 | For any rate the tax is a nearest integer to total * rate / (10000 + rate) |
| Vat.LineTaxIsTheNearest | backend/internal/fiscal/taxcodes.go:60-81 | For a rate of the KRA table there is never a tie, so it is the only nearest integer |
| Vat.LineTaxIsOdd | backend/internal/fiscal/taxcodes.go:70-81 | Negating the total negates the tax |
| Vat.LineTaxIsMonotone | backend/internal/fiscal/taxcodes.go:70-81 | A larger total never has less tax |
| Vat.LineTaxInRange | backend/internal/fiscal/taxcodes.go:60-67 | The tax lies between nothing and the whole total |
| Vat.PerLineDrift | backend/internal/fiscal/taxcodes.go:84-90 | Per-line rounding of n lines differs from rounding once by at most (n + 1) / 2 cents |
| DocumentLaws.TaxByLetter | backend/internal/fiscal/taxcodes.go:20-26 | The letters A to E and no other; B contains 16/116, E 8/108 of the total to the nearest cent, A, C and D nothing |
| DocumentLaws.TiesGoAwayFromZero | backend/internal/fiscal/taxcodes.go:70-81 | A tie goes away from zero |
| Documents.HeaderTotals | backend/internal/fiscal/taxcodes.go:84-90 | The totals loop gives a header whose three figures are the column sums |
| Documents.ColumnsAgree | backend/internal/ledger/handler.go:517-566 | Subtotal plus tax is the total column, with wrap-around |
| Documents.BuildSale | backend/internal/ledger/handler.go:517-566 | The line loop succeeds exactly when every line builds, reports the first line refused, and its header adds up |
| DocumentLaws.BuiltLineSays | backend/internal/ledger/handler.go:519-561 | A built line's item code, description, category and price are what was entered or the catalogue's, its quantity the number written or 1 |
| DocumentLaws.RefusedBecause | backend/internal/ledger/handler.go:519-560 | Exactly why a line is refused, in the order of the checks |
| DocumentLaws.ParseIntReads | backend/internal/ledger/handler.go:553-556 | A quantity is read exactly when it is digits with an optional sign that fit 64 bits, and as that number |
| Documents.ValidateInvoice | backend/internal/fiscal/oscu/oscu.go:699-729 | No fault exactly when the document is acceptable; otherwise a fault it has, and the first in the order of the checks |
| DocumentLaws.PinForm | backend/internal/fiscal/oscu/oscu.go:699-712 | A PIN is A or P, nine digits and a capital letter |
| DocumentLaws.PinLength | backend/internal/fiscal/oscu/oscu.go:699-712 | Eleven characters, in that form and no other |
| Documents.CheckLines | backend/internal/fiscal/mock/mock.go:237-248 | The first line fault in the order of the checks, or the sum of the line totals |
| Documents.BuiltSalePasses | backend/internal/fiscal/oscu/oscu.go:699-729 | A built sale passes the checks if and only if no line total wrapped to a non-positive number |
| Documents.AcceptedTotalIsExact | backend/internal/ledger/handler.go:561 | An accepted line is worth quantity times price exactly when the product fits 64 bits |
| Documents.OverflowCanPass | backend/internal/ledger/handler.go:561 | Four units at 2^62 + 1 cents pass as a line of four cents |
| Documents.OverflowIsRefused | backend/internal/ledger/handler.go:561 | Two units at 2^62 cents wrap to the minimum and are refused |
| Documents.ToWireLines | backend/internal/fiscal/oscu/oscu.go:687-697 | The wire lines of a sale, one by one |
| Documents.ToWireCreditLines | backend/internal/fiscal/oscu/oscu.go:672-685 | The wire lines of a credit note, one by one |
| DocumentLaws.SaleWireSays | backend/internal/fiscal/oscu/oscu.go:687-697 | Each wire field of an accepted line: code, name, category, and the amounts from total and tax |
| DocumentLaws.CreditWireSays | backend/internal/fiscal/oscu/oscu.go:672-685 | Each wire amount of its credit line, below zero |
| Documents.CreditLineMirrorsSale | backend/internal/fiscal/oscu/oscu.go:672-697 | A wire credit line negates supply, taxable, tax and total of the sale line and keeps the rest |
| Documents.CreditHeaderMirrorsSale | backend/internal/fiscal/oscu/oscu.go:519-544 | The header is mirrored exactly when none of its sums wrapped below zero |
| Documents.CreditNoteMirrorsSale | backend/internal/fiscal/oscu/oscu.go:519-544 | Every wire line mirrors its sale line, and the header mirrors the sale's exactly when no column sum wrapped below zero, in particular when the true total fits |
| Documents.VatByCategory | backend/internal/publicapi/receipt.go:130-172 | The receipt's VAT table: one row per category in order of appearance, summing to the header columns |
| Documents.CategoriesOnceEach | backend/internal/publicapi/receipt.go:130-172 | Every category of the lines is listed, once, and no other |
| DocumentLaws.CategoriesInOrder | backend/internal/publicapi/receipt.go:130-172 | The table lists the categories in the order in which they first appear |
| Documents.VatTableSumsToHeader | backend/internal/publicapi/receipt.go:130-172 | Grouping loses nothing and counts nothing twice |
| Amounts.FormatKES | backend/internal/notify/templates.go:74-96 | The loop that inserts separators prints the specified text |
| AmountLaws.CommasEveryThree | backend/internal/notify/templates.go:80-87 | In a grouped numeral the character k places from the end is a comma exactly when k mod 4 is 3, and the text never starts with one |
| AmountLaws.KESForm | backend/internal/notify/templates.go:74-96 | A minus below zero, the grouped shillings, and two decimals exactly when there are cents |
| AmountLaws.CentsForm | backend/internal/mpesa/types.go:233-235 | Digits, a dot and two decimals |
| AmountLaws.ParseDecimal | backend/internal/mpesa/types.go:115-133 | On every decimal number with an optional sign the parser gives the exact number of cents, or says sub-cent or out of range |
| AmountLaws.MantissaSpellsDigits | backend/internal/mpesa/types.go:115-133 | The number read is the one that all its digits spell |
| AmountLaws.BlanksDoNotMatter | backend/internal/mpesa/types.go:115-119 | White space around an amount does not matter |
| AmountLaws.EmptyIsMissing | backend/internal/mpesa/types.go:117-119 | An empty amount is reported as missing |
| Amounts.KESRoundTrip | backend/internal/mpesa/types.go:115-133 | Parsing what FormatKES prints gives the amount back if and only if it is not the smallest 64-bit number |
| Amounts.CentsRoundTrip | backend/internal/mpesa/types.go:233-235 | Parsing what FormatCents prints gives the amount back if and only if it is non-negative or whole shillings |
| Amounts.GroupingIsInvisible | backend/internal/notify/templates.go:74-96 | Removing the commas undoes the grouping, for every numeral |
| Notify.AtMostOneRow | backend/internal/notify/service.go:63-139 | In any run with concurrent workers and crashes, at most one row per invoice and template has not failed |
| Notify.AtMostOneMessage | backend/internal/notify/service.go:63-139 | The gateway accepts at most one message per invoice and template if and only if no send whose answer was lost is followed by another accepted one |
| Notify.AtMostOneReported | backend/internal/notify/service.go:120-131 | In any run at most one send per invoice and template reports success, and the gateway accepts none after it |
| Notify.AcceptedMessages | backend/internal/notify/at.go:56-100 | In any run the gateway accepts at most one message per key more than it lost answers for |
| Notify.ReceiptSentTwice | backend/internal/notify/at.go:68-83 | A run in which a lost answer sends the same receipt twice, with one success on record |
| Notify.OrphanBlocksForEver | backend/internal/notify/service.go:71-79 | A row whose worker crashed waits for ever and nothing more is sent for its key |
| Notify.ReportMarksDelivered | backend/internal/notify/service.go:206-227 | A delivery report marks the row of that message delivered, and no other |
| Notify.RunKeeps | backend/internal/notify/service.go:63-139 | Rows, workers and accepted messages stay consistent in every run |
| Notify.Notifier.SendReceipt | backend/internal/notify/service.go:63-139 | When a receipt is skipped, sent or failed, for every way the send can end, and that the method is the three protocol steps |
| RateLimit.EvictionIsInvisible | backend/internal/platform/httpx/httpx.go:170-206 | With nondecreasing times, any limit and window: exactly the decisions of a limiter that never evicts |
| RateLimit.WindowBound | backend/internal/platform/httpx/httpx.go:170-206 | At most 2 * limit - 1 requests of a key are admitted in any interval of one window length |
| RateLimit.BoundIsReached | backend/internal/platform/httpx/httpx.go:170-206 | For every positive limit and window a run reaches that bound |
| RateLimit.Limiter.Allow | backend/internal/platform/httpx/httpx.go:182-195 | The decision and the new buckets, including a new bucket that its own sweep deletes |
| RateLimit.Limiter.Sweep | backend/internal/platform/httpx/httpx.go:187-191 | Deletes exactly the expired buckets |
| RateLimit.SweepsBeyondLimit | backend/internal/platform/httpx/httpx.go:183-193 | Only beyond fifty thousand buckets is anything dropped, and then everything that has expired |

## Left out

- MockProvider.Mock.SubmitCreditNote: the mock acknowledges a credit note without an id, so it does not meet the provider contract there; no adapter is sent one.
- Documents.VatByCategory: for a credit note the receipt groups the sale's own lines, so its table sums to the sale's positive figures, not to the credit note's header.
- LedgerService.Service.IngestReversal: runs its three transactions undisturbed; LedgerChains.InterruptedReversal states what happens when others come in between.
- Amounts.KESRoundTrip: the parser covers plain decimal numbers with an optional sign, not fractions, exponents or other bases.
- applyReversal and the `reversal` webhook kind: its credit note is keyed neither by transaction id nor by superseded_by.
- Request-to-pay (STK) requests and callbacks: none is ever created.
- ForceAcked, admin webhook replay and the manual resend of receipts: operator overrides outside the protocols.
- The OSCU adapter's in-memory acknowledgement cache as a provider contract: it is per process and not locked across its call.
- Job queue liveness and uniqueness, overlapping watchdog sweeps: library behaviour.
- Tenant separation of documents (row-level security), authentication, encryption, receipt-code generation and its retry loops.
- Customer upkeep, catalogue, stock, usage counters, audit log: they do not affect the properties above.
- HTTP decoding and status codes, network clients, configuration, logging, the web interface.
- Case-insensitive references are modelled for ASCII letters.
- Figures in the ledger modules do not wrap; wrap-around is modelled where they are computed, in `Documents`.
