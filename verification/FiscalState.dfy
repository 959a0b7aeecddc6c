/**
  The invoice state machine, the retry policy and the error classification
  (backend/internal/fiscal/state.go, backend/internal/fiscal/errors.go).
  Durations are in seconds.
 */
module FiscalState {
  import opened Prelude

  datatype State =
    | Draft
    | TaxPending
    | Queued
    | Submitted
    | Acked
    | FailedRetryable
    | FailedTerminal
    | NeedsReview

  /** The transition table. */
  function Transitions(from: State): seq<State> {
    match from
    case Draft => [Queued]
    case TaxPending => [Queued]
    case Queued => [Submitted]
    case Submitted => [Acked, FailedRetryable, FailedTerminal]
    case FailedRetryable => [Queued, Submitted, FailedTerminal]
    case FailedTerminal => [NeedsReview]
    case NeedsReview => [Queued]
    case Acked => []
  }

  predicate CanTransition(from: State, to: State) {
    to in Transitions(from)
  }

  /** A sequence of writes to the state column that starts from `path[0]` and obeys the table. */
  predicate LegalPath(path: seq<State>) {
    forall i :: 0 <= i < |path| - 1 ==> CanTransition(path[i], path[i + 1])
  }

  datatype ErrorKind =
    | ValidationError
    | ConfigError
    | TransientError
    | DeadlineExceeded
    | Canceled
    | NetError
    | UnknownError

  /** `notFound`: the sentinel ErrNotFound, or a code or message that says "not found". */
  datatype SubmitError = SubmitError(kind: ErrorKind, notFound: bool)

  datatype Class = ClassOk | ClassRetryable | ClassTerminal

  /** Only a rejected document or a broken configuration is terminal. */
  function Classify(err: Option<SubmitError>): Class {
    match err
    case None => ClassOk
    case Some(e) =>
      match e.kind
      case ValidationError => ClassTerminal
      case ConfigError => ClassTerminal
      case _ => ClassRetryable
  }

  const MAX_ATTEMPTS: nat := 6
  const MINUTE: nat := 60
  const HOUR: nat := 3600
  const BACKOFF_SCHEDULE: seq<nat> := [1 * MINUTE, 5 * MINUTE, 1 * HOUR, 12 * HOUR, 12 * HOUR]

  /** The delay after attempt `attempt` (1-based), clamped to the schedule. */
  function Backoff(attempt: int): nat {
    if attempt < 1 then BACKOFF_SCHEDULE[0]
    else if attempt > |BACKOFF_SCHEDULE| then BACKOFF_SCHEDULE[|BACKOFF_SCHEDULE| - 1]
    else BACKOFF_SCHEDULE[attempt - 1]
  }

  datatype Outcome = Outcome(next: State, retryIn: nat)

  /** What happens after attempt `attempt` ended with `err` (None on success). */
  function Resolve(attempt: nat, err: Option<SubmitError>): Outcome {
    if err.None? then Outcome(Acked, 0)
    else if Classify(err) == ClassTerminal then Outcome(FailedTerminal, 0)
    else if attempt >= MAX_ATTEMPTS then Outcome(FailedTerminal, 0)
    else Outcome(Queued, Backoff(attempt))
  }
}
