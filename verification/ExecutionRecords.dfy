// Execution records and the two pure functions that every store shares:
// the transition check and the canonical cancellation payload.
module ExecutionRecords {
  import opened Wrappers
  import opened JavaScript

  /** Milliseconds since the Unix epoch. */
  type Timestamp = int

  datatype Status = Pending | Running | Succeeded | Failed | Cancelled {
    predicate Terminal() {
      Succeeded? || Failed? || Cancelled?
    }

    function Rank(): nat {
      match this
      case Pending => 0
      case Running => 1
      case _ => 2
    }
  }

  /** The fields that no transition may change. */
  datatype Identity = Identity(
    executionId: string,
    tool: string,
    toolVersion: string,
    catalogVersion: string,
    userId: string,
    createdAt: Timestamp,
    source: Option<string>,
    attachments: Option<seq<string>>)

  datatype ToolError = ToolError(code: string, message: string, retryable: bool)

  /** The status of a record, with what only that status carries. */
  datatype Phase =
    | Pending
    | Running
    | Succeeded(completedAt: Timestamp, latencyMs: int, output: string)
    | Failed(completedAt: Timestamp, latencyMs: int, error: ToolError)
    | Cancelled(completedAt: Timestamp, latencyMs: int, error: ToolError, dispatchMayHaveBegun: bool)
  {
    function StatusOf(): Status {
      match this
      case Pending => Status.Pending
      case Running => Status.Running
      case Succeeded(_, _, _) => Status.Succeeded
      case Failed(_, _, _) => Status.Failed
      case Cancelled(_, _, _, _) => Status.Cancelled
    }
  }

  datatype ExecutionRecord = ExecutionRecord(
    identity: Identity,
    startedAt: Option<Timestamp>,
    replayed: bool,
    phase: Phase)
  {
    function StatusOf(): Status { phase.StatusOf() }
    predicate Terminal() { StatusOf().Terminal() }
  }

  type PendingRecord = r: ExecutionRecord | r.phase.Pending?
    witness ExecutionRecord(Identity("", "", "", "", "", 0, None, None), None, false, Phase.Pending)

  datatype StoreError =
    | ReplayProvenance
    | UnknownExecution(executionId: string)
    | DuplicateExecution(duplicate: string)
    | ExecutionIdChanged
    | IdentityImmutable
    | TransitionConflict(previous: Status, next: Status)
    | DanglingIdempotency
    | ResumeContextImmutable
    | WebhookIdentityImmutable
    | InvalidCursor
    | InvalidLimit

  /** Adds the private replay observation to the public record. */
  function ProjectRecord(record: ExecutionRecord, replayObservedAt: Option<Timestamp>): ExecutionRecord {
    if replayObservedAt.None? then record else record.(replayed := true)
  }

  const DISPATCHED_CANCELLATION :=
    "Execution was cancelled after provider dispatch may have begun; upstream work may still complete."
  const UNDISPATCHED_CANCELLATION := "Execution was cancelled before provider dispatch."

  function CancelledExecutionRecord(
    record: ExecutionRecord, cancelledAt: Timestamp, dispatchStartedAt: Option<Timestamp>): (c: ExecutionRecord)
    requires !record.Terminal()
    ensures c.phase.Cancelled? && c.phase.latencyMs >= 0
    ensures c.phase.dispatchMayHaveBegun <==> c.phase.error.message == DISPATCHED_CANCELLATION
  {
    var began := dispatchStartedAt.Some?;
    var latencyStart := record.startedAt.GetOr(record.identity.createdAt);
    var error := ToolError(
      "execution_cancelled",
      if began then DISPATCHED_CANCELLATION else UNDISPATCHED_CANCELLATION,
      false);
    assert |DISPATCHED_CANCELLATION| > |UNDISPATCHED_CANCELLATION|;
    ExecutionRecord(
      record.identity,
      record.startedAt,
      false,
      Phase.Cancelled(cancelledAt, Max(0, cancelledAt - latencyStart), error, began))
  }

  predicate ValidEdge(previous: Status, next: Status) {
    || (previous.Pending? && (next.Running? || next.Failed? || next.Cancelled?))
    || (previous.Running? && next.Terminal())
  }

  /** None when the transition is accepted, else the error the store throws. */
  function AssertExecutionTransition(previous: ExecutionRecord, next: ExecutionRecord): Option<StoreError> {
    var p, n := previous.identity, next.identity;
    if next.replayed then
      Some(ReplayProvenance)
    else if p.executionId != n.executionId then
      Some(ExecutionIdChanged)
    else if p.tool != n.tool || p.toolVersion != n.toolVersion || p.catalogVersion != n.catalogVersion
         || p.userId != n.userId || p.createdAt != n.createdAt
         || p.source != n.source || p.attachments != n.attachments then
      Some(IdentityImmutable)
    else if !ValidEdge(previous.StatusOf(), next.StatusOf()) then
      Some(TransitionConflict(previous.StatusOf(), next.StatusOf()))
    else
      None
  }

  /** What an accepted transition is worth to a caller: same identity, strictly higher rank, never out of a terminal. */
  lemma AcceptedTransition(previous: ExecutionRecord, next: ExecutionRecord)
    requires AssertExecutionTransition(previous, next).None?
    ensures previous.identity == next.identity && !next.replayed
    ensures !previous.Terminal() && previous.StatusOf().Rank() < next.StatusOf().Rank()
  {
  }

  /** Exactly which records may replace which: those that keep the identity, do not claim to be replays, and go
      from pending to running, failed or cancelled, or from running to any of the three ends. */
  lemma TransitionIsAcceptedIff(previous: ExecutionRecord, next: ExecutionRecord)
    ensures
      AssertExecutionTransition(previous, next).None?
      <==> && previous.identity == next.identity && !next.replayed
           && (|| (previous.phase.Pending? && (next.phase.Running? || next.phase.Failed? || next.phase.Cancelled?))
               || (previous.phase.Running? && (next.phase.Succeeded? || next.phase.Failed? || next.phase.Cancelled?)))
  {
  }

  /** Cancellation builds a record that the transition check always accepts, so a cancel never throws. */
  lemma CancellationIsAccepted(record: ExecutionRecord, cancelledAt: Timestamp, dispatchStartedAt: Option<Timestamp>)
    requires !record.Terminal()
    ensures AssertExecutionTransition(
              record, CancelledExecutionRecord(record, cancelledAt, dispatchStartedAt)).None?
  {
  }

  /** What a cancellation record says: it is the same execution, completed when it was cancelled; its latency
      runs back from there to its start, or to its creation if it was never started, and is never negative; and
      it tells whether the dispatch marker was set. */
  lemma CancellationTells(record: ExecutionRecord, cancelledAt: Timestamp, dispatchStartedAt: Option<Timestamp>)
    requires !record.Terminal()
    ensures
      var c := CancelledExecutionRecord(record, cancelledAt, dispatchStartedAt);
      && c.phase.Cancelled? && c.identity == record.identity && c.startedAt == record.startedAt && !c.replayed
      && c.phase.completedAt == cancelledAt
      && var start := record.startedAt.GetOr(record.identity.createdAt);
      && (if start <= cancelledAt then cancelledAt - c.phase.latencyMs == start else c.phase.latencyMs == 0)
      && (c.phase.dispatchMayHaveBegun <==> dispatchStartedAt.Some?)
      && c.phase.error.code == "execution_cancelled" && !c.phase.error.retryable
  {
  }
}
