// The execution engine as a step machine. Every activity of the engine (an
// execute request, a queued job, a cancellation, a recovery, a reconciliation)
// is a worker with a program counter; a step runs one worker from one await to
// the next, so each store call is one atomic step. A crash drops every worker
// and every engine-local map of one process and keeps the store.
//
// Adapters, credential providers, the usage gate, the webhook deliverer, the
// clock, the catalog and the queue answer through the Choice of a step: any
// value, any error, at any time.
module ExecutionEngine {
  import opened Wrappers
  import opened JavaScript
  import opened ExecutionRecords
  import opened ExecutionStore

  const DAY_MS: int := 24 * 60 * 60 * 1000

  // --------------------------------------------------------------- Commands

  datatype ExecuteCommand = ExecuteCommand(
    projectId: string,
    record: PendingRecord,
    reservedId: bool,
    request: ExecuteRequest,
    idempotencyKey: Option<string>,
    requestHash: string,
    retentionMs: int,
    usageGateEnabled: bool,
    toolkitSlug: string)
  {
    function Key(): ExecutionKey { ExecutionKey(projectId, record.identity.executionId) }
  }

  /** The text before the first dot. */
  function CatalogMajor(version: string): string {
    if version == "" || version[0] == '.' then "" else [version[0]] + CatalogMajor(version[1..])
  }

  function IdempotencyReservationOf(cmd: ExecuteCommand): Option<IdempotencyReservation> {
    match cmd.idempotencyKey
    case None => None
    case Some(key) =>
      Some(IdempotencyReservation(
             IdempotencyScope(
               key,
               cmd.request.tool,
               cmd.request.userId,
               cmd.request.connectionId.GetOr("default"),
               CatalogMajor(cmd.record.identity.catalogVersion)),
             cmd.requestHash,
             cmd.record.identity.createdAt + Max(DAY_MS, cmd.retentionMs)))
  }

  function ScopeOf(cmd: ExecuteCommand): Option<ScopeKey> {
    match IdempotencyReservationOf(cmd)
    case None => None
    case Some(reservation) => Some(ScopeKey(cmd.projectId, reservation.scope))
  }

  function PreflightAllocation(cmd: ExecuteCommand): Allocation {
    Allocation(cmd.projectId, cmd.record, cmd.request, IdempotencyReservationOf(cmd), None)
  }

  function FullAllocation(
    cmd: ExecuteCommand, report: Option<UsageReport>, reservation: Option<UsageReservation>, eventId: string)
    : Allocation
  {
    var context := ResumeContext(
      1, cmd.record.identity.tool, cmd.record.identity.toolVersion, cmd.toolkitSlug, report, reservation);
    PreflightAllocation(cmd).(recovery := Some(Recovery(context, eventId)))
  }

  // ---------------------------------------------------------------- Workers

  datatype Caller = SyncCaller | JobCaller

  /** The local variables of one `#runAllocated` call. */
  datatype RunLocals = RunLocals(
    caller: Caller,
    key: ExecutionKey,
    pending: ExecutionRecord,
    usageReport: Option<UsageReport>,
    usageReservation: Option<UsageReservation>,
    webhookEventId: Option<string>,
    startedAt: Timestamp,
    dispatchAttempted: bool,
    dispatchFenced: bool,
    usageFinalized: bool,
    terminalPersisted: bool)

  datatype Failure = ConflictFailure | FencedFailure | UnexpectedCredentialFailure | OtherFailure

  datatype ReconInput = ReconInput(
    key: ExecutionKey,
    record: ExecutionRecord,
    usageReport: Option<UsageReport>,
    usageReservation: Option<UsageReservation>,
    webhookEventId: Option<string>)

  /** What one reconciliation knows after its single read of the store. */
  datatype ReconData = ReconData(
    key: ExecutionKey,
    record: ExecutionRecord,
    dispatchMayHaveBegun: bool,
    usageReport: Option<UsageReport>,
    reservation: Option<UsageReservation>,
    eventId: Option<string>,
    published: bool)

  /** A row as `getRecoverable` returned it to a job. */
  datatype Recoverable = Recoverable(key: ExecutionKey, row: StoredExecution)

  /** What the awaiting worker does when the reconciliation it joined settles. */
  datatype After =
    | AfterFinish
    | AfterSuccess(l: RunLocals)
    | AfterFailure(l: RunLocals, failure: Failure)
    | AfterWinner(l: RunLocals)

  datatype Pc =
    | ExecInspect(cmd: ExecuteCommand)
    | ExecReserve(cmd: ExecuteCommand)
    | ExecLateInspect(cmd: ExecuteCommand)
    | ExecAllocate(cmd: ExecuteCommand, report: Option<UsageReport>, reservation: Option<UsageReservation>)
    | ExecReleaseUnused(key: ExecutionKey, reservation: Option<UsageReservation>)
    | ExecReplay(cmd: ExecuteCommand, record: ExecutionRecord, reservation: Option<UsageReservation>)
    | ExecMarkReplayed(cmd: ExecuteCommand, record: ExecutionRecord)
    | ExecWait(cmd: ExecuteCommand, record: ExecutionRecord)
    | ExecAwaitTerminal(waited: ExecutionKey, ticket: nat)
    | ExecReplayRead(replayed: ExecutionKey, record: ExecutionRecord)
    | JobRead(key: ExecutionKey)
    | JobSetResume(rec: Recoverable, context: ResumeContext, eventId: string)
    | JobReread(rec: Recoverable)
    | JobAfterThrow(key: ExecutionKey)
    | RunAcquire(l: RunLocals)
    | RunMarkRunning(l: RunLocals)
    | RunResolveCredential(l: RunLocals)
    | RunSetConnection(l: RunLocals)
    | RunMarkDispatch(l: RunLocals)
    | RunEnterAdapter(l: RunLocals)
    | RunInAdapter(l: RunLocals)
    | RunPersistSuccess(l: RunLocals, output: string)
    | RunInnerCatch(l: RunLocals, failure: Failure)
    | RunOuterCatch(l: RunLocals, failure: Failure)
    | RunRelease(l: RunLocals)
    | FailSetEvent(rec: Recoverable, eventId: string, began: bool)
    | FailPersist(rec: Recoverable, eventId: string, began: bool)
    | CancelStore(key: ExecutionKey)
    | CancelAbort(key: ExecutionKey, record: ExecutionRecord)
    | RecoverRead(key: ExecutionKey)
    | StartReconcile(input: ReconInput, after: After)
    | Awaiting(recon: nat, after: After)
    | ReconRead(input: ReconInput)
    | ReconUsage(d: ReconData)
    | ReconFinalize(d: ReconData)
    | ReconWebhook(d: ReconData)
    | ReconPublish(d: ReconData)
    | ReconDone(ok: bool)
    | Done

  datatype Worker = Worker(process: nat, cancelled: bool, signalled: bool, pc: Pc) {
    predicate Aborted() { cancelled || signalled }
  }

  datatype Event =
    | Admitted(key: ExecutionKey, scope: Option<ScopeKey>, createdAt: Timestamp, expiresAt: Timestamp)
    | MarkerWon(worker: nat, key: ExecutionKey)
    | AdapterEntered(worker: nat, key: ExecutionKey)
    | CancelRecorded(key: ExecutionKey, dispatchMayHaveBegun: bool)
    | ReconciliationRead(worker: nat, key: ExecutionKey)
    | UsageReported(worker: nat, key: ExecutionKey)
    | UsageReleased(worker: nat, key: ExecutionKey)
    | UsageFinalized(worker: nat, key: ExecutionKey)
    | WebhookEnqueued(worker: nat, key: ExecutionKey, eventId: string)
    | ReservationReleased(worker: nat, key: ExecutionKey)

  datatype ReconSlot = ReconSlot(process: nat, key: ExecutionKey)

  /** `log` is the history of externally visible events; no step reads it. */
  datatype World = World(
    store: Store,
    workers: map<nat, Worker>,
    reconciling: map<ReconSlot, nat>,
    nextWorker: nat,
    log: seq<Event>)

  const INITIAL := World(EMPTY, map[], map[], 0, [])

  /** The answers of everything outside the engine during one step. */
  datatype Choice = Choice(
    now: Timestamp,
    fails: bool,
    alt: bool,
    text: string,
    error: ToolError,
    connection: Option<string>,
    report: Option<UsageReport>,
    reservation: Option<UsageReservation>,
    context: ResumeContext)

  datatype Action =
    | StartExecute(process: nat, cmd: ExecuteCommand)
    | StartJob(process: nat, key: ExecutionKey)
    | StartCancel(process: nat, key: ExecutionKey)
    | StartRecovery(process: nat, key: ExecutionKey)
    | Signal(worker: nat)
    | Crash(process: nat)
    | Go(worker: nat, choice: Choice)

  // ---------------------------------------------------------------- Helpers

  function At(w: World, id: nat, pc: Pc): World
    requires id in w.workers
  {
    w.(workers := w.workers[id := w.workers[id].(pc := pc)])
  }

  function Emit(w: World, e: Event): World {
    w.(log := w.log + [e])
  }

  function Spawn(w: World, process: nat, pc: Pc): World {
    w.(workers := w.workers[w.nextWorker := Worker(process, false, false, pc)], nextWorker := w.nextWorker + 1)
  }

  function RunRecord(l: RunLocals, phase: Phase): ExecutionRecord {
    ExecutionRecord(l.pending.identity, Some(l.startedAt), false, phase)
  }

  function RunInput(l: RunLocals, record: ExecutionRecord): ReconInput {
    ReconInput(l.key, record, l.usageReport, l.usageReservation, l.webhookEventId)
  }

  /** The reconciliation input that the engine builds from a row it has just read. */
  function RowInput(key: ExecutionKey, record: ExecutionRecord, row: StoredExecution): ReconInput {
    ReconInput(
      key, record,
      if row.resumeContext.None? then None else row.resumeContext.value.usageReport,
      if row.resumeContext.None? then None else row.resumeContext.value.usageReservation,
      row.webhookEventId)
  }

  function FailureOf(error: StoreError): Failure {
    if error.TransitionConflict? then ConflictFailure else OtherFailure
  }

  function FindDelivery(deliveries: seq<Delivery>, ticket: nat): (r: Option<ExecutionRecord>)
    ensures r.Some? ==> Delivery(ticket, r.value) in deliveries
  {
    if deliveries == [] then None
    else if deliveries[0].ticket == ticket then Some(deliveries[0].record)
    else FindDelivery(deliveries[1..], ticket)
  }

  /** The run that an abort of this worker's execution reaches, if it is inside one. */
  function RunKey(pc: Pc): Option<ExecutionKey> {
    match pc
    case RunAcquire(l) => Some(l.key)
    case RunMarkRunning(l) => Some(l.key)
    case RunResolveCredential(l) => Some(l.key)
    case RunSetConnection(l) => Some(l.key)
    case RunMarkDispatch(l) => Some(l.key)
    case RunEnterAdapter(l) => Some(l.key)
    case RunInAdapter(l) => Some(l.key)
    case RunPersistSuccess(l, _) => Some(l.key)
    case RunInnerCatch(l, _) => Some(l.key)
    case RunOuterCatch(l, _) => Some(l.key)
    case RunRelease(l) => Some(l.key)
    case StartReconcile(_, AfterSuccess(l)) => Some(l.key)
    case StartReconcile(_, AfterFailure(l, _)) => Some(l.key)
    case StartReconcile(_, AfterWinner(l)) => Some(l.key)
    case Awaiting(_, AfterSuccess(l)) => Some(l.key)
    case Awaiting(_, AfterFailure(l, _)) => Some(l.key)
    case Awaiting(_, AfterWinner(l)) => Some(l.key)
    case _ => None
  }

  // ----------------------------------------------------------- #execute

  function Locals(
    caller: Caller, key: ExecutionKey, pending: ExecutionRecord,
    report: Option<UsageReport>, reservation: Option<UsageReservation>, eventId: Option<string>): RunLocals
  {
    RunLocals(caller, key, pending, report, reservation, eventId, 0, false, false, false, false)
  }

  function FirstExecPc(cmd: ExecuteCommand): Pc {
    if !cmd.usageGateEnabled then ExecAllocate(cmd, None, None)
    else if cmd.idempotencyKey.Some? then ExecInspect(cmd)
    else ExecReserve(cmd)
  }

  function AdvanceExecute(w: World, id: nat, c: Choice): World
    requires id in w.workers
  {
    match w.workers[id].pc
    case ExecInspect(cmd) =>
      (match InspectAllocation(w.store, PreflightAllocation(cmd))
       case Ok(Available) => At(w, id, ExecReserve(cmd))
       case Ok(WouldReplay(record)) => At(w, id, ExecReplay(cmd, record, None))
       case _ => At(w, id, Done))
    case ExecReserve(cmd) =>
      if c.fails then At(w, id, Done)
      else if !c.alt then At(w, id, ExecAllocate(cmd, c.report, c.reservation))
      else if cmd.idempotencyKey.Some? then At(w, id, ExecLateInspect(cmd))
      else At(w, id, Done)
    case ExecLateInspect(cmd) =>
      (match InspectAllocation(w.store, PreflightAllocation(cmd))
       case Ok(WouldReplay(record)) => At(w, id, ExecReplay(cmd, record, None))
       case _ => At(w, id, Done))
    case ExecAllocate(cmd, report, reservation) =>
      var a := FullAllocation(cmd, report, reservation, c.text);
      var (s, result) := Allocate(w.store, a);
      var w' := w.(store := s);
      (match result
       case Ok(Allocated(_)) =>
         var expiresAt := if a.idempotency.None? then 0 else a.idempotency.value.expiresAt;
         var logged := Emit(w', Admitted(cmd.Key(), ScopeOf(cmd), cmd.record.identity.createdAt, expiresAt));
         if cmd.request.sync
         then At(logged, id, RunAcquire(Locals(SyncCaller, cmd.Key(), cmd.record, report, reservation, Some(c.text))))
         else At(logged, id, Done)
       case Ok(Replay(record)) => At(w', id, ExecReplay(cmd, record, reservation))
       case _ => At(w', id, ExecReleaseUnused(cmd.Key(), reservation)))
    case ExecReleaseUnused(key, reservation) =>
      if reservation.None? then At(w, id, Done)
      else At(Emit(w, ReservationReleased(id, key)), id, Done)
    case ExecReplay(cmd, record, reservation) =>
      var w' := if reservation.None? then w else Emit(w, ReservationReleased(id, cmd.Key()));
      if reservation.Some? && c.fails then At(w', id, Done)
      else if cmd.reservedId && record.identity.executionId != cmd.record.identity.executionId then At(w', id, Done)
      else At(w', id, ExecMarkReplayed(cmd, record))
    case ExecMarkReplayed(cmd, record) =>
      var key := ExecutionKey(cmd.projectId, record.identity.executionId);
      var (s, marked) := MarkReplayed(w.store, key, c.now);
      var w' := w.(store := s);
      if !marked then At(w', id, Done)
      else if record.Terminal() then At(w', id, ExecReplayRead(key, record))
      else if cmd.request.sync then At(w', id, ExecWait(cmd, record))
      else At(w', id, Done)
    case ExecWait(cmd, record) =>
      var key := ExecutionKey(cmd.projectId, record.identity.executionId);
      var (s, ticket) := Wait(w.store, key);
      (match ticket
       case Ok(t) => At(w.(store := s), id, ExecAwaitTerminal(key, t))
       case Err(_) => At(w.(store := s), id, Done))
    case ExecAwaitTerminal(key, ticket) =>
      (match FindDelivery(w.store.deliveries, ticket)
       case Some(record) => At(w, id, ExecReplayRead(key, record))
       case None => w)
    case ExecReplayRead(key, record) =>
      (match GetRecoverable(w.store, key)
       case None => At(w, id, Done)
       case Some(row) =>
         var latest := if row.record.Terminal() then row.record else record;
         At(w, id, StartReconcile(RowInput(key, latest, row), AfterFinish)))
    case _ => w
  }

  // ---------------------------------------------------- runExecutionJob

  /** From a readable, non-terminal row with or without a resume context to the next await. */
  function JobDecide(w: World, id: nat, rec: Recoverable, c: Choice): World
    requires id in w.workers
  {
    var row := rec.row;
    var eventId := row.webhookEventId.GetOr(c.text);
    if row.record.phase.Running? && row.dispatchStartedAt.Some? then
      At(w, id, FailSetEvent(rec, eventId, true))
    else if w.workers[id].signalled || row.resumeContext.None? then
      At(w, id, Done)
    else if row.resumeContext.value.version != 1 then
      At(w, id, FailSetEvent(rec, eventId, row.dispatchStartedAt.Some?))
    else if c.fails then
      At(w, id, FailSetEvent(rec, eventId, false))
    else if row.record.Terminal() then
      At(w, id, Done)
    else
      At(w, id, RunAcquire(Locals(
        JobCaller, rec.key, row.record,
        row.resumeContext.value.usageReport, row.resumeContext.value.usageReservation, row.webhookEventId)))
  }

  function AdvanceJob(w: World, id: nat, c: Choice): World
    requires id in w.workers
  {
    match w.workers[id].pc
    case JobRead(key) =>
      (match GetRecoverable(w.store, key)
       case None => At(w, id, Done)
       case Some(row) =>
         var rec := Recoverable(key, row);
         if row.record.Terminal() then
           At(w, id, StartReconcile(RowInput(key, row.record, row), AfterFinish))
         else if row.resumeContext.Some? then
           JobDecide(w, id, rec, c)
         else if row.record.phase.Running? then
           At(w, id, FailSetEvent(rec, row.webhookEventId.GetOr(c.text), true))
         else if c.alt then
           At(w, id, FailSetEvent(rec, row.webhookEventId.GetOr(c.text), false))
         else
           At(w, id, JobSetResume(rec, c.context, row.webhookEventId.GetOr(c.text))))
    case JobSetResume(rec, context, eventId) =>
      var (s, result) := SetResumeContext(w.store, rec.key, Recovery(context, eventId));
      (match result
       case Ok(_) => At(w.(store := s), id, JobReread(rec))
       case Err(_) => At(w.(store := s), id, Done))
    case JobReread(rec) =>
      (match GetRecoverable(w.store, rec.key)
       case None => JobDecide(w, id, rec, c)
       case Some(row) => JobDecide(w, id, Recoverable(rec.key, row), c))
    case JobAfterThrow(key) =>
      (match GetRecoverable(w.store, key)
       case None => At(w, id, Done)
       case Some(row) =>
         if row.record.Terminal()
         then At(w, id, StartReconcile(RowInput(key, row.record, row), AfterFinish))
         else At(w, id, Done))
    case _ => w
  }

  // ------------------------------------------------------- #runAllocated

  function RunThrow(w: World, id: nat, l: RunLocals): World
    requires id in w.workers
  {
    At(w, id, if l.caller.JobCaller? then JobAfterThrow(l.key) else Done)
  }

  function AdvanceRun(w: World, id: nat, c: Choice): World
    requires id in w.workers
  {
    match w.workers[id].pc
    case RunAcquire(l) =>
      var startedAt :=
        if l.pending.phase.Running? then l.pending.startedAt.GetOr(l.pending.identity.createdAt) else c.now;
      var l' := l.(startedAt := startedAt);
      if c.fails || w.workers[id].Aborted() then At(w, id, RunOuterCatch(l, OtherFailure))
      else if l.pending.phase.Pending? then At(w, id, RunMarkRunning(l'))
      else At(w, id, RunResolveCredential(l'))
    case RunMarkRunning(l) =>
      var (s, error) := Update(w.store, l.key.projectId, RunRecord(l, Phase.Running));
      (match error
       case None => At(w.(store := s), id, RunResolveCredential(l))
       case Some(e) => At(w.(store := s), id, RunOuterCatch(l, FailureOf(e))))
    case RunResolveCredential(l) =>
      if c.fails then At(w, id, RunInnerCatch(l, if c.alt then UnexpectedCredentialFailure else OtherFailure))
      else At(w, id, RunSetConnection(l))
    case RunSetConnection(l) =>
      var (s, error) := SetResolvedConnection(w.store, l.key, c.connection);
      if error.Some? || c.fails then At(w.(store := s), id, RunInnerCatch(l, OtherFailure))
      else At(w.(store := s), id, RunMarkDispatch(l))
    case RunMarkDispatch(l) =>
      if w.workers[id].Aborted() then At(w, id, RunInnerCatch(l, OtherFailure))
      else
        var (s, marked) := MarkDispatchStarted(w.store, l.key, c.now);
        var w' := w.(store := s);
        if marked then At(Emit(w', MarkerWon(id, l.key)), id, RunEnterAdapter(l))
        else At(w', id, RunInnerCatch(l.(dispatchFenced := true), FencedFailure))
    case RunEnterAdapter(l) =>
      var l' := l.(dispatchAttempted := true);
      if c.fails then At(w, id, RunInnerCatch(l', OtherFailure))
      else At(Emit(w, AdapterEntered(id, l.key)), id, RunInAdapter(l'))
    case RunInAdapter(l) =>
      if c.fails then At(w, id, RunInnerCatch(l, OtherFailure))
      else At(w, id, RunPersistSuccess(l, c.text))
    case RunPersistSuccess(l, output) =>
      var record := RunRecord(l, Phase.Succeeded(c.now, Max(0, c.now - l.startedAt), output));
      var (s, error) := Update(w.store, l.key.projectId, record);
      (match error
       case None =>
         At(w.(store := s), id,
            StartReconcile(RunInput(l, record), AfterSuccess(l.(terminalPersisted := true))))
       case Some(e) => At(w.(store := s), id, RunInnerCatch(l, FailureOf(e))))
    case RunInnerCatch(l, failure) =>
      if l.terminalPersisted || failure.FencedFailure? then At(w, id, RunOuterCatch(l, failure))
      else
        var record := RunRecord(l, Phase.Failed(c.now, Max(0, c.now - l.startedAt), c.error));
        var (s, error) := Update(w.store, l.key.projectId, record);
        (match error
         case None => At(w.(store := s), id, StartReconcile(RunInput(l, record), AfterFailure(l, failure)))
         case Some(e) => At(w.(store := s), id, RunOuterCatch(l, FailureOf(e))))
    case RunOuterCatch(l, failure) =>
      if !failure.ConflictFailure? && !failure.FencedFailure? && !w.workers[id].Aborted() then
        At(w, id, RunRelease(l))
      else
        (match GetRecoverable(w.store, l.key)
         case None => At(w, id, RunRelease(l))
         case Some(row) =>
           if row.record.phase.Cancelled?
           then At(w, id, StartReconcile(RowInput(l.key, row.record, row), AfterWinner(l)))
           else At(w, id, RunRelease(l)))
    case RunRelease(l) =>
      if !l.dispatchAttempted && !l.dispatchFenced && !l.usageFinalized && l.usageReservation.Some?
      then RunThrow(Emit(w, ReservationReleased(id, l.key)), id, l)
      else RunThrow(w, id, l)
    case _ => w
  }

  // ------------------------------------ interruption, cancellation, recovery

  const INTERRUPTED_AMBIGUOUS :=
    "Execution was interrupted after provider dispatch may have begun. Its external outcome is unknown and it was not replayed automatically."
  const INTERRUPTED_UNDISPATCHED :=
    "Execution could not be resumed safely after interruption and was not dispatched automatically."

  /** The failure that a job records for an execution it must not run again. */
  function InterruptedRecord(record: ExecutionRecord, began: bool, now: Timestamp): ExecutionRecord {
    var startedAt :=
      if record.phase.Running? then record.startedAt.GetOr(record.identity.createdAt) else record.identity.createdAt;
    var error := ToolError(
      "execution_interrupted", if began then INTERRUPTED_AMBIGUOUS else INTERRUPTED_UNDISPATCHED, false);
    ExecutionRecord(record.identity, Some(startedAt), false, Phase.Failed(now, Max(0, now - startedAt), error))
  }

  function AdvanceOther(w: World, id: nat, c: Choice): World
    requires id in w.workers
  {
    match w.workers[id].pc
    case FailSetEvent(rec, eventId, began) =>
      var (s, result) := SetWebhookEventId(w.store, rec.key, eventId);
      (match result
       case Ok(_) => At(w.(store := s), id, FailPersist(rec, eventId, began))
       case Err(_) => At(w.(store := s), id, Done))
    case FailPersist(rec, eventId, began) =>
      var record := InterruptedRecord(rec.row.record, began, c.now);
      var (s, rejected) := Update(w.store, rec.key.projectId, record);
      var input := RowInput(rec.key, record, rec.row).(webhookEventId := Some(eventId));
      (match rejected
       case None => At(w.(store := s), id, StartReconcile(input, AfterFinish))
       case Some(_) => At(w.(store := s), id, Done))
    case CancelStore(key) =>
      var (s, result) := Cancel(w.store, key, c.now);
      var w' := w.(store := s);
      (match result
       case Ok(NowCancelled(record)) =>
         At(Emit(w', CancelRecorded(key, s.executions[key].dispatchStartedAt.Some?)), id, CancelAbort(key, record))
       case Ok(AlreadyCancelled(record)) => At(w', id, CancelAbort(key, record))
       case _ => At(w', id, Done))
    case CancelAbort(key, record) =>
      var process := w.workers[id].process;
      var aborted := w.(workers := map j <- w.workers :: j :=
        if w.workers[j].process == process && RunKey(w.workers[j].pc) == Some(key)
        then w.workers[j].(cancelled := true)
        else w.workers[j]);
      At(aborted, id, StartReconcile(ReconInput(key, record, None, None, None), AfterFinish))
    case RecoverRead(key) =>
      (match GetRecoverable(w.store, key)
       case None => At(w, id, Done)
       case Some(row) =>
         if row.record.phase.Cancelled?
         then At(w, id, StartReconcile(ReconInput(key, row.record, None, None, None), AfterFinish))
         else At(w, id, Done))
    case _ => w
  }

  // ------------------------------------------ reconcileTerminalExecution

  function Resume(w: World, id: nat, after: After, ok: bool): World
    requires id in w.workers
  {
    match after
    case AfterFinish => At(w, id, Done)
    case AfterSuccess(l) => At(w, id, if ok then Done else RunInnerCatch(l, OtherFailure))
    case AfterFailure(l, failure) =>
      if !ok then At(w, id, RunOuterCatch(l, OtherFailure))
      else if failure.UnexpectedCredentialFailure? then At(w, id, RunOuterCatch(l.(usageFinalized := true), failure))
      else At(w, id, Done)
    case AfterWinner(l) => if ok then At(w, id, Done) else RunThrow(w, id, l)
  }

  function ReportFromReservation(r: UsageReservation): UsageReport {
    UsageReport(r.projectId, r.localExecutionId, r.idempotencyKey, Some(r.reservationId))
  }

  /** Whether the provider may have been reached, as a reconciliation of this record decides it. */
  predicate MayHaveBegun(record: ExecutionRecord, dispatchStartedAt: Option<Timestamp>) {
    || record.phase.Succeeded?
    || (if record.phase.Cancelled? then record.phase.dispatchMayHaveBegun else dispatchStartedAt.Some?)
  }

  function ReadForReconciliation(input: ReconInput, stored: Option<StoredExecution>): ReconData {
    var record := if stored.Some? && stored.value.record.Terminal() then stored.value.record else input.record;
    var began := MayHaveBegun(record, if stored.None? then None else stored.value.dispatchStartedAt);
    var context := if stored.None? then None else stored.value.resumeContext;
    var derived :=
      if began && input.usageReservation.Some? then Some(ReportFromReservation(input.usageReservation.value)) else None;
    ReconData(
      input.key, record, began,
      input.usageReport.Or(if context.None? then None else context.value.usageReport).Or(derived),
      input.usageReservation.Or(if context.None? then None else context.value.usageReservation),
      input.webhookEventId.Or(if stored.None? then None else stored.value.webhookEventId),
      stored.Some? && stored.value.webhookPublishedAt.Some?)
  }

  function EndReconciliation(w: World, id: nat, key: ExecutionKey, ok: bool): World
    requires id in w.workers
  {
    var slot := ReconSlot(w.workers[id].process, key);
    var released :=
      if slot in w.reconciling && w.reconciling[slot] == id then w.reconciling - {slot} else w.reconciling;
    At(w, id, ReconDone(ok)).(reconciling := released)
  }

  function AdvanceReconcile(w: World, id: nat, c: Choice): World
    requires id in w.workers
  {
    match w.workers[id].pc
    case StartReconcile(input, after) =>
      var slot := ReconSlot(w.workers[id].process, input.key);
      if slot in w.reconciling then At(w, id, Awaiting(w.reconciling[slot], after))
      else
        var joined := At(w, id, Awaiting(w.nextWorker, after));
        Spawn(joined, slot.process, ReconRead(input)).(reconciling := w.reconciling[slot := w.nextWorker])
    case Awaiting(recon, after) =>
      if recon in w.workers && w.workers[recon].pc.ReconDone? then Resume(w, id, after, w.workers[recon].pc.ok) else w
    case ReconRead(input) =>
      var stored := GetRecoverable(w.store, input.key);
      var d := ReadForReconciliation(input, stored);
      var w' := Emit(w, ReconciliationRead(id, input.key));
      if stored.Some? && stored.value.usageFinalizedAt.Some? then At(w', id, ReconWebhook(d))
      else At(w', id, ReconUsage(d))
    case ReconUsage(d) =>
      if d.dispatchMayHaveBegun && d.usageReport.Some? then
        var w' := Emit(w, UsageReported(id, d.key));
        if c.fails then EndReconciliation(w', id, d.key, false) else At(w', id, ReconFinalize(d))
      else if !d.dispatchMayHaveBegun && d.reservation.Some? then
        var w' := Emit(w, UsageReleased(id, d.key));
        if c.fails then EndReconciliation(w', id, d.key, false) else At(w', id, ReconFinalize(d))
      else
        At(w, id, ReconFinalize(d))
    case ReconFinalize(d) =>
      var s := MarkUsageFinalized(w.store, d.key, c.now).0;
      At(Emit(w.(store := s), UsageFinalized(id, d.key)), id, ReconWebhook(d))
    case ReconWebhook(d) =>
      if d.eventId.Some? && !d.published then
        var w' := Emit(w, WebhookEnqueued(id, d.key, d.eventId.value));
        if c.fails then EndReconciliation(w', id, d.key, false) else At(w', id, ReconPublish(d))
      else
        EndReconciliation(w, id, d.key, true)
    case ReconPublish(d) =>
      EndReconciliation(w.(store := MarkWebhookPublished(w.store, d.key, c.now).0), id, d.key, true)
    case _ => w
  }

  // ------------------------------------------------------------------ Runs

  function Advance(w: World, id: nat, c: Choice): World
    requires id in w.workers
  {
    match w.workers[id].pc
    case ExecInspect(_) => AdvanceExecute(w, id, c)
    case ExecReserve(_) => AdvanceExecute(w, id, c)
    case ExecLateInspect(_) => AdvanceExecute(w, id, c)
    case ExecAllocate(_, _, _) => AdvanceExecute(w, id, c)
    case ExecReleaseUnused(_, _) => AdvanceExecute(w, id, c)
    case ExecReplay(_, _, _) => AdvanceExecute(w, id, c)
    case ExecMarkReplayed(_, _) => AdvanceExecute(w, id, c)
    case ExecWait(_, _) => AdvanceExecute(w, id, c)
    case ExecAwaitTerminal(_, _) => AdvanceExecute(w, id, c)
    case ExecReplayRead(_, _) => AdvanceExecute(w, id, c)
    case JobRead(_) => AdvanceJob(w, id, c)
    case JobSetResume(_, _, _) => AdvanceJob(w, id, c)
    case JobReread(_) => AdvanceJob(w, id, c)
    case JobAfterThrow(_) => AdvanceJob(w, id, c)
    case FailSetEvent(_, _, _) => AdvanceOther(w, id, c)
    case FailPersist(_, _, _) => AdvanceOther(w, id, c)
    case CancelStore(_) => AdvanceOther(w, id, c)
    case CancelAbort(_, _) => AdvanceOther(w, id, c)
    case RecoverRead(_) => AdvanceOther(w, id, c)
    case StartReconcile(_, _) => AdvanceReconcile(w, id, c)
    case Awaiting(_, _) => AdvanceReconcile(w, id, c)
    case ReconRead(_) => AdvanceReconcile(w, id, c)
    case ReconUsage(_) => AdvanceReconcile(w, id, c)
    case ReconFinalize(_) => AdvanceReconcile(w, id, c)
    case ReconWebhook(_) => AdvanceReconcile(w, id, c)
    case ReconPublish(_) => AdvanceReconcile(w, id, c)
    case ReconDone(_) => w
    case Done => w
    case _ => AdvanceRun(w, id, c)
  }

  function CrashProcess(w: World, process: nat): World {
    w.(workers := map j <- w.workers | w.workers[j].process != process :: w.workers[j],
       reconciling := map slot <- w.reconciling | slot.process != process :: w.reconciling[slot])
  }

  function Step(w: World, action: Action): World {
    match action
    case StartExecute(process, cmd) => Spawn(w, process, FirstExecPc(cmd))
    case StartJob(process, key) => Spawn(w, process, JobRead(key))
    case StartCancel(process, key) => Spawn(w, process, CancelStore(key))
    case StartRecovery(process, key) => Spawn(w, process, RecoverRead(key))
    case Signal(id) =>
      if id in w.workers then w.(workers := w.workers[id := w.workers[id].(signalled := true)]) else w
    case Crash(process) => CrashProcess(w, process)
    case Go(id, c) => if id in w.workers then Advance(w, id, c) else w
  }

  /** The world after a run from the empty system; every interleaving is some sequence of actions. */
  function Run(actions: seq<Action>): World {
    if actions == [] then INITIAL else Step(Run(actions[..|actions| - 1]), actions[|actions| - 1])
  }
}
