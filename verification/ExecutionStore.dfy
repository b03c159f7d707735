// The execution store as a value: what each call of the in-memory store does
// to the rows, the idempotency index and the terminal waiters. Every call is
// one atomic step. InMemoryExecutionStore (StoreObject.dfy) is the object whose
// methods refine these functions; the engine's step machine runs on them.
module ExecutionStore {
  import opened Wrappers
  import opened ExecutionRecords

  datatype ExecutionKey = ExecutionKey(projectId: string, executionId: string)

  datatype IdempotencyScope = IdempotencyScope(
    key: string, tool: string, userId: string, connectionId: string, catalogMajor: string)

  datatype ScopeKey = ScopeKey(projectId: string, scope: IdempotencyScope)

  datatype IdempotencyReservation = IdempotencyReservation(
    scope: IdempotencyScope, requestHash: string, expiresAt: Timestamp)

  datatype StoredIdempotency = StoredIdempotency(
    projectId: string,
    executionId: string,
    reservation: IdempotencyReservation,
    resolvedConnectionId: Option<string>)
  {
    function Key(): ExecutionKey { ExecutionKey(projectId, executionId) }
  }

  datatype ExecuteRequest = ExecuteRequest(
    tool: string, userId: string, connectionId: Option<string>, input: string, sync: bool)

  datatype UsageReport = UsageReport(
    projectId: string, executionId: string, idempotencyKey: string, reservationId: Option<string>)

  datatype UsageReservation = UsageReservation(
    reservationId: string, projectId: string, localExecutionId: string, idempotencyKey: string)

  datatype ResumeContext = ResumeContext(
    version: nat,
    tool: string,
    toolVersion: string,
    toolkitSlug: string,
    usageReport: Option<UsageReport>,
    usageReservation: Option<UsageReservation>)

  datatype Recovery = Recovery(resumeContext: ResumeContext, webhookEventId: string)

  datatype Allocation = Allocation(
    projectId: string,
    record: PendingRecord,
    request: ExecuteRequest,
    idempotency: Option<IdempotencyReservation>,
    recovery: Option<Recovery>)
  {
    function Key(): ExecutionKey { ExecutionKey(projectId, record.identity.executionId) }
  }

  datatype StoredExecution = StoredExecution(
    sequence: nat,
    record: ExecutionRecord,
    request: ExecuteRequest,
    idempotencyKey: Option<string>,
    resolvedConnectionId: Option<string>,
    resumeContext: Option<ResumeContext>,
    dispatchStartedAt: Option<Timestamp>,
    webhookEventId: Option<string>,
    webhookPublishedAt: Option<Timestamp>,
    usageFinalizedAt: Option<Timestamp>,
    replayObservedAt: Option<Timestamp>)
  {
    function Public(): ExecutionRecord { ProjectRecord(record, replayObservedAt) }
  }

  /** One resolved `waitForTerminal` promise: the ticket the caller holds and the record it got. */
  datatype Delivery = Delivery(ticket: nat, record: ExecutionRecord)

  /** `order` lists the keys in insertion order, which is the order in which a JavaScript Map iterates.
      `tickets[t]` is the execution that the t-th call of `waitForTerminal` waits for. */
  datatype Store = Store(
    executions: map<ExecutionKey, StoredExecution>,
    order: seq<ExecutionKey>,
    idempotency: map<ScopeKey, StoredIdempotency>,
    idempotencyByExecution: map<ExecutionKey, ScopeKey>,
    waiters: map<ExecutionKey, seq<nat>>,
    tickets: seq<ExecutionKey>,
    deliveries: seq<Delivery>,
    sequence: nat)

  const EMPTY := Store(map[], [], map[], map[], map[], [], [], 0)

  // ---------------------------------------------------------------- Results

  datatype AllocationResult =
    | Allocated(pending: ExecutionRecord)
    | Replay(record: ExecutionRecord)
    | Conflict

  datatype InspectionResult =
    | Available
    | WouldReplay(record: ExecutionRecord)
    | WouldConflict

  datatype CancellationResult =
    | NowCancelled(cancelled: ExecutionRecord)
    | AlreadyCancelled(cancelled: ExecutionRecord)
    | AlreadyTerminal(terminal: ExecutionRecord)
    | NotFound

  // ------------------------------------------------------------- Allocation

  predicate Expired(entry: StoredIdempotency, createdAt: Timestamp) {
    entry.reservation.expiresAt <= createdAt
  }

  /** Read-only preflight. The thrown error is the one for an index entry without a row. */
  function InspectAllocation(s: Store, a: Allocation): Result<InspectionResult, StoreError> {
    if a.idempotency.None? then Ok(Available)
    else
      var reservation := a.idempotency.value;
      var storageKey := ScopeKey(a.projectId, reservation.scope);
      if storageKey !in s.idempotency || Expired(s.idempotency[storageKey], a.record.identity.createdAt) then
        Ok(Available)
      else
        var existing := s.idempotency[storageKey];
        var key := ExecutionKey(a.projectId, existing.executionId);
        if existing.reservation.requestHash != reservation.requestHash then Ok(WouldConflict)
        else if key !in s.executions then Err(DanglingIdempotency)
        else Ok(WouldReplay(s.executions[key].Public()))
  }

  /** The answer that an unexpired index entry gives, if it gives one. */
  function ExistingAnswer(s: Store, a: Allocation): Option<AllocationResult> {
    if a.idempotency.None? then None
    else
      var reservation := a.idempotency.value;
      var storageKey := ScopeKey(a.projectId, reservation.scope);
      if storageKey !in s.idempotency || Expired(s.idempotency[storageKey], a.record.identity.createdAt) then
        None
      else
        var existing := s.idempotency[storageKey];
        var key := ExecutionKey(a.projectId, existing.executionId);
        if existing.reservation.requestHash != reservation.requestHash then Some(Conflict)
        else if key in s.executions then Some(Replay(s.executions[key].Public()))
        else None
  }

  function NewRow(a: Allocation, sequence: nat): StoredExecution {
    StoredExecution(
      sequence, a.record, a.request,
      if a.idempotency.None? then None else Some(a.idempotency.value.scope.key),
      None,
      if a.recovery.None? then None else Some(a.recovery.value.resumeContext),
      None,
      if a.recovery.None? then None else Some(a.recovery.value.webhookEventId),
      None, None, None)
  }

  /** Replaces the scope's entry, and both halves of an expired one, by the new execution. */
  function Reindex(s: Store, a: Allocation): Store {
    if a.idempotency.None? then s
    else
      var reservation := a.idempotency.value;
      var storageKey := ScopeKey(a.projectId, reservation.scope);
      var freed :=
        if storageKey in s.idempotency
        then s.idempotencyByExecution - {s.idempotency[storageKey].Key()}
        else s.idempotencyByExecution;
      s.(idempotency := s.idempotency[
           storageKey := StoredIdempotency(a.projectId, a.record.identity.executionId, reservation, None)],
         idempotencyByExecution := freed[a.Key() := storageKey])
  }

  function Insert(s: Store, a: Allocation): Store {
    var indexed := Reindex(s, a);
    indexed.(
      executions := s.executions[a.Key() := NewRow(a, s.sequence + 1)],
      order := s.order + [a.Key()],
      sequence := s.sequence + 1)
  }

  function Allocate(s: Store, a: Allocation): (Store, Result<AllocationResult, StoreError>) {
    if a.record.replayed then (s, Err(ReplayProvenance))
    else
      match ExistingAnswer(s, a)
      case Some(answer) => (s, Ok(answer))
      case None =>
        if a.Key() in s.executions then (s, Err(DuplicateExecution(a.record.identity.executionId)))
        else (Insert(s, a), Ok(Allocated(a.record)))
  }

  // ------------------------------------------------------------ Transitions

  function Deliveries(tickets: seq<nat>, record: ExecutionRecord): (d: seq<Delivery>)
    ensures |d| == |tickets|
    ensures forall i :: 0 <= i < |d| ==> d[i] == Delivery(tickets[i], record)
  {
    seq(|tickets|, i requires 0 <= i < |tickets| => Delivery(tickets[i], record))
  }

  function WaitersOf(s: Store, key: ExecutionKey): seq<nat> {
    if key in s.waiters then s.waiters[key] else []
  }

  /** Writes an accepted record; a terminal one also resolves and forgets the waiters. */
  function Settle(s: Store, key: ExecutionKey, record: ExecutionRecord): Store
    requires key in s.executions
  {
    var stored := s.executions[key].(record := record);
    var written := s.(executions := s.executions[key := stored]);
    if record.Terminal() then
      written.(waiters := s.waiters - {key},
               deliveries := s.deliveries + Deliveries(WaitersOf(s, key), stored.Public()))
    else
      written
  }

  function Update(s: Store, projectId: string, record: ExecutionRecord): (Store, Option<StoreError>) {
    var key := ExecutionKey(projectId, record.identity.executionId);
    if key !in s.executions then (s, Some(UnknownExecution(record.identity.executionId)))
    else
      match AssertExecutionTransition(s.executions[key].record, record)
      case Some(error) => (s, Some(error))
      case None => (Settle(s, key, record), None)
  }

  function Cancel(s: Store, key: ExecutionKey, cancelledAt: Timestamp)
    : (Store, Result<CancellationResult, StoreError>) {
    if key !in s.executions then (s, Ok(NotFound))
    else
      var stored := s.executions[key];
      if stored.record.phase.Cancelled? then (s, Ok(AlreadyCancelled(stored.Public())))
      else if stored.record.Terminal() then (s, Ok(AlreadyTerminal(stored.Public())))
      else
        var cancelled := CancelledExecutionRecord(stored.record, cancelledAt, stored.dispatchStartedAt);
        match AssertExecutionTransition(stored.record, cancelled)
        case Some(error) => (s, Err(error))
        case None =>
          (Settle(s, key, cancelled), Ok(NowCancelled(ProjectRecord(cancelled, stored.replayObservedAt))))
  }

  /** Issues a ticket; it is delivered at once for a terminal execution and queued otherwise. */
  function Wait(s: Store, key: ExecutionKey): (Store, Result<nat, StoreError>) {
    if key !in s.executions then (s, Err(UnknownExecution(key.executionId)))
    else
      var ticket := |s.tickets|;
      var stored := s.executions[key];
      var issued := s.(tickets := s.tickets + [key]);
      if stored.record.Terminal() then
        (issued.(deliveries := s.deliveries + [Delivery(ticket, stored.Public())]), Ok(ticket))
      else
        (issued.(waiters := s.waiters[key := WaitersOf(s, key) + [ticket]]), Ok(ticket))
  }

  // --------------------------------------------------- Markers and sidecars

  function MarkReplayed(s: Store, key: ExecutionKey, observedAt: Timestamp): (Store, bool) {
    if key !in s.executions then (s, false)
    else
      var stored := s.executions[key];
      (s.(executions := s.executions[key :=
         stored.(replayObservedAt := stored.replayObservedAt.Or(Some(observedAt)))]), true)
  }

  function SetResolvedConnection(s: Store, key: ExecutionKey, connection: Option<string>): (Store, Option<StoreError>) {
    if key !in s.executions then (s, Some(UnknownExecution(key.executionId)))
    else
      var written := s.(executions := s.executions[key := s.executions[key].(resolvedConnectionId := connection)]);
      if key !in s.idempotencyByExecution then (written, None)
      else
        var storageKey := s.idempotencyByExecution[key];
        if storageKey !in s.idempotency || s.idempotency[storageKey].projectId != key.projectId then (written, None)
        else
          (written.(idempotency := s.idempotency[
             storageKey := s.idempotency[storageKey].(resolvedConnectionId := connection)]), None)
  }

  function SetResumeContext(s: Store, key: ExecutionKey, recovery: Recovery): (Store, Result<bool, StoreError>) {
    if key !in s.executions then (s, Ok(false))
    else
      var stored := s.executions[key];
      if stored.resumeContext.Some? && stored.resumeContext.value != recovery.resumeContext then
        (s, Err(ResumeContextImmutable))
      else if stored.webhookEventId.Some? && stored.webhookEventId.value != recovery.webhookEventId then
        (s, Err(WebhookIdentityImmutable))
      else
        (s.(executions := s.executions[key :=
           stored.(resumeContext := Some(recovery.resumeContext), webhookEventId := Some(recovery.webhookEventId))]),
         Ok(true))
  }

  function SetWebhookEventId(s: Store, key: ExecutionKey, eventId: string): (Store, Result<bool, StoreError>) {
    if key !in s.executions then (s, Ok(false))
    else
      var stored := s.executions[key];
      if stored.webhookEventId.Some? && stored.webhookEventId.value != eventId then
        (s, Err(WebhookIdentityImmutable))
      else
        (s.(executions := s.executions[key := stored.(webhookEventId := Some(eventId))]), Ok(true))
  }

  /** True only for the caller that changes the marker from absent to present on a running record. */
  function MarkDispatchStarted(s: Store, key: ExecutionKey, dispatchedAt: Timestamp): (Store, bool) {
    if key !in s.executions || !s.executions[key].record.phase.Running? then (s, false)
    else if s.executions[key].dispatchStartedAt.Some? then (s, false)
    else (s.(executions := s.executions[key := s.executions[key].(dispatchStartedAt := Some(dispatchedAt))]), true)
  }

  function MarkUsageFinalized(s: Store, key: ExecutionKey, finalizedAt: Timestamp): (Store, bool) {
    if key !in s.executions then (s, false)
    else
      var stored := s.executions[key];
      (s.(executions := s.executions[key :=
         stored.(usageFinalizedAt := stored.usageFinalizedAt.Or(Some(finalizedAt)))]), true)
  }

  function MarkWebhookPublished(s: Store, key: ExecutionKey, publishedAt: Timestamp): (Store, bool) {
    if key !in s.executions || s.executions[key].webhookEventId.None? then (s, false)
    else
      var stored := s.executions[key];
      (s.(executions := s.executions[key :=
         stored.(webhookPublishedAt := stored.webhookPublishedAt.Or(Some(publishedAt)))]), true)
  }

  function GetRecoverable(s: Store, key: ExecutionKey): Option<StoredExecution> {
    if key !in s.executions then None
    else Some(s.executions[key].(record := s.executions[key].Public()))
  }

  // ------------------------------------------------------------- Invariants

  ghost predicate RowValid(s: Store, k: ExecutionKey)
    requires k in s.executions
  {
    var row := s.executions[k];
    && 1 <= row.sequence <= |s.order| && s.order[row.sequence - 1] == k
    && row.record.identity.executionId == k.executionId
    && !row.record.replayed
  }

  ghost predicate PositionValid(s: Store, i: nat)
    requires i < |s.order|
  {
    s.order[i] in s.executions && s.executions[s.order[i]].sequence == i + 1
  }

  /** Rows are numbered by insertion: the n-th inserted key carries sequence number n. */
  ghost predicate RowsValid(s: Store) {
    && |s.order| == s.sequence
    && (forall i: nat :: i < |s.order| ==> PositionValid(s, i))
    && (forall k <- s.executions :: RowValid(s, k))
  }

  ghost predicate EntryValid(s: Store, sk: ScopeKey)
    requires sk in s.idempotency
  {
    var entry := s.idempotency[sk];
    && entry.projectId == sk.projectId
    && entry.reservation.scope == sk.scope
    && entry.Key() in s.executions
    && entry.Key() in s.idempotencyByExecution
    && s.idempotencyByExecution[entry.Key()] == sk
  }

  ghost predicate BackEntryValid(s: Store, k: ExecutionKey)
    requires k in s.idempotencyByExecution
  {
    && s.idempotencyByExecution[k] in s.idempotency
    && s.idempotency[s.idempotencyByExecution[k]].Key() == k
  }

  /** The two index maps are mutually inverse and point only at stored executions. */
  ghost predicate IndexValid(s: Store) {
    && (forall sk <- s.idempotency :: EntryValid(s, sk))
    && (forall k <- s.idempotencyByExecution :: BackEntryValid(s, k))
  }

  ghost predicate Resolved(s: Store, ticket: nat) {
    exists i :: 0 <= i < |s.deliveries| && s.deliveries[i].ticket == ticket
  }

  predicate SameUpToReplay(a: ExecutionRecord, b: ExecutionRecord) {
    a.(replayed := false) == b.(replayed := false)
  }

  ghost predicate Finished(s: Store, k: ExecutionKey) {
    k in s.executions && s.executions[k].record.Terminal()
  }

  ghost predicate QueueValid(s: Store, k: ExecutionKey) {
    && k in s.executions && !Finished(s, k)
    && (forall t <- WaitersOf(s, k) :: t < |s.tickets| && s.tickets[t] == k && !Resolved(s, t))
    && (forall i, j :: 0 <= i < j < |WaitersOf(s, k)| ==> WaitersOf(s, k)[i] != WaitersOf(s, k)[j])
  }

  ghost predicate TicketValid(s: Store, t: nat)
    requires t < |s.tickets|
  {
    && s.tickets[t] in s.executions
    && if Finished(s, s.tickets[t]) then Resolved(s, t) else t in WaitersOf(s, s.tickets[t])
  }

  ghost predicate DeliveryValid(s: Store, i: nat)
    requires i < |s.deliveries|
  {
    var d := s.deliveries[i];
    && d.ticket < |s.tickets|
    && Finished(s, s.tickets[d.ticket])
    && SameUpToReplay(d.record, s.executions[s.tickets[d.ticket]].record)
    && (forall j :: 0 <= j < i ==> s.deliveries[j].ticket != d.ticket)
  }

  /** Waiters exist only for non-terminal executions, and every ticket is either queued there, or was
      delivered exactly once with the terminal record. */
  ghost predicate WaitersValid(s: Store) {
    && (forall k <- s.waiters :: QueueValid(s, k))
    && (forall t: nat :: t < |s.tickets| ==> TicketValid(s, t))
    && (forall i: nat :: i < |s.deliveries| ==> DeliveryValid(s, i))
  }

  ghost predicate Valid(s: Store) {
    RowsValid(s) && IndexValid(s) && WaitersValid(s)
  }

  // ------------------------------------------------------------ History order

  ghost predicate SetOnce<T(!new)>(before: Option<T>, after: Option<T>) {
    before.Some? ==> after == before
  }

  /** How one row may evolve over any number of store calls. */
  ghost predicate RowExtends(a: StoredExecution, b: StoredExecution) {
    && a.sequence == b.sequence
    && a.request == b.request
    && a.idempotencyKey == b.idempotencyKey
    && a.record.identity == b.record.identity
    && (a.record == b.record || a.record.StatusOf().Rank() < b.record.StatusOf().Rank())
    && (a.record.Terminal() ==> a.dispatchStartedAt == b.dispatchStartedAt)
    && SetOnce(a.resumeContext, b.resumeContext)
    && SetOnce(a.dispatchStartedAt, b.dispatchStartedAt)
    && SetOnce(a.webhookEventId, b.webhookEventId)
    && SetOnce(a.webhookPublishedAt, b.webhookPublishedAt)
    && SetOnce(a.usageFinalizedAt, b.usageFinalizedAt)
    && SetOnce(a.replayObservedAt, b.replayObservedAt)
  }

  ghost predicate Extends(s: Store, t: Store) {
    && s.order <= t.order
    && s.tickets <= t.tickets
    && s.deliveries <= t.deliveries
    && (forall k <- s.executions :: k in t.executions && RowExtends(s.executions[k], t.executions[k]))
  }

  lemma RowExtendsTransitive(a: StoredExecution, b: StoredExecution, c: StoredExecution)
    requires RowExtends(a, b) && RowExtends(b, c)
    ensures RowExtends(a, c)
  {
  }

  lemma ExtendsTransitive(s: Store, t: Store, u: Store)
    requires Extends(s, t) && Extends(t, u)
    ensures Extends(s, u)
  {
    hide RowExtends;
    forall k <- s.executions
      ensures k in u.executions && RowExtends(s.executions[k], u.executions[k])
    {
      RowExtendsTransitive(s.executions[k], t.executions[k], u.executions[k]);
    }
  }
}
