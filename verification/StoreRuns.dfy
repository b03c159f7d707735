// What every call of the execution store keeps, and what holds over every run
// of calls: terminal states absorb, sidecars are set once, the idempotency
// index stays two-way, and nobody waits forever on a finished execution.
module StoreRuns {
  import opened Wrappers
  import opened ExecutionRecords
  import opened ExecutionStore

  /** Every call of the store that may write. */
  datatype Call =
    | CallAllocate(allocation: Allocation)
    | CallUpdate(projectId: string, record: ExecutionRecord)
    | CallCancel(key: ExecutionKey, at: Timestamp)
    | CallWait(key: ExecutionKey)
    | CallMarkReplayed(key: ExecutionKey, at: Timestamp)
    | CallSetResolvedConnection(key: ExecutionKey, connection: Option<string>)
    | CallSetResumeContext(key: ExecutionKey, recovery: Recovery)
    | CallSetWebhookEventId(key: ExecutionKey, eventId: string)
    | CallMarkDispatchStarted(key: ExecutionKey, at: Timestamp)
    | CallMarkUsageFinalized(key: ExecutionKey, at: Timestamp)
    | CallMarkWebhookPublished(key: ExecutionKey, at: Timestamp)

  function Apply(s: Store, call: Call): Store {
    match call
    case CallAllocate(a) => Allocate(s, a).0
    case CallUpdate(projectId, record) => Update(s, projectId, record).0
    case CallCancel(key, at) => Cancel(s, key, at).0
    case CallWait(key) => Wait(s, key).0
    case CallMarkReplayed(key, at) => MarkReplayed(s, key, at).0
    case CallSetResolvedConnection(key, connection) => SetResolvedConnection(s, key, connection).0
    case CallSetResumeContext(key, recovery) => SetResumeContext(s, key, recovery).0
    case CallSetWebhookEventId(key, eventId) => SetWebhookEventId(s, key, eventId).0
    case CallMarkDispatchStarted(key, at) => MarkDispatchStarted(s, key, at).0
    case CallMarkUsageFinalized(key, at) => MarkUsageFinalized(s, key, at).0
    case CallMarkWebhookPublished(key, at) => MarkWebhookPublished(s, key, at).0
  }

  function Run(s: Store, calls: seq<Call>): Store
    decreases |calls|
  {
    if calls == [] then s else Run(Apply(s, calls[0]), calls[1..])
  }

  // ----------------------------------------------------------------- Frames

  /** The index stays valid while its maps stand still and no row disappears. */
  lemma IndexFrame(s: Store, t: Store)
    requires IndexValid(s)
    requires t.idempotency == s.idempotency && t.idempotencyByExecution == s.idempotencyByExecution
    requires s.executions.Keys <= t.executions.Keys
    ensures IndexValid(t)
  {
    forall sk <- t.idempotency ensures EntryValid(t, sk) {
      assert EntryValid(s, sk);
    }
    forall k <- t.idempotencyByExecution ensures BackEntryValid(t, k) {
      assert BackEntryValid(s, k);
    }
  }

  /** The waiters stay valid while the queues stand still and no stored record changes. */
  lemma WaitersFrame(s: Store, t: Store)
    requires WaitersValid(s)
    requires t.waiters == s.waiters && t.tickets == s.tickets && t.deliveries == s.deliveries
    requires forall k <- s.executions :: k in t.executions && t.executions[k].record == s.executions[k].record
    ensures WaitersValid(t)
  {
    assert forall ticket :: Resolved(t, ticket) <==> Resolved(s, ticket);
    forall k <- t.waiters ensures QueueValid(t, k) {
      assert QueueValid(s, k);
    }
    forall u: nat | u < |t.tickets| ensures TicketValid(t, u) {
      assert TicketValid(s, u);
    }
    forall i: nat | i < |t.deliveries| ensures DeliveryValid(t, i) {
      assert DeliveryValid(s, i);
    }
  }

  /** The rows stay valid while the order stands still and no row changes its number or its record's ID. */
  lemma RowsFrame(s: Store, t: Store)
    requires RowsValid(s)
    requires t.order == s.order && t.sequence == s.sequence && t.executions.Keys == s.executions.Keys
    requires forall k <- s.executions ::
                   RowExtends(s.executions[k], t.executions[k]) && !t.executions[k].record.replayed
    ensures RowsValid(t)
  {
    forall k <- t.executions ensures RowValid(t, k) {
      assert RowValid(s, k) && RowExtends(s.executions[k], t.executions[k]);
    }
    forall i: nat | i < |t.order| ensures PositionValid(t, i) {
      assert PositionValid(s, i);
      assert RowExtends(s.executions[s.order[i]], t.executions[s.order[i]]);
    }
  }

  /** Rewriting one row along RowExtends keeps the rows and extends the history. */
  lemma RowChange(s: Store, t: Store, key: ExecutionKey)
    requires RowsValid(s) && key in s.executions && key in t.executions
    requires t.executions == s.executions[key := t.executions[key]]
    requires t.order == s.order && t.sequence == s.sequence
    requires s.tickets <= t.tickets && s.deliveries <= t.deliveries
    requires RowExtends(s.executions[key], t.executions[key]) && !t.executions[key].record.replayed
    ensures RowsValid(t) && Extends(s, t)
  {
    forall k <- s.executions
      ensures RowExtends(s.executions[k], t.executions[k]) && !t.executions[k].record.replayed
    {
      assert RowValid(s, k);
    }
    RowsFrame(s, t);
  }

  lemma StoredAreNotReplayed(s: Store)
    requires RowsValid(s)
    ensures forall k <- s.executions :: !s.executions[k].record.replayed
  {
    forall k <- s.executions ensures !s.executions[k].record.replayed {
      assert RowValid(s, k);
    }
  }

  /** A call that rewrites one row's sidecar fields keeps everything. */
  lemma PatchKeeps(s: Store, t: Store, key: ExecutionKey, row: StoredExecution)
    requires Valid(s) && key in s.executions
    requires t == s.(executions := s.executions[key := row])
    requires row.record == s.executions[key].record && RowExtends(s.executions[key], row)
    ensures Valid(t) && Extends(s, t)
  {
    assert RowValid(s, key);
    RowChange(s, t, key);
    IndexFrame(s, t);
    WaitersFrame(s, t);
  }

  // ------------------------------------------------------------- Allocation

  lemma InsertExtends(s: Store, a: Allocation)
    requires a.Key() !in s.executions
    ensures Extends(s, Insert(s, a))
  {
  }

  lemma InsertRows(s: Store, a: Allocation)
    requires RowsValid(s) && !a.record.replayed && a.Key() !in s.executions
    ensures RowsValid(Insert(s, a)) && Extends(s, Insert(s, a))
  {
    hide Extends, Reindex;
    InsertExtends(s, a);
    var t := Insert(s, a);
    forall i: nat | i < |t.order| ensures PositionValid(t, i) {
      if i < |s.order| {
        assert PositionValid(s, i);
      }
    }
    forall k <- t.executions ensures RowValid(t, k) {
      if k in s.executions {
        assert RowValid(s, k);
      }
    }
  }

  /** Both halves of an expired entry go before the new pair is written, so the index stays two-way. */
  lemma InsertIndex(s: Store, a: Allocation)
    requires IndexValid(s) && a.Key() !in s.executions
    ensures IndexValid(Insert(s, a))
  {
    var t := Insert(s, a);
    if a.idempotency.None? {
      IndexFrame(s, t);
    } else {
      var storageKey := ScopeKey(a.projectId, a.idempotency.value.scope);
      forall sk <- t.idempotency ensures EntryValid(t, sk) {
        if sk != storageKey {
          assert EntryValid(s, sk);
          if storageKey in s.idempotency {
            assert EntryValid(s, storageKey);
          }
        }
      }
      forall k <- t.idempotencyByExecution ensures BackEntryValid(t, k) {
        if k != a.Key() {
          assert BackEntryValid(s, k);
        }
      }
    }
  }

  lemma InsertWaiters(s: Store, a: Allocation)
    requires WaitersValid(s) && a.Key() !in s.executions
    ensures WaitersValid(Insert(s, a))
  {
    WaitersFrame(s, Insert(s, a));
  }

  lemma ExtendsItself(s: Store)
    ensures Extends(s, s)
  {
  }

  lemma AllocateKeeps(s: Store, a: Allocation)
    requires Valid(s)
    ensures Valid(Allocate(s, a).0) && Extends(s, Allocate(s, a).0)
  {
    hide RowsValid, IndexValid, WaitersValid, Extends;
    if Allocate(s, a).0 == s {
      ExtendsItself(s);
    } else {
      InsertRows(s, a);
      InsertIndex(s, a);
      InsertWaiters(s, a);
    }
  }

  /** The preflight predicts the allocation on the same state, and its dangling-entry error is unreachable. */
  lemma InspectPredictsAllocate(s: Store, a: Allocation)
    requires Valid(s) && !a.record.replayed
    ensures InspectAllocation(s, a).Ok?
    ensures InspectAllocation(s, a).value.WouldConflict? <==> Allocate(s, a).1 == Ok(Conflict)
    ensures forall r :: InspectAllocation(s, a).value == WouldReplay(r) <==> Allocate(s, a).1 == Ok(Replay(r))
    ensures InspectAllocation(s, a).value.Available? ==>
              if a.Key() in s.executions
              then Allocate(s, a) == (s, Err(DuplicateExecution(a.record.identity.executionId)))
              else Allocate(s, a).1 == Ok(Allocated(a.record))
    ensures !InspectAllocation(s, a).value.Available? ==> Allocate(s, a).0 == s
  {
    if a.idempotency.Some? {
      var storageKey := ScopeKey(a.projectId, a.idempotency.value.scope);
      if storageKey in s.idempotency {
        assert EntryValid(s, storageKey);
        assert s.idempotency[storageKey].Key() == ExecutionKey(a.projectId, s.idempotency[storageKey].executionId);
      }
    }
  }

  /** A replay answers with the execution that the index names for this scope, made for the same request hash. */
  lemma ReplayIsTheScopesExecution(s: Store, a: Allocation)
    requires Valid(s) && Allocate(s, a).1.Ok? && Allocate(s, a).1.value.Replay?
    ensures a.idempotency.Some?
    ensures
      var storageKey := ScopeKey(a.projectId, a.idempotency.value.scope);
      && storageKey in s.idempotency
      && s.idempotency[storageKey].Key() in s.executions
      && s.idempotency[storageKey].reservation.requestHash == a.idempotency.value.requestHash
      && Allocate(s, a).1.value.record == s.executions[s.idempotency[storageKey].Key()].Public()
      && Allocate(s, a).1.value.record.identity.executionId == s.idempotency[storageKey].executionId
  {
    assert EntryValid(s, ScopeKey(a.projectId, a.idempotency.value.scope));
  }

  /** A scope is taken until its entry expires, and free from then on: while it is taken the entry answers, by its
      request hash, and nothing is written; from its expiry on, a new execution is allocated and takes the scope. */
  lemma TakenUntilExpiry(s: Store, a: Allocation)
    requires Valid(s) && !a.record.replayed && a.idempotency.Some?
    ensures
      var reservation, createdAt := a.idempotency.value, a.record.identity.createdAt;
      var scope := ScopeKey(a.projectId, reservation.scope);
      var (t, result) := Allocate(s, a);
      if scope in s.idempotency && createdAt < s.idempotency[scope].reservation.expiresAt then
        && t == s && result.Ok?
        && (if s.idempotency[scope].reservation.requestHash == reservation.requestHash
            then && result.value.Replay? && s.idempotency[scope].Key() in s.executions
                 && result.value.record == s.executions[s.idempotency[scope].Key()].Public()
                 && InspectAllocation(s, a) == Ok(WouldReplay(result.value.record))
            else result.value.Conflict? && InspectAllocation(s, a) == Ok(WouldConflict))
      else
        && InspectAllocation(s, a) == Ok(Available)
        && (if a.Key() in s.executions
            then t == s && result == Err(DuplicateExecution(a.record.identity.executionId))
            else && result == Ok(Allocated(a.record)) && a.Key() in t.executions
                 && t.executions[a.Key()].record == a.record && t.executions[a.Key()].request == a.request
                 && scope in t.idempotency
                 && t.idempotency[scope].Key() == a.Key() && t.idempotency[scope].reservation == reservation)
  {
    hide RowsValid, WaitersValid;
    var scope := ScopeKey(a.projectId, a.idempotency.value.scope);
    if scope in s.idempotency {
      assert EntryValid(s, scope);
      assert s.idempotency[scope].Key() == ExecutionKey(a.projectId, s.idempotency[scope].executionId);
    }
  }

  lemma EntryIsStored(s: Store, scope: ScopeKey)
    requires Valid(s) && scope in s.idempotency
    ensures
      var entry := s.idempotency[scope];
      entry.Key() in s.executions && entry.Key() == ExecutionKey(scope.projectId, entry.executionId)
  {
    hide RowsValid, WaitersValid;
    assert EntryValid(s, scope);
  }

  /** Without an idempotency key every request is a new execution. */
  lemma KeylessIsAlwaysNew(s: Store, a: Allocation)
    requires !a.record.replayed && a.idempotency.None? && a.Key() !in s.executions
    ensures InspectAllocation(s, a) == Ok(Available) && Allocate(s, a).1 == Ok(Allocated(a.record))
    ensures Allocate(s, a).0.idempotency == s.idempotency
  {
  }

  // ------------------------------------------------------------ Transitions

  lemma AcceptedRowExtends(row: StoredExecution, record: ExecutionRecord)
    requires AssertExecutionTransition(row.record, record).None?
    ensures RowExtends(row, row.(record := record)) && !record.replayed && !row.record.Terminal()
  {
    AcceptedTransition(row.record, record);
  }

  lemma SettleRows(s: Store, key: ExecutionKey, record: ExecutionRecord)
    requires RowsValid(s) && key in s.executions
    requires AssertExecutionTransition(s.executions[key].record, record).None?
    ensures RowsValid(Settle(s, key, record)) && Extends(s, Settle(s, key, record))
  {
    AcceptedRowExtends(s.executions[key], record);
    assert RowValid(s, key);
    RowChange(s, Settle(s, key, record), key);
  }

  /** Which tickets a terminal write resolves: those resolved before, and exactly the queue of this execution. */
  lemma SettleResolves(s: Store, key: ExecutionKey, record: ExecutionRecord, ticket: nat)
    requires key in s.executions && record.Terminal()
    ensures Resolved(Settle(s, key, record), ticket) <==> Resolved(s, ticket) || ticket in WaitersOf(s, key)
  {
    var t := Settle(s, key, record);
    var n := |s.deliveries|;
    var queue := WaitersOf(s, key);
    if Resolved(s, ticket) {
      var i :| 0 <= i < n && s.deliveries[i].ticket == ticket;
      assert t.deliveries[i].ticket == ticket;
    }
    if ticket in queue {
      var j :| 0 <= j < |queue| && queue[j] == ticket;
      assert t.deliveries[n + j].ticket == ticket;
    }
    if Resolved(t, ticket) {
      var i :| 0 <= i < |t.deliveries| && t.deliveries[i].ticket == ticket;
      assert if i < n then s.deliveries[i].ticket == ticket else queue[i - n] == ticket;
    }
  }

  lemma SettleDelivery(s: Store, key: ExecutionKey, record: ExecutionRecord, i: nat)
    requires WaitersValid(s) && key in s.executions && record.Terminal() && !s.executions[key].record.Terminal()
    requires i < |Settle(s, key, record).deliveries|
    ensures DeliveryValid(Settle(s, key, record), i)
  {
    var t := Settle(s, key, record);
    var n := |s.deliveries|;
    var queue := WaitersOf(s, key);
    if i < n {
      assert DeliveryValid(s, i);
    } else {
      assert QueueValid(s, key);
      assert t.deliveries[i] == Delivery(queue[i - n], t.executions[key].Public());
      assert queue[i - n] in queue;
      forall j | 0 <= j < i ensures t.deliveries[j].ticket != t.deliveries[i].ticket {
        if j < n {
          assert t.deliveries[j] == s.deliveries[j];
        } else {
          assert t.deliveries[j].ticket == queue[j - n];
        }
      }
    }
  }

  lemma SettleWaiters(s: Store, key: ExecutionKey, record: ExecutionRecord)
    requires WaitersValid(s) && key in s.executions && !s.executions[key].record.Terminal()
    ensures WaitersValid(Settle(s, key, record))
  {
    var t := Settle(s, key, record);
    if !record.Terminal() {
      NonTerminalSettleWaiters(s, t, key);
    } else {
      forall ticket: nat ensures Resolved(t, ticket) <==> Resolved(s, ticket) || ticket in WaitersOf(s, key) {
        SettleResolves(s, key, record, ticket);
      }
      forall k <- t.waiters ensures QueueValid(t, k) {
        assert QueueValid(s, k);
        if key in s.waiters {
          assert QueueValid(s, key);
        }
      }
      forall u: nat | u < |t.tickets| ensures TicketValid(t, u) {
        assert TicketValid(s, u);
      }
      forall i: nat | i < |t.deliveries| ensures DeliveryValid(t, i) {
        SettleDelivery(s, key, record, i);
      }
    }
  }

  lemma NonTerminalSettleWaiters(s: Store, t: Store, key: ExecutionKey)
    requires WaitersValid(s) && key in s.executions && key in t.executions
    requires t == s.(executions := s.executions[key := t.executions[key]])
    requires !s.executions[key].record.Terminal() && !t.executions[key].record.Terminal()
    ensures WaitersValid(t)
  {
    assert forall ticket :: Resolved(t, ticket) <==> Resolved(s, ticket);
    forall k <- t.waiters ensures QueueValid(t, k) {
      assert QueueValid(s, k);
    }
    forall u: nat | u < |t.tickets| ensures TicketValid(t, u) {
      assert TicketValid(s, u);
    }
    forall i: nat | i < |t.deliveries| ensures DeliveryValid(t, i) {
      assert DeliveryValid(s, i);
    }
  }

  lemma SettleKeeps(s: Store, key: ExecutionKey, record: ExecutionRecord)
    requires Valid(s) && key in s.executions
    requires AssertExecutionTransition(s.executions[key].record, record).None?
    ensures Valid(Settle(s, key, record)) && Extends(s, Settle(s, key, record))
  {
    hide RowsValid, IndexValid, WaitersValid, Extends;
    SettleRows(s, key, record);
    IndexFrame(s, Settle(s, key, record));
    SettleWaiters(s, key, record);
  }

  lemma WaitFinished(s: Store, key: ExecutionKey)
    requires WaitersValid(s) && Finished(s, key)
    ensures WaitersValid(Wait(s, key).0)
  {
    var t := Wait(s, key).0;
    var ticket := |s.tickets|;
    assert t.deliveries[|s.deliveries|].ticket == ticket;
    forall other: nat ensures Resolved(t, other) <==> Resolved(s, other) || other == ticket {
      if Resolved(s, other) {
        var i :| 0 <= i < |s.deliveries| && s.deliveries[i].ticket == other;
        assert t.deliveries[i].ticket == other;
      }
    }
    forall k <- t.waiters ensures QueueValid(t, k) {
      assert QueueValid(s, k);
    }
    forall u: nat | u < |t.tickets| ensures TicketValid(t, u) {
      if u < ticket {
        assert TicketValid(s, u);
      }
    }
    forall i: nat | i < |t.deliveries| ensures DeliveryValid(t, i) {
      forall j: nat | j < |s.deliveries| ensures s.deliveries[j].ticket < ticket {
        assert DeliveryValid(s, j);
      }
      if i < |s.deliveries| {
        assert DeliveryValid(s, i);
      }
    }
  }

  lemma WaitQueued(s: Store, key: ExecutionKey)
    requires WaitersValid(s) && key in s.executions && !Finished(s, key)
    ensures WaitersValid(Wait(s, key).0)
  {
    var t := Wait(s, key).0;
    var ticket := |s.tickets|;
    var queue := WaitersOf(s, key);
    assert forall other :: Resolved(t, other) <==> Resolved(s, other);
    forall i: nat | i < |t.deliveries| ensures DeliveryValid(t, i) && t.deliveries[i].ticket < ticket {
      assert DeliveryValid(s, i);
    }
    assert t.waiters[key] == queue + [ticket] && t.waiters[key][|queue|] == ticket;
    forall k <- t.waiters ensures QueueValid(t, k) {
      if k in s.waiters {
        assert QueueValid(s, k);
      }
      if k == key {
        forall i | 0 <= i < |queue| ensures t.waiters[key][i] == queue[i] && queue[i] < ticket {
          assert queue[i] in queue;
        }
      }
    }
    forall u: nat | u < |t.tickets| ensures TicketValid(t, u) {
      if u < ticket {
        assert TicketValid(s, u);
        assert u in queue ==> u in t.waiters[key];
      }
    }
  }

  lemma WaitRows(s: Store, key: ExecutionKey)
    requires RowsValid(s) && key in s.executions
    ensures RowsValid(Wait(s, key).0) && Extends(s, Wait(s, key).0)
  {
    hide RowsValid;
    StoredAreNotReplayed(s);
    RowChange(s, Wait(s, key).0, key);
  }

  lemma WaitKeeps(s: Store, key: ExecutionKey)
    requires Valid(s)
    ensures Valid(Wait(s, key).0) && Extends(s, Wait(s, key).0)
  {
    hide RowsValid, IndexValid, WaitersValid;
    if key in s.executions {
      WaitRows(s, key);
      IndexFrame(s, Wait(s, key).0);
      if Finished(s, key) {
        WaitFinished(s, key);
      } else {
        WaitQueued(s, key);
      }
    }
  }

  lemma SetResolvedConnectionIndex(s: Store, key: ExecutionKey, connection: Option<string>)
    requires IndexValid(s) && key in s.executions
    ensures IndexValid(SetResolvedConnection(s, key, connection).0)
  {
    var t := SetResolvedConnection(s, key, connection).0;
    forall sk <- t.idempotency ensures EntryValid(t, sk) {
      assert EntryValid(s, sk);
    }
    forall k <- t.idempotencyByExecution ensures BackEntryValid(t, k) {
      assert BackEntryValid(s, k);
    }
  }

  lemma SetResolvedConnectionKeeps(s: Store, key: ExecutionKey, connection: Option<string>)
    requires Valid(s)
    ensures Valid(SetResolvedConnection(s, key, connection).0)
            && Extends(s, SetResolvedConnection(s, key, connection).0)
  {
    hide RowsValid, IndexValid, WaitersValid, Extends;
    if key !in s.executions {
      ExtendsItself(s);
    } else {
      var t := SetResolvedConnection(s, key, connection).0;
      StoredAreNotReplayed(s);
      RowChange(s, t, key);
      WaitersFrame(s, t);
      SetResolvedConnectionIndex(s, key, connection);
    }
  }

  /** The resolved connection reaches the index entry exactly when the index still names this execution. */
  lemma ResolvedConnectionReachesIndex(s: Store, key: ExecutionKey, connection: Option<string>, sk: ScopeKey)
    requires Valid(s) && key in s.executions && sk in s.idempotency
    ensures
      var t := SetResolvedConnection(s, key, connection).0;
      && sk in t.idempotency
      && t.idempotency[sk].resolvedConnectionId ==
         if s.idempotency[sk].Key() == key then connection else s.idempotency[sk].resolvedConnectionId
  {
    assert EntryValid(s, sk);
    if key in s.idempotencyByExecution {
      assert BackEntryValid(s, key);
    }
  }

  // ------------------------------------------------------------------- Runs

  lemma ApplyKeeps(s: Store, call: Call)
    requires Valid(s)
    ensures Valid(Apply(s, call)) && Extends(s, Apply(s, call))
  {
    hide RowsValid, IndexValid, WaitersValid, Extends;
    var t := Apply(s, call);
    if t == s {
      ExtendsItself(s);
    } else {
      match call
      case CallAllocate(a) => AllocateKeeps(s, a);
      case CallUpdate(projectId, record) =>
        SettleKeeps(s, ExecutionKey(projectId, record.identity.executionId), record);
      case CallCancel(key, at) =>
        SettleKeeps(s, key,
          CancelledExecutionRecord(s.executions[key].record, at, s.executions[key].dispatchStartedAt));
      case CallWait(key) => WaitKeeps(s, key);
      case CallSetResolvedConnection(key, connection) => SetResolvedConnectionKeeps(s, key, connection);
      case CallMarkReplayed(key, _) => PatchKeeps(s, t, key, t.executions[key]);
      case CallSetResumeContext(key, _) => PatchKeeps(s, t, key, t.executions[key]);
      case CallSetWebhookEventId(key, _) => PatchKeeps(s, t, key, t.executions[key]);
      case CallMarkDispatchStarted(key, _) => PatchKeeps(s, t, key, t.executions[key]);
      case CallMarkUsageFinalized(key, _) => PatchKeeps(s, t, key, t.executions[key]);
      case CallMarkWebhookPublished(key, _) => PatchKeeps(s, t, key, t.executions[key]);
    }
  }

  /** Over every run from a valid store: the invariant holds and the store only grows and advances. */
  lemma {:induction false} RunKeeps(s: Store, calls: seq<Call>)
    requires Valid(s)
    ensures Valid(Run(s, calls)) && Extends(s, Run(s, calls))
    decreases |calls|
  {
    if calls != [] {
      ApplyKeeps(s, calls[0]);
      RunKeeps(Apply(s, calls[0]), calls[1..]);
      ExtendsTransitive(s, Apply(s, calls[0]), Run(s, calls));
    }
  }

  lemma EmptyIsValid()
    ensures Valid(EMPTY)
  {
  }

  /** A terminal record, its dispatch marker and every identity field survive every later run unchanged,
      and a status never moves backwards. */
  lemma TerminalAbsorbs(s: Store, calls: seq<Call>, key: ExecutionKey)
    requires Valid(s) && key in s.executions
    ensures key in Run(s, calls).executions
    ensures
      var before, after := s.executions[key], Run(s, calls).executions[key];
      && before.record.identity == after.record.identity
      && before.record.StatusOf().Rank() <= after.record.StatusOf().Rank()
      && (before.record.Terminal() ==>
            before.record == after.record && before.dispatchStartedAt == after.dispatchStartedAt)
  {
    hide RowsValid, IndexValid, WaitersValid;
    RunKeeps(s, calls);
  }

  /** Nobody waits forever on a finished execution: a ticket issued at any point of any run is resolved
      exactly once its execution is terminal, never twice, and with that terminal record up to `replayed`. */
  lemma WaitersResolve(s: Store, key: ExecutionKey, calls: seq<Call>)
    requires Valid(s) && key in s.executions
    ensures
      var issued := Wait(s, key);
      var after := Run(issued.0, calls);
      && issued.1.Ok?
      && key in after.executions
      && (after.executions[key].record.Terminal() <==>
            exists i :: 0 <= i < |after.deliveries| && after.deliveries[i].ticket == issued.1.value)
      && (forall i :: 0 <= i < |after.deliveries| && after.deliveries[i].ticket == issued.1.value ==>
            SameUpToReplay(after.deliveries[i].record, after.executions[key].record))
      && (forall i, j :: 0 <= i < j < |after.deliveries| ==>
            !(after.deliveries[i].ticket == after.deliveries[j].ticket == issued.1.value))
  {
    hide RowsValid, IndexValid;
    var issued := Wait(s, key);
    WaitKeeps(s, key);
    RunKeeps(issued.0, calls);
    var after := Run(issued.0, calls);
    var ticket := issued.1.value;
    assert issued.0.tickets[ticket] == key && after.tickets[ticket] == key;
    assert TicketValid(after, ticket);
    if !Finished(after, key) {
      assert QueueValid(after, key);
    }
    assert Resolved(after, ticket) <==> Finished(after, key);
    forall i | 0 <= i < |after.deliveries|
      ensures after.deliveries[i].ticket == ticket ==>
                SameUpToReplay(after.deliveries[i].record, after.executions[key].record)
      ensures forall j :: 0 <= j < i ==> after.deliveries[j].ticket != after.deliveries[i].ticket
    {
      assert DeliveryValid(after, i);
    }
  }
}
