// The in-memory execution store as the object it is: maps updated in place by
// its methods. Each method is proved to do exactly what the value-level call of
// ExecutionStore does, and to keep the store invariant.
module StoreObject {
  import opened Wrappers
  import opened ExecutionRecords
  import opened ExecutionStore
  import Spec = ExecutionStore
  import opened StoreRuns

  class InMemoryExecutionStore {
    var executions: map<ExecutionKey, StoredExecution>
    var order: seq<ExecutionKey>
    var idempotency: map<ScopeKey, StoredIdempotency>
    var idempotencyByExecution: map<ExecutionKey, ScopeKey>
    var terminalWaiters: map<ExecutionKey, seq<nat>>
    var tickets: seq<ExecutionKey>
    var deliveries: seq<Delivery>
    var sequence: nat

    ghost function State(): Store
      reads this
    {
      Store(executions, order, idempotency, idempotencyByExecution, terminalWaiters, tickets, deliveries, sequence)
    }

    ghost predicate Valid()
      reads this
    {
      Spec.Valid(State())
    }

    constructor ()
      ensures Valid() && State() == EMPTY
    {
      executions, order := map[], [];
      idempotency, idempotencyByExecution := map[], map[];
      terminalWaiters, tickets, deliveries := map[], [], [];
      sequence := 0;
      new;
      EmptyIsValid();
    }

    method InspectAllocation(a: Allocation) returns (r: Result<InspectionResult, StoreError>)
      requires Valid()
      ensures r == Spec.InspectAllocation(State(), a)
      ensures r.Ok?
    {
      hide RowsValid, WaitersValid;
      if a.idempotency.None? {
        return Ok(Available);
      }
      var reservation := a.idempotency.value;
      var storageKey := ScopeKey(a.projectId, reservation.scope);
      if storageKey !in idempotency || idempotency[storageKey].reservation.expiresAt <= a.record.identity.createdAt {
        return Ok(Available);
      }
      var existing := idempotency[storageKey];
      if existing.reservation.requestHash != reservation.requestHash {
        return Ok(WouldConflict);
      }
      assert EntryValid(State(), storageKey);
      var stored := executions[ExecutionKey(a.projectId, existing.executionId)];
      return Ok(WouldReplay(stored.Public()));
    }

    /** Replaces an expired entry, in both maps, by the entry of the new execution. */
    method WriteReservation(a: Allocation, expired: Option<StoredIdempotency>)
      requires a.idempotency.Some? ==>
        var storageKey := ScopeKey(a.projectId, a.idempotency.value.scope);
        expired == if storageKey in idempotency then Some(idempotency[storageKey]) else None
      modifies this`idempotency, this`idempotencyByExecution
      ensures State() == Reindex(old(State()), a)
    {
      if a.idempotency.Some? {
        var reservation := a.idempotency.value;
        var storageKey := ScopeKey(a.projectId, reservation.scope);
        if expired.Some? {
          idempotency := idempotency - {storageKey};
          idempotencyByExecution := idempotencyByExecution - {expired.value.Key()};
        }
        idempotency := idempotency[
          storageKey := StoredIdempotency(a.projectId, a.record.identity.executionId, reservation, None)];
        idempotencyByExecution := idempotencyByExecution[a.Key() := storageKey];
        assert idempotency == Reindex(old(State()), a).idempotency;
      }
    }

    method Allocate(a: Allocation) returns (r: Result<AllocationResult, StoreError>)
      requires Valid()
      modifies this
      ensures Valid() && (State(), r) == Spec.Allocate(old(State()), a)
    {
      hide RowsValid, IndexValid, WaitersValid, Extends;
      ApplyKeeps(State(), CallAllocate(a));
      if a.record.replayed {
        return Err(ReplayProvenance);
      }
      var key := a.Key();
      var expired: Option<StoredIdempotency> := None;
      if a.idempotency.Some? {
        var reservation := a.idempotency.value;
        var storageKey := ScopeKey(a.projectId, reservation.scope);
        if storageKey in idempotency {
          var existing := idempotency[storageKey];
          if existing.reservation.expiresAt > a.record.identity.createdAt {
            if existing.reservation.requestHash != reservation.requestHash {
              return Ok(Conflict);
            }
            var existingKey := ExecutionKey(a.projectId, existing.executionId);
            if existingKey in executions {
              return Ok(Replay(executions[existingKey].Public()));
            }
          }
          expired := Some(existing);
        }
      }
      if key in executions {
        return Err(DuplicateExecution(a.record.identity.executionId));
      }
      WriteReservation(a, expired);
      sequence := sequence + 1;
      executions := executions[key := NewRow(a, sequence)];
      order := order + [key];
      return Ok(Allocated(a.record));
    }

    /** Takes the execution's waiters out of the map and resolves each of them in order. */
    method ResolveWaiters(key: ExecutionKey, record: ExecutionRecord)
      modifies this`terminalWaiters, this`deliveries
      ensures terminalWaiters == old(terminalWaiters) - {key}
      ensures deliveries == old(deliveries) + Deliveries(WaitersOf(old(State()), key), record)
    {
      var queue := if key in terminalWaiters then terminalWaiters[key] else [];
      terminalWaiters := terminalWaiters - {key};
      var i := 0;
      while i < |queue|
        invariant 0 <= i <= |queue|
        invariant terminalWaiters == old(terminalWaiters) - {key}
        invariant deliveries == old(deliveries) + Deliveries(queue[..i], record)
      {
        assert Deliveries(queue[..i + 1], record) == Deliveries(queue[..i], record) + [Delivery(queue[i], record)];
        deliveries := deliveries + [Delivery(queue[i], record)];
        i := i + 1;
      }
      assert queue[..i] == queue;
    }

    method Update(projectId: string, record: ExecutionRecord) returns (r: Option<StoreError>)
      requires Valid()
      modifies this
      ensures Valid() && (State(), r) == Spec.Update(old(State()), projectId, record)
    {
      hide RowsValid, IndexValid, WaitersValid, Extends;
      ApplyKeeps(State(), CallUpdate(projectId, record));
      var key := ExecutionKey(projectId, record.identity.executionId);
      if key !in executions {
        return Some(UnknownExecution(record.identity.executionId));
      }
      var stored := executions[key];
      var rejected := AssertExecutionTransition(stored.record, record);
      if rejected.Some? {
        return rejected;
      }
      executions := executions[key := stored.(record := record)];
      if record.Terminal() {
        ResolveWaiters(key, ProjectRecord(record, stored.replayObservedAt));
      }
      return None;
    }

    method CancelExecution(key: ExecutionKey, cancelledAt: Timestamp)
      returns (r: Result<CancellationResult, StoreError>)
      requires Valid()
      modifies this
      ensures Valid() && (State(), r) == Spec.Cancel(old(State()), key, cancelledAt)
      ensures r.Ok?
    {
      hide RowsValid, IndexValid, WaitersValid, Extends;
      ApplyKeeps(State(), CallCancel(key, cancelledAt));
      if key !in executions {
        return Ok(NotFound);
      }
      var stored := executions[key];
      if stored.record.phase.Cancelled? {
        return Ok(AlreadyCancelled(stored.Public()));
      }
      if stored.record.phase.Succeeded? || stored.record.phase.Failed? {
        return Ok(AlreadyTerminal(stored.Public()));
      }
      var cancelled := CancelledExecutionRecord(stored.record, cancelledAt, stored.dispatchStartedAt);
      CancellationIsAccepted(stored.record, cancelledAt, stored.dispatchStartedAt);
      executions := executions[key := stored.(record := cancelled)];
      var projected := ProjectRecord(cancelled, stored.replayObservedAt);
      ResolveWaiters(key, projected);
      return Ok(NowCancelled(projected));
    }

    method WaitForTerminal(key: ExecutionKey) returns (r: Result<nat, StoreError>)
      requires Valid()
      modifies this
      ensures Valid() && (State(), r) == Spec.Wait(old(State()), key)
    {
      hide RowsValid, IndexValid, WaitersValid, Extends;
      ApplyKeeps(State(), CallWait(key));
      if key !in executions {
        return Err(UnknownExecution(key.executionId));
      }
      var stored := executions[key];
      var ticket := |tickets|;
      tickets := tickets + [key];
      if stored.record.Terminal() {
        deliveries := deliveries + [Delivery(ticket, stored.Public())];
      } else {
        var queue := if key in terminalWaiters then terminalWaiters[key] else [];
        terminalWaiters := terminalWaiters[key := queue + [ticket]];
      }
      return Ok(ticket);
    }

    method MarkReplayed(key: ExecutionKey, observedAt: Timestamp) returns (r: bool)
      requires Valid()
      modifies this
      ensures Valid() && (State(), r) == Spec.MarkReplayed(old(State()), key, observedAt)
    {
      hide RowsValid, IndexValid, WaitersValid, Extends;
      ApplyKeeps(State(), CallMarkReplayed(key, observedAt));
      if key !in executions {
        return false;
      }
      var stored := executions[key];
      executions := executions[key := stored.(replayObservedAt := stored.replayObservedAt.Or(Some(observedAt)))];
      return true;
    }

    method SetResolvedConnection(key: ExecutionKey, connection: Option<string>) returns (r: Option<StoreError>)
      requires Valid()
      modifies this
      ensures Valid() && (State(), r) == Spec.SetResolvedConnection(old(State()), key, connection)
    {
      hide RowsValid, IndexValid, WaitersValid, Extends;
      ApplyKeeps(State(), CallSetResolvedConnection(key, connection));
      if key !in executions {
        return Some(UnknownExecution(key.executionId));
      }
      executions := executions[key := executions[key].(resolvedConnectionId := connection)];
      if key !in idempotencyByExecution {
        return None;
      }
      var storageKey := idempotencyByExecution[key];
      if storageKey !in idempotency || idempotency[storageKey].projectId != key.projectId {
        return None;
      }
      idempotency := idempotency[storageKey := idempotency[storageKey].(resolvedConnectionId := connection)];
      return None;
    }

    method SetResumeContext(key: ExecutionKey, recovery: Recovery) returns (r: Result<bool, StoreError>)
      requires Valid()
      modifies this
      ensures Valid() && (State(), r) == Spec.SetResumeContext(old(State()), key, recovery)
    {
      hide RowsValid, IndexValid, WaitersValid, Extends;
      ApplyKeeps(State(), CallSetResumeContext(key, recovery));
      if key !in executions {
        return Ok(false);
      }
      var stored := executions[key];
      if stored.resumeContext.Some? && stored.resumeContext.value != recovery.resumeContext {
        return Err(ResumeContextImmutable);
      }
      if stored.webhookEventId.Some? && stored.webhookEventId.value != recovery.webhookEventId {
        return Err(WebhookIdentityImmutable);
      }
      stored := stored.(resumeContext := Some(recovery.resumeContext));
      stored := stored.(webhookEventId := Some(recovery.webhookEventId));
      executions := executions[key := stored];
      return Ok(true);
    }

    method SetWebhookEventId(key: ExecutionKey, eventId: string) returns (r: Result<bool, StoreError>)
      requires Valid()
      modifies this
      ensures Valid() && (State(), r) == Spec.SetWebhookEventId(old(State()), key, eventId)
    {
      hide RowsValid, IndexValid, WaitersValid, Extends;
      ApplyKeeps(State(), CallSetWebhookEventId(key, eventId));
      if key !in executions {
        return Ok(false);
      }
      var stored := executions[key];
      if stored.webhookEventId.Some? && stored.webhookEventId.value != eventId {
        return Err(WebhookIdentityImmutable);
      }
      executions := executions[key := stored.(webhookEventId := Some(eventId))];
      return Ok(true);
    }

    method MarkDispatchStarted(key: ExecutionKey, dispatchedAt: Timestamp) returns (r: bool)
      requires Valid()
      modifies this
      ensures Valid() && (State(), r) == Spec.MarkDispatchStarted(old(State()), key, dispatchedAt)
    {
      hide RowsValid, IndexValid, WaitersValid, Extends;
      ApplyKeeps(State(), CallMarkDispatchStarted(key, dispatchedAt));
      if key !in executions || !executions[key].record.phase.Running? {
        return false;
      }
      var stored := executions[key];
      if stored.dispatchStartedAt.Some? {
        return false;
      }
      executions := executions[key := stored.(dispatchStartedAt := Some(dispatchedAt))];
      return true;
    }

    method MarkUsageFinalized(key: ExecutionKey, finalizedAt: Timestamp) returns (r: bool)
      requires Valid()
      modifies this
      ensures Valid() && (State(), r) == Spec.MarkUsageFinalized(old(State()), key, finalizedAt)
    {
      hide RowsValid, IndexValid, WaitersValid, Extends;
      ApplyKeeps(State(), CallMarkUsageFinalized(key, finalizedAt));
      if key !in executions {
        return false;
      }
      var stored := executions[key];
      executions := executions[key := stored.(usageFinalizedAt := stored.usageFinalizedAt.Or(Some(finalizedAt)))];
      return true;
    }

    method MarkWebhookPublished(key: ExecutionKey, publishedAt: Timestamp) returns (r: bool)
      requires Valid()
      modifies this
      ensures Valid() && (State(), r) == Spec.MarkWebhookPublished(old(State()), key, publishedAt)
    {
      hide RowsValid, IndexValid, WaitersValid, Extends;
      ApplyKeeps(State(), CallMarkWebhookPublished(key, publishedAt));
      if key !in executions || executions[key].webhookEventId.None? {
        return false;
      }
      var stored := executions[key];
      executions := executions[key := stored.(webhookPublishedAt := stored.webhookPublishedAt.Or(Some(publishedAt)))];
      return true;
    }
  }
}
