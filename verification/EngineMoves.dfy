// What one step of one worker may touch, program point by program point: the
// worker itself, at most one event in the log, and no key of the store. The
// three steps that do more, an allocation, an abort and the start of a
// reconciliation, are left to the modules that need them.
module EngineMoves {
  import opened Wrappers
  import opened ExecutionRecords
  import opened ExecutionStore
  import opened ExecutionEngine

  function CommandOf(pc: Pc): Option<ExecuteCommand> {
    match pc
    case ExecInspect(cmd) => Some(cmd)
    case ExecReserve(cmd) => Some(cmd)
    case ExecLateInspect(cmd) => Some(cmd)
    case ExecAllocate(cmd, _, _) => Some(cmd)
    case ExecReplay(cmd, _, _) => Some(cmd)
    case ExecMarkReplayed(cmd, _) => Some(cmd)
    case ExecWait(cmd, _) => Some(cmd)
    case _ => None
  }

  /** A worker that has nothing left but to wait for a reconciliation and to finish. */
  predicate Quitting(pc: Pc) {
    match pc
    case StartReconcile(_, after) => after.AfterFinish? || after.AfterWinner?
    case Awaiting(_, after) => after.AfterFinish? || after.AfterWinner?
    case JobAfterThrow(_) => true
    case Done => true
    case _ => false
  }

  /** Only a worker itself releases the reservation of its request, and not when it is quitting. */
  predicate Owned(e: Event, id: nat, pc: Pc) {
    e.ReservationReleased? ==> e.worker == id && !Quitting(pc)
  }

  /** Where a worker must come from: to store an answer it got one, and each stage of a reconciliation follows
      the one before. */
  predicate Arrives(before: Pc, after: Pc) {
    && (after.RunPersistSuccess? ==> before.RunInAdapter?)
    && (after.ReconUsage? ==> before.ReconRead?)
    && (after.ReconFinalize? ==> before.ReconUsage?)
    && (after.ReconPublish? ==> before.ReconWebhook?)
  }

  /** The row has not newly succeeded, and no effect of a reconciliation was newly recorded in it. */
  predicate SameOutcome(a: StoredExecution, b: StoredExecution) {
    && a.usageFinalizedAt == b.usageFinalizedAt
    && a.webhookPublishedAt == b.webhookPublishedAt
    && (b.record.phase.Succeeded? ==> a.record == b.record)
  }

  ghost predicate SameOutcomes(s: Store, t: Store) {
    && t.executions.Keys == s.executions.Keys
    && forall k <- s.executions :: SameOutcome(s.executions[k], t.executions[k])
  }

  /** The three points whose store calls record an outcome. */
  predicate RecordsOutcome(pc: Pc) {
    pc.RunPersistSuccess? || pc.ReconFinalize? || pc.ReconPublish?
  }

  /** One worker went to another program point, one that carries the same command if any and is quitting if it
      was; at most one event other than an admission was logged; the store has the same keys, and the same
      outcomes unless the worker stood where one is recorded. */
  ghost predicate MovesOne(w: World, w2: World, id: nat)
    requires id in w.workers
  {
    && id in w2.workers
    && var before, after := w.workers[id].pc, w2.workers[id].pc;
    && w2.workers == w.workers[id := w.workers[id].(pc := after)]
    && w2.nextWorker == w.nextWorker
    && (CommandOf(after).None? || CommandOf(after) == CommandOf(before))
    && (Quitting(before) ==> Quitting(after))
    && Arrives(before, after)
    && (if RecordsOutcome(before) then w2.store.executions.Keys == w.store.executions.Keys
        else SameOutcomes(w.store, w2.store))
    && (w2.log == w.log
        || (&& |w2.log| == |w.log| + 1 && w2.log[..|w.log|] == w.log
            && !w2.log[|w.log|].Admitted? && Owned(w2.log[|w.log|], id, before)))
  }

  // No call but an allocation adds or removes a row, and few record an outcome.

  lemma SameOutcomesItself(s: Store)
    ensures SameOutcomes(s, s)
  {
  }

  lemma UpdateKeepsOutcomes(s: Store)
    ensures forall p, r :: Update(s, p, r).0.executions.Keys == s.executions.Keys
    ensures forall p, r: ExecutionRecord :: !r.phase.Succeeded? ==> SameOutcomes(s, Update(s, p, r).0)
  {
    hide AssertExecutionTransition, Deliveries;
  }

  lemma RunKeepsOutcomes(s: Store)
    ensures forall k, c :: SameOutcomes(s, SetResolvedConnection(s, k, c).0)
    ensures forall k, t :: SameOutcomes(s, MarkDispatchStarted(s, k, t).0)
  {
  }

  lemma ReplayKeepsOutcomes(s: Store)
    ensures forall k, t :: SameOutcomes(s, MarkReplayed(s, k, t).0)
    ensures forall k :: SameOutcomes(s, Wait(s, k).0)
  {
  }

  lemma RecoveryKeepsOutcomes(s: Store)
    ensures forall k, r :: SameOutcomes(s, SetResumeContext(s, k, r).0)
    ensures forall k, e :: SameOutcomes(s, SetWebhookEventId(s, k, e).0)
  {
  }

  lemma CancelKeepsOutcomes(s: Store)
    ensures forall k, t :: SameOutcomes(s, Cancel(s, k, t).0)
  {
    hide AssertExecutionTransition, Deliveries;
  }

  lemma EffectsKeepKeys(s: Store)
    ensures forall k, t :: MarkUsageFinalized(s, k, t).0.executions.Keys == s.executions.Keys
    ensures forall k, t :: MarkWebhookPublished(s, k, t).0.executions.Keys == s.executions.Keys
  {
  }

  lemma InspectMoves(w: World, id: nat, c: Choice)
    requires id in w.workers && (w.workers[id].pc.ExecInspect? || w.workers[id].pc.ExecLateInspect?)
    ensures MovesOne(w, AdvanceExecute(w, id, c), id)
  {
    hide SameOutcomes, InspectAllocation, Allocate, FullAllocation, MarkReplayed, Wait, FindDelivery, GetRecoverable,
         RowInput;
    SameOutcomesItself(w.store);
  }

  lemma ReserveMoves(w: World, id: nat, c: Choice)
    requires id in w.workers && (w.workers[id].pc.ExecReserve? || w.workers[id].pc.ExecReleaseUnused?)
    ensures MovesOne(w, AdvanceExecute(w, id, c), id)
  {
    hide SameOutcomes, InspectAllocation, Allocate, FullAllocation, MarkReplayed, Wait, FindDelivery, GetRecoverable,
         RowInput;
    SameOutcomesItself(w.store);
  }

  lemma ReplayMoves(w: World, id: nat, c: Choice)
    requires id in w.workers && (w.workers[id].pc.ExecReplay? || w.workers[id].pc.ExecMarkReplayed?)
    ensures MovesOne(w, AdvanceExecute(w, id, c), id)
  {
    hide SameOutcomes, InspectAllocation, Allocate, FullAllocation, MarkReplayed, Wait, FindDelivery, GetRecoverable,
         RowInput;
    SameOutcomesItself(w.store);
    ReplayKeepsOutcomes(w.store);
  }

  lemma WaitMoves(w: World, id: nat, c: Choice)
    requires id in w.workers
        && (w.workers[id].pc.ExecWait? || w.workers[id].pc.ExecAwaitTerminal? || w.workers[id].pc.ExecReplayRead?)
    ensures MovesOne(w, AdvanceExecute(w, id, c), id)
  {
    hide SameOutcomes, InspectAllocation, Allocate, FullAllocation, MarkReplayed, Wait, FindDelivery, GetRecoverable,
         RowInput;
    SameOutcomesItself(w.store);
    ReplayKeepsOutcomes(w.store);
  }

  lemma DecideMoves(w: World, id: nat, rec: Recoverable, c: Choice)
    requires id in w.workers && !Quitting(w.workers[id].pc)
    ensures MovesOne(w, JobDecide(w, id, rec, c), id)
  {
    hide SameOutcomes, Locals;
    SameOutcomesItself(w.store);
  }

  lemma JobReadMoves(w: World, id: nat, c: Choice)
    requires id in w.workers && w.workers[id].pc.JobRead?
    ensures MovesOne(w, AdvanceJob(w, id, c), id)
  {
    hide SameOutcomes, GetRecoverable, SetResumeContext, RowInput, JobDecide;
    SameOutcomesItself(w.store);
    forall rec ensures MovesOne(w, JobDecide(w, id, rec, c), id) {
      DecideMoves(w, id, rec, c);
    }
  }

  lemma JobResumeMoves(w: World, id: nat, c: Choice)
    requires id in w.workers && (w.workers[id].pc.JobSetResume? || w.workers[id].pc.JobReread?)
    ensures MovesOne(w, AdvanceJob(w, id, c), id)
  {
    hide SameOutcomes, GetRecoverable, SetResumeContext, RowInput, JobDecide;
    SameOutcomesItself(w.store);
    RecoveryKeepsOutcomes(w.store);
    forall rec ensures MovesOne(w, JobDecide(w, id, rec, c), id) {
      DecideMoves(w, id, rec, c);
    }
  }

  lemma JobThrowMoves(w: World, id: nat, c: Choice)
    requires id in w.workers && w.workers[id].pc.JobAfterThrow?
    ensures MovesOne(w, AdvanceJob(w, id, c), id)
  {
    hide SameOutcomes, GetRecoverable, SetResumeContext, RowInput;
    SameOutcomesItself(w.store);
  }

  lemma AcquireMoves(w: World, id: nat, c: Choice)
    requires id in w.workers && (w.workers[id].pc.RunAcquire? || w.workers[id].pc.RunMarkRunning?)
    ensures MovesOne(w, AdvanceRun(w, id, c), id)
  {
    hide SameOutcomes, Update, SetResolvedConnection, MarkDispatchStarted, GetRecoverable, RunInput,
         RowInput, FailureOf;
    SameOutcomesItself(w.store);
    UpdateKeepsOutcomes(w.store);
  }

  lemma CredentialMoves(w: World, id: nat, c: Choice)
    requires id in w.workers && (w.workers[id].pc.RunResolveCredential? || w.workers[id].pc.RunSetConnection?)
    ensures MovesOne(w, AdvanceRun(w, id, c), id)
  {
    hide SameOutcomes, Update, SetResolvedConnection, MarkDispatchStarted, GetRecoverable, RunRecord, RunInput,
         RowInput, FailureOf;
    SameOutcomesItself(w.store);
    RunKeepsOutcomes(w.store);
  }

  lemma DispatchMoves(w: World, id: nat, c: Choice)
    requires id in w.workers && (w.workers[id].pc.RunMarkDispatch? || w.workers[id].pc.RunEnterAdapter?)
    ensures MovesOne(w, AdvanceRun(w, id, c), id)
  {
    hide SameOutcomes, Update, SetResolvedConnection, MarkDispatchStarted, GetRecoverable, RunRecord, RunInput,
         RowInput, FailureOf;
    SameOutcomesItself(w.store);
    RunKeepsOutcomes(w.store);
  }

  lemma AdapterMoves(w: World, id: nat, c: Choice)
    requires id in w.workers && (w.workers[id].pc.RunInAdapter? || w.workers[id].pc.RunPersistSuccess?)
    ensures MovesOne(w, AdvanceRun(w, id, c), id)
  {
    hide SameOutcomes, Update, SetResolvedConnection, MarkDispatchStarted, GetRecoverable, RunRecord, RunInput,
         RowInput, FailureOf;
    SameOutcomesItself(w.store);
    UpdateKeepsOutcomes(w.store);
  }

  lemma InnerCatchMoves(w: World, id: nat, c: Choice)
    requires id in w.workers && w.workers[id].pc.RunInnerCatch?
    ensures MovesOne(w, AdvanceRun(w, id, c), id)
  {
    hide SameOutcomes, Update, SetResolvedConnection, MarkDispatchStarted, GetRecoverable, RunInput,
         RowInput, FailureOf;
    SameOutcomesItself(w.store);
    UpdateKeepsOutcomes(w.store);
  }

  lemma OuterCatchMoves(w: World, id: nat, c: Choice)
    requires id in w.workers && (w.workers[id].pc.RunOuterCatch? || w.workers[id].pc.RunRelease?)
    ensures MovesOne(w, AdvanceRun(w, id, c), id)
  {
    hide SameOutcomes, Update, SetResolvedConnection, MarkDispatchStarted, GetRecoverable, RunRecord, RunInput,
         RowInput, FailureOf;
    SameOutcomesItself(w.store);
  }

  lemma FailEventMoves(w: World, id: nat, c: Choice)
    requires id in w.workers && w.workers[id].pc.FailSetEvent?
    ensures MovesOne(w, AdvanceOther(w, id, c), id)
  {
    hide SameOutcomes, Update, SetWebhookEventId, Cancel, GetRecoverable, RowInput, RunKey;
    SameOutcomesItself(w.store);
    RecoveryKeepsOutcomes(w.store);
  }

  lemma InterruptedFails(record: ExecutionRecord, began: bool, now: Timestamp)
    ensures InterruptedRecord(record, began, now).phase.Failed?
  {
  }

  lemma FailPersistMoves(w: World, id: nat, c: Choice)
    requires id in w.workers && w.workers[id].pc.FailPersist?
    ensures MovesOne(w, AdvanceOther(w, id, c), id)
  {
    hide SameOutcomes, Update, SetWebhookEventId, Cancel, GetRecoverable, RowInput, RunKey, InterruptedRecord;
    SameOutcomesItself(w.store);
    UpdateKeepsOutcomes(w.store);
    InterruptedFails(w.workers[id].pc.rec.row.record, w.workers[id].pc.began, c.now);
  }

  lemma CancelMoves(w: World, id: nat, c: Choice)
    requires id in w.workers && w.workers[id].pc.CancelStore?
    ensures MovesOne(w, AdvanceOther(w, id, c), id)
  {
    hide SameOutcomes, Update, SetWebhookEventId, Cancel, GetRecoverable, RowInput, RunKey;
    SameOutcomesItself(w.store);
    CancelKeepsOutcomes(w.store);
  }

  lemma RecoverMoves(w: World, id: nat, c: Choice)
    requires id in w.workers && w.workers[id].pc.RecoverRead?
    ensures MovesOne(w, AdvanceOther(w, id, c), id)
  {
    hide SameOutcomes, Update, SetWebhookEventId, Cancel, GetRecoverable, RowInput, RunKey;
    SameOutcomesItself(w.store);
  }

  lemma AwaitingMoves(w: World, id: nat, c: Choice)
    requires id in w.workers && w.workers[id].pc.Awaiting?
    ensures MovesOne(w, AdvanceReconcile(w, id, c), id)
  {
    hide SameOutcomes, GetRecoverable, MarkUsageFinalized, MarkWebhookPublished, ReadForReconciliation;
    SameOutcomesItself(w.store);
  }

  lemma ReadMoves(w: World, id: nat, c: Choice)
    requires id in w.workers && w.workers[id].pc.ReconRead?
    ensures MovesOne(w, AdvanceReconcile(w, id, c), id)
  {
    hide SameOutcomes, GetRecoverable, MarkUsageFinalized, MarkWebhookPublished, ReadForReconciliation;
    SameOutcomesItself(w.store);
  }

  lemma UsageMoves(w: World, id: nat, c: Choice)
    requires id in w.workers && w.workers[id].pc.ReconUsage?
    ensures MovesOne(w, AdvanceReconcile(w, id, c), id)
  {
    hide SameOutcomes, GetRecoverable, MarkUsageFinalized, MarkWebhookPublished, ReadForReconciliation;
    SameOutcomesItself(w.store);
  }

  lemma FinalizeMoves(w: World, id: nat, c: Choice)
    requires id in w.workers && w.workers[id].pc.ReconFinalize?
    ensures MovesOne(w, AdvanceReconcile(w, id, c), id)
  {
    hide SameOutcomes, GetRecoverable, MarkUsageFinalized, MarkWebhookPublished, ReadForReconciliation;
    SameOutcomesItself(w.store);
    EffectsKeepKeys(w.store);
  }

  lemma WebhookMoves(w: World, id: nat, c: Choice)
    requires id in w.workers && w.workers[id].pc.ReconWebhook?
    ensures MovesOne(w, AdvanceReconcile(w, id, c), id)
  {
    hide SameOutcomes, GetRecoverable, MarkUsageFinalized, MarkWebhookPublished, ReadForReconciliation;
    SameOutcomesItself(w.store);
  }

  lemma PublishMoves(w: World, id: nat, c: Choice)
    requires id in w.workers && w.workers[id].pc.ReconPublish?
    ensures MovesOne(w, AdvanceReconcile(w, id, c), id)
  {
    hide SameOutcomes, GetRecoverable, MarkUsageFinalized, MarkWebhookPublished, ReadForReconciliation;
    SameOutcomesItself(w.store);
    EffectsKeepKeys(w.store);
  }

  /** Every step but an allocation, an abort and the start of a reconciliation moves one worker. */
  lemma AdvanceMoves(w: World, id: nat, c: Choice)
    requires id in w.workers
    requires var pc := w.workers[id].pc; !pc.ExecAllocate? && !pc.CancelAbort? && !pc.StartReconcile?
    ensures Advance(w, id, c) == w || MovesOne(w, Advance(w, id, c), id)
  {
    hide AdvanceExecute, AdvanceJob, AdvanceRun, AdvanceOther, AdvanceReconcile, MovesOne;
    match w.workers[id].pc
    case ExecInspect(_) => InspectMoves(w, id, c);
    case ExecLateInspect(_) => InspectMoves(w, id, c);
    case ExecReserve(_) => ReserveMoves(w, id, c);
    case ExecReleaseUnused(_, _) => ReserveMoves(w, id, c);
    case ExecReplay(_, _, _) => ReplayMoves(w, id, c);
    case ExecMarkReplayed(_, _) => ReplayMoves(w, id, c);
    case ExecWait(_, _) => WaitMoves(w, id, c);
    case ExecAwaitTerminal(_, _) => WaitMoves(w, id, c);
    case ExecReplayRead(_, _) => WaitMoves(w, id, c);
    case JobRead(_) => JobReadMoves(w, id, c);
    case JobSetResume(_, _, _) => JobResumeMoves(w, id, c);
    case JobReread(_) => JobResumeMoves(w, id, c);
    case JobAfterThrow(_) => JobThrowMoves(w, id, c);
    case RunAcquire(_) => AcquireMoves(w, id, c);
    case RunMarkRunning(_) => AcquireMoves(w, id, c);
    case RunResolveCredential(_) => CredentialMoves(w, id, c);
    case RunSetConnection(_) => CredentialMoves(w, id, c);
    case RunMarkDispatch(_) => DispatchMoves(w, id, c);
    case RunEnterAdapter(_) => DispatchMoves(w, id, c);
    case RunInAdapter(_) => AdapterMoves(w, id, c);
    case RunPersistSuccess(_, _) => AdapterMoves(w, id, c);
    case RunInnerCatch(_, _) => InnerCatchMoves(w, id, c);
    case RunOuterCatch(_, _) => OuterCatchMoves(w, id, c);
    case RunRelease(_) => OuterCatchMoves(w, id, c);
    case FailSetEvent(_, _, _) => FailEventMoves(w, id, c);
    case FailPersist(_, _, _) => FailPersistMoves(w, id, c);
    case CancelStore(_) => CancelMoves(w, id, c);
    case RecoverRead(_) => RecoverMoves(w, id, c);
    case Awaiting(_, _) => AwaitingMoves(w, id, c);
    case ReconRead(_) => ReadMoves(w, id, c);
    case ReconUsage(_) => UsageMoves(w, id, c);
    case ReconFinalize(_) => FinalizeMoves(w, id, c);
    case ReconWebhook(_) => WebhookMoves(w, id, c);
    case ReconPublish(_) => PublishMoves(w, id, c);
    case _ =>
  }
}
