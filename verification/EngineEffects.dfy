// What a reconciliation records, it has done: a row whose usage is marked as
// finalized had its usage reported or its reservation released, whichever it
// owes, and a row whose webhook is marked as published had it enqueued, in
// every run.
module EngineEffects {
  import opened Wrappers
  import opened JavaScript
  import opened ExecutionRecords
  import opened ExecutionStore
  import opened ExecutionEngine
  import opened EngineMoves
  import opened EngineInvariants
  import opened EngineSteps
  import opened EngineTheorems
  import opened EngineHistory

  // ------------------------------------------------------- Rows and workers

  ghost predicate Reported(log: seq<Event>, k: ExecutionKey) {
    exists j :: UsageReported(j, k) in log
  }

  ghost predicate Released(log: seq<Event>, k: ExecutionKey) {
    exists j :: UsageReleased(j, k) in log
  }

  ghost predicate Enqueued(log: seq<Event>, k: ExecutionKey, eventId: string) {
    exists j :: WebhookEnqueued(j, k, eventId) in log
  }

  /** The usage that this row owes has been reported or released. */
  ghost predicate UsageSettled(s: Store, log: seq<Event>, k: ExecutionKey)
    requires k in s.executions
  {
    var context := s.executions[k].resumeContext;
    && Finished(s, k) && context.Some?
    && (Began(s, k) && context.value.usageReport.Some? ==> Reported(log, k))
    && (!Began(s, k) && context.value.usageReservation.Some? ==> Released(log, k))
  }

  ghost predicate RowDone(s: Store, log: seq<Event>, k: ExecutionKey)
    requires k in s.executions
  {
    var row := s.executions[k];
    && row.resumeContext.Some? && row.resumeContext.value.version == 1 && row.webhookEventId.Some?
    && (row.usageFinalizedAt.Some? ==> UsageSettled(s, log, k))
    && (row.webhookPublishedAt.Some? ==> Enqueued(log, k, row.webhookEventId.value))
  }

  ghost predicate RowsDone(w: World) {
    forall k <- w.store.executions :: RowDone(w.store, w.log, k)
  }

  /** A reconciliation knows of the report and the reservation that the row's resume context holds. */
  ghost predicate Knows(s: Store, d: ReconData) {
    && d.key in s.executions && s.executions[d.key].resumeContext.Some?
    && var context := s.executions[d.key].resumeContext.value;
    && (context.usageReport.Some? ==> d.usageReport.Some?)
    && (context.usageReservation.Some? ==> d.reservation.Some?)
  }

  ghost predicate PcDone(s: Store, log: seq<Event>, pc: Pc) {
    match pc
    case ReconUsage(d) => Knows(s, d)
    case ReconFinalize(d) => d.key in s.executions && UsageSettled(s, log, d.key)
    case ReconPublish(d) => d.eventId.Some? && Enqueued(log, d.key, d.eventId.value)
    case _ => true
  }

  ghost predicate WorkersDone(w: World) {
    forall j <- w.workers :: PcDone(w.store, w.log, w.workers[j].pc)
  }

  ghost predicate EffectsDone(w: World) {
    RowsDone(w) && WorkersDone(w)
  }

  // --------------------------------------------------------------- Stability

  lemma SettledStays(s: Store, t: Store, log: seq<Event>, more: seq<Event>, k: ExecutionKey)
    requires Extends(s, t) && log <= more && k in s.executions && UsageSettled(s, log, k)
    ensures k in t.executions && UsageSettled(t, more, k)
  {
    RowFacts(s, t, k);
    hide Extends;
    assert forall e <- log :: e in more;
    if Reported(log, k) {
      var j :| UsageReported(j, k) in log;
      assert UsageReported(j, k) in more;
    }
    if Released(log, k) {
      var j :| UsageReleased(j, k) in log;
      assert UsageReleased(j, k) in more;
    }
  }

  lemma EnqueuedStays(log: seq<Event>, more: seq<Event>, k: ExecutionKey, eventId: string)
    requires Enqueued(log, k, eventId) && log <= more
    ensures Enqueued(more, k, eventId)
  {
    var j :| WebhookEnqueued(j, k, eventId) in log;
    assert WebhookEnqueued(j, k, eventId) in more;
  }

  lemma KnowsStays(s: Store, t: Store, d: ReconData)
    requires Extends(s, t) && Knows(s, d)
    ensures Knows(t, d)
  {
    RowFacts(s, t, d.key);
    hide Extends;
  }

  lemma PcStays(s: Store, t: Store, log: seq<Event>, more: seq<Event>, pc: Pc)
    requires Extends(s, t) && log <= more && PcDone(s, log, pc)
    ensures PcDone(t, more, pc)
  {
    hide Extends, Knows, UsageSettled, Enqueued;
    match pc
    case ReconUsage(d) => KnowsStays(s, t, d);
    case ReconFinalize(d) => SettledStays(s, t, log, more, d.key);
    case ReconPublish(d) => EnqueuedStays(log, more, d.key, d.eventId.value);
    case _ =>
  }

  /** A row whose markers do not change keeps what it owes to them. */
  lemma RowStays(s: Store, t: Store, log: seq<Event>, more: seq<Event>, k: ExecutionKey)
    requires Extends(s, t) && log <= more && k in s.executions && RowDone(s, log, k)
    requires k in t.executions
          && t.executions[k].usageFinalizedAt == s.executions[k].usageFinalizedAt
          && t.executions[k].webhookPublishedAt == s.executions[k].webhookPublishedAt
    ensures RowDone(t, more, k)
  {
    RowFacts(s, t, k);
    hide Extends, UsageSettled;
    if s.executions[k].usageFinalizedAt.Some? {
      SettledStays(s, t, log, more, k);
    }
    if s.executions[k].webhookPublishedAt.Some? {
      EnqueuedStays(log, more, k, s.executions[k].webhookEventId.value);
    }
  }

  lemma RowsStay(w: World, w2: World)
    requires RowsDone(w) && Extends(w.store, w2.store) && w.log <= w2.log && SameOutcomes(w.store, w2.store)
    ensures RowsDone(w2)
  {
    hide Extends, RowDone;
    forall k <- w2.store.executions ensures RowDone(w2.store, w2.log, k) {
      RowStays(w.store, w2.store, w.log, w2.log, k);
    }
  }

  /** One worker moved, and has what its new program point needs. */
  lemma WorkersStay(w: World, w2: World, id: nat)
    requires WorkersDone(w) && Extends(w.store, w2.store) && w.log <= w2.log
    requires id in w.workers && id in w2.workers
    requires forall j <- w2.workers ::
               || j == id || PcDone(w2.store, w2.log, w2.workers[j].pc)
               || (j in w.workers && w2.workers[j].pc == w.workers[j].pc)
    requires PcDone(w2.store, w2.log, w2.workers[id].pc)
    ensures WorkersDone(w2)
  {
    hide Extends, PcDone;
    forall j <- w2.workers ensures PcDone(w2.store, w2.log, w2.workers[j].pc) {
      if !PcDone(w2.store, w2.log, w2.workers[j].pc) {
        PcStays(w.store, w2.store, w.log, w2.log, w.workers[j].pc);
      }
    }
  }

  // ------------------------------------------------------------------- Steps

  /** A worker that is not about to record or to owe an effect. */
  predicate Idle(pc: Pc) {
    !pc.ReconUsage? && !pc.ReconFinalize? && !pc.ReconPublish?
  }

  /** A step that changes no store and no log, and moves workers only to idle points. */
  lemma IdleStep(w: World, w2: World)
    requires EffectsDone(w) && w2.store == w.store && w2.log == w.log
    requires forall j <- w2.workers ::
               (j in w.workers && w2.workers[j].pc == w.workers[j].pc) || Idle(w2.workers[j].pc)
    ensures EffectsDone(w2)
  {
    hide RowsDone, UsageSettled, Knows, Enqueued;
    RowsDoneSame(w, w2);
  }

  lemma RowsDoneSame(w: World, w2: World)
    requires RowsDone(w) && w2.store == w.store && w2.log == w.log
    ensures RowsDone(w2)
  {
    hide RowDone;
  }

  /** A step that moves one worker and records no outcome. */
  lemma MoveDone(w: World, w2: World, id: nat)
    requires id in w.workers && EffectsDone(w) && MovesOne(w, w2, id) && Extends(w.store, w2.store) && w.log <= w2.log
    requires SameOutcomes(w.store, w2.store)
    requires PcDone(w2.store, w2.log, w2.workers[id].pc)
    ensures EffectsDone(w2)
  {
    hide RowsDone, PcDone, Extends, SameOutcomes;
    RowsStay(w, w2);
    WorkersStay(w, w2, id);
  }

  /** What the read of a reconciliation knows. */
  lemma ReadKnows(s: Store, input: ReconInput)
    requires input.key in s.executions && s.executions[input.key].resumeContext.Some?
    ensures Knows(s, ReadForReconciliation(input, GetRecoverable(s, input.key)))
  {
  }

  lemma ReadDone(w: World, id: nat, c: Choice)
    requires Inv(w) && EffectsDone(w) && id in w.workers && w.workers[id].pc.ReconRead?
    ensures
      var w2 := AdvanceReconcile(w, id, c);
      id in w2.workers && PcDone(w2.store, w2.log, w2.workers[id].pc)
  {
    hide Valid, MarkersInv, EntriesInv, OutcomesInv, EffectsInv, FinalizedInv, AdmissionsInv;
    hide Knows, UsageSettled, ReadForReconciliation, GetRecoverable;
    MyHeld(w, id);
    var input := w.workers[id].pc.input;
    assert RowDone(w.store, w.log, input.key);
    ReadKnows(w.store, input);
  }

  /** Before it finalizes, a reconciliation issues what the row owes. */
  lemma UsageDone(w: World, id: nat, c: Choice)
    requires Inv(w) && EffectsDone(w) && id in w.workers && w.workers[id].pc.ReconUsage?
    ensures
      var w2 := AdvanceReconcile(w, id, c);
      id in w2.workers && PcDone(w2.store, w2.log, w2.workers[id].pc)
  {
    hide Valid, MarkersInv, EntriesInv, OutcomesInv, EffectsInv, FinalizedInv, AdmissionsInv;
    hide RowsDone, Began, Finished, EndReconciliation;
    MyHeld(w, id);
    var d := w.workers[id].pc.d;
    assert PcDone(w.store, w.log, w.workers[id].pc);
    UsageLogged(w.log, id, d);
    EndIsDone(Emit(w, UsageReported(id, d.key)), id, d.key, false);
    EndIsDone(Emit(w, UsageReleased(id, d.key)), id, d.key, false);
  }

  lemma UsageLogged(log: seq<Event>, id: nat, d: ReconData)
    ensures Reported(log + [UsageReported(id, d.key)], d.key)
    ensures Released(log + [UsageReleased(id, d.key)], d.key)
  {
    assert UsageReported(id, d.key) in log + [UsageReported(id, d.key)];
    assert UsageReleased(id, d.key) in log + [UsageReleased(id, d.key)];
  }

  lemma EndIsDone(w: World, id: nat, key: ExecutionKey, ok: bool)
    requires id in w.workers
    ensures
      var ended := EndReconciliation(w, id, key, ok);
      id in ended.workers && ended.workers[id].pc == ReconDone(ok) && ended.store == w.store && ended.log == w.log
  {
  }

  lemma WebhookDone(w: World, id: nat, c: Choice)
    requires id in w.workers && w.workers[id].pc.ReconWebhook?
    ensures
      var w2 := AdvanceReconcile(w, id, c);
      id in w2.workers && PcDone(w2.store, w2.log, w2.workers[id].pc)
  {
    hide EndReconciliation, Knows, UsageSettled;
    var d := w.workers[id].pc.d;
    EndIsDone(w, id, d.key, true);
    if d.eventId.Some? {
      EndIsDone(Emit(w, WebhookEnqueued(id, d.key, d.eventId.value)), id, d.key, false);
      assert WebhookEnqueued(id, d.key, d.eventId.value) in w.log + [WebhookEnqueued(id, d.key, d.eventId.value)];
    }
  }

  /** Where all rows but one keep their markers, that one alone has to be looked at. */
  lemma RowsStayBut(w: World, w2: World, key: ExecutionKey)
    requires RowsDone(w) && Extends(w.store, w2.store) && w.log <= w2.log
    requires forall k <- w2.store.executions :: k == key || (k in w.store.executions
               && w2.store.executions[k].usageFinalizedAt == w.store.executions[k].usageFinalizedAt
               && w2.store.executions[k].webhookPublishedAt == w.store.executions[k].webhookPublishedAt)
    requires key in w2.store.executions ==> RowDone(w2.store, w2.log, key)
    ensures RowsDone(w2)
  {
    hide Extends, RowDone;
    forall k <- w2.store.executions ensures RowDone(w2.store, w2.log, k) {
      if k != key {
        RowStays(w.store, w2.store, w.log, w2.log, k);
      }
    }
  }

  /** The row of a reconciliation that finalizes has what it owes. */
  lemma FinalizedRow(w: World, t: Store, more: seq<Event>, d: ReconData, now: Timestamp)
    requires RowsDone(w) && PcDone(w.store, w.log, ReconFinalize(d)) && w.log <= more
    requires t == MarkUsageFinalized(w.store, d.key, now).0 && Extends(w.store, t)
    ensures d.key in t.executions && RowDone(t, more, d.key)
  {
    hide UsageSettled;
    SettledStays(w.store, t, w.log, more, d.key);
    hide Extends;
    assert RowDone(w.store, w.log, d.key);
    if w.store.executions[d.key].webhookPublishedAt.Some? {
      EnqueuedStays(w.log, more, d.key, w.store.executions[d.key].webhookEventId.value);
    }
  }

  lemma FinalizeDone(w: World, id: nat, c: Choice)
    requires EffectsDone(w) && id in w.workers && w.workers[id].pc.ReconFinalize?
    requires Extends(w.store, AdvanceReconcile(w, id, c).store)
    ensures EffectsDone(AdvanceReconcile(w, id, c))
  {
    hide Extends, RowDone, UsageSettled, Enqueued;
    var d, w2 := w.workers[id].pc.d, AdvanceReconcile(w, id, c);
    assert PcDone(w.store, w.log, w.workers[id].pc);
    FinalizedRow(w, w2.store, w2.log, d, c.now);
    RowsStayBut(w, w2, d.key);
    WorkersStay(w, w2, id);
  }

  /** The row of a reconciliation that publishes carries the event ID that was enqueued. */
  lemma PublishedRow(w: World, t: Store, d: ReconData, now: Timestamp)
    requires RowsDone(w) && PcDone(w.store, w.log, ReconPublish(d)) && DataInv(w.store, d)
    requires t == MarkWebhookPublished(w.store, d.key, now).0 && Extends(w.store, t)
    ensures d.key in t.executions && RowDone(t, w.log, d.key)
  {
    hide UsageSettled, Began, Extends;
    assert RowDone(w.store, w.log, d.key);
    if w.store.executions[d.key].usageFinalizedAt.Some? {
      SettledStays(w.store, t, w.log, w.log, d.key);
    }
  }

  lemma PublishShape(w: World, id: nat, c: Choice)
    requires id in w.workers && w.workers[id].pc.ReconPublish?
    ensures
      var d, w2 := w.workers[id].pc.d, AdvanceReconcile(w, id, c);
      && w2.store == MarkWebhookPublished(w.store, d.key, c.now).0 && w2.log == w.log && MovesToIdle(w, w2, id)
  {
    hide MarkWebhookPublished;
  }

  lemma PublishData(w: World, id: nat)
    requires WorkersInv(w) && id in w.workers && w.workers[id].pc.ReconPublish?
    ensures DataInv(w.store, w.workers[id].pc.d)
  {
    hide DataInv;
    MyHeld(w, id);
  }

  lemma PublishDone(w: World, id: nat, c: Choice)
    requires Inv(w) && EffectsDone(w) && id in w.workers && w.workers[id].pc.ReconPublish?
    requires Extends(w.store, AdvanceReconcile(w, id, c).store)
    ensures EffectsDone(AdvanceReconcile(w, id, c))
  {
    hide AdvanceReconcile, Extends, RowDone, WorkersInv;
    hide Valid, MarkersInv, EntriesInv, OutcomesInv, EffectsInv, FinalizedInv, AdmissionsInv, DataInv;
    PublishData(w, id);
    var d, w2 := w.workers[id].pc.d, AdvanceReconcile(w, id, c);
    assert PcDone(w.store, w.log, w.workers[id].pc);
    PublishShape(w, id, c);
    PublishedRow(w, w2.store, d, c.now);
    RowsStayBut(w, w2, d.key);
    IdleWorkers(w, w2, id);
  }

  lemma PersistLocals(w: World, id: nat)
    requires Valid(w.store) && WorkersInv(w) && id in w.workers && w.workers[id].pc.RunPersistSuccess?
    ensures
      var l := w.workers[id].pc.l;
      l.key in w.store.executions && l.key == ExecutionKey(l.key.projectId, l.pending.identity.executionId)
  {
    hide Valid, LocalsInv;
    MyHeld(w, id);
    LocalsKey(w.store, w.workers[id].pc.l);
  }

  /** A success is recorded in one row, which keeps its markers. */
  lemma SuccessShape(w: World, id: nat, c: Choice)
    requires Valid(w.store) && WorkersInv(w) && id in w.workers && w.workers[id].pc.RunPersistSuccess?
    ensures
      var k, w2 := w.workers[id].pc.l.key, AdvanceRun(w, id, c);
      && k in w.store.executions && MovesToIdle(w, w2, id)
      && (w2.store == w.store
          || exists record :: w2.store.executions == w.store.executions[k := w.store.executions[k].(record := record)])
  {
    hide Update, RunInput, FailureOf, Valid, WorkersInv;
    PersistLocals(w, id);
    var l := w.workers[id].pc.l;
    var record := RunRecord(l, Phase.Succeeded(c.now, Max(0, c.now - l.startedAt), w.workers[id].pc.output));
    UpdateChange(w.store, l.key, record);
  }

  lemma SuccessDone(w: World, id: nat, c: Choice)
    requires Inv(w) && EffectsDone(w) && id in w.workers && w.workers[id].pc.RunPersistSuccess?
    requires Extends(w.store, AdvanceRun(w, id, c).store)
    ensures EffectsDone(AdvanceRun(w, id, c))
  {
    hide AdvanceRun, Extends, RowDone, WorkersDone, WorkersInv;
    hide Valid, MarkersInv, EntriesInv, OutcomesInv, EffectsInv, FinalizedInv, AdmissionsInv;
    var k, w2 := w.workers[id].pc.l.key, AdvanceRun(w, id, c);
    SuccessShape(w, id, c);
    RowStays(w.store, w2.store, w.log, w2.log, k);
    RowsStayBut(w, w2, k);
    IdleWorkers(w, w2, id);
  }

  lemma IdlePcDone(s: Store, log: seq<Event>, pc: Pc)
    requires Idle(pc)
    ensures PcDone(s, log, pc)
  {
  }

  /** A new row has a resume context and nothing recorded. */
  lemma AllocatedRow(s: Store, a: Allocation, log: seq<Event>)
    requires a.recovery.Some? && a.recovery.value.resumeContext.version == 1
    ensures
      var t := Allocate(s, a).0;
      t == s || (&& a.Key() in t.executions && RowDone(t, log, a.Key())
                 && t.executions == s.executions[a.Key() := t.executions[a.Key()]])
  {
  }

  /** Only this worker moved, to an idle point. */
  ghost predicate MovesToIdle(w: World, w2: World, id: nat) {
    && id in w.workers && id in w2.workers && Idle(w2.workers[id].pc) && w.log <= w2.log
    && (forall j <- w2.workers :: j == id || (j in w.workers && w2.workers[j].pc == w.workers[j].pc))
  }

  lemma IdleWorkers(w: World, w2: World, id: nat)
    requires WorkersDone(w) && MovesToIdle(w, w2, id) && Extends(w.store, w2.store)
    ensures WorkersDone(w2)
  {
    hide Extends, PcDone;
    IdlePcDone(w2.store, w2.log, w2.workers[id].pc);
    WorkersStay(w, w2, id);
  }

  lemma AllocateShape(w: World, id: nat, c: Choice)
    requires id in w.workers && w.workers[id].pc.ExecAllocate?
    ensures
      var pc, w2 := w.workers[id].pc, AdvanceExecute(w, id, c);
      && w2.store == Allocate(w.store, FullAllocation(pc.cmd, pc.report, pc.reservation, c.text)).0
      && MovesToIdle(w, w2, id)
  {
    hide Allocate, ScopeOf, FullAllocation, Locals;
  }

  lemma AllocateDone(w: World, id: nat, c: Choice)
    requires EffectsDone(w) && id in w.workers && w.workers[id].pc.ExecAllocate?
    requires Extends(w.store, AdvanceExecute(w, id, c).store)
    ensures EffectsDone(AdvanceExecute(w, id, c))
  {
    hide AdvanceExecute, Extends, RowDone, WorkersDone, Allocate, SameOutcomes;
    var pc, w2 := w.workers[id].pc, AdvanceExecute(w, id, c);
    var a := FullAllocation(pc.cmd, pc.report, pc.reservation, c.text);
    AllocateShape(w, id, c);
    AllocatedRow(w.store, a, w2.log);
    if w2.store == w.store {
      SameOutcomesItself(w.store);
      RowsStay(w, w2);
    } else {
      RowsStayBut(w, w2, a.Key());
    }
    IdleWorkers(w, w2, id);
  }

  lemma AbortDone(w: World, id: nat, c: Choice)
    requires EffectsDone(w) && id in w.workers && w.workers[id].pc.CancelAbort?
    ensures EffectsDone(AdvanceOther(w, id, c))
  {
    hide EffectsDone, RunKey;
    IdleStep(w, AdvanceOther(w, id, c));
  }

  lemma StartDone(w: World, id: nat, c: Choice)
    requires EffectsDone(w) && id in w.workers && w.workers[id].pc.StartReconcile?
    ensures EffectsDone(AdvanceReconcile(w, id, c))
  {
    hide EffectsDone;
    IdleStep(w, AdvanceReconcile(w, id, c));
  }

  /** From any other point a step records nothing and arrives at an idle point. */
  lemma IdleMoves(w: World, w2: World, id: nat)
    requires id in w.workers && EffectsDone(w) && MovesOne(w, w2, id) && Extends(w.store, w2.store) && w.log <= w2.log
    requires !RecordsOutcome(w.workers[id].pc)
    requires !w.workers[id].pc.ReconRead? && !w.workers[id].pc.ReconUsage? && !w.workers[id].pc.ReconWebhook?
    ensures EffectsDone(w2)
  {
    hide EffectsDone, PcDone, Extends, SameOutcomes;
    IdlePcDone(w2.store, w2.log, w2.workers[id].pc);
    MoveDone(w, w2, id);
  }

  lemma AdvanceDone(w: World, id: nat, c: Choice)
    requires Inv(w) && EffectsDone(w) && id in w.workers
    requires Extends(w.store, Advance(w, id, c).store) && w.log <= Advance(w, id, c).log
    ensures EffectsDone(Advance(w, id, c))
  {
    hide Inv, EffectsDone, Extends, PcDone, SameOutcomes;
    hide AdvanceExecute, AdvanceJob, AdvanceRun, AdvanceOther, AdvanceReconcile;
    var pc, w2 := w.workers[id].pc, Advance(w, id, c);
    if pc.ExecAllocate? {
      AllocateDone(w, id, c);
    } else if pc.CancelAbort? {
      AbortDone(w, id, c);
    } else if pc.StartReconcile? {
      StartDone(w, id, c);
    } else if pc.RunPersistSuccess? {
      SuccessDone(w, id, c);
    } else if pc.ReconFinalize? {
      FinalizeDone(w, id, c);
    } else if pc.ReconPublish? {
      PublishDone(w, id, c);
    } else {
      AdvanceMoves(w, id, c);
      if w2 != w {
        if pc.ReconRead? {
          ReadDone(w, id, c);
          MoveDone(w, w2, id);
        } else if pc.ReconUsage? {
          UsageDone(w, id, c);
          MoveDone(w, w2, id);
        } else if pc.ReconWebhook? {
          WebhookDone(w, id, c);
          MoveDone(w, w2, id);
        } else {
          IdleMoves(w, w2, id);
        }
      }
    }
  }

  lemma StepDone(w: World, action: Action)
    requires Inv(w) && EffectsDone(w)
    requires Extends(w.store, Step(w, action).store) && w.log <= Step(w, action).log
    ensures EffectsDone(Step(w, action))
  {
    hide Inv, EffectsDone, Extends, Advance;
    if action.Go? && action.worker in w.workers {
      AdvanceDone(w, action.worker, action.choice);
    } else {
      IdleStep(w, Step(w, action));
    }
  }

  lemma {:induction false} RunDone(actions: seq<Action>)
    ensures EffectsDone(Run(actions))
  {
    hide Inv, Step, EffectsDone, Extends;
    if actions == [] {
      NothingDone();
    } else {
      var w := Run(actions[..|actions| - 1]);
      RunDone(actions[..|actions| - 1]);
      RunInv(actions[..|actions| - 1]);
      StepAdvancesStore(w, actions[|actions| - 1]);
      StepDone(w, actions[|actions| - 1]);
    }
  }

  lemma NothingDone()
    ensures EffectsDone(INITIAL)
  {
  }

  // ------------------------------------------------------------ Main results

  /** Every stored execution can be recovered: it has a resume context of the version that recovery reads, and the
      ID of the one event that announces its end. */
  lemma RowsAreRecoverable(actions: seq<Action>, k: ExecutionKey)
    requires k in Run(actions).store.executions
    ensures
      var row := Run(actions).store.executions[k];
      row.resumeContext.Some? && row.resumeContext.value.version == 1 && row.webhookEventId.Some?
  {
    hide Run, UsageSettled;
    RunDone(actions);
    assert RowDone(Run(actions).store, Run(actions).log, k);
  }

  /** Whether a finished execution may have been dispatched is whether its row has the marker. */
  lemma BeganIsMarked(actions: seq<Action>, k: ExecutionKey)
    requires Finished(Run(actions).store, k)
    ensures Began(Run(actions).store, k) <==> Run(actions).store.executions[k].dispatchStartedAt.Some?
  {
    hide Valid, WorkersInv, EffectsInv, FinalizedInv, AdmissionsInv, Run;
    RunInv(actions);
    if Began(Run(actions).store, k) {
      SucceededIsMarked(Run(actions), k);
    }
  }

  /** In every run, whatever failed, crashed or was repeated: if the usage of an execution is marked as finalized,
      then the execution is finished; if it has a dispatch marker and its resume context holds a report, the usage
      was reported; and if it has none and its context holds a reservation, that was released. */
  lemma FinalizedUsageWasSettled(actions: seq<Action>, k: ExecutionKey)
    requires k in Run(actions).store.executions && Run(actions).store.executions[k].usageFinalizedAt.Some?
    ensures
      var row, log := Run(actions).store.executions[k], Run(actions).log;
      && row.record.Terminal() && row.resumeContext.Some?
      && (row.dispatchStartedAt.Some? && row.resumeContext.value.usageReport.Some? ==>
            exists j :: UsageReported(j, k) in log)
      && (row.dispatchStartedAt.None? && row.resumeContext.value.usageReservation.Some? ==>
            exists j :: UsageReleased(j, k) in log)
  {
    hide Run, Began;
    RunDone(actions);
    assert RowDone(Run(actions).store, Run(actions).log, k);
    BeganIsMarked(actions, k);
  }

  /** In every run: a webhook that is marked as published was enqueued before, with the event ID of its row. */
  lemma PublishedWebhookWasEnqueued(actions: seq<Action>, k: ExecutionKey)
    requires k in Run(actions).store.executions && Run(actions).store.executions[k].webhookPublishedAt.Some?
    ensures
      var row, log := Run(actions).store.executions[k], Run(actions).log;
      row.webhookEventId.Some? && exists j :: WebhookEnqueued(j, k, row.webhookEventId.value) in log
  {
    hide Run, UsageSettled;
    RunDone(actions);
    assert RowDone(Run(actions).store, Run(actions).log, k);
  }
}
