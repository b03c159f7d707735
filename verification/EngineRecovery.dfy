// What cancellation, recovery and reconciliation get done, turn by turn: a
// cancellation ends an unfinished execution, an interrupted dispatch is failed
// and never repeated, and a reconciliation that nothing fails settles all that
// an execution owes.
module EngineRecovery {
  import opened Wrappers
  import opened JavaScript
  import opened ExecutionRecords
  import opened ExecutionStore
  import opened ExecutionEngine
  import opened EngineMoves
  import opened EngineInvariants
  import opened EngineSteps
  import opened EngineTheorems
  import opened EngineHistory
  import opened EngineEffects
  import opened EngineProgress
  import opened RecoveryScan

  // ------------------------------------------------------------ Cancellation

  /** The runs of this execution in this process, all told to stop. */
  ghost predicate RunsAborted(w: World, process: nat, k: ExecutionKey) {
    forall j <- w.workers :: w.workers[j].process == process && RunKey(w.workers[j].pc) == Some(k) ==>
      w.workers[j].cancelled
  }

  lemma CancelGoesOn(w: World, id: nat, c: Choice)
    requires id in w.workers && w.workers[id].pc.CancelStore?
    requires
      var k := w.workers[id].pc.key;
      k in w.store.executions && !w.store.executions[k].record.Terminal()
    ensures
      var k, w2 := w.workers[id].pc.key, Advance(w, id, c);
      && id in w2.workers && w2.workers[id].process == w.workers[id].process
      && w2.workers[id].pc.CancelAbort? && w2.workers[id].pc.key == k
      && k in w2.store.executions
      && var before, after := w.store.executions[k], w2.store.executions[k];
      && after.record == CancelledExecutionRecord(before.record, c.now, before.dispatchStartedAt)
      && after.dispatchStartedAt == before.dispatchStartedAt
      && w2.log == w.log + [CancelRecorded(k, before.dispatchStartedAt.Some?)]
  {
    hide CancelledExecutionRecord, AssertExecutionTransition, Deliveries;
    var k := w.workers[id].pc.key;
    CancellationIsAccepted(w.store.executions[k].record, c.now, w.store.executions[k].dispatchStartedAt);
  }

  lemma AbortGoesOn(w: World, id: nat, c: Choice)
    requires id in w.workers && w.workers[id].pc.CancelAbort?
    ensures
      var k, w2 := w.workers[id].pc.key, Advance(w, id, c);
      && w2.store == w.store && RunsAborted(w2, w.workers[id].process, k)
      && id in w2.workers && w2.workers[id].pc.StartReconcile? && w2.workers[id].pc.input.key == k
  {
    hide RunKey;
    NoRunAborts();
  }

  lemma NoRunAborts()
    ensures forall input :: RunKey(StartReconcile(input, AfterFinish)) == None
  {
  }

  /** A cancellation takes effect: it finds its execution unfinished; then, whatever the others do, its two turns
      leave the execution cancelled, completed at the clock of the cancellation, with a latency that runs back to
      its start, or to its creation if it had not started, and with the truth about its dispatch marker; every run
      of the execution in the same process is told to stop; and the worker goes on to reconcile. */
  lemma CancelTakesEffect(actions: seq<Action>, id: nat, cancel: Turn, abort: Turn)
    requires id in Run(actions).workers && Run(actions).workers[id].pc.CancelStore?
    requires
      var process := Run(actions).workers[id].process;
      Undisturbed(cancel.others, id, process) && Undisturbed(abort.others, id, process)
    requires
      var k, rows := Run(actions).workers[id].pc.key, Run(TurnStart(actions, cancel)).store.executions;
      k in rows && !rows[k].record.Terminal()
    ensures
      var k, cancelled := Run(actions).workers[id].pc.key, TurnEnd(actions, id, cancel);
      var w := Run(TurnEnd(cancelled, id, abort));
      && k in w.store.executions
      && var before, after := Run(TurnStart(actions, cancel)).store.executions[k], w.store.executions[k];
      && var start, phase := before.record.startedAt.GetOr(before.record.identity.createdAt), after.record.phase;
      && phase.Cancelled? && phase.completedAt == cancel.choice.now
      && (if start <= phase.completedAt then phase.completedAt - phase.latencyMs == start else phase.latencyMs == 0)
      && (phase.dispatchMayHaveBegun <==> before.dispatchStartedAt.Some?)
      && after.record.identity == before.record.identity
      && CancelRecorded(k, before.dispatchStartedAt.Some?) in w.log
      && RunsAborted(w, Run(actions).workers[id].process, k)
      && id in w.workers && w.workers[id].pc.StartReconcile? && w.workers[id].pc.input.key == k
  {
    hide Inv, Run, Advance, Extends, TurnStart, TurnEnd, RunsAborted, CancelledExecutionRecord;
    TurnSteps(actions, id, cancel);
    var v, k := Run(TurnStart(actions, cancel)), Run(actions).workers[id].pc.key;
    CancelGoesOn(v, id, cancel.choice);
    CancellationTells(v.store.executions[k].record, cancel.choice.now, v.store.executions[k].dispatchStartedAt);
    var cancelled := TurnEnd(actions, id, cancel);
    assert CancelRecorded(k, v.store.executions[k].dispatchStartedAt.Some?) in Run(cancelled).log;
    TurnSteps(cancelled, id, abort);
    var u := Run(TurnStart(cancelled, abort));
    RowMovesOn(Run(cancelled).store, u.store, k);
    AbortGoesOn(u, id, abort.choice);
    AbortKeepsLog(u, id, abort.choice);
  }

  lemma AbortKeepsLog(w: World, id: nat, c: Choice)
    requires id in w.workers && w.workers[id].pc.CancelAbort?
    ensures Advance(w, id, c).log == w.log
  {
    hide RunKey;
  }

  // ------------------------------------------------- Interrupted executions

  lemma ResumeGoesOn(w: World, id: nat, c: Choice)
    requires id in w.workers && w.workers[id].pc.JobRead? && w.workers[id].pc.key in w.store.executions
    requires
      var row := w.store.executions[w.workers[id].pc.key];
      && !row.record.Terminal() && row.dispatchStartedAt.None? && !w.workers[id].signalled && !c.fails
      && row.resumeContext.Some? && row.resumeContext.value.version == 1
    ensures
      var k, w2 := w.workers[id].pc.key, Advance(w, id, c);
      var row := w.store.executions[k];
      && id in w2.workers && w2.workers[id].pc.RunAcquire?
      && var l := w2.workers[id].pc.l;
      && l.caller.JobCaller? && l.key == k && l.pending == row.Public()
      && l.usageReport == row.resumeContext.value.usageReport
      && l.usageReservation == row.resumeContext.value.usageReservation
  {
  }

  lemma PublicPhase(row: StoredExecution)
    ensures row.Public().phase == row.record.phase && row.Public().identity == row.record.identity
    ensures row.Public().startedAt == row.record.startedAt
  {
  }

  lemma DecideGoesOn(w: World, id: nat, rec: Recoverable, c: Choice)
    requires id in w.workers && rec.row.record.phase.Running? && rec.row.dispatchStartedAt.Some?
    ensures JobDecide(w, id, rec, c) == At(w, id, FailSetEvent(rec, rec.row.webhookEventId.GetOr(c.text), true))
  {
    hide Locals;
  }

  lemma InterruptGoesOn(w: World, id: nat, c: Choice)
    requires id in w.workers && w.workers[id].pc.JobRead? && w.workers[id].pc.key in w.store.executions
    requires
      var row := w.store.executions[w.workers[id].pc.key];
      && row.record.phase.Running? && row.dispatchStartedAt.Some?
      && row.webhookEventId.Some? && row.resumeContext.Some?
    ensures
      var k, w2 := w.workers[id].pc.key, Advance(w, id, c);
      var row := w.store.executions[k];
      && id in w2.workers && w2.workers[id].process == w.workers[id].process && w2.store == w.store
      && w2.workers[id].pc
         == FailSetEvent(Recoverable(k, row.(record := row.Public())), row.webhookEventId.value, true)
  {
    hide ProjectRecord, JobDecide, RowInput;
    var k := w.workers[id].pc.key;
    var row := w.store.executions[k];
    PublicPhase(row);
    DecideGoesOn(w, id, Recoverable(k, row.(record := row.Public())), c);
  }

  /** A job resumes what it may: it finds an execution unfinished and without a dispatch marker, and everything it
      needs is there; then it runs the execution, with the usage that the execution's resume context holds. */
  lemma UndispatchedJobResumes(actions: seq<Action>, id: nat, read: Turn)
    requires id in Run(actions).workers && Run(actions).workers[id].pc.JobRead?
    requires Undisturbed(read.others, id, Run(actions).workers[id].process) && !read.choice.fails
    requires
      var k, v := Run(actions).workers[id].pc.key, Run(TurnStart(actions, read));
      && id in v.workers && !v.workers[id].signalled
      && k in v.store.executions && !v.store.executions[k].record.Terminal()
      && v.store.executions[k].dispatchStartedAt.None?
    ensures
      var k, w := Run(actions).workers[id].pc.key, Run(TurnEnd(actions, id, read));
      && k in Run(TurnStart(actions, read)).store.executions && id in w.workers && w.workers[id].pc.RunAcquire?
      && var row, l := Run(TurnStart(actions, read)).store.executions[k], w.workers[id].pc.l;
      && l.key == k && l.pending.identity == row.record.identity && l.pending.phase == row.record.phase
      && row.resumeContext.Some?
      && l.usageReport == row.resumeContext.value.usageReport
      && l.usageReservation == row.resumeContext.value.usageReservation
  {
    hide Inv, Run, Advance, Extends, TurnStart, TurnEnd;
    TurnSteps(actions, id, read);
    RowsAreRecoverable(TurnStart(actions, read), Run(actions).workers[id].pc.key);
    ResumeGoesOn(Run(TurnStart(actions, read)), id, read.choice);
  }

  lemma SeenRowKey(s: Store, rec: Recoverable)
    requires Valid(s) && SeenRow(s, rec)
    ensures rec.key.executionId == rec.row.record.identity.executionId
  {
    hide Valid;
    SeenKey(s, rec.key, rec.row.record);
  }

  lemma EventGoesOn(w: World, id: nat, c: Choice)
    requires id in w.workers && w.workers[id].pc.FailSetEvent?
    requires
      var pc := w.workers[id].pc;
      && pc.rec.key in w.store.executions
      && w.store.executions[pc.rec.key].webhookEventId == Some(pc.eventId)
    ensures
      var pc, w2 := w.workers[id].pc, Advance(w, id, c);
      && id in w2.workers && w2.workers[id].process == w.workers[id].process
      && w2.workers[id].pc == FailPersist(pc.rec, pc.eventId, pc.began)
  {
  }

  lemma EventKeepsRow(w: World, id: nat, c: Choice, k: ExecutionKey)
    requires id in w.workers && w.workers[id].pc.FailSetEvent? && k in w.store.executions
    ensures k in Advance(w, id, c).store.executions
    ensures Advance(w, id, c).store.executions[k].dispatchStartedAt == w.store.executions[k].dispatchStartedAt
  {
  }

  lemma PersistingRow(w: World, id: nat)
    requires Inv(w) && id in w.workers && w.workers[id].pc.FailPersist?
    ensures
      var rec := w.workers[id].pc.rec;
      && rec.key in w.store.executions && rec.key.executionId == rec.row.record.identity.executionId
      && rec.row.record.identity == w.store.executions[rec.key].record.identity
  {
    hide Valid, MarkersInv, EntriesInv, OutcomesInv, EffectsInv, FinalizedInv, AdmissionsInv;
    MyHeld(w, id);
    SeenRowKey(w.store, w.workers[id].pc.rec);
  }

  lemma InterruptionIsStored(w: World, id: nat, c: Choice)
    requires Inv(w) && id in w.workers && w.workers[id].pc.FailPersist?
    ensures
      var pc, w2 := w.workers[id].pc, Advance(w, id, c);
      Records(w, w2, pc.rec.key, InterruptedRecord(pc.rec.row.record, pc.began, c.now))
  {
    hide Inv, Update, InterruptedRecord;
    PersistingRow(w, id);
    var pc := w.workers[id].pc;
    InterruptionTells(pc.rec.row.record, pc.began, c.now);
    OutcomeIsStored(w.store, pc.rec.key, InterruptedRecord(pc.rec.row.record, pc.began, c.now));
  }

  lemma InterruptionTells(record: ExecutionRecord, began: bool, now: Timestamp)
    ensures
      var r := InterruptedRecord(record, began, now);
      && r.phase.Failed? && r.identity == record.identity && !r.replayed
      && r.phase.completedAt == now && r.phase.error.code == "execution_interrupted" && !r.phase.error.retryable
      && (r.phase.error.message == INTERRUPTED_AMBIGUOUS <==> began)
  {
    assert |INTERRUPTED_AMBIGUOUS| != |INTERRUPTED_UNDISPATCHED|;
  }

  /** A dispatch that was interrupted is failed, and with the truth that its outcome is unknown: a job finds its
      execution running with a dispatch marker; then, whatever the others do, its three turns leave the execution
      failed as interrupted, with the marker as it was, or terminal as the last of them found it. */
  lemma InterruptedDispatchFails(actions: seq<Action>, id: nat, read: Turn, event: Turn, store: Turn)
    requires id in Run(actions).workers && Run(actions).workers[id].pc.JobRead?
    requires
      var process := Run(actions).workers[id].process;
      && Undisturbed(read.others, id, process) && Undisturbed(event.others, id, process)
      && Undisturbed(store.others, id, process)
    requires
      var k, rows := Run(actions).workers[id].pc.key, Run(TurnStart(actions, read)).store.executions;
      k in rows && rows[k].record.phase.Running? && rows[k].dispatchStartedAt.Some?
    ensures
      var k, identified := Run(actions).workers[id].pc.key, TurnEnd(TurnEnd(actions, id, read), id, event);
      var v, w := Run(TurnStart(identified, store)), Run(TurnEnd(identified, id, store));
      && k in v.store.executions && k in w.store.executions
      && var before, after := v.store.executions[k], w.store.executions[k];
      if before.record.Terminal() then after == before
      else
        && after.record.phase.Failed? && after.record.phase.completedAt == store.choice.now
        && after.record.phase.error.code == "execution_interrupted"
        && after.record.phase.error.message == INTERRUPTED_AMBIGUOUS
        && after.dispatchStartedAt == before.dispatchStartedAt && before.dispatchStartedAt.Some?
  {
    hide Inv, Run, Advance, Extends, TurnStart, TurnEnd, InterruptedRecord;
    var k := Run(actions).workers[id].pc.key;
    TurnSteps(actions, id, read);
    RowsAreRecoverable(TurnStart(actions, read), k);
    var v0 := Run(TurnStart(actions, read));
    InterruptGoesOn(v0, id, read.choice);
    var seen := TurnEnd(actions, id, read);
    TurnSteps(seen, id, event);
    var v1 := Run(TurnStart(seen, event));
    RowMovesOn(v0.store, v1.store, k);
    EventGoesOn(v1, id, event.choice);
    var identified := TurnEnd(seen, id, event);
    TurnSteps(identified, id, store);
    var v2 := Run(TurnStart(identified, store));
    InterruptionIsStored(v2, id, store.choice);
    InterruptionTells(v0.store.executions[k].Public(), true, store.choice.now);
    EventKeepsRow(v1, id, event.choice, k);
    RowMovesOn(Run(identified).store, v2.store, k);
  }

  // -------------------------------------------------------- Reconciliation

  ghost predicate Marked(s: Store, k: ExecutionKey, published: bool) {
    && k in s.executions && s.executions[k].usageFinalizedAt.Some?
    && (published ==> s.executions[k].webhookPublishedAt.Some?)
  }

  /** The reconciliation is of this execution, has an event to publish, and knows if that is done. */
  ghost predicate About(s: Store, d: ReconData, k: ExecutionKey) {
    && d.key == k && k in s.executions && s.executions[k].webhookEventId.Some? && d.eventId.Some?
    && (d.published ==> s.executions[k].webhookPublishedAt.Some?)
  }

  /** At most this many turns that nothing fails are left to this reconciliation. */
  ghost predicate TurnsLeft(w: World, id: nat, k: ExecutionKey, n: nat) {
    && id in w.workers
    && match w.workers[id].pc
       case ReconRead(input) => n >= 5 && input.key == k
       case ReconUsage(d) => n >= 4 && About(w.store, d, k)
       case ReconFinalize(d) => n >= 3 && About(w.store, d, k)
       case ReconWebhook(d) => n >= 2 && About(w.store, d, k) && Marked(w.store, k, false)
       case ReconPublish(d) => n >= 1 && About(w.store, d, k) && Marked(w.store, k, false)
       case ReconDone(ok) => ok && Marked(w.store, k, true)
       case _ => false
  }

  lemma TurnsLeftStay(w: World, v: World, id: nat, k: ExecutionKey, n: nat)
    requires TurnsLeft(w, id, k, n) && SamePlace(w, v, id) && Extends(w.store, v.store)
    ensures TurnsLeft(v, id, k, n)
  {
    if k in w.store.executions {
      RowMovesOn(w.store, v.store, k);
    }
    hide Extends;
  }

  lemma ReadGoesOn(w: World, id: nat, k: ExecutionKey, c: Choice, n: nat)
    requires id in w.workers && w.workers[id].pc.ReconRead? && w.workers[id].pc.input.key == k && n >= 4
    requires k in w.store.executions && w.store.executions[k].webhookEventId.Some?
    ensures TurnsLeft(AdvanceReconcile(w, id, c), id, k, n)
  {
  }

  lemma UsageGoesOn(w: World, id: nat, k: ExecutionKey, c: Choice, n: nat)
    requires id in w.workers && w.workers[id].pc.ReconUsage? && About(w.store, w.workers[id].pc.d, k)
    requires !c.fails && n >= 3
    ensures TurnsLeft(AdvanceReconcile(w, id, c), id, k, n)
  {
    hide EndReconciliation, MarkUsageFinalized, MarkWebhookPublished, GetRecoverable;
  }

  lemma FinalizeGoesOn(w: World, id: nat, k: ExecutionKey, c: Choice, n: nat)
    requires id in w.workers && w.workers[id].pc.ReconFinalize? && About(w.store, w.workers[id].pc.d, k)
    requires n >= 2
    ensures TurnsLeft(AdvanceReconcile(w, id, c), id, k, n)
  {
    hide EndReconciliation, MarkWebhookPublished, GetRecoverable;
  }

  lemma WebhookGoesOn(w: World, id: nat, k: ExecutionKey, c: Choice, n: nat)
    requires id in w.workers && w.workers[id].pc.ReconWebhook? && About(w.store, w.workers[id].pc.d, k)
    requires Marked(w.store, k, false) && !c.fails && n >= 1
    ensures TurnsLeft(AdvanceReconcile(w, id, c), id, k, n)
  {
    hide EndReconciliation, MarkUsageFinalized, MarkWebhookPublished, GetRecoverable;
    EndIsDone(w, id, k, true);
  }

  lemma PublishGoesOn(w: World, id: nat, k: ExecutionKey, c: Choice, n: nat)
    requires id in w.workers && w.workers[id].pc.ReconPublish? && About(w.store, w.workers[id].pc.d, k)
    requires Marked(w.store, k, false)
    ensures TurnsLeft(AdvanceReconcile(w, id, c), id, k, n)
  {
    hide EndReconciliation, MarkUsageFinalized, GetRecoverable;
    EndIsDone(w.(store := MarkWebhookPublished(w.store, k, c.now).0), id, k, true);
  }

  lemma ReconciliationGoesOn(w: World, id: nat, k: ExecutionKey, c: Choice, n: nat)
    requires TurnsLeft(w, id, k, n + 1) && !c.fails
    requires k in w.store.executions && w.store.executions[k].webhookEventId.Some?
    ensures TurnsLeft(Advance(w, id, c), id, k, n)
    ensures id in Advance(w, id, c).workers && Advance(w, id, c).workers[id].process == w.workers[id].process
  {
    hide AdvanceReconcile, About, Marked;
    ReconciliationKeepsProcess(w, id, c);
    match w.workers[id].pc
    case ReconRead(_) => ReadGoesOn(w, id, k, c, n);
    case ReconUsage(_) => UsageGoesOn(w, id, k, c, n);
    case ReconFinalize(_) => FinalizeGoesOn(w, id, k, c, n);
    case ReconWebhook(_) => WebhookGoesOn(w, id, k, c, n);
    case ReconPublish(_) => PublishGoesOn(w, id, k, c, n);
    case ReconDone(_) =>
  }

  lemma ReconciliationKeepsProcess(w: World, id: nat, c: Choice)
    requires id in w.workers
    requires var pc := w.workers[id].pc; !pc.ExecAllocate? && !pc.CancelAbort? && !pc.StartReconcile?
    ensures id in Advance(w, id, c).workers && Advance(w, id, c).workers[id].process == w.workers[id].process
  {
    hide Advance, SameOutcomes, Arrives, CommandOf, Quitting, Owned;
    AdvanceMoves(w, id, c);
  }

  /** The run after all these turns of one worker. */
  function Played(actions: seq<Action>, id: nat, turns: seq<Turn>): seq<Action>
    decreases |turns|
  {
    if turns == [] then actions else Played(TurnEnd(actions, id, turns[0]), id, turns[1..])
  }

  predicate NothingFails(turns: seq<Turn>, id: nat, process: nat) {
    forall t <- turns :: Undisturbed(t.others, id, process) && !t.choice.fails
  }

  lemma {:induction false} TurnsArePlayed(actions: seq<Action>, id: nat, k: ExecutionKey, turns: seq<Turn>)
    requires TurnsLeft(Run(actions), id, k, |turns|) && k in Run(actions).store.executions
    requires NothingFails(turns, id, Run(actions).workers[id].process)
    ensures TurnsLeft(Run(Played(actions, id, turns)), id, k, 0)
    decreases |turns|
  {
    hide Inv, Run, Advance, Extends, TurnStart, TurnEnd, TurnsLeft;
    if turns != [] {
      var turn := turns[0];
      LeftIsThere(Run(actions), id, k, |turns|);
      TurnSteps(actions, id, turn);
      var v := Run(TurnStart(actions, turn));
      TurnsLeftStay(Run(actions), v, id, k, |turns|);
      RowMovesOn(Run(actions).store, v.store, k);
      RowsAreRecoverable(TurnStart(actions, turn), k);
      ReconciliationGoesOn(v, id, k, turn.choice, |turns| - 1);
      StoreStepsOn(v, id, turn.choice, k);
      TurnsArePlayed(TurnEnd(actions, id, turn), id, k, turns[1..]);
    }
  }

  lemma LeftIsThere(w: World, id: nat, k: ExecutionKey, n: nat)
    requires TurnsLeft(w, id, k, n)
    ensures id in w.workers
  {
  }

  lemma StoreStepsOn(w: World, id: nat, c: Choice, k: ExecutionKey)
    requires Inv(w) && id in w.workers && k in w.store.executions
    ensures k in Advance(w, id, c).store.executions
  {
    hide Inv, Advance, Step, Extends;
    StepAdvancesStore(w, Go(id, c));
    GoAdvances(w, id, c);
    RowMovesOn(w.store, Step(w, Go(id, c)).store, k);
  }

  /** A reconciliation that nothing fails settles everything: it is about to read; five turns later, or more,
      whatever the others do in between, it has ended well, and its execution is finished, with its usage marked as
      finalized and its webhook as published; what it owed was reported or released, by its dispatch marker, and
      the webhook was enqueued with the execution's event ID. */
  lemma ReconciliationSettles(actions: seq<Action>, id: nat, turns: seq<Turn>)
    requires id in Run(actions).workers && Run(actions).workers[id].pc.ReconRead? && |turns| >= 5
    requires NothingFails(turns, id, Run(actions).workers[id].process)
    ensures
      var k, w := Run(actions).workers[id].pc.input.key, Run(Played(actions, id, turns));
      && id in w.workers && w.workers[id].pc == ReconDone(true)
      && k in w.store.executions
      && var row := w.store.executions[k];
      && row.record.Terminal() && row.usageFinalizedAt.Some? && row.webhookPublishedAt.Some?
      && row.resumeContext.Some? && row.webhookEventId.Some?
      && (row.dispatchStartedAt.Some? && row.resumeContext.value.usageReport.Some? ==>
            exists j :: UsageReported(j, k) in w.log)
      && (row.dispatchStartedAt.None? && row.resumeContext.value.usageReservation.Some? ==>
            exists j :: UsageReleased(j, k) in w.log)
      && exists j :: WebhookEnqueued(j, k, row.webhookEventId.value) in w.log
  {
    hide Inv, Run, Played;
    RunInv(actions);
    ReadingRow(Run(actions), id);
    var k, played := Run(actions).workers[id].pc.input.key, Played(actions, id, turns);
    TurnsArePlayed(actions, id, k, turns);
    FinalizedUsageWasSettled(played, k);
    PublishedWebhookWasEnqueued(played, k);
  }

  lemma ReadingRow(w: World, id: nat)
    requires Inv(w) && id in w.workers && w.workers[id].pc.ReconRead?
    ensures w.workers[id].pc.input.key in w.store.executions
  {
    hide Valid, MarkersInv, EntriesInv, OutcomesInv, EffectsInv, FinalizedInv, AdmissionsInv;
    MyHeld(w, id);
  }

  /** Reconciling starts at once: the worker's next turn finds a reconciliation of its execution under way in its
      process, or starts one. */
  lemma ReconciliationStarts(actions: seq<Action>, id: nat, turn: Turn)
    requires id in Run(actions).workers && Run(actions).workers[id].pc.StartReconcile?
    requires Undisturbed(turn.others, id, Run(actions).workers[id].process)
    ensures
      var pc, v, w := Run(actions).workers[id].pc, Run(TurnStart(actions, turn)), Run(TurnEnd(actions, id, turn));
      var slot := ReconSlot(Run(actions).workers[id].process, pc.input.key);
      && id in w.workers && w.workers[id].pc.Awaiting? && w.workers[id].pc.after == pc.after
      && slot in w.reconciling && w.reconciling[slot] == w.workers[id].pc.recon
      && (slot !in v.reconciling ==>
            && w.workers[id].pc.recon in w.workers
            && w.workers[w.workers[id].pc.recon].pc == ReconRead(pc.input)
            && w.workers[w.workers[id].pc.recon].process == Run(actions).workers[id].process)
  {
    hide Inv, Run, Advance, Extends, TurnStart, TurnEnd;
    TurnSteps(actions, id, turn);
    InvWorkers(Run(TurnStart(actions, turn)));
    StartReconGoesOn(Run(TurnStart(actions, turn)), id, turn.choice);
  }

  lemma StartReconGoesOn(w: World, id: nat, c: Choice)
    requires WorkersInv(w) && id in w.workers && w.workers[id].pc.StartReconcile?
    ensures
      var pc, w2 := w.workers[id].pc, Advance(w, id, c);
      var slot := ReconSlot(w.workers[id].process, pc.input.key);
      && id in w2.workers && w2.workers[id].pc.Awaiting? && w2.workers[id].pc.after == pc.after
      && slot in w2.reconciling && w2.reconciling[slot] == w2.workers[id].pc.recon
      && (slot !in w.reconciling ==>
            && w2.workers[id].pc.recon in w2.workers
            && w2.workers[w2.workers[id].pc.recon].pc == ReconRead(pc.input)
            && w2.workers[w2.workers[id].pc.recon].process == w.workers[id].process)
  {
    hide HeldInv, HeldBy;
  }

  /** The points at which a worker reads a row to see whether there is something to reconcile. */
  predicate LooksAt(pc: Pc, k: ExecutionKey) {
    match pc
    case JobRead(key) => key == k
    case JobAfterThrow(key) => key == k
    case RecoverRead(key) => key == k
    case ExecReplayRead(key, _) => key == k
    case _ => false
  }

  ghost predicate GoesToReconcile(w: World, id: nat, k: ExecutionKey, phase: Phase) {
    && id in w.workers && w.workers[id].pc.StartReconcile? && w.workers[id].pc.after.AfterFinish?
    && w.workers[id].pc.input.key == k && w.workers[id].pc.input.record.phase == phase
  }

  lemma JobLooks(w: World, id: nat, k: ExecutionKey, c: Choice)
    requires id in w.workers && (w.workers[id].pc.JobRead? || w.workers[id].pc.JobAfterThrow?)
    requires w.workers[id].pc.key == k && k in w.store.executions && w.store.executions[k].record.Terminal()
    ensures GoesToReconcile(AdvanceJob(w, id, c), id, k, w.store.executions[k].record.phase)
  {
    hide JobDecide, SetResumeContext;
  }

  lemma OthersLook(w: World, id: nat, k: ExecutionKey, c: Choice)
    requires id in w.workers && LooksAt(w.workers[id].pc, k)
    requires w.workers[id].pc.RecoverRead? || w.workers[id].pc.ExecReplayRead?
    requires k in w.store.executions && w.store.executions[k].record.Terminal()
    requires w.workers[id].pc.RecoverRead? ==> w.store.executions[k].record.phase.Cancelled?
    ensures GoesToReconcile(Advance(w, id, c), id, k, w.store.executions[k].record.phase)
  {
  }

  /** A finished execution is reconciled by whoever looks at it: a job that starts, a job whose run has thrown, a
      replay, and a recovery if it is cancelled; each goes on to reconcile the outcome that the row has. */
  lemma FinishedIsReconciled(actions: seq<Action>, id: nat, k: ExecutionKey, look: Turn)
    requires id in Run(actions).workers && LooksAt(Run(actions).workers[id].pc, k)
    requires Undisturbed(look.others, id, Run(actions).workers[id].process)
    requires
      var rows := Run(TurnStart(actions, look)).store.executions;
      && k in rows && rows[k].record.Terminal()
      && (Run(actions).workers[id].pc.RecoverRead? ==> rows[k].record.phase.Cancelled?)
    ensures
      var rows := Run(TurnStart(actions, look)).store.executions;
      k in rows && GoesToReconcile(Run(TurnEnd(actions, id, look)), id, k, rows[k].record.phase)
  {
    hide Inv, Run, AdvanceJob, Extends, TurnStart, TurnEnd, GoesToReconcile;
    TurnSteps(actions, id, look);
    var v := Run(TurnStart(actions, look));
    if v.workers[id].pc.JobRead? || v.workers[id].pc.JobAfterThrow? {
      JobLooks(v, id, k, look.choice);
    } else {
      OthersLook(v, id, k, look.choice);
    }
  }

  lemma ReconciledGoesOn(w: World, id: nat, c: Choice)
    requires id in w.workers && w.workers[id].pc.Awaiting? && w.workers[id].pc.after.AfterFailure?
    requires
      var recon := w.workers[id].pc.recon;
      recon in w.workers && w.workers[recon].pc == ReconDone(true)
    ensures
      var after, w2 := w.workers[id].pc.after, Advance(w, id, c);
      && id in w2.workers && w2.workers[id].process == w.workers[id].process && w2.log == w.log
      && w2.workers[id].pc
         == if after.failure.UnexpectedCredentialFailure?
            then RunOuterCatch(after.l.(usageFinalized := true), after.failure) else Done
  {
  }

  /** A failure that has been reconciled is not settled twice: a run waits for the reconciliation of its failure,
      which ends well; either it is finished then, or, if it has to throw the failure of its credential provider and
      its execution was not cancelled, its next two turns release nothing. */
  lemma ReconciledFailureReleasesNothing(actions: seq<Action>, id: nat, wake: Turn, outer: Turn, release: Turn)
    requires id in Run(actions).workers && Run(actions).workers[id].pc.Awaiting?
    requires Run(actions).workers[id].pc.after.AfterFailure?
    requires
      var process := Run(actions).workers[id].process;
      && Undisturbed(wake.others, id, process) && Undisturbed(outer.others, id, process)
      && Undisturbed(release.others, id, process)
    requires
      var v, recon := Run(TurnStart(actions, wake)), Run(actions).workers[id].pc.recon;
      recon in v.workers && v.workers[recon].pc == ReconDone(true)
    requires
      var k := Run(actions).workers[id].pc.after.l.key;
      var rows := Run(TurnStart(TurnEnd(actions, id, wake), outer)).store.executions;
      k in rows ==> !rows[k].record.phase.Cancelled?
    ensures
      var woken := TurnEnd(actions, id, wake);
      var caught := TurnEnd(woken, id, outer);
      if Run(actions).workers[id].pc.after.failure.UnexpectedCredentialFailure?
      then Run(TurnEnd(caught, id, release)).log == Run(TurnStart(caught, release)).log
      else id in Run(woken).workers && Run(woken).workers[id].pc.Done?
  {
    hide Inv, Run, Advance, Extends, TurnStart, TurnEnd;
    TurnSteps(actions, id, wake);
    ReconciledGoesOn(Run(TurnStart(actions, wake)), id, wake.choice);
    if Run(actions).workers[id].pc.after.failure.UnexpectedCredentialFailure? {
      var woken := TurnEnd(actions, id, wake);
      GivenUpRunReleases(woken, id, outer, release);
      var log := Run(TurnStart(TurnEnd(woken, id, outer), release)).log;
      assert log + [] == log;
    }
  }

  // --------------------------------------------------- What recovery looks for

  /** In every run the rows that the recovery scan looks for are exactly those with something left to do: not
      finished, or not announced, or with usage that is owed and not yet settled. */
  lemma CandidatesHaveWorkLeft(actions: seq<Action>, k: ExecutionKey)
    requires k in Run(actions).store.executions
    ensures
      var row := Run(actions).store.executions[k];
      && row.resumeContext.Some?
      && (Incomplete(row)
          <==> || row.record.phase.Pending? || row.record.phase.Running?
               || row.webhookPublishedAt.None?
               || (&& (row.resumeContext.value.usageReport.Some? || row.resumeContext.value.usageReservation.Some?)
                   && row.usageFinalizedAt.None?))
  {
    hide Run;
    RowsAreRecoverable(actions, k);
  }

  /** A row that the recovery scan no longer looks for has nothing left to do: it is finished, its webhook was
      enqueued with its event ID, and what it owes was reported if it has a dispatch marker, or released if not. */
  lemma CompleteRowsAreDone(actions: seq<Action>, k: ExecutionKey)
    requires k in Run(actions).store.executions && !Incomplete(Run(actions).store.executions[k])
    ensures
      var row, log := Run(actions).store.executions[k], Run(actions).log;
      && row.record.Terminal() && row.resumeContext.Some? && row.webhookEventId.Some?
      && (exists j :: WebhookEnqueued(j, k, row.webhookEventId.value) in log)
      && (row.dispatchStartedAt.Some? && row.resumeContext.value.usageReport.Some? ==>
            exists j :: UsageReported(j, k) in log)
      && (row.dispatchStartedAt.None? && row.resumeContext.value.usageReservation.Some? ==>
            exists j :: UsageReleased(j, k) in log)
  {
    hide Run;
    RowsAreRecoverable(actions, k);
    var row := Run(actions).store.executions[k];
    PublishedWebhookWasEnqueued(actions, k);
    if row.usageFinalizedAt.Some? {
      FinalizedUsageWasSettled(actions, k);
    }
  }
}
