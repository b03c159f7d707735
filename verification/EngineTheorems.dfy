// The main results about the execution lifecycle, for every run: any number of
// processes and workers, replays, cancellations, crashes and recoveries, in any
// interleaving, with any answers from the outside world.
module EngineTheorems {
  import opened Wrappers
  import opened JavaScript
  import opened ExecutionRecords
  import opened ExecutionStore
  import Calls = StoreRuns
  import opened ExecutionEngine
  import opened EngineInvariants
  import opened EngineSteps

  // ---------------------------------------------------------- Every run

  lemma AdvanceKeeps(w: World, id: nat, c: Choice)
    requires Inv(w) && id in w.workers
    ensures Advance(w, id, c) == w || Keeps(w, Advance(w, id, c))
  {
    hide Inv, Keeps, AdvanceExecute, AdvanceJob, AdvanceRun, AdvanceOther, AdvanceReconcile;
    match w.workers[id].pc
    case ExecInspect(_) => StepExecInspect(w, id, c);
    case ExecReserve(_) => StepExecInspect(w, id, c);
    case ExecLateInspect(_) => StepExecInspect(w, id, c);
    case ExecAllocate(_, _, _) => StepExecAllocate(w, id, c);
    case ExecReleaseUnused(_, _) => StepExecRelease(w, id, c);
    case ExecReplay(_, _, _) => StepExecRelease(w, id, c);
    case ExecMarkReplayed(_, _) => StepExecMarkReplayed(w, id, c);
    case ExecWait(_, _) => StepExecWait(w, id, c);
    case ExecAwaitTerminal(_, _) => StepExecReplayRead(w, id, c);
    case ExecReplayRead(_, _) => StepExecReplayRead(w, id, c);
    case JobRead(_) => StepJobRead(w, id, c);
    case JobSetResume(_, _, _) => StepJobResume(w, id, c);
    case JobReread(_) => StepJobResume(w, id, c);
    case JobAfterThrow(_) => StepJobAfterThrow(w, id, c);
    case RunAcquire(_) => StepRunAcquire(w, id, c);
    case RunMarkRunning(_) => StepRunMarkRunning(w, id, c);
    case RunResolveCredential(_) => StepRunAcquire(w, id, c);
    case RunSetConnection(_) => StepRunSetConnection(w, id, c);
    case RunMarkDispatch(_) => StepRunMarkDispatch(w, id, c);
    case RunEnterAdapter(_) => StepRunAdapter(w, id, c);
    case RunInAdapter(_) => StepRunAdapter(w, id, c);
    case RunPersistSuccess(_, _) => StepRunPersistSuccess(w, id, c);
    case RunInnerCatch(_, _) => StepRunInnerCatch(w, id, c);
    case RunOuterCatch(_, _) => StepRunOuterCatch(w, id, c);
    case RunRelease(_) => StepRunRelease(w, id, c);
    case FailSetEvent(_, _, _) => StepFailSetEvent(w, id, c);
    case FailPersist(_, _, _) => StepFailPersist(w, id, c);
    case CancelStore(_) => StepCancelStore(w, id, c);
    case CancelAbort(_, _) => StepCancelAbort(w, id, c);
    case RecoverRead(_) => StepRecoverRead(w, id, c);
    case StartReconcile(_, _) => StepStartReconcile(w, id, c);
    case Awaiting(_, _) => StepAwaiting(w, id, c);
    case ReconRead(_) => StepReconRead(w, id, c);
    case ReconUsage(_) => StepReconUsage(w, id, c);
    case ReconFinalize(_) => StepReconFinalize(w, id, c);
    case ReconWebhook(_) => StepReconWebhook(w, id, c);
    case ReconPublish(_) => StepReconPublish(w, id, c);
    case ReconDone(_) =>
    case Done =>
  }

  lemma SpawnKeeps(w: World, process: nat, pc: Pc)
    requires Inv(w) && HeldBy(w.nextWorker, pc).Nothing? && !pc.RunEnterAdapter? && !pc.ReconUsage?
    ensures Keeps(w, Spawn(w, process, pc))
  {
    hide Valid, MarkersInv, EntriesInv, OutcomesInv, EffectsInv, FinalizedInv, AdmissionsInv, Keeps, HeldBy;
    WorkersOnly(w, Spawn(w, process, pc));
  }

  /** Signals change no program counter; a crash only removes workers. */
  lemma EnvironmentKeeps(w: World, action: Action)
    requires Inv(w) && (action.Signal? || action.Crash?)
    ensures Keeps(w, Step(w, action))
  {
    hide Valid, MarkersInv, EntriesInv, OutcomesInv, EffectsInv, FinalizedInv, AdmissionsInv, Keeps, HeldBy, HeldInv;
    WorkersOnly(w, Step(w, action));
  }

  lemma ActionKeeps(w: World, action: Action)
    requires Inv(w)
    ensures Step(w, action) == w || Keeps(w, Step(w, action))
  {
    hide Inv, Keeps, Advance, Spawn, CrashProcess;
    match action
    case StartExecute(process, cmd) => SpawnKeeps(w, process, FirstExecPc(cmd));
    case StartJob(process, key) => SpawnKeeps(w, process, JobRead(key));
    case StartCancel(process, key) => SpawnKeeps(w, process, CancelStore(key));
    case StartRecovery(process, key) => SpawnKeeps(w, process, RecoverRead(key));
    case Signal(_) => EnvironmentKeeps(w, action);
    case Crash(_) => EnvironmentKeeps(w, action);
    case Go(id, c) =>
      if id in w.workers {
        AdvanceKeeps(w, id, c);
      }
  }

  lemma InitialInv()
    ensures Inv(INITIAL)
  {
    Calls.EmptyIsValid();
  }

  /** The invariant holds after every run. */
  lemma {:induction false} RunInv(actions: seq<Action>)
    ensures Inv(Run(actions))
  {
    if actions == [] {
      InitialInv();
    } else {
      var w := Run(actions[..|actions| - 1]);
      RunInv(actions[..|actions| - 1]);
      ActionKeeps(w, actions[|actions| - 1]);
      hide Inv, StepOk, Step;
      if Run(actions) != w {
        var e :| StepOk(w, Run(actions), e);
        StepKeeps(w, Run(actions), e);
      }
    }
  }

  lemma StepGrows(w: World, w2: World, e: Option<Event>)
    requires StepOk(w, w2, e)
    ensures Extends(w.store, w2.store) && w.log <= w2.log
  {
    hide Valid, Extends, WorkersInv, RowStep, IndexStep, EventOk, ArrivalOk;
  }

  /** The store only advances and the history only grows, over any continuation of any run. */
  lemma {:induction false} RunGrows(actions: seq<Action>, more: seq<Action>)
    ensures Extends(Run(actions).store, Run(actions + more).store)
    ensures Run(actions).log <= Run(actions + more).log
    decreases |more|
  {
    hide Inv, StepOk, Step, Extends;
    if more == [] {
      assert actions + more == actions;
      Calls.ExtendsItself(Run(actions).store);
    } else {
      var shorter := more[..|more| - 1];
      var all := actions + more;
      assert all[..|all| - 1] == actions + shorter;
      var w := Run(actions + shorter);
      RunGrows(actions, shorter);
      RunInv(actions + shorter);
      ActionKeeps(w, more[|more| - 1]);
      if Run(all) != w {
        var e :| StepOk(w, Run(all), e);
        StepGrows(w, Run(all), e);
        ExtendsTransitive(Run(actions).store, w.store, Run(all).store);
      }
    }
  }

  // ------------------------------------------------- At-most-once dispatch

  /** In every run the adapter is entered at most once per execution, only by a worker whose own
      markDispatchStarted won the execution's marker before, and the marker is won at most once. */
  lemma AtMostOnceDispatch(actions: seq<Action>, i: nat, j: nat)
    requires i < |Run(actions).log| && j < |Run(actions).log|
    requires Run(actions).log[i].AdapterEntered? && Run(actions).log[j].AdapterEntered?
    requires Run(actions).log[i].key == Run(actions).log[j].key
    ensures i == j
    ensures
      var log := Run(actions).log;
      exists m :: 0 <= m < i && log[m] == MarkerWon(log[i].worker, log[i].key)
    ensures
      var log := Run(actions).log;
      forall m, n :: 0 <= m < n < |log| && log[m].MarkerWon? && log[n].MarkerWon? ==> log[m].key != log[n].key
  {
    RunInv(actions);
    var w := Run(actions);
    hide Valid, WorkersInv, OutcomesInv, EffectsInv, FinalizedInv, AdmissionsInv, Run;
    var m :| 0 <= m < |w.log[..i]| && w.log[..i][m] == MarkerWon(w.log[i].worker, w.log[i].key);
    assert w.log[m] == MarkerWon(w.log[i].worker, w.log[i].key);
  }

  /** A succeeded record is backed by exactly one entry into the adapter. */
  lemma SuccessWasDispatched(actions: seq<Action>, k: ExecutionKey)
    requires k in Run(actions).store.executions && Run(actions).store.executions[k].record.phase.Succeeded?
    ensures
      var log := Run(actions).log;
      exists i :: 0 <= i < |log| && log[i].AdapterEntered? && log[i].key == k
               && forall j :: 0 <= j < |log| && log[j].AdapterEntered? && log[j].key == k ==> j == i
  {
    RunInv(actions);
    var w := Run(actions);
    hide Valid, WorkersInv, MarkersInv, EffectsInv, FinalizedInv, AdmissionsInv, Run;
    var worker :| AdapterEntered(worker, k) in w.log;
    var i :| 0 <= i < |w.log| && w.log[i] == AdapterEntered(worker, k);
  }

  // ---------------------------------------------------- Honest cancellation

  /** A terminal execution without a marker was never dispatched and never will be. */
  lemma UnmarkedTerminalIsNeverDispatched(actions: seq<Action>, more: seq<Action>, k: ExecutionKey)
    requires Finished(Run(actions).store, k) && Run(actions).store.executions[k].dispatchStartedAt.None?
    ensures forall e <- Run(actions + more).log :: !(e.AdapterEntered? && e.key == k)
  {
    RunGrows(actions, more);
    RunInv(actions + more);
    var s, w := Run(actions).store, Run(actions + more);
    hide Valid, WorkersInv, OutcomesInv, EffectsInv, FinalizedInv, AdmissionsInv, Run;
    assert RowExtends(s.executions[k], w.store.executions[k]);
    forall e <- w.log | e.AdapterEntered? ensures e.key != k {
      var j :| 0 <= j < |w.log| && w.log[j] == e;
      assert MarkerWon(e.worker, e.key) in w.log[..j];
      assert MarkerWon(e.worker, e.key) in w.log;
    }
  }

  /** If a cancelled record says that dispatch did not begin, the adapter is entered neither before nor in any
      continuation of the run; if it says that dispatch may have begun, the marker was won before the cancel. */
  lemma HonestCancellation(actions: seq<Action>, more: seq<Action>, k: ExecutionKey)
    requires k in Run(actions).store.executions && Run(actions).store.executions[k].record.phase.Cancelled?
    ensures !Run(actions).store.executions[k].record.phase.dispatchMayHaveBegun ==>
              forall e <- Run(actions + more).log :: !(e.AdapterEntered? && e.key == k)
    ensures Run(actions).store.executions[k].record.phase.dispatchMayHaveBegun ==>
              exists i, j :: 0 <= i < j < |Run(actions).log|
                && Run(actions).log[i].MarkerWon? && Run(actions).log[i].key == k
                && Run(actions).log[j] == CancelRecorded(k, true)
  {
    RunInv(actions);
    var w := Run(actions);
    hide Valid, WorkersInv, MarkersInv, EntriesInv, EffectsInv, FinalizedInv, AdmissionsInv, Run;
    if w.store.executions[k].record.phase.dispatchMayHaveBegun {
      var j :| 0 <= j < |w.log| && w.log[j] == CancelRecorded(k, true);
      var worker :| MarkerWon(worker, w.log[j].key) in w.log[..j];
      var i :| 0 <= i < |w.log[..j]| && w.log[..j][i] == MarkerWon(worker, k);
      assert w.log[i] == MarkerWon(worker, k);
    } else {
      UnmarkedTerminalIsNeverDispatched(actions, more, k);
    }
  }

  // -------------------------------------------------- Terminal records stay

  /** Over any continuation, identity fields never change, a status never moves back, and a terminal record
      and its dispatch marker stay exactly as they are. */
  lemma TerminalRecordsStay(actions: seq<Action>, more: seq<Action>, k: ExecutionKey)
    requires k in Run(actions).store.executions
    ensures k in Run(actions + more).store.executions
    ensures
      var before, after := Run(actions).store.executions[k], Run(actions + more).store.executions[k];
      && before.record.identity == after.record.identity
      && before.record.StatusOf().Rank() <= after.record.StatusOf().Rank()
      && (before.record.Terminal() ==>
            before.record == after.record && before.dispatchStartedAt == after.dispatchStartedAt)
  {
    RunGrows(actions, more);
    RowFacts(Run(actions).store, Run(actions + more).store, k);
    hide Run, Extends;
  }

  // ------------------------------------------------ Consistent reconciliation

  /** All reconciliations of one execution, repeated, concurrent or after crashes, take the same side. */
  lemma ReconciliationTakesOneSide(actions: seq<Action>, k: ExecutionKey)
    ensures forall e <- Run(actions).log, f <- Run(actions).log ::
              !(e.UsageReported? && f.UsageReleased? && e.key == k && f.key == k)
    ensures forall e <- Run(actions).log, f <- Run(actions).log ::
              e.WebhookEnqueued? && f.WebhookEnqueued? && e.key == k && f.key == k ==> e.eventId == f.eventId
  {
    RunInv(actions);
    hide Valid, WorkersInv, MarkersInv, EntriesInv, OutcomesInv, FinalizedInv, AdmissionsInv, Run, Began;
  }

  /** Usage is reported only for a dispatch marker that was won (a success, or an interrupted or cancelled
      dispatch); a reservation is released by a reconciliation only if the provider is never reached. */
  lemma ReleaseMeansNeverDispatched(actions: seq<Action>, more: seq<Action>, e: Event)
    requires e in Run(actions).log
    ensures e.UsageReported? ==> exists j :: MarkerWon(j, e.key) in Run(actions).log
    ensures e.UsageReleased? ==> forall f <- Run(actions + more).log :: !(f.AdapterEntered? && f.key == e.key)
  {
    RunInv(actions);
    var w := Run(actions);
    hide Valid, WorkersInv, FinalizedInv, AdmissionsInv, Run;
    if e.UsageReported? {
      SucceededIsMarked(w, e.key);
    } else if e.UsageReleased? {
      UnmarkedTerminalIsNeverDispatched(actions, more, e.key);
    }
  }

  lemma SucceededIsMarked(w: World, k: ExecutionKey)
    requires MarkersInv(w) && EntriesInv(w) && OutcomesInv(w)
    requires Finished(w.store, k) && Began(w.store, k)
    ensures exists j :: MarkerWon(j, k) in w.log
  {
    if w.store.executions[k].record.phase.Succeeded? {
      var j :| AdapterEntered(j, k) in w.log;
      var n :| 0 <= n < |w.log| && w.log[n] == AdapterEntered(j, k);
      assert MarkerWon(j, k) in w.log[..n];
      assert MarkerWon(j, k) in w.log;
    }
  }

  /** A reconciliation whose read comes after some reconciliation of the same execution had finalized the
      usage issues no usage effect. */
  lemma NoUsageEffectAfterFinalizedRead(actions: seq<Action>, i: nat, l: nat, n: nat)
    requires i < l < n < |Run(actions).log|
    requires Run(actions).log[i].UsageFinalized? && Run(actions).log[l].ReconciliationRead?
    requires Run(actions).log[l].key == Run(actions).log[i].key
    requires UsageEffect(Run(actions).log[n]) && Run(actions).log[n].worker == Run(actions).log[l].worker
    ensures Run(actions).log[n].key != Run(actions).log[i].key
  {
    RunInv(actions);
    var log := Run(actions).log;
    hide Valid, WorkersInv, MarkersInv, EntriesInv, OutcomesInv, EffectsInv, AdmissionsInv, Run;
    assert log[..n][i] == log[i] && log[..n][l] == log[l];
  }

  // ------------------------------------------------------ Idempotency spacing

  /** The creation times of the executions admitted under one scope, in admission order. */
  function ScopeCreations(log: seq<Event>, scope: ScopeKey): seq<Timestamp> {
    if log == [] then []
    else
      var earlier := ScopeCreations(log[..|log| - 1], scope);
      var e := log[|log| - 1];
      if e.Admitted? && e.scope == Some(scope) then earlier + [e.createdAt] else earlier
  }

  lemma CreationsNext(log: seq<Event>, e: Event, scope: ScopeKey)
    ensures ScopeCreations(log + [e], scope)
         == ScopeCreations(log, scope) + if e.Admitted? && e.scope == Some(scope) then [e.createdAt] else []
  {
    assert (log + [e])[..|log|] == log;
  }

  /** Every idempotency window that was promised is at least `retention` long. */
  ghost predicate RetentionAtLeast(log: seq<Event>, retention: int) {
    forall e <- log :: e.Admitted? && e.scope.Some? ==> e.createdAt + retention <= e.expiresAt
  }

  lemma {:induction false} LastCreation(log: seq<Event>, scope: ScopeKey)
    requires ScopeCreations(log, scope) != []
    ensures
      var created := ScopeCreations(log, scope);
      exists m :: 0 <= m < |log| && log[m].Admitted? && log[m].scope == Some(scope)
        && log[m].createdAt == created[|created| - 1]
  {
    var last := |log| - 1;
    var e := log[last];
    if !(e.Admitted? && e.scope == Some(scope)) {
      LastCreation(log[..last], scope);
    }
  }

  /** Each element is at least `gap` above the one before it. */
  ghost predicate Spaced(times: seq<Timestamp>, gap: int) {
    forall i :: 0 < i < |times| ==> times[i - 1] + gap <= times[i]
  }

  lemma SpacedNext(times: seq<Timestamp>, next: Timestamp, gap: int)
    requires Spaced(times, gap) && (times != [] ==> times[|times| - 1] + gap <= next)
    ensures Spaced(times + [next], gap)
  {
  }

  lemma {:induction false} SpacedApart(times: seq<Timestamp>, gap: int, i: nat, j: nat)
    requires Spaced(times, gap) && i <= j < |times|
    ensures times[j] - times[i] >= (j - i) * gap
    decreases j
  {
    if i < j {
      SpacedApart(times, gap, i, j - 1);
      assert (j - i) * gap == (j - 1 - i) * gap + gap;
    }
  }

  /** A later admission under a scope waits for the end of the window of the one before it. */
  lemma NextCreation(w: World, n: nat, scope: ScopeKey, retention: int)
    requires AdmissionsInv(w) && n < |w.log| && RetentionAtLeast(w.log, retention)
    requires w.log[n].Admitted? && w.log[n].scope == Some(scope)
    requires ScopeCreations(w.log[..n], scope) != []
    ensures
      var earlier := ScopeCreations(w.log[..n], scope);
      earlier[|earlier| - 1] + retention <= w.log[n].createdAt
  {
    hide ScopeCreations;
    LastCreation(w.log[..n], scope);
    var earlier := ScopeCreations(w.log[..n], scope);
    var m :| 0 <= m < n && w.log[m].Admitted? && w.log[m].scope == Some(scope)
      && w.log[m].createdAt == earlier[|earlier| - 1];
    assert w.log[m] in w.log;
  }

  lemma {:induction false} CreationsSpaced(w: World, n: nat, scope: ScopeKey, retention: int)
    requires AdmissionsInv(w) && n <= |w.log| && RetentionAtLeast(w.log, retention)
    ensures Spaced(ScopeCreations(w.log[..n], scope), retention)
  {
    hide AdmissionsInv, RetentionAtLeast, Spaced, ScopeCreations;
    if n == 0 {
      NoCreations(scope, retention);
      assert w.log[..0] == [];
    } else {
      CreationsSpaced(w, n - 1, scope, retention);
      var earlier, e := ScopeCreations(w.log[..n - 1], scope), w.log[n - 1];
      assert w.log[..n] == w.log[..n - 1] + [e];
      CreationsNext(w.log[..n - 1], e, scope);
      if e.Admitted? && e.scope == Some(scope) {
        if earlier != [] {
          NextCreation(w, n - 1, scope, retention);
        }
        SpacedNext(earlier, e.createdAt, retention);
      } else {
        assert earlier + [] == earlier;
      }
    }
  }

  lemma NoCreations(scope: ScopeKey, retention: int)
    ensures Spaced(ScopeCreations([], scope), retention)
  {
  }

  /** Whatever is configured, every promised window is at least a day long. */
  lemma DayIsPromised(actions: seq<Action>)
    ensures RetentionAtLeast(Run(actions).log, DAY_MS)
  {
    RunInv(actions);
    hide Valid, WorkersInv, MarkersInv, EntriesInv, OutcomesInv, EffectsInv, FinalizedInv, Run;
  }

  /** For any clock, the i-th and j-th executions admitted under one scope were created at least (j - i) spans
      apart, where the span is a day or the retention that the promised windows respect, whichever is longer. */
  lemma IdempotencySpacing(actions: seq<Action>, scope: ScopeKey, retention: int)
    requires RetentionAtLeast(Run(actions).log, retention)
    ensures
      var created := ScopeCreations(Run(actions).log, scope);
      forall i, j :: 0 <= i < j < |created| ==> created[j] - created[i] >= (j - i) * Max(DAY_MS, retention)
  {
    hide Valid, WorkersInv, MarkersInv, EntriesInv, OutcomesInv, EffectsInv, FinalizedInv, AdmissionsInv, Run, Spaced;
    RunInv(actions);
    DayIsPromised(actions);
    var w := Run(actions);
    var span := Max(DAY_MS, retention);
    CreationsSpaced(w, |w.log|, scope, span);
    assert w.log[..|w.log|] == w.log;
    var created := ScopeCreations(w.log, scope);
    forall i, j | 0 <= i < j < |created| ensures created[j] - created[i] >= (j - i) * span {
      SpacedApart(created, span, i, j);
    }
  }

  /** So the provider sees at most one dispatch per scope per such span of creation times: two dispatches under
      one scope are of different executions, created at least a span apart. */
  lemma DispatchesSpaced(
    actions: seq<Action>, scope: ScopeKey, retention: int, i: nat, j: nat, m: nat, n: nat)
    requires RetentionAtLeast(Run(actions).log, retention)
    requires i < |Run(actions).log| && j < |Run(actions).log| && m < |Run(actions).log| && n < |Run(actions).log|
    requires
      var log := Run(actions).log;
      && log[i].AdapterEntered? && log[j].AdapterEntered? && i != j
      && log[m].Admitted? && log[m].key == log[i].key && log[m].scope == Some(scope)
      && log[n].Admitted? && log[n].key == log[j].key && log[n].scope == Some(scope)
    ensures
      var log := Run(actions).log;
      && log[i].key != log[j].key
      && (|| log[m].createdAt + Max(DAY_MS, retention) <= log[n].createdAt
          || log[n].createdAt + Max(DAY_MS, retention) <= log[m].createdAt)
  {
    hide Valid, WorkersInv, MarkersInv, OutcomesInv, EffectsInv, FinalizedInv, Run;
    RunInv(actions);
    DayIsPromised(actions);
    var log := Run(actions).log;
    assert log[m] in log && log[n] in log;
  }
}
