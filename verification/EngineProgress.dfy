// What the engine gets done: one worker takes its turns, the others do whatever
// they like in between, and nothing but a crash of its process can take a turn
// away. Each result says what some turns of one worker achieve.
module EngineProgress {
  import opened Wrappers
  import opened JavaScript
  import opened ExecutionRecords
  import opened ExecutionStore
  import opened ExecutionEngine
  import opened EngineMoves
  import opened EngineInvariants
  import opened EngineSteps
  import opened EngineTheorems
  import opened EngineHistory

  // ------------------------------------------------------------------ Turns

  /** The others act in any way, and then the worker takes a step with these answers from outside. */
  datatype Turn = Turn(others: seq<Action>, choice: Choice)

  /** Anything but a step of this worker and a crash of its process. */
  predicate Undisturbed(others: seq<Action>, id: nat, process: nat) {
    forall a <- others :: !(a.Go? && a.worker == id) && !(a.Crash? && a.process == process)
  }

  /** The run up to the worker's step. */
  function TurnStart(actions: seq<Action>, turn: Turn): seq<Action> {
    actions + turn.others
  }

  function TurnEnd(actions: seq<Action>, id: nat, turn: Turn): seq<Action> {
    TurnStart(actions, turn) + [Go(id, turn.choice)]
  }

  ghost predicate SamePlace(w: World, w2: World, id: nat) {
    && id in w.workers && id in w2.workers
    && w2.workers[id].pc == w.workers[id].pc && w2.workers[id].process == w.workers[id].process
  }

  lemma MoveLeaves(w: World, w2: World, j: nat, id: nat)
    requires j in w.workers && MovesOne(w, w2, j) && id in w.workers && j != id
    ensures SamePlace(w, w2, id)
  {
    hide SameOutcomes, Arrives, CommandOf, Quitting, Owned;
  }

  lemma AllocateLeaves(w: World, j: nat, c: Choice, id: nat)
    requires j in w.workers && w.workers[j].pc.ExecAllocate? && id in w.workers && j != id
    ensures SamePlace(w, AdvanceExecute(w, j, c), id)
  {
    hide Allocate, FullAllocation, ScopeOf, Locals;
  }

  lemma AbortLeaves(w: World, j: nat, c: Choice, id: nat)
    requires j in w.workers && w.workers[j].pc.CancelAbort? && id in w.workers && j != id
    ensures SamePlace(w, AdvanceOther(w, j, c), id)
  {
    hide RunKey;
  }

  lemma StartLeaves(w: World, j: nat, c: Choice, id: nat)
    requires j in w.workers && w.workers[j].pc.StartReconcile? && id in w.workers && j != id && id < w.nextWorker
    ensures SamePlace(w, AdvanceReconcile(w, j, c), id)
  {
  }

  lemma OtherLeaves(w: World, action: Action, id: nat)
    requires WorkersInv(w) && id in w.workers
    requires Undisturbed([action], id, w.workers[id].process)
    ensures SamePlace(w, Step(w, action), id)
  {
    hide AdvanceExecute, AdvanceJob, AdvanceRun, AdvanceOther, AdvanceReconcile, MovesOne, HeldInv, HeldBy;
    assert action in [action];
    if action.Go? && action.worker in w.workers {
      var j, c := action.worker, action.choice;
      var pc := w.workers[j].pc;
      if pc.ExecAllocate? {
        AllocateLeaves(w, j, c, id);
      } else if pc.CancelAbort? {
        AbortLeaves(w, j, c, id);
      } else if pc.StartReconcile? {
        StartLeaves(w, j, c, id);
      } else {
        AdvanceMoves(w, j, c);
        if Advance(w, j, c) != w {
          MoveLeaves(w, Advance(w, j, c), j, id);
        }
      }
    }
  }

  /** Whatever the others do, the worker stays where it is. */
  lemma {:induction false} OthersLeave(actions: seq<Action>, others: seq<Action>, id: nat)
    requires id in Run(actions).workers && Undisturbed(others, id, Run(actions).workers[id].process)
    ensures SamePlace(Run(actions), Run(actions + others), id)
    decreases |others|
  {
    hide Step, Inv;
    if others == [] {
      assert actions + others == actions;
    } else {
      var shorter, last := others[..|others| - 1], others[|others| - 1];
      OthersLeave(actions, shorter, id);
      assert (actions + others)[..|actions + others| - 1] == actions + shorter;
      var w := Run(actions + shorter);
      RunInv(actions + shorter);
      InvWorkers(w);
      OtherLeaves(w, last, id);
    }
  }

  lemma InvWorkers(w: World)
    requires Inv(w)
    ensures Valid(w.store) && WorkersInv(w)
  {
  }

  /** A turn: the worker steps from where it stood, in a world that has only moved on. */
  lemma TurnSteps(actions: seq<Action>, id: nat, turn: Turn)
    requires id in Run(actions).workers && Undisturbed(turn.others, id, Run(actions).workers[id].process)
    ensures
      var w, v := Run(actions), Run(TurnStart(actions, turn));
      && SamePlace(w, v, id) && Inv(v)
      && Run(TurnEnd(actions, id, turn)) == Advance(v, id, turn.choice)
      && Extends(w.store, v.store) && w.log <= v.log
  {
    hide Run, Step, Inv, Extends, Advance;
    OthersLeave(actions, turn.others, id);
    RunInv(TurnStart(actions, turn));
    RunGrows(actions, turn.others);
    LastStep(TurnStart(actions, turn), Go(id, turn.choice));
    GoAdvances(Run(TurnStart(actions, turn)), id, turn.choice);
  }

  lemma GoAdvances(w: World, id: nat, c: Choice)
    requires id in w.workers
    ensures Step(w, Go(id, c)) == Advance(w, id, c)
  {
    hide Advance;
  }

  /** What a row carries over whatever the others do. */
  lemma RowMovesOn(s: Store, t: Store, k: ExecutionKey)
    requires Extends(s, t) && k in s.executions
    ensures k in t.executions && RowExtends(s.executions[k], t.executions[k])
  {
  }

  // --------------------------------------------- What an adapter answers

  /** A run that stands in its adapter belongs to a row that has started. */
  lemma EnteredRowStarted(w: World, id: nat)
    requires Inv(w) && id in w.workers && (w.workers[id].pc.RunInAdapter? || w.workers[id].pc.RunPersistSuccess?)
    ensures
      var l := w.workers[id].pc.l;
      && l.key in w.store.executions && !w.store.executions[l.key].record.phase.Pending?
      && l.key == ExecutionKey(l.key.projectId, l.pending.identity.executionId)
      && l.pending.identity == w.store.executions[l.key].record.identity
  {
    hide Valid, OutcomesInv, EffectsInv, FinalizedInv, AdmissionsInv;
    MyHeld(w, id);
    var l := w.workers[id].pc.l;
    LocalsKey(w.store, l);
    EntryIsMarked(w, id, l.key);
  }

  lemma EntryIsMarked(w: World, id: nat, k: ExecutionKey)
    requires MarkersInv(w) && EntriesInv(w) && AdapterEntered(id, k) in w.log
    ensures k in w.store.executions && !w.store.executions[k].record.phase.Pending?
  {
    var n :| 0 <= n < |w.log| && w.log[n] == AdapterEntered(id, k);
    assert MarkerWon(id, k) in w.log[..n];
    assert MarkerWon(id, k) in w.log;
  }

  /** An outcome that a run stores: it is written unless the row is terminal, and then nothing changes. */
  lemma OutcomeIsStored(s: Store, key: ExecutionKey, record: ExecutionRecord)
    requires key in s.executions && key.executionId == record.identity.executionId && !record.replayed
    requires record.identity == s.executions[key].record.identity
    requires record.phase.Failed? || (record.phase.Succeeded? && !s.executions[key].record.phase.Pending?)
    ensures
      var (t, rejected) := Update(s, key.projectId, record);
      && key in t.executions
      && (if s.executions[key].record.Terminal() then rejected.Some? && t == s
          else rejected.None? && t.executions[key] == s.executions[key].(record := record))
  {
    hide Deliveries;
  }

  /** What an outcome is worth to the row of `k` between two worlds: the terminal row that was there already, or
      this record. */
  ghost predicate Records(v: World, w: World, k: ExecutionKey, record: ExecutionRecord) {
    && k in v.store.executions && k in w.store.executions
    && var before, after := v.store.executions[k], w.store.executions[k];
    if before.record.Terminal() then after == before else after == before.(record := record)
  }

  lemma AnswerGoesOn(w: World, id: nat, c: Choice)
    requires id in w.workers && w.workers[id].pc.RunInAdapter?
    ensures
      var l, w2 := w.workers[id].pc.l, Advance(w, id, c);
      && id in w2.workers && w2.workers[id].process == w.workers[id].process
      && w2.workers[id].pc == if c.fails then RunInnerCatch(l, OtherFailure) else RunPersistSuccess(l, c.text)
  {
  }

  lemma SuccessIsStored(w: World, id: nat, c: Choice)
    requires Inv(w) && id in w.workers && w.workers[id].pc.RunPersistSuccess?
    ensures
      var l, w2 := w.workers[id].pc.l, Advance(w, id, c);
      && Records(
           w, w2, l.key,
           RunRecord(l, Phase.Succeeded(c.now, Max(0, c.now - l.startedAt), w.workers[id].pc.output)))
      && id in w2.workers && w2.workers[id].process == w.workers[id].process
      && (!w.store.executions[l.key].record.Terminal() ==>
            w2.workers[id].pc.StartReconcile? && w2.workers[id].pc.input.key == l.key)
  {
    hide Inv, Update, FailureOf;
    EnteredRowStarted(w, id);
    var l := w.workers[id].pc.l;
    OutcomeIsStored(
      w.store, l.key, RunRecord(l, Phase.Succeeded(c.now, Max(0, c.now - l.startedAt), w.workers[id].pc.output)));
  }

  /** The answer of an adapter is recorded. A worker is in its adapter and is answered with a text; the others do
      whatever they like, before and after; the worker takes its next turn. Then the execution has succeeded with
      exactly that text, or it was terminal before, as that turn found it, and is unchanged. */
  lemma AnswerIsRecorded(actions: seq<Action>, id: nat, answer: Turn, next: Turn)
    requires id in Run(actions).workers && Run(actions).workers[id].pc.RunInAdapter? && !answer.choice.fails
    requires Undisturbed(answer.others, id, Run(actions).workers[id].process)
    requires Undisturbed(next.others, id, Run(actions).workers[id].process)
    ensures
      var l, answered := Run(actions).workers[id].pc.l, TurnEnd(actions, id, answer);
      var v, w := Run(TurnStart(answered, next)), Run(TurnEnd(answered, id, next));
      && l.key in v.store.executions && l.key in w.store.executions
      && var before, after := v.store.executions[l.key], w.store.executions[l.key];
      if before.record.Terminal() then after == before
      else
        && after.record.phase
           == Phase.Succeeded(next.choice.now, Max(0, next.choice.now - l.startedAt), answer.choice.text)
        && after.record.identity == before.record.identity
        && after.dispatchStartedAt == before.dispatchStartedAt
  {
    hide Inv, Run, Advance, Extends, TurnStart, TurnEnd;
    TurnSteps(actions, id, answer);
    AnswerGoesOn(Run(TurnStart(actions, answer)), id, answer.choice);
    var answered := TurnEnd(actions, id, answer);
    TurnSteps(answered, id, next);
    var v := Run(TurnStart(answered, next));
    EnteredRowStarted(v, id);
    SuccessIsStored(v, id, next.choice);
  }

  // ---------------------------------- A run stores its outcome only once

  /** A run that has not got past its adapter has not stored an outcome yet. */
  predicate Unpersisted(pc: Pc) {
    match pc
    case RunAcquire(l) => !l.terminalPersisted
    case RunMarkRunning(l) => !l.terminalPersisted
    case RunResolveCredential(l) => !l.terminalPersisted
    case RunSetConnection(l) => !l.terminalPersisted
    case RunMarkDispatch(l) => !l.terminalPersisted
    case RunEnterAdapter(l) => !l.terminalPersisted
    case RunInAdapter(l) => !l.terminalPersisted
    case RunPersistSuccess(l, _) => !l.terminalPersisted
    case _ => true
  }

  ghost predicate StaysUnpersisted(w: World, w2: World, id: nat) {
    id in w.workers && id in w2.workers && (Unpersisted(w.workers[id].pc) ==> Unpersisted(w2.workers[id].pc))
  }

  lemma PreparingStays(w: World, id: nat, c: Choice)
    requires id in w.workers
    requires
      var pc := w.workers[id].pc;
      pc.RunAcquire? || pc.RunMarkRunning? || pc.RunResolveCredential? || pc.RunSetConnection?
    ensures StaysUnpersisted(w, AdvanceRun(w, id, c), id)
  {
    hide Update, SetResolvedConnection, RunRecord, FailureOf;
  }

  lemma DispatchingStays(w: World, id: nat, c: Choice)
    requires id in w.workers
    requires
      var pc := w.workers[id].pc;
      pc.RunMarkDispatch? || pc.RunEnterAdapter? || pc.RunInAdapter? || pc.RunPersistSuccess?
    ensures StaysUnpersisted(w, AdvanceRun(w, id, c), id)
  {
    hide Update, MarkDispatchStarted, RunRecord, RunInput, FailureOf;
  }

  lemma CatchingStays(w: World, id: nat, c: Choice)
    requires id in w.workers
    requires w.workers[id].pc.RunInnerCatch? || w.workers[id].pc.RunOuterCatch? || w.workers[id].pc.RunRelease?
    ensures StaysUnpersisted(w, AdvanceRun(w, id, c), id)
  {
    hide Update, GetRecoverable, RunRecord, RunInput, RowInput, FailureOf;
  }

  lemma JobStays(w: World, id: nat, c: Choice)
    requires id in w.workers
    requires
      var pc := w.workers[id].pc;
      pc.JobRead? || pc.JobSetResume? || pc.JobReread? || pc.JobAfterThrow?
    ensures StaysUnpersisted(w, AdvanceJob(w, id, c), id)
  {
    hide GetRecoverable, SetResumeContext, RowInput, JobDecide;
    forall rec ensures StaysUnpersisted(w, JobDecide(w, id, rec, c), id) {
      DecisionStays(w, id, rec, c);
    }
  }

  lemma DecisionStays(w: World, id: nat, rec: Recoverable, c: Choice)
    requires id in w.workers
    ensures StaysUnpersisted(w, JobDecide(w, id, rec, c), id)
  {
  }

  lemma ExecuteStays(w: World, id: nat, c: Choice)
    requires id in w.workers && CommandOf(w.workers[id].pc).Some? && !w.workers[id].pc.ExecAllocate?
    ensures StaysUnpersisted(w, AdvanceExecute(w, id, c), id)
  {
    hide InspectAllocation, PreflightAllocation, MarkReplayed, Wait, GetRecoverable, RowInput;
  }

  lemma AnsweringStays(w: World, id: nat, c: Choice)
    requires id in w.workers
    requires
      var pc := w.workers[id].pc;
      pc.ExecAllocate? || pc.ExecReleaseUnused? || pc.ExecAwaitTerminal? || pc.ExecReplayRead?
    ensures StaysUnpersisted(w, AdvanceExecute(w, id, c), id)
  {
    hide Allocate, FullAllocation, ScopeOf, FindDelivery, GetRecoverable, RowInput;
  }

  lemma OtherStays(w: World, id: nat, c: Choice)
    requires id in w.workers
    requires
      var pc := w.workers[id].pc;
      pc.FailSetEvent? || pc.FailPersist? || pc.CancelStore? || pc.CancelAbort? || pc.RecoverRead?
    ensures StaysUnpersisted(w, AdvanceOther(w, id, c), id)
  {
    hide SetWebhookEventId, InterruptedRecord, Update, RowInput, Cancel, GetRecoverable, RunKey;
  }

  lemma ReconciliationStays(w: World, id: nat, c: Choice)
    requires id in w.workers && WorkersInv(w)
    requires
      var pc := w.workers[id].pc;
      || pc.StartReconcile? || pc.Awaiting? || pc.ReconRead? || pc.ReconUsage? || pc.ReconFinalize?
      || pc.ReconWebhook? || pc.ReconPublish?
    ensures StaysUnpersisted(w, AdvanceReconcile(w, id, c), id)
  {
    hide GetRecoverable, ReadForReconciliation, MarkUsageFinalized, MarkWebhookPublished, HeldInv, HeldBy;
  }

  lemma AdvanceStaysUnpersisted(w: World, id: nat, c: Choice)
    requires WorkersInv(w) && id in w.workers
    ensures StaysUnpersisted(w, Advance(w, id, c), id)
  {
    hide AdvanceExecute, AdvanceJob, AdvanceRun, AdvanceOther, AdvanceReconcile, StaysUnpersisted, WorkersInv;
    var pc := w.workers[id].pc;
    if pc.RunAcquire? || pc.RunMarkRunning? || pc.RunResolveCredential? || pc.RunSetConnection? {
      PreparingStays(w, id, c);
    } else if pc.RunMarkDispatch? || pc.RunEnterAdapter? || pc.RunInAdapter? || pc.RunPersistSuccess? {
      DispatchingStays(w, id, c);
    } else if pc.RunInnerCatch? || pc.RunOuterCatch? || pc.RunRelease? {
      CatchingStays(w, id, c);
    } else if pc.JobRead? || pc.JobSetResume? || pc.JobReread? || pc.JobAfterThrow? {
      JobStays(w, id, c);
    } else if pc.ExecAllocate? || pc.ExecReleaseUnused? || pc.ExecAwaitTerminal? || pc.ExecReplayRead? {
      AnsweringStays(w, id, c);
    } else if CommandOf(pc).Some? {
      ExecuteStays(w, id, c);
    } else if pc.FailSetEvent? || pc.FailPersist? || pc.CancelStore? || pc.CancelAbort? || pc.RecoverRead? {
      OtherStays(w, id, c);
    } else if pc.ReconDone? || pc.Done? {
      SameStays(w, id);
    } else {
      ReconciliationStays(w, id, c);
    }
  }

  lemma SameStays(w: World, id: nat)
    requires id in w.workers
    ensures StaysUnpersisted(w, w, id)
  {
  }

  /** What an action adds to the workers is not a run. */
  lemma NewWorkersAreNoRuns(w: World, action: Action)
    requires WorkersInv(w)
    ensures forall j <- Step(w, action).workers :: j in w.workers || Unpersisted(Step(w, action).workers[j].pc)
  {
    hide HeldInv, HeldBy, AdvanceExecute, AdvanceJob, AdvanceRun, AdvanceOther, AdvanceReconcile, MovesOne;
    if action.Go? && action.worker in w.workers {
      var id, c := action.worker, action.choice;
      var pc := w.workers[id].pc;
      if pc.ExecAllocate? {
        AllocateAddsNobody(w, id, c);
      } else if pc.CancelAbort? {
        AbortAddsNobody(w, id, c);
      } else if pc.StartReconcile? {
        StartAddsAReader(w, id, c);
      } else {
        AdvanceMoves(w, id, c);
        if Advance(w, id, c) != w {
          MoveAddsNobody(w, Advance(w, id, c), id);
        }
      }
    }
  }

  lemma MoveAddsNobody(w: World, w2: World, id: nat)
    requires id in w.workers && MovesOne(w, w2, id)
    ensures forall j <- w2.workers :: j in w.workers
  {
    hide SameOutcomes, Arrives, CommandOf, Quitting, Owned;
  }

  lemma AllocateAddsNobody(w: World, id: nat, c: Choice)
    requires id in w.workers && w.workers[id].pc.ExecAllocate?
    ensures forall j <- AdvanceExecute(w, id, c).workers :: j in w.workers
  {
    hide Allocate, FullAllocation, ScopeOf, Locals;
  }

  lemma AbortAddsNobody(w: World, id: nat, c: Choice)
    requires id in w.workers && w.workers[id].pc.CancelAbort?
    ensures forall j <- AdvanceOther(w, id, c).workers :: j in w.workers
  {
    hide RunKey;
  }

  lemma StartAddsAReader(w: World, id: nat, c: Choice)
    requires id in w.workers && w.workers[id].pc.StartReconcile?
    ensures forall j <- AdvanceReconcile(w, id, c).workers ::
              j in w.workers || AdvanceReconcile(w, id, c).workers[j].pc.ReconRead?
  {
  }

  ghost predicate AllUnpersisted(w: World) {
    forall j <- w.workers :: Unpersisted(w.workers[j].pc)
  }

  lemma StepUnpersisted(w: World, action: Action)
    requires WorkersInv(w) && AllUnpersisted(w)
    ensures AllUnpersisted(Step(w, action))
  {
    hide Advance, WorkersInv, Unpersisted;
    var w2 := Step(w, action);
    NewWorkersAreNoRuns(w, action);
    forall j <- w2.workers ensures Unpersisted(w2.workers[j].pc) {
      if j in w.workers {
        if action.Go? && action.worker == j {
          AdvanceStaysUnpersisted(w, j, action.choice);
        } else if !action.Crash? {
          assert forall a <- [action] :: a == action;
          OtherLeaves(w, action, j);
        }
      }
    }
  }

  lemma {:induction false} RunUnpersisted(actions: seq<Action>)
    ensures AllUnpersisted(Run(actions))
  {
    hide Step, Inv, AllUnpersisted;
    if actions == [] {
      NobodyPersisted();
    } else {
      var before := actions[..|actions| - 1];
      RunUnpersisted(before);
      RunInv(before);
      InvWorkers(Run(before));
      StepUnpersisted(Run(before), actions[|actions| - 1]);
    }
  }

  lemma NobodyPersisted()
    ensures AllUnpersisted(INITIAL)
  {
  }

  // ------------------------------------------------ What a failure leaves

  /** The four points at which the outside world can fail a run that has started. */
  predicate CanFail(pc: Pc) {
    pc.RunResolveCredential? || pc.RunSetConnection? || pc.RunEnterAdapter? || pc.RunInAdapter?
  }

  lemma FailureGoesOn(w: World, id: nat, c: Choice)
    requires id in w.workers && CanFail(w.workers[id].pc) && c.fails
    ensures
      var l, w2 := w.workers[id].pc.l, Advance(w, id, c);
      && id in w2.workers && w2.workers[id].process == w.workers[id].process
      && w2.workers[id].pc.RunInnerCatch? && !w2.workers[id].pc.failure.FencedFailure?
      && var m := w2.workers[id].pc.l;
      && m.key == l.key && m.startedAt == l.startedAt && m.pending == l.pending
      && m.terminalPersisted == l.terminalPersisted
  {
    hide SetResolvedConnection;
  }

  lemma FailingIsUnpersisted(w: World, id: nat)
    requires AllUnpersisted(w) && id in w.workers && CanFail(w.workers[id].pc)
    ensures !w.workers[id].pc.l.terminalPersisted
  {
    assert Unpersisted(w.workers[id].pc);
  }

  lemma CaughtLocals(w: World, id: nat)
    requires Inv(w) && id in w.workers && w.workers[id].pc.RunInnerCatch?
    ensures
      var l := w.workers[id].pc.l;
      && l.key in w.store.executions
      && l.key == ExecutionKey(l.key.projectId, l.pending.identity.executionId)
      && l.pending.identity == w.store.executions[l.key].record.identity
  {
    hide Valid, MarkersInv, EntriesInv, OutcomesInv, EffectsInv, FinalizedInv, AdmissionsInv;
    MyHeld(w, id);
    LocalsKey(w.store, w.workers[id].pc.l);
  }

  lemma FailureIsStored(w: World, id: nat, c: Choice)
    requires Inv(w) && id in w.workers && w.workers[id].pc.RunInnerCatch?
    requires !w.workers[id].pc.failure.FencedFailure? && !w.workers[id].pc.l.terminalPersisted
    ensures
      var l, w2 := w.workers[id].pc.l, Advance(w, id, c);
      && Records(w, w2, l.key, RunRecord(l, Phase.Failed(c.now, Max(0, c.now - l.startedAt), c.error)))
      && id in w2.workers && w2.workers[id].process == w.workers[id].process
      && (!w.store.executions[l.key].record.Terminal() ==>
            w2.workers[id].pc.StartReconcile? && w2.workers[id].pc.input.key == l.key)
  {
    hide Inv, Update, FailureOf;
    CaughtLocals(w, id);
    var l := w.workers[id].pc.l;
    OutcomeIsStored(w.store, l.key, RunRecord(l, Phase.Failed(c.now, Max(0, c.now - l.startedAt), c.error)));
  }

  /** A failure of the outside world is recorded: a run fails while it resolves its credential, stores its
      connection, prepares its adapter or is inside it; two turns later, whatever the others did, its execution has
      failed with the error that the engine made of it, or it was terminal before and is unchanged. */
  lemma FailureIsRecorded(actions: seq<Action>, id: nat, failed: Turn, next: Turn)
    requires id in Run(actions).workers && CanFail(Run(actions).workers[id].pc) && failed.choice.fails
    requires Undisturbed(failed.others, id, Run(actions).workers[id].process)
    requires Undisturbed(next.others, id, Run(actions).workers[id].process)
    ensures
      var l, caught := Run(actions).workers[id].pc.l, TurnEnd(actions, id, failed);
      var v, w := Run(TurnStart(caught, next)), Run(TurnEnd(caught, id, next));
      && l.key in v.store.executions && l.key in w.store.executions
      && var before, after := v.store.executions[l.key], w.store.executions[l.key];
      if before.record.Terminal() then after == before
      else
        && after.record.phase
           == Phase.Failed(next.choice.now, Max(0, next.choice.now - l.startedAt), next.choice.error)
        && after.record.identity == before.record.identity
        && after.dispatchStartedAt == before.dispatchStartedAt
  {
    hide Inv, Run, Advance, Extends, TurnStart, TurnEnd;
    RunUnpersisted(actions);
    FailingIsUnpersisted(Run(actions), id);
    TurnSteps(actions, id, failed);
    FailureGoesOn(Run(TurnStart(actions, failed)), id, failed.choice);
    var caught := TurnEnd(actions, id, failed);
    TurnSteps(caught, id, next);
    var v := Run(TurnStart(caught, next));
    CaughtLocals(v, id);
    FailureIsStored(v, id, next.choice);
  }

  // --------------------------------------------- From the marker to success

  lemma MarkGoesOn(w: World, id: nat, c: Choice)
    requires id in w.workers && w.workers[id].pc.RunMarkDispatch?
    ensures
      var l, w2 := w.workers[id].pc.l, Advance(w, id, c);
      && id in w2.workers && w2.workers[id].process == w.workers[id].process
      && (if && !w.workers[id].Aborted() && l.key in w.store.executions
             && w.store.executions[l.key].record.phase.Running?
             && w.store.executions[l.key].dispatchStartedAt.None?
          then && w2.workers[id].pc == RunEnterAdapter(l) && w2.log == w.log + [MarkerWon(id, l.key)]
               && l.key in w2.store.executions
               && w2.store.executions[l.key].dispatchStartedAt == Some(c.now)
          else w2.workers[id].pc.RunInnerCatch? && w2.store == w.store && w2.log == w.log)
  {
  }

  lemma EnterGoesOn(w: World, id: nat, c: Choice)
    requires id in w.workers && w.workers[id].pc.RunEnterAdapter? && !c.fails
    ensures
      var l, w2 := w.workers[id].pc.l, Advance(w, id, c);
      && id in w2.workers && w2.workers[id].process == w.workers[id].process
      && w2.workers[id].pc == RunInAdapter(l.(dispatchAttempted := true))
      && w2.log == w.log + [AdapterEntered(id, l.key)]
  {
  }

  /** A dispatch that nothing stops succeeds: a run is about to set its marker; its turn comes while it is not
      aborted and its row is running without a marker; the adapter does not fail. Then, whatever the others do in
      between, its four turns win the marker, enter the adapter and record its answer, unless the execution was
      made terminal before the last of them. */
  lemma DispatchSucceeds(actions: seq<Action>, id: nat, mark: Turn, enter: Turn, answer: Turn, store: Turn)
    requires id in Run(actions).workers && Run(actions).workers[id].pc.RunMarkDispatch?
    requires
      var process := Run(actions).workers[id].process;
      && Undisturbed(mark.others, id, process) && Undisturbed(enter.others, id, process)
      && Undisturbed(answer.others, id, process) && Undisturbed(store.others, id, process)
    requires !enter.choice.fails && !answer.choice.fails
    requires
      var k, v := Run(actions).workers[id].pc.l.key, Run(TurnStart(actions, mark));
      && id in v.workers && !v.workers[id].Aborted()
      && k in v.store.executions && v.store.executions[k].record.phase.Running?
      && v.store.executions[k].dispatchStartedAt.None?
    ensures
      var l := Run(actions).workers[id].pc.l;
      var entered := TurnEnd(TurnEnd(actions, id, mark), id, enter);
      var answered := TurnEnd(entered, id, answer);
      var v, w := Run(TurnStart(answered, store)), Run(TurnEnd(answered, id, store));
      && MarkerWon(id, l.key) in Run(entered).log && AdapterEntered(id, l.key) in Run(entered).log
      && l.key in v.store.executions && l.key in w.store.executions
      && var before, after := v.store.executions[l.key], w.store.executions[l.key];
      if before.record.Terminal() then after == before
      else after.record.phase
           == Phase.Succeeded(store.choice.now, Max(0, store.choice.now - l.startedAt), answer.choice.text)
  {
    hide Inv, Run, Advance, Extends, TurnStart, TurnEnd;
    TurnSteps(actions, id, mark);
    MarkGoesOn(Run(TurnStart(actions, mark)), id, mark.choice);
    var marked := TurnEnd(actions, id, mark);
    assert MarkerWon(id, Run(actions).workers[id].pc.l.key) in Run(marked).log;
    TurnSteps(marked, id, enter);
    EnterGoesOn(Run(TurnStart(marked, enter)), id, enter.choice);
    AnswerIsRecorded(TurnEnd(marked, id, enter), id, answer, store);
  }

  // --------------------------------------------- From a request to the marker

  /** What a run works with: its execution, its own copy of the record, and the moment from which it counts. */
  predicate RunsFor(l: RunLocals, k: ExecutionKey, pending: ExecutionRecord, startedAt: Timestamp) {
    l.key == k && l.pending == pending && l.startedAt == startedAt
  }

  lemma AcquireGoesOn(w: World, id: nat, c: Choice)
    requires id in w.workers && w.workers[id].pc.RunAcquire? && !c.fails && !w.workers[id].Aborted()
    ensures
      var l, w2 := w.workers[id].pc.l, Advance(w, id, c);
      && id in w2.workers && w2.workers[id].process == w.workers[id].process && w2.store == w.store
      && (if l.pending.phase.Pending?
          then w2.workers[id].pc.RunMarkRunning? && RunsFor(w2.workers[id].pc.l, l.key, l.pending, c.now)
          else && w2.workers[id].pc.RunResolveCredential?
               && RunsFor(w2.workers[id].pc.l, l.key, l.pending,
                          if l.pending.phase.Running? then l.pending.startedAt.GetOr(l.pending.identity.createdAt)
                          else c.now))
  {
  }

  lemma RunningLocals(w: World, id: nat)
    requires Inv(w) && id in w.workers && w.workers[id].pc.RunMarkRunning?
    ensures
      var l := w.workers[id].pc.l;
      && l.key in w.store.executions
      && l.key == ExecutionKey(l.key.projectId, l.pending.identity.executionId)
      && l.pending.identity == w.store.executions[l.key].record.identity
  {
    hide Valid, MarkersInv, EntriesInv, OutcomesInv, EffectsInv, FinalizedInv, AdmissionsInv;
    MyHeld(w, id);
    LocalsKey(w.store, w.workers[id].pc.l);
  }

  lemma PendingStarts(s: Store, key: ExecutionKey, record: ExecutionRecord)
    requires key in s.executions && key.executionId == record.identity.executionId && !record.replayed
    requires record.identity == s.executions[key].record.identity && record.phase.Running?
    requires s.executions[key].record.phase.Pending?
    ensures
      var (t, rejected) := Update(s, key.projectId, record);
      rejected.None? && key in t.executions && t.executions[key] == s.executions[key].(record := record)
  {
  }

  lemma StartGoesOn(w: World, id: nat, c: Choice)
    requires Inv(w) && id in w.workers && w.workers[id].pc.RunMarkRunning?
    requires
      var k := w.workers[id].pc.l.key;
      k in w.store.executions && w.store.executions[k].record.phase.Pending?
    ensures
      var l, w2 := w.workers[id].pc.l, Advance(w, id, c);
      && id in w2.workers && w2.workers[id].process == w.workers[id].process
      && w2.workers[id].pc == RunResolveCredential(l)
      && l.key in w2.store.executions
      && w2.store.executions[l.key]
         == w.store.executions[l.key].(record := RunRecord(l, Phase.Running))
  {
    hide Inv, Update, FailureOf;
    RunningLocals(w, id);
    PendingStarts(w.store, w.workers[id].pc.l.key, RunRecord(w.workers[id].pc.l, Phase.Running));
  }

  lemma CredentialGoesOn(w: World, id: nat, c: Choice)
    requires id in w.workers && w.workers[id].pc.RunResolveCredential? && !c.fails
    ensures
      var w2 := Advance(w, id, c);
      && id in w2.workers && w2.workers[id].process == w.workers[id].process
      && w2.workers[id].pc == RunSetConnection(w.workers[id].pc.l)
  {
  }

  lemma ConnectionLocals(w: World, id: nat)
    requires Inv(w) && id in w.workers && w.workers[id].pc.RunSetConnection?
    ensures w.workers[id].pc.l.key in w.store.executions
  {
    hide Valid, MarkersInv, EntriesInv, OutcomesInv, EffectsInv, FinalizedInv, AdmissionsInv;
    MyHeld(w, id);
  }

  lemma ConnectionIsSet(s: Store, key: ExecutionKey, connection: Option<string>)
    requires key in s.executions
    ensures
      var (t, error) := SetResolvedConnection(s, key, connection);
      && error.None? && key in t.executions
      && t.executions[key] == s.executions[key].(resolvedConnectionId := connection)
  {
  }

  lemma ConnectionGoesOn(w: World, id: nat, c: Choice)
    requires Inv(w) && id in w.workers && w.workers[id].pc.RunSetConnection? && !c.fails
    ensures
      var l, w2 := w.workers[id].pc.l, Advance(w, id, c);
      && id in w2.workers && w2.workers[id].process == w.workers[id].process
      && w2.workers[id].pc == RunMarkDispatch(l)
      && l.key in w.store.executions && l.key in w2.store.executions
      && w2.store.executions[l.key] == w.store.executions[l.key].(resolvedConnectionId := c.connection)
  {
    hide Inv, SetResolvedConnection;
    ConnectionLocals(w, id);
    ConnectionIsSet(w.store, w.workers[id].pc.l.key, c.connection);
  }

  /** A run with a slot and a credential goes on to its marker: two turns from the credential, whatever the others
      do, the connection is stored in the row and the run is about to set its marker. */
  lemma CredentialLeadsToMarker(actions: seq<Action>, id: nat, credential: Turn, connection: Turn)
    requires id in Run(actions).workers && Run(actions).workers[id].pc.RunResolveCredential?
    requires
      var process := Run(actions).workers[id].process;
      Undisturbed(credential.others, id, process) && Undisturbed(connection.others, id, process)
    requires !credential.choice.fails && !connection.choice.fails
    ensures
      var w := Run(TurnEnd(TurnEnd(actions, id, credential), id, connection));
      && id in w.workers && w.workers[id].pc == RunMarkDispatch(Run(actions).workers[id].pc.l)
      && Run(actions).workers[id].pc.l.key in w.store.executions
      && w.store.executions[Run(actions).workers[id].pc.l.key].resolvedConnectionId == connection.choice.connection
  {
    hide Inv, Run, Advance, Extends, TurnStart, TurnEnd;
    TurnSteps(actions, id, credential);
    CredentialGoesOn(Run(TurnStart(actions, credential)), id, credential.choice);
    var resolved := TurnEnd(actions, id, credential);
    TurnSteps(resolved, id, connection);
    ConnectionGoesOn(Run(TurnStart(resolved, connection)), id, connection.choice);
  }

  /** A new run starts: it gets its slot while it is not aborted, and finds its row pending in its next turn. Then
      the row is running, started at the moment the slot was got, and the run goes on to its credential. */
  lemma NewRunStarts(actions: seq<Action>, id: nat, slot: Turn, start: Turn)
    requires id in Run(actions).workers && Run(actions).workers[id].pc.RunAcquire?
    requires Run(actions).workers[id].pc.l.pending.phase.Pending?
    requires
      var process := Run(actions).workers[id].process;
      Undisturbed(slot.others, id, process) && Undisturbed(start.others, id, process)
    requires !slot.choice.fails && id in Run(TurnStart(actions, slot)).workers
    requires !Run(TurnStart(actions, slot)).workers[id].Aborted()
    requires
      var k, v := Run(actions).workers[id].pc.l.key, Run(TurnStart(TurnEnd(actions, id, slot), start));
      k in v.store.executions && v.store.executions[k].record.phase.Pending?
    ensures
      var l, w := Run(actions).workers[id].pc.l, Run(TurnEnd(TurnEnd(actions, id, slot), id, start));
      && id in w.workers && w.workers[id].pc.RunResolveCredential?
      && RunsFor(w.workers[id].pc.l, l.key, l.pending, slot.choice.now)
      && l.key in w.store.executions
      && w.store.executions[l.key].record.phase.Running?
      && w.store.executions[l.key].record.startedAt == Some(slot.choice.now)
  {
    hide Inv, Run, Advance, Extends, TurnStart, TurnEnd;
    TurnSteps(actions, id, slot);
    AcquireGoesOn(Run(TurnStart(actions, slot)), id, slot.choice);
    var acquired := TurnEnd(actions, id, slot);
    TurnSteps(acquired, id, start);
    StartGoesOn(Run(TurnStart(acquired, start)), id, start.choice);
  }

  // -------------------------------------------------------------- Giving up

  lemma OuterGoesOn(w: World, id: nat, c: Choice)
    requires id in w.workers && w.workers[id].pc.RunOuterCatch?
    requires
      var k := w.workers[id].pc.l.key;
      k in w.store.executions ==> !w.store.executions[k].record.phase.Cancelled?
    ensures
      var w2 := Advance(w, id, c);
      && id in w2.workers && w2.workers[id].process == w.workers[id].process
      && w2.workers[id].pc == RunRelease(w.workers[id].pc.l) && w2.log == w.log
  {
  }

  lemma ReleaseGoesOn(w: World, id: nat, c: Choice)
    requires id in w.workers && w.workers[id].pc.RunRelease?
    ensures
      var l := w.workers[id].pc.l;
      Advance(w, id, c).log
      == w.log + if l.usageReservation.Some? && !l.dispatchAttempted && !l.dispatchFenced && !l.usageFinalized
                 then [ReservationReleased(id, l.key)] else []
  {
  }

  /** A run that gives up without having been cancelled releases its reservation exactly when it never reached for
      the adapter, was not fenced off by another dispatch, and had not settled its usage otherwise. */
  lemma GivenUpRunReleases(actions: seq<Action>, id: nat, outer: Turn, release: Turn)
    requires id in Run(actions).workers && Run(actions).workers[id].pc.RunOuterCatch?
    requires
      var process := Run(actions).workers[id].process;
      Undisturbed(outer.others, id, process) && Undisturbed(release.others, id, process)
    requires
      var k, rows := Run(actions).workers[id].pc.l.key, Run(TurnStart(actions, outer)).store.executions;
      k in rows ==> !rows[k].record.phase.Cancelled?
    ensures
      var l, caught := Run(actions).workers[id].pc.l, TurnEnd(actions, id, outer);
      Run(TurnEnd(caught, id, release)).log
      == Run(TurnStart(caught, release)).log
         + if l.usageReservation.Some? && !l.dispatchAttempted && !l.dispatchFenced && !l.usageFinalized
           then [ReservationReleased(id, l.key)] else []
  {
    hide Inv, Run, Advance, Extends, TurnStart, TurnEnd;
    TurnSteps(actions, id, outer);
    OuterGoesOn(Run(TurnStart(actions, outer)), id, outer.choice);
    var caught := TurnEnd(actions, id, outer);
    TurnSteps(caught, id, release);
    ReleaseGoesOn(Run(TurnStart(caught, release)), id, release.choice);
  }
}
