// Where a recorded success comes from: the output of a succeeded execution is
// what an adapter answered, in a step of the very worker that had entered it.
module EngineAnswers {
  import opened Wrappers
  import opened JavaScript
  import opened ExecutionRecords
  import opened ExecutionStore
  import opened ExecutionEngine
  import opened EngineMoves
  import opened EngineInvariants
  import opened EngineSteps
  import opened EngineTheorems
  import opened EngineHistory
  import opened EngineEffects

  /** What an adapter has answered: for which execution, and with which text. */
  type Answers = set<(ExecutionKey, string)>

  /** The answer that an action gives a worker in its adapter, if it gives one. */
  function AnswerIn(w: World, action: Action): Answers {
    if action.Go? && action.worker in w.workers && w.workers[action.worker].pc.RunInAdapter? && !action.choice.fails
    then {(w.workers[action.worker].pc.l.key, action.choice.text)}
    else {}
  }

  function AnswersOf(actions: seq<Action>): Answers {
    if actions == [] then {}
    else
      var before := actions[..|actions| - 1];
      AnswersOf(before) + AnswerIn(Run(before), actions[|actions| - 1])
  }

  predicate PcExplained(pc: Pc, answers: Answers) {
    pc.RunPersistSuccess? ==> (pc.l.key, pc.output) in answers
  }

  predicate RowExplained(k: ExecutionKey, row: StoredExecution, answers: Answers) {
    row.record.phase.Succeeded? ==> (k, row.record.phase.output) in answers
  }

  ghost predicate Explained(w: World, answers: Answers) {
    && (forall j <- w.workers :: PcExplained(w.workers[j].pc, answers))
    && (forall k <- w.store.executions :: RowExplained(k, w.store.executions[k], answers))
  }

  /** A step of one worker that stores no success. */
  lemma MoveExplained(w: World, w2: World, id: nat, answers: Answers)
    requires id in w.workers && Explained(w, answers) && MovesOne(w, w2, id)
    requires SameOutcomes(w.store, w2.store) && PcExplained(w2.workers[id].pc, answers)
    ensures Explained(w2, answers)
  {
    hide Arrives, CommandOf, Quitting, Owned;
  }

  /** A step that marks an effect in one row changes no record. */
  lemma EffectExplained(w: World, w2: World, id: nat, answers: Answers)
    requires id in w.workers && Explained(w, answers) && MovesOne(w, w2, id) && PcExplained(w2.workers[id].pc, answers)
    requires forall k <- w2.store.executions ::
               k in w.store.executions && w2.store.executions[k].record == w.store.executions[k].record
    ensures Explained(w2, answers)
  {
    hide Arrives, CommandOf, Quitting, Owned, SameOutcomes;
  }

  lemma EffectsKeepRecords(w: World, id: nat, c: Choice)
    requires id in w.workers && (w.workers[id].pc.ReconFinalize? || w.workers[id].pc.ReconPublish?)
    ensures
      var w2 := AdvanceReconcile(w, id, c);
      && id in w2.workers && !w2.workers[id].pc.RunPersistSuccess?
      && forall k <- w2.store.executions ::
           k in w.store.executions && w2.store.executions[k].record == w.store.executions[k].record
  {
  }

  lemma SuccessExplained(w: World, id: nat, c: Choice, answers: Answers)
    requires Valid(w.store) && WorkersInv(w) && Explained(w, answers)
    requires id in w.workers && w.workers[id].pc.RunPersistSuccess?
    ensures Explained(AdvanceRun(w, id, c), answers)
  {
    hide Update, RunInput, FailureOf, Valid, WorkersInv;
    PersistLocals(w, id);
    var l, output := w.workers[id].pc.l, w.workers[id].pc.output;
    var record := RunRecord(l, Phase.Succeeded(c.now, Max(0, c.now - l.startedAt), output));
    UpdateChange(w.store, l.key, record);
    assert PcExplained(w.workers[id].pc, answers);
  }

  lemma AllocateExplained(w: World, id: nat, c: Choice, answers: Answers)
    requires id in w.workers && w.workers[id].pc.ExecAllocate? && Explained(w, answers)
    ensures Explained(AdvanceExecute(w, id, c), answers)
  {
    hide AdvanceExecute, Allocate, FullAllocation;
    var pc, w2 := w.workers[id].pc, AdvanceExecute(w, id, c);
    var a := FullAllocation(pc.cmd, pc.report, pc.reservation, c.text);
    AllocateShape(w, id, c);
    AllocateArrives(w, id, c);
    PendingIsAdded(w.store, a);
  }

  lemma AllocateArrives(w: World, id: nat, c: Choice)
    requires id in w.workers && w.workers[id].pc.ExecAllocate?
    ensures id in AdvanceExecute(w, id, c).workers
    ensures !AdvanceExecute(w, id, c).workers[id].pc.RunPersistSuccess?
  {
    hide Allocate, ScopeOf, FullAllocation, Locals;
  }

  lemma PendingIsAdded(s: Store, a: Allocation)
    ensures
      var t := Allocate(s, a).0;
      forall k <- t.executions ::
        (k in s.executions && t.executions[k] == s.executions[k]) || t.executions[k].record.phase.Pending?
  {
  }

  lemma AnswerExplained(w: World, id: nat, c: Choice, answers: Answers)
    requires id in w.workers && w.workers[id].pc.RunInAdapter?
    requires AnswerIn(w, Go(id, c)) <= answers
    ensures
      var w2 := AdvanceRun(w, id, c);
      id in w2.workers && PcExplained(w2.workers[id].pc, answers)
  {
  }

  /** Steps that leave the store alone and let nobody arrive where an answer is stored. */
  lemma StillExplained(w: World, w2: World, answers: Answers)
    requires Explained(w, answers) && w2.store == w.store
    requires forall j <- w2.workers ::
               (j in w.workers && w2.workers[j].pc == w.workers[j].pc) || !w2.workers[j].pc.RunPersistSuccess?
    ensures Explained(w2, answers)
  {
  }

  lemma AbortExplained(w: World, id: nat, c: Choice, answers: Answers)
    requires id in w.workers && w.workers[id].pc.CancelAbort? && Explained(w, answers)
    ensures Explained(AdvanceOther(w, id, c), answers)
  {
    hide Explained, RunKey;
    StillExplained(w, AdvanceOther(w, id, c), answers);
  }

  lemma StartExplained(w: World, id: nat, c: Choice, answers: Answers)
    requires id in w.workers && w.workers[id].pc.StartReconcile? && Explained(w, answers)
    ensures Explained(AdvanceReconcile(w, id, c), answers)
  {
    hide Explained;
    StillExplained(w, AdvanceReconcile(w, id, c), answers);
  }

  lemma NoSuccessArrives(w: World, w2: World, id: nat, answers: Answers)
    requires id in w.workers && MovesOne(w, w2, id) && !w.workers[id].pc.RunInAdapter?
    ensures id in w2.workers && PcExplained(w2.workers[id].pc, answers)
  {
    hide CommandOf, Quitting, Owned, SameOutcomes;
  }

  lemma AdvanceExplained(w: World, id: nat, c: Choice, answers: Answers)
    requires Inv(w) && id in w.workers && Explained(w, answers) && AnswerIn(w, Go(id, c)) <= answers
    ensures Explained(Advance(w, id, c), answers)
  {
    hide Valid, MarkersInv, EntriesInv, OutcomesInv, EffectsInv, FinalizedInv, AdmissionsInv, WorkersInv;
    hide AdvanceExecute, AdvanceJob, AdvanceRun, AdvanceOther, AdvanceReconcile, Explained, PcExplained, AnswerIn;
    hide SameOutcomes, Arrives, CommandOf, Quitting, Owned;
    var pc, w2 := w.workers[id].pc, Advance(w, id, c);
    if pc.ExecAllocate? {
      AllocateExplained(w, id, c, answers);
    } else if pc.CancelAbort? {
      AbortExplained(w, id, c, answers);
    } else if pc.StartReconcile? {
      StartExplained(w, id, c, answers);
    } else if pc.RunPersistSuccess? {
      SuccessExplained(w, id, c, answers);
    } else {
      AdvanceMoves(w, id, c);
      if w2 != w {
        if pc.RunInAdapter? {
          AnswerExplained(w, id, c, answers);
          MoveExplained(w, w2, id, answers);
        } else {
          NoSuccessArrives(w, w2, id, answers);
          if pc.ReconFinalize? || pc.ReconPublish? {
            EffectsKeepRecords(w, id, c);
            EffectExplained(w, w2, id, answers);
          } else {
            MoveExplained(w, w2, id, answers);
          }
        }
      }
    }
  }

  lemma StepExplained(w: World, action: Action, answers: Answers)
    requires Inv(w) && Explained(w, answers) && AnswerIn(w, action) <= answers
    ensures Explained(Step(w, action), answers)
  {
    hide Inv, Explained, Advance, AnswerIn;
    if action.Go? && action.worker in w.workers {
      AdvanceExplained(w, action.worker, action.choice, answers);
    } else {
      StillExplained(w, Step(w, action), answers);
    }
  }

  lemma MoreExplained(w: World, answers: Answers, more: Answers)
    requires Explained(w, answers) && answers <= more
    ensures Explained(w, more)
  {
  }

  lemma {:induction false} RunExplained(actions: seq<Action>)
    ensures Explained(Run(actions), AnswersOf(actions))
  {
    hide Inv, Step, Explained, AnswerIn;
    if actions == [] {
      NothingToExplain();
    } else {
      var before, action := actions[..|actions| - 1], actions[|actions| - 1];
      RunExplained(before);
      RunInv(before);
      MoreExplained(Run(before), AnswersOf(before), AnswersOf(actions));
      StepExplained(Run(before), action, AnswersOf(actions));
    }
  }

  lemma NothingToExplain()
    ensures Explained(INITIAL, {})
  {
  }

  /** Which action of the run gave an answer. */
  lemma {:induction false} AnswerHasAction(actions: seq<Action>, k: ExecutionKey, output: string) returns (n: nat)
    requires (k, output) in AnswersOf(actions)
    ensures n < |actions| && (k, output) in AnswerIn(Run(actions[..n]), actions[n])
  {
    hide Run, AnswerIn;
    var last := |actions| - 1;
    if (k, output) in AnswerIn(Run(actions[..last]), actions[last]) {
      n := last;
    } else {
      n := AnswerHasAction(actions[..last], k, output);
      assert actions[..last][..n] == actions[..n];
    }
  }

  /** In every run the output of a succeeded execution is what an adapter answered: some action of the run let a
      worker that had entered the adapter of this execution get exactly this text. */
  lemma SuccessIsAnAnswer(actions: seq<Action>, k: ExecutionKey) returns (n: nat)
    requires k in Run(actions).store.executions && Run(actions).store.executions[k].record.phase.Succeeded?
    ensures n < |actions| && actions[n].Go? && !actions[n].choice.fails
    ensures actions[n].choice.text == Run(actions).store.executions[k].record.phase.output
    ensures
      var w, id := Run(actions[..n]), actions[n].worker;
      && id in w.workers && w.workers[id].pc.RunInAdapter? && w.workers[id].pc.l.key == k
      && AdapterEntered(id, k) in w.log
  {
    hide Run, Inv;
    RunExplained(actions);
    assert RowExplained(k, Run(actions).store.executions[k], AnswersOf(actions));
    n := AnswerHasAction(actions, k, Run(actions).store.executions[k].record.phase.output);
    RunInv(actions[..n]);
    InAdapterEntered(Run(actions[..n]), actions[n].worker);
  }

  lemma InAdapterEntered(w: World, id: nat)
    requires Inv(w) && id in w.workers && w.workers[id].pc.RunInAdapter?
    ensures AdapterEntered(id, w.workers[id].pc.l.key) in w.log
  {
    hide Valid, MarkersInv, EntriesInv, OutcomesInv, EffectsInv, FinalizedInv, AdmissionsInv;
    MyHeld(w, id);
  }
}
