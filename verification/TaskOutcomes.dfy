// What a client may conclude from a task, said with the execution's own record
// and with no function of the gateway: the status, the progress and the message
// of every stored and every in-flight task, in every interleaving.
module TaskOutcomes {
  import opened Wrappers
  import opened ExecutionRecords
  import E = ExecutionStore
  import R = StoreRuns
  import opened TaskMerge

  const AFTER_DISPATCH :=
    "Execution cancelled after provider dispatch may have begun; cancellation is best effort and upstream work may still complete."
  const BEFORE_DISPATCH := "Execution cancelled before provider dispatch."

  /** The task tells that the execution is finished, and how. */
  predicate TellsOutcome(task: Task, phase: Phase) {
    && task.progress == 2
    && match phase
       case Succeeded(_, _, _) => task.status.Completed? && task.statusMessage == "Execution completed."
       case Failed(_, _, error) => task.status.TaskFailed? && task.statusMessage == error.message
       case Cancelled(_, _, _, began) =>
         task.status.TaskCancelled? && task.statusMessage == if began then AFTER_DISPATCH else BEFORE_DISPATCH
       case _ => false
  }

  /** The task is still working: it tells a stage that the execution has reached, and possibly left. */
  predicate TellsStage(task: Task, phase: Phase) {
    && task.status.Working?
    && (|| (task.progress == 0 && task.statusMessage == "Execution queued.")
        || (task.progress == 1 && task.statusMessage == "Execution running." && !phase.Pending?))
  }

  predicate Truthful(task: Task, phase: Phase) {
    TellsOutcome(task, phase) || TellsStage(task, phase)
  }

  /** What the task is when it was made from exactly this phase. */
  predicate TellsPhase(task: Task, phase: Phase) {
    match phase
    case Pending => TellsStage(task, phase) && task.progress == 0
    case Running => TellsStage(task, phase) && task.progress == 1
    case _ => TellsOutcome(task, phase)
  }

  lemma FaithfulIsTruthful(projects: Projects, store: E.Store, authBinding: string, task: Task)
    requires Faithful(projects, store, authBinding, task)
    ensures
      var key := KeyOf(projects, authBinding, task.taskId);
      key in store.executions && Truthful(task, store.executions[key].record.phase)
  {
  }

  /** In every interleaving, from an empty gateway over any execution store: a stored or in-flight task is
      completed only if its execution succeeded, failed only if it failed and then with the error's own message,
      cancelled only if it was cancelled and then with what the record says about dispatch; and a working task
      tells a stage that the execution has reached. */
  lemma TasksAreTruthful(projects: Projects, store: E.Store, steps: seq<Step>)
    requires E.Valid(store)
    ensures
      var w := Run(projects, World(store, map[], [], []), steps);
      && (forall sid <- w.sessions :: forall id <- w.sessions[sid].tasks ::
            var key := KeyOf(projects, w.sessions[sid].authBinding, id);
            key in w.store.executions && Truthful(w.sessions[sid].tasks[id], PhaseOf(w, key)))
      && (forall op <- w.ops ::
            var key := KeyOf(projects, op.authBinding, op.task.taskId);
            key in w.store.executions && Truthful(op.task, PhaseOf(w, key)))
  {
    hide E.Valid, Faithful, Truthful, Next;
    var start := World(store, map[], [], []);
    InitialInv(projects, store);
    RunKeeps(projects, start, steps);
    var w := Run(projects, start, steps);
    forall authBinding: string, task: Task | Faithful(projects, w.store, authBinding, task)
      ensures KeyOf(projects, authBinding, task.taskId) in w.store.executions
      ensures Truthful(task, PhaseOf(w, KeyOf(projects, authBinding, task.taskId)))
    {
      FaithfulIsTruthful(projects, w.store, authBinding, task);
    }
  }

  // ------------------------------------------------------- What is observed

  /** The request that a step leaves behind, ready to save. */
  predicate Observed(w: World, next: World, sessionId: string, authBinding: string, taskId: string, phase: Phase) {
    && |next.ops| == |w.ops| + 1 && next.ops[..|w.ops|] == w.ops
    && next.sessions == w.sessions
    && var op := next.ops[|w.ops|];
    && op.Ready? && op.sessionId == sessionId && op.authBinding == authBinding && op.task.taskId == taskId
    && TellsPhase(op.task, phase)
  }

  /** A started task tells the phase that its execution was created in, or has reached meanwhile. */
  lemma BeginObserves(projects: Projects, w: World, step: Step)
    requires step.Begin? && KeyOf(projects, step.authBinding, step.taskId) in w.store.executions
    ensures
      var phase := PhaseOf(w, KeyOf(projects, step.authBinding, step.taskId));
      Observed(w, Next(projects, w, step), step.sessionId, step.authBinding, step.taskId, phase)
  {
  }

  /** A poll of an execution that has moved on observes its phase; one of an execution that has not moved, or of
      a finished task, observes nothing. */
  lemma RefreshObserves(projects: Projects, w: World, i: nat, now: Timestamp)
    requires Inv(projects, w) && i < |w.ops| && w.ops[i].Holding?
    ensures
      var op, next := w.ops[i], Next(projects, w, Refresh(i, now));
      var key := KeyOf(projects, op.authBinding, op.task.taskId);
      && key in w.store.executions
      && if TellsPhase(op.task, PhaseOf(w, key)) then next == w
         else Observed(w, next, op.sessionId, op.authBinding, op.task.taskId, PhaseOf(w, key))
  {
    hide E.Valid, SessionsInv;
    assert Faithful(projects, w.store, w.ops[i].authBinding, w.ops[i].task);
  }

  /** What a cancellation leaves of an execution. */
  lemma CancelSettles(store: E.Store, key: E.ExecutionKey, now: Timestamp)
    requires key in store.executions
    ensures
      var after := R.Apply(store, R.CallCancel(key, now));
      && key in after.executions && after.executions[key].record.Terminal()
      && var row, phase := store.executions[key], after.executions[key].record.phase;
      if row.record.phase.Pending? || row.record.phase.Running?
      then phase.Cancelled? && phase.dispatchMayHaveBegun == row.dispatchStartedAt.Some?
      else phase == row.record.phase
  {
    hide CancelledExecutionRecord, AssertExecutionTransition, E.Deliveries;
    var row := store.executions[key];
    if !row.record.Terminal() {
      CancellationIsAccepted(row.record, now, row.dispatchStartedAt);
      CancellationTells(row.record, now, row.dispatchStartedAt);
    }
  }

  /** A cancellation of an unfinished task leaves its execution finished and observes the outcome: cancelled if
      the execution was not finished before, with the truth about its dispatch marker, and otherwise what it was. */
  lemma CancelObserves(projects: Projects, w: World, i: nat, now: Timestamp)
    requires Inv(projects, w) && i < |w.ops| && w.ops[i].Holding? && w.ops[i].task.status.Working?
    ensures
      var op, next := w.ops[i], Next(projects, w, TaskMerge.Cancel(i, now));
      var key := KeyOf(projects, op.authBinding, op.task.taskId);
      && key in w.store.executions && key in next.store.executions
      && var row, phase := w.store.executions[key], PhaseOf(next, key);
      && Observed(w, next, op.sessionId, op.authBinding, op.task.taskId, phase)
      && (if row.record.phase.Pending? || row.record.phase.Running?
          then phase.Cancelled? && phase.dispatchMayHaveBegun == row.dispatchStartedAt.Some?
          else phase == row.record.phase)
  {
    hide E.Valid, SessionsInv, R.Apply;
    assert Faithful(projects, w.store, w.ops[i].authBinding, w.ops[i].task);
    CancelSettles(w.store, KeyOf(projects, w.ops[i].authBinding, w.ops[i].task.taskId), now);
  }

  // ------------------------------------------- From an observation to a task

  lemma NextGrowsOps(projects: Projects, w: World, step: Step)
    ensures w.ops <= Next(projects, w, step).ops
  {
    hide R.Apply, SaveTask, ObservedTask, StartedTask;
  }

  lemma {:induction false} OpsGrow(projects: Projects, w: World, steps: seq<Step>)
    ensures w.ops <= Run(projects, w, steps).ops
    decreases |steps|
  {
    hide Next;
    if steps != [] {
      NextGrowsOps(projects, w, steps[0]);
      OpsGrow(projects, Next(projects, w, steps[0]), steps[1..]);
    }
  }

  /** A save leaves a stored task that is at least as far along as the saved one. */
  lemma SavedIsAsFar(projects: Projects, w: World, op: Op)
    requires Inv(projects, w) && op in w.ops
    requires op.sessionId in w.sessions && w.sessions[op.sessionId].authBinding == op.authBinding
    ensures
      var end := SaveStep(w, op);
      && Stored(end, op.sessionId, op.task.taskId)
      && op.task.executionStatus.Rank() <= TaskAt(end, op.sessionId, op.task.taskId).executionStatus.Rank()
  {
    assert Faithful(projects, w.store, op.authBinding, op.task);
    SaveEffect(w.sessions, op.sessionId, op.authBinding, op.task);
    var current := Lookup(w.sessions[op.sessionId], op.task.taskId);
    if current.Some? {
      assert Faithful(projects, w.store, op.authBinding, current.value);
    }
    PrefersHigherRank(current, op.task);
    hide E.Valid, SaveTask, PrefersCandidate;
  }

  /** The stored task of a binding is faithful. */
  lemma StoredIsFaithful(projects: Projects, w: World, sessionId: string, taskId: string)
    requires Inv(projects, w) && Stored(w, sessionId, taskId)
    ensures
      var task := TaskAt(w, sessionId, taskId);
      task.taskId == taskId && Faithful(projects, w.store, w.sessions[sessionId].authBinding, task)
  {
    hide E.Valid, OpsInv, Faithful;
  }

  lemma FaithfulProgress(projects: Projects, store: E.Store, authBinding: string, task: Task)
    requires Faithful(projects, store, authBinding, task)
    ensures task.progress == task.executionStatus.Rank() && (TerminalTask(task) <==> task.progress == 2)
  {
  }

  /** Once a request has been saved into its session, and for as long as the task stays stored, the stored task
      is at least as far along as the saved one, and it tells the outcome if the saved one did. */
  lemma SaveIsTold(projects: Projects, w: World, i: nat, after: seq<Step>)
    requires Inv(projects, w) && i < |w.ops| && w.ops[i].Ready?
    requires w.ops[i].sessionId in w.sessions
          && w.sessions[w.ops[i].sessionId].authBinding == w.ops[i].authBinding
    requires StaysStored(projects, Next(projects, w, Save(i)), after, w.ops[i].sessionId, w.ops[i].task.taskId)
    ensures
      var op := w.ops[i];
      var key := KeyOf(projects, op.authBinding, op.task.taskId);
      var end := Run(projects, Next(projects, w, Save(i)), after);
      && Stored(end, op.sessionId, op.task.taskId)
      && var task := TaskAt(end, op.sessionId, op.task.taskId);
      && op.task.progress <= task.progress
      && key in w.store.executions
      && (op.task.progress == 2 ==> TellsOutcome(task, PhaseOf(w, key)))
  {
    hide Inv, StaysStored, SaveTask, Faithful, TellsOutcome, TerminalTask;
    var op, saved := w.ops[i], Next(projects, w, Save(i));
    var end := Run(projects, saved, after);
    OpIsFaithful(projects, w, i);
    FaithfulProgress(projects, w.store, op.authBinding, op.task);
    SavedIsAsFar(projects, w, op);
    SaveEffect(w.sessions, op.sessionId, op.authBinding, op.task);
    NextKeeps(projects, w, Save(i));
    StoredIsFaithful(projects, saved, op.sessionId, op.task.taskId);
    FaithfulProgress(projects, w.store, op.authBinding, TaskAt(saved, op.sessionId, op.task.taskId));
    FaithfulTells(projects, w.store, op.authBinding, TaskAt(saved, op.sessionId, op.task.taskId));
    TaskIsMonotone(projects, saved, after, op.sessionId, op.task.taskId);
    RunKeeps(projects, saved, after);
    StoredIsFaithful(projects, end, op.sessionId, op.task.taskId);
    FaithfulProgress(
      projects, end.store, end.sessions[op.sessionId].authBinding, TaskAt(end, op.sessionId, op.task.taskId));
  }

  lemma FaithfulTells(projects: Projects, store: E.Store, authBinding: string, task: Task)
    requires Faithful(projects, store, authBinding, task)
    ensures KeyOf(projects, authBinding, task.taskId) in store.executions
    ensures task.progress == 2 ==>
              TellsOutcome(task, store.executions[KeyOf(projects, authBinding, task.taskId)].record.phase)
  {
  }

  /** The phase that a step observed, told by the stored task from the moment its request is saved, whatever
      happens between the observation and the save and whatever happens after. */
  ghost predicate IsTold(projects: Projects, end: World, op: Op, phase: Phase) {
    && Stored(end, op.sessionId, op.task.taskId)
    && var task := TaskAt(end, op.sessionId, op.task.taskId);
    match phase
    case Pending => true
    case Running => task.progress >= 1
    case _ => TellsOutcome(task, phase)
  }

  /** In every interleaving: what a poll or a cancellation saw of an execution is what the stored task tells from
      the moment its request is saved. The save may come arbitrarily late; the session must still be there then,
      and the task must not expire afterwards. */
  lemma ObservationIsTold(
    projects: Projects, w: World, step: Step, i: nat, phase: Phase, middle: seq<Step>, after: seq<Step>)
    requires Inv(projects, w) && i < |w.ops|
    requires var op := w.ops[i];
             && Observed(w, Next(projects, w, step), op.sessionId, op.authBinding, op.task.taskId, phase)
             && KeyOf(projects, op.authBinding, op.task.taskId) in Next(projects, w, step).store.executions
             && PhaseOf(Next(projects, w, step), KeyOf(projects, op.authBinding, op.task.taskId)) == phase
    requires var op, late := w.ops[i], Run(projects, Next(projects, w, step), middle);
             && op.sessionId in late.sessions && late.sessions[op.sessionId].authBinding == op.authBinding
             && StaysStored(projects, Next(projects, late, Save(|w.ops|)), after, op.sessionId, op.task.taskId)
    ensures
      var late := Run(projects, Next(projects, w, step), middle);
      IsTold(projects, Run(projects, Next(projects, late, Save(|w.ops|)), after), w.ops[i], phase)
  {
    hide Inv, StaysStored, TellsOutcome, Next;
    var op, next, n := w.ops[i], Next(projects, w, step), |w.ops|;
    var late := Run(projects, next, middle);
    var key := KeyOf(projects, op.authBinding, op.task.taskId);
    NextKeeps(projects, w, step);
    RunKeeps(projects, next, middle);
    OpsGrow(projects, next, middle);
    assert late.ops[n] == next.ops[n];
    SaveIsTold(projects, late, n, after);
    PhaseProgress(next.ops[n].task, phase);
    if phase.StatusOf().Terminal() {
      OutcomeStays(projects, next, middle, key);
    }
  }

  lemma PhaseProgress(task: Task, phase: Phase)
    requires TellsPhase(task, phase)
    ensures task.progress == phase.StatusOf().Rank()
  {
  }

  /** A poll that finds its execution moved on, with its request saved however late: the stored task tells it. */
  lemma PollIsTold(projects: Projects, w: World, i: nat, now: Timestamp, middle: seq<Step>, after: seq<Step>)
    requires Inv(projects, w) && i < |w.ops| && w.ops[i].Holding?
    requires var key := KeyOf(projects, w.ops[i].authBinding, w.ops[i].task.taskId);
             key in w.store.executions && !TellsPhase(w.ops[i].task, PhaseOf(w, key))
    requires var op, late := w.ops[i], Run(projects, Next(projects, w, Refresh(i, now)), middle);
             && op.sessionId in late.sessions && late.sessions[op.sessionId].authBinding == op.authBinding
             && StaysStored(projects, Next(projects, late, Save(|w.ops|)), after, op.sessionId, op.task.taskId)
    ensures
      var late := Run(projects, Next(projects, w, Refresh(i, now)), middle);
      var phase := PhaseOf(w, KeyOf(projects, w.ops[i].authBinding, w.ops[i].task.taskId));
      IsTold(projects, Run(projects, Next(projects, late, Save(|w.ops|)), after), w.ops[i], phase)
  {
    hide Inv, StaysStored, TellsPhase, Observed, IsTold;
    RefreshObserves(projects, w, i, now);
    RefreshKeepsStore(projects, w, i, now);
    var phase := PhaseOf(w, KeyOf(projects, w.ops[i].authBinding, w.ops[i].task.taskId));
    ObservationIsTold(projects, w, Refresh(i, now), i, phase, middle, after);
  }

  lemma RefreshKeepsStore(projects: Projects, w: World, i: nat, now: Timestamp)
    ensures Next(projects, w, Refresh(i, now)).store == w.store
  {
  }

  /** `tasks/cancel` of an unfinished task, with its request saved however late: the stored task tells how the
      execution ended, and it says cancelled unless the execution had ended otherwise before. */
  lemma CancelIsTold(projects: Projects, w: World, i: nat, now: Timestamp, middle: seq<Step>, after: seq<Step>)
    requires Inv(projects, w) && i < |w.ops| && w.ops[i].Holding? && w.ops[i].task.status.Working?
    requires var op, late := w.ops[i], Run(projects, Next(projects, w, TaskMerge.Cancel(i, now)), middle);
             && op.sessionId in late.sessions && late.sessions[op.sessionId].authBinding == op.authBinding
             && StaysStored(projects, Next(projects, late, Save(|w.ops|)), after, op.sessionId, op.task.taskId)
    ensures
      var op, late := w.ops[i], Run(projects, Next(projects, w, TaskMerge.Cancel(i, now)), middle);
      var end := Run(projects, Next(projects, late, Save(|w.ops|)), after);
      var key := KeyOf(projects, op.authBinding, op.task.taskId);
      && key in w.store.executions
      && Stored(end, op.sessionId, op.task.taskId)
      && var task, row := TaskAt(end, op.sessionId, op.task.taskId), w.store.executions[key];
      && (if row.record.phase.Pending? || row.record.phase.Running?
          then && task.status.TaskCancelled?
               && task.statusMessage == if row.dispatchStartedAt.Some? then AFTER_DISPATCH else BEFORE_DISPATCH
          else TellsOutcome(task, row.record.phase))
  {
    hide Inv, StaysStored, Observed;
    hide Next, TellsPhase;
    CancelObserves(projects, w, i, now);
    var next, op := Next(projects, w, TaskMerge.Cancel(i, now)), w.ops[i];
    var phase := PhaseOf(next, KeyOf(projects, op.authBinding, op.task.taskId));
    ObservationIsTold(projects, w, TaskMerge.Cancel(i, now), i, phase, middle, after);
  }
}
