// The gateway's task state: what one observation of an execution makes of a
// task, the merge that every save goes through, and the interleavings of
// starts, polls, cancellations and expiries that hold stale snapshots while
// the execution store moves on underneath.
module TaskMerge {
  import opened Wrappers
  import opened ExecutionRecords
  import E = ExecutionStore
  import R = StoreRuns

  datatype TaskStatus = Working | InputRequired | Completed | TaskFailed | TaskCancelled

  datatype Task = Task(
    taskId: string,
    tool: string,
    executionStatus: Status,
    status: TaskStatus,
    statusMessage: string,
    createdAt: Timestamp,
    lastUpdatedAt: Timestamp,
    ttl: Option<int>,
    pollInterval: int,
    progress: nat,
    progressToken: Option<string>)

  datatype Session = Session(authBinding: string, tasks: map<string, Task>)

  type Sessions = map<string, Session>

  function TaskStatusOf(status: Status): TaskStatus {
    match status
    case Pending => Working
    case Running => Working
    case Succeeded => Completed
    case Failed => TaskFailed
    case Cancelled => TaskCancelled
  }

  function TaskStatusMessage(phase: Phase): string {
    match phase
    case Pending => "Execution queued."
    case Running => "Execution running."
    case Succeeded(_, _, _) => "Execution completed."
    case Failed(_, _, error) => error.message
    case Cancelled(_, _, _, dispatchMayHaveBegun) =>
      if dispatchMayHaveBegun
      then "Execution cancelled after provider dispatch may have begun; cancellation is best effort and upstream work may still complete."
      else "Execution cancelled before provider dispatch."
  }

  predicate TerminalTask(task: Task) {
    task.status.Completed? || task.status.TaskFailed? || task.status.TaskCancelled?
  }

  function ExecutionProgress(status: Status): nat {
    match status
    case Pending => 0
    case Running => 1
    case _ => 2
  }

  /** Whether the merge takes the candidate, the identity comparison behind the `changed` flag of a save. */
  predicate PrefersCandidate(current: Option<Task>, candidate: Task) {
    if current.None? then true
    else if TerminalTask(current.value) then false
    else if TerminalTask(candidate) then true
    else ExecutionProgress(candidate.executionStatus) > ExecutionProgress(current.value.executionStatus)
  }

  function PreferredTask(current: Option<Task>, candidate: Task): Task {
    if PrefersCandidate(current, candidate) then candidate else current.value
  }

  /** The task of a started execution. */
  function StartedTask(
    taskId: string, tool: string, phase: Phase, now: Timestamp, ttl: Option<int>, pollInterval: int,
    token: Option<string>): Task
  {
    Task(taskId, tool, phase.StatusOf(), TaskStatusOf(phase.StatusOf()), TaskStatusMessage(phase), now, now, ttl,
         pollInterval, ExecutionProgress(phase.StatusOf()), token)
  }

  /** The task after its execution was seen in a phase. */
  function ObservedTask(task: Task, phase: Phase, now: Timestamp, progress: nat): Task {
    task.(executionStatus := phase.StatusOf(), status := TaskStatusOf(phase.StatusOf()),
          statusMessage := TaskStatusMessage(phase), lastUpdatedAt := now, progress := progress)
  }

  // ------------------------------------------------------------------ Saves

  datatype SaveError = SessionEnded | TaskDisappeared

  datatype Saved = Saved(task: Task, changed: bool)

  function Lookup(s: Session, taskId: string): Option<Task> {
    if taskId in s.tasks then Some(s.tasks[taskId]) else None
  }

  function MergeInto(s: Session, authBinding: string, task: Task): Session {
    if s.authBinding != authBinding then s
    else s.(tasks := s.tasks[task.taskId := PreferredTask(Lookup(s, task.taskId), task)])
  }

  function DropFrom(s: Session, authBinding: string, taskId: string): Session {
    if s.authBinding != authBinding then s else s.(tasks := s.tasks - {taskId})
  }

  /** The atomic read-modify-write of the store: an absent session is left absent, None deletes. */
  function UpdateSession(sessions: Sessions, sessionId: string, updater: Session -> Option<Session>)
    : (Sessions, Option<Session>)
  {
    if sessionId !in sessions then (sessions, None)
    else
      match updater(sessions[sessionId])
      case None => (sessions - {sessionId}, None)
      case Some(updated) => (sessions[sessionId := updated], Some(updated))
  }

  function SaveTask(sessions: Sessions, sessionId: string, authBinding: string, task: Task)
    : (Sessions, Result<Saved, SaveError>)
  {
    var (after, updated) := UpdateSession(sessions, sessionId, s => Some(MergeInto(s, authBinding, task)));
    if updated.None? || updated.value.authBinding != authBinding then (after, Err(SessionEnded))
    else if task.taskId !in updated.value.tasks then (after, Err(TaskDisappeared))
    else
      (after, Ok(Saved(updated.value.tasks[task.taskId],
                       PrefersCandidate(Lookup(sessions[sessionId], task.taskId), task))))
  }

  // ------------------------------------------------------------------ Merge

  /** Status and progress are those of the execution status; nothing else is ever built by the gateway. */
  predicate Matches(task: Task) {
    && task.status == TaskStatusOf(task.executionStatus)
    && task.progress == ExecutionProgress(task.executionStatus)
  }

  /** The merge in one sentence: the candidate wins exactly when it is strictly further along. */
  lemma PrefersHigherRank(current: Option<Task>, candidate: Task)
    requires Matches(candidate) && (current.Some? ==> Matches(current.value))
    ensures PrefersCandidate(current, candidate)
       <==> current.None? || current.value.executionStatus.Rank() < candidate.executionStatus.Rank()
  {
  }

  /** Merging a batch of observations, in the order in which their saves reach the store. */
  function MergeAll(current: Option<Task>, candidates: seq<Task>): Option<Task>
    decreases |candidates|
  {
    if candidates == [] then current
    else MergeAll(Some(PreferredTask(current, candidates[0])), candidates[1..])
  }

  /** Candidate i is further along than the current task and every candidate before it. */
  ghost predicate GetsFurther(current: Task, candidates: seq<Task>, i: nat) {
    && i < |candidates|
    && current.executionStatus.Rank() < candidates[i].executionStatus.Rank()
    && forall j :: 0 <= j < i ==> candidates[j].executionStatus.Rank() < candidates[i].executionStatus.Rank()
  }

  lemma GetsFurtherThanBoth(current: Task, next: Task, candidates: seq<Task>, i: nat)
    requires candidates != [] && GetsFurther(next, candidates[1..], i)
    requires current.executionStatus.Rank() <= next.executionStatus.Rank()
    requires candidates[0].executionStatus.Rank() <= next.executionStatus.Rank()
    ensures GetsFurther(current, candidates, i + 1) && candidates[i + 1] == candidates[1..][i]
  {
    assert forall j :: 0 < j < i + 1 ==> candidates[j] == candidates[1..][j - 1];
  }

  /** Arrival order does not matter to how far the task gets: it ends at the furthest observation of all,
      and the first observation to get that far is the one that is kept. */
  lemma {:induction false} MergeIsFirstFurthest(current: Task, candidates: seq<Task>, merged: Task)
    requires Matches(current) && forall c <- candidates :: Matches(c)
    requires MergeAll(Some(current), candidates) == Some(merged)
    ensures Matches(merged)
    ensures current.executionStatus.Rank() <= merged.executionStatus.Rank()
    ensures forall c <- candidates :: c.executionStatus.Rank() <= merged.executionStatus.Rank()
    ensures merged == current
            || exists i: nat :: i < |candidates| && GetsFurther(current, candidates, i) && merged == candidates[i]
    decreases |candidates|
  {
    hide PrefersCandidate, Matches, GetsFurther;
    if candidates != [] {
      var first, rest := candidates[0], candidates[1..];
      var next := PreferredTask(Some(current), first);
      PrefersHigherRank(Some(current), first);
      MergeIsFirstFurthest(next, rest, merged);
      if merged == next {
        FirstGetsFurther(current, candidates);
      } else {
        var i: nat :| i < |rest| && GetsFurther(next, rest, i) && merged == rest[i];
        GetsFurtherThanBoth(current, next, candidates, i);
      }
      assert forall c <- candidates :: c == first || c in rest;
    }
  }

  lemma FirstGetsFurther(current: Task, candidates: seq<Task>)
    requires candidates != []
    ensures current.executionStatus.Rank() < candidates[0].executionStatus.Rank() ==>
              GetsFurther(current, candidates, 0)
  {
  }

  /** A save never fails for want of the task, keeps other sessions and tasks, and leaves a foreign session alone. */
  lemma SaveEffect(sessions: Sessions, sessionId: string, authBinding: string, task: Task)
    ensures
      var (after, r) := SaveTask(sessions, sessionId, authBinding, task);
      && after.Keys == sessions.Keys
      && (forall sid <- sessions :: sid != sessionId ==> after[sid] == sessions[sid])
      && r != Err(TaskDisappeared)
      && (r.Ok? <==> sessionId in sessions && sessions[sessionId].authBinding == authBinding)
      && (r.Err? ==> after == sessions)
      && (r.Ok? ==>
            && after[sessionId].authBinding == authBinding
            && Lookup(after[sessionId], task.taskId) == Some(r.value.task)
            && after[sessionId].tasks - {task.taskId} == sessions[sessionId].tasks - {task.taskId}
            && r.value.task == PreferredTask(Lookup(sessions[sessionId], task.taskId), task)
            && r.value.changed == PrefersCandidate(Lookup(sessions[sessionId], task.taskId), task))
  {
    var (after, r) := SaveTask(sessions, sessionId, authBinding, task);
    if sessionId in sessions && sessions[sessionId].authBinding == authBinding {
      assert after[sessionId].tasks - {task.taskId} == sessions[sessionId].tasks - {task.taskId};
    } else if sessionId in sessions {
      assert after == sessions;
    }
  }

  // ---------------------------------------------------------- Interleavings

  /** A request in flight: it holds a task read from an earlier session snapshot, or a candidate to save. */
  datatype Op =
    | Holding(sessionId: string, authBinding: string, task: Task)
    | Ready(sessionId: string, authBinding: string, task: Task)

  /** `changes` logs the saves that reported `changed`. */
  datatype World = World(store: E.Store, sessions: Sessions, ops: seq<Op>, changes: seq<(string, string)>)

  datatype Step =
    | Executor(call: R.Call)
    | Begin(sessionId: string, authBinding: string, taskId: string, tool: string, now: Timestamp, ttl: Option<int>,
            pollInterval: int, token: Option<string>)
    | Read(sessionId: string, authBinding: string, taskId: string)
    | Refresh(op: nat, now: Timestamp)
    | Cancel(op: nat, now: Timestamp)
    | Save(op: nat)
    | Expire(sessionId: string, authBinding: string, taskId: string)
    | EndSession(sessionId: string)
    | OpenSession(sessionId: string, authBinding: string)

  /** The executor finds the API key's project; the binding is a digest of that key. */
  type Projects = string -> string

  function KeyOf(projects: Projects, authBinding: string, taskId: string): E.ExecutionKey {
    E.ExecutionKey(projects(authBinding), taskId)
  }

  function PhaseOf(w: World, key: E.ExecutionKey): Phase
    requires key in w.store.executions
  {
    w.store.executions[key].record.phase
  }

  function Observe(w: World, op: Op, phase: Phase, now: Timestamp, progress: nat): World {
    w.(ops := w.ops + [Ready(op.sessionId, op.authBinding, ObservedTask(op.task, phase, now, progress))])
  }

  /** `tasks/get` and polls: a terminal task is not refreshed, an unchanged execution not saved. */
  function RefreshStep(projects: Projects, w: World, op: Op, now: Timestamp): World {
    var key := KeyOf(projects, op.authBinding, op.task.taskId);
    if TerminalTask(op.task) || key !in w.store.executions then w
    else
      var phase := PhaseOf(w, key);
      if phase.StatusOf() == op.task.executionStatus then w
      else Observe(w, op, phase, now, ExecutionProgress(phase.StatusOf()))
  }

  /** `tasks/cancel`: the executor settles the execution, one way or the other, before the task is saved. */
  function CancelStep(projects: Projects, w: World, op: Op, now: Timestamp): World {
    var key := KeyOf(projects, op.authBinding, op.task.taskId);
    if TerminalTask(op.task) || key !in w.store.executions then w
    else
      var settled := w.(store := R.Apply(w.store, R.CallCancel(key, now)));
      if key !in settled.store.executions || !PhaseOf(settled, key).StatusOf().Terminal() then settled
      else Observe(settled, op, PhaseOf(settled, key), now, 2)
  }

  function SaveStep(w: World, op: Op): World {
    var (sessions, r) := SaveTask(w.sessions, op.sessionId, op.authBinding, op.task);
    w.(sessions := sessions,
       changes := w.changes + if r.Ok? && r.value.changed then [(op.sessionId, op.task.taskId)] else [])
  }

  function Next(projects: Projects, w: World, step: Step): World {
    match step
    case Executor(call) => w.(store := R.Apply(w.store, call))
    case Begin(sessionId, authBinding, taskId, tool, now, ttl, pollInterval, token) =>
      var key := KeyOf(projects, authBinding, taskId);
      if key !in w.store.executions then w
      else
        w.(ops := w.ops + [Ready(sessionId, authBinding,
                                 StartedTask(taskId, tool, PhaseOf(w, key), now, ttl, pollInterval, token))])
    case Read(sessionId, authBinding, taskId) =>
      if sessionId !in w.sessions || w.sessions[sessionId].authBinding != authBinding
         || taskId !in w.sessions[sessionId].tasks then w
      else w.(ops := w.ops + [Holding(sessionId, authBinding, w.sessions[sessionId].tasks[taskId])])
    case Refresh(op, now) =>
      if op < |w.ops| && w.ops[op].Holding? then RefreshStep(projects, w, w.ops[op], now) else w
    case Cancel(op, now) =>
      if op < |w.ops| && w.ops[op].Holding? then CancelStep(projects, w, w.ops[op], now) else w
    case Save(op) => if op < |w.ops| && w.ops[op].Ready? then SaveStep(w, w.ops[op]) else w
    case Expire(sessionId, authBinding, taskId) =>
      w.(sessions := UpdateSession(w.sessions, sessionId, s => Some(DropFrom(s, authBinding, taskId))).0)
    case EndSession(sessionId) => w.(sessions := w.sessions - {sessionId})
    case OpenSession(sessionId, authBinding) => w.(sessions := w.sessions[sessionId := Session(authBinding, map[])])
  }

  function Run(projects: Projects, w: World, steps: seq<Step>): World
    decreases |steps|
  {
    if steps == [] then w else Run(projects, Next(projects, w, steps[0]), steps[1..])
  }

  // -------------------------------------------------------------- Invariant

  /** A task is never ahead of its execution, and a terminal task tells the execution's own outcome. */
  ghost predicate Faithful(projects: Projects, store: E.Store, authBinding: string, task: Task) {
    var key := KeyOf(projects, authBinding, task.taskId);
    && Matches(task)
    && key in store.executions
    && var phase := store.executions[key].record.phase;
    && task.executionStatus.Rank() <= phase.StatusOf().Rank()
    && (TerminalTask(task) ==>
          task.executionStatus == phase.StatusOf() && task.statusMessage == TaskStatusMessage(phase))
    && (task.executionStatus.Pending? ==> task.statusMessage == "Execution queued.")
    && (task.executionStatus.Running? ==> task.statusMessage == "Execution running.")
  }

  ghost predicate SessionsInv(projects: Projects, store: E.Store, sessions: Sessions) {
    forall sid <- sessions :: forall id <- sessions[sid].tasks ::
      && sessions[sid].tasks[id].taskId == id
      && Faithful(projects, store, sessions[sid].authBinding, sessions[sid].tasks[id])
  }

  ghost predicate OpsInv(projects: Projects, store: E.Store, ops: seq<Op>) {
    forall i :: 0 <= i < |ops| ==> Faithful(projects, store, ops[i].authBinding, ops[i].task)
  }

  ghost predicate Inv(projects: Projects, w: World) {
    E.Valid(w.store) && SessionsInv(projects, w.store, w.sessions) && OpsInv(projects, w.store, w.ops)
  }

  lemma FaithfulStays(projects: Projects, s: E.Store, t: E.Store, authBinding: string, task: Task)
    requires Faithful(projects, s, authBinding, task) && E.Extends(s, t)
    ensures Faithful(projects, t, authBinding, task)
  {
    var key := KeyOf(projects, authBinding, task.taskId);
    assert E.RowExtends(s.executions[key], t.executions[key]);
  }

  /** Whatever the execution store does, snapshots and stored tasks only fall behind; they never become wrong. */
  lemma StoreMoves(projects: Projects, w: World, call: R.Call)
    requires Inv(projects, w)
    ensures Inv(projects, w.(store := R.Apply(w.store, call)))
  {
    hide E.Valid, E.Extends, Faithful;
    R.ApplyKeeps(w.store, call);
    var t := R.Apply(w.store, call);
    forall authBinding: string, task: Task | Faithful(projects, w.store, authBinding, task)
      ensures Faithful(projects, t, authBinding, task)
    {
      FaithfulStays(projects, w.store, t, authBinding, task);
    }
  }

  lemma ObserveKeeps(projects: Projects, w: World, op: Op, now: Timestamp, progress: nat)
    requires Inv(projects, w) && Faithful(projects, w.store, op.authBinding, op.task)
    requires var phase := PhaseOf(w, KeyOf(projects, op.authBinding, op.task.taskId));
             progress == ExecutionProgress(phase.StatusOf())
    ensures Inv(projects, Observe(w, op, PhaseOf(w, KeyOf(projects, op.authBinding, op.task.taskId)), now, progress))
  {
    hide E.Valid, SessionsInv;
  }

  lemma SaveKeeps(projects: Projects, w: World, op: Op)
    requires Inv(projects, w) && Faithful(projects, w.store, op.authBinding, op.task)
    ensures Inv(projects, SaveStep(w, op))
  {
    hide E.Valid, OpsInv, SaveTask, Faithful, TerminalTask;
    SaveEffect(w.sessions, op.sessionId, op.authBinding, op.task);
    var after := SaveStep(w, op).sessions;
    forall sid <- after, id <- after[sid].tasks
      ensures after[sid].tasks[id].taskId == id
      ensures Faithful(projects, w.store, after[sid].authBinding, after[sid].tasks[id])
    {
      if sid == op.sessionId && w.sessions[sid].authBinding == op.authBinding && id != op.task.taskId {
        var others := after[sid].tasks - {op.task.taskId};
        assert others == w.sessions[sid].tasks - {op.task.taskId};
        assert id in others && others[id] == w.sessions[sid].tasks[id] == after[sid].tasks[id];
      }
    }
  }

  lemma RefreshKeeps(projects: Projects, w: World, op: Op, now: Timestamp)
    requires Inv(projects, w) && Faithful(projects, w.store, op.authBinding, op.task)
    ensures Inv(projects, RefreshStep(projects, w, op, now))
  {
    hide Inv;
    var key := KeyOf(projects, op.authBinding, op.task.taskId);
    ObserveKeeps(projects, w, op, now, ExecutionProgress(PhaseOf(w, key).StatusOf()));
  }

  lemma CancelKeeps(projects: Projects, w: World, i: nat, now: Timestamp)
    requires Inv(projects, w) && i < |w.ops|
    ensures Inv(projects, CancelStep(projects, w, w.ops[i], now))
  {
    hide E.Valid, SessionsInv, R.Apply;
    var op := w.ops[i];
    var key := KeyOf(projects, op.authBinding, op.task.taskId);
    var settled := w.(store := R.Apply(w.store, R.CallCancel(key, now)));
    StoreMoves(projects, w, R.CallCancel(key, now));
    assert Faithful(projects, settled.store, settled.ops[i].authBinding, settled.ops[i].task);
    if PhaseOf(settled, key).StatusOf().Terminal() {
      ObserveKeeps(projects, settled, op, now, 2);
    }
  }

  lemma NextKeeps(projects: Projects, w: World, step: Step)
    requires Inv(projects, w)
    ensures Inv(projects, Next(projects, w, step))
  {
    hide E.Valid, R.Apply, RefreshStep, CancelStep, SaveStep;
    match step
    case Executor(call) => StoreMoves(projects, w, call);
    case Refresh(op, now) =>
      if op < |w.ops| && w.ops[op].Holding? {
        RefreshKeeps(projects, w, w.ops[op], now);
      }
    case Cancel(op, now) =>
      if op < |w.ops| && w.ops[op].Holding? {
        CancelKeeps(projects, w, op, now);
      }
    case Save(op) =>
      if op < |w.ops| && w.ops[op].Ready? {
        SaveKeeps(projects, w, w.ops[op]);
      }
    case _ =>
  }

  lemma {:induction false} RunKeeps(projects: Projects, w: World, steps: seq<Step>)
    requires Inv(projects, w)
    ensures Inv(projects, Run(projects, w, steps))
    decreases |steps|
  {
    hide Inv;
    if steps != [] {
      NextKeeps(projects, w, steps[0]);
      RunKeeps(projects, Next(projects, w, steps[0]), steps[1..]);
    }
  }

  lemma InitialInv(projects: Projects, store: E.Store)
    requires E.Valid(store)
    ensures Inv(projects, World(store, map[], [], []))
  {
  }

  // --------------------------------------------------------------- Monotone

  predicate Stored(w: World, sessionId: string, taskId: string) {
    sessionId in w.sessions && taskId in w.sessions[sessionId].tasks
  }

  function TaskAt(w: World, sessionId: string, taskId: string): Task
    requires Stored(w, sessionId, taskId)
  {
    w.sessions[sessionId].tasks[taskId]
  }

  /** The task is there before the first step and after every one. */
  predicate StaysStored(projects: Projects, w: World, steps: seq<Step>, sessionId: string, taskId: string)
    decreases |steps|
  {
    && Stored(w, sessionId, taskId)
    && (steps == [] || StaysStored(projects, Next(projects, w, steps[0]), steps[1..], sessionId, taskId))
  }

  /** How many saves of a task reported `changed`. */
  function Changes(log: seq<(string, string)>, sessionId: string, taskId: string): nat {
    multiset(log)[(sessionId, taskId)]
  }

  /** One step of anything: a stored task keeps its value, or moves strictly up and exactly then logs a change. */
  lemma StepIsMonotone(projects: Projects, w: World, step: Step, sessionId: string, taskId: string)
    requires Inv(projects, w) && Stored(w, sessionId, taskId)
    requires Stored(Next(projects, w, step), sessionId, taskId)
    ensures
      var next := Next(projects, w, step);
      var before, after := TaskAt(w, sessionId, taskId), TaskAt(next, sessionId, taskId);
      var more := Changes(next.changes, sessionId, taskId) - Changes(w.changes, sessionId, taskId);
      if before == after && more == 0 then true
      else before.executionStatus.Rank() < after.executionStatus.Rank() && more == 1
  {
    hide Inv, E.Valid, R.Apply, SaveTask, PrefersCandidate, ObservedTask, StartedTask;
    if step.Save? && step.op < |w.ops| && w.ops[step.op].Ready? {
      SaveIsMonotone(projects, w, w.ops[step.op], sessionId, taskId);
    }
  }

  lemma SaveIsMonotone(projects: Projects, w: World, op: Op, sessionId: string, taskId: string)
    requires Inv(projects, w) && op in w.ops && Stored(w, sessionId, taskId)
    ensures
      var next := SaveStep(w, op);
      && Stored(next, sessionId, taskId)
      && var before, after := TaskAt(w, sessionId, taskId), TaskAt(next, sessionId, taskId);
      var more := Changes(next.changes, sessionId, taskId) - Changes(w.changes, sessionId, taskId);
      if before == after && more == 0 then true
      else before.executionStatus.Rank() < after.executionStatus.Rank() && more == 1
  {
    var before := TaskAt(w, sessionId, taskId);
    assert Matches(before) && Matches(op.task);
    PrefersHigherRank(Some(before), op.task);
    hide E.Valid, SaveTask, PrefersCandidate, TerminalTask;
    SaveEffect(w.sessions, op.sessionId, op.authBinding, op.task);
    if op.sessionId == sessionId && op.task.taskId != taskId {
      var others := SaveStep(w, op).sessions[sessionId].tasks - {op.task.taskId};
      assert taskId in w.sessions[sessionId].tasks - {op.task.taskId};
    }
  }

  lemma TerminalIsHighest(projects: Projects, w: World, sessionId: string, taskId: string)
    requires Inv(projects, w) && Stored(w, sessionId, taskId)
    ensures TerminalTask(TaskAt(w, sessionId, taskId)) ==> TaskAt(w, sessionId, taskId).executionStatus.Rank() == 2
  {
    hide E.Valid, OpsInv;
    assert Matches(TaskAt(w, sessionId, taskId));
  }

  /** While a task stays stored its rank never falls, a terminal task is never touched again, and there are
      at most as many saves that report `changed` as the rank has risen. */
  lemma {:induction false} TaskIsMonotone(
    projects: Projects, w: World, steps: seq<Step>, sessionId: string, taskId: string)
    requires Inv(projects, w) && StaysStored(projects, w, steps, sessionId, taskId)
    ensures
      var end := Run(projects, w, steps);
      && Stored(end, sessionId, taskId)
      && var before, after := TaskAt(w, sessionId, taskId), TaskAt(end, sessionId, taskId);
      && before.executionStatus.Rank() <= after.executionStatus.Rank()
      && (TerminalTask(before) ==> after == before)
      && 0 <= Changes(end.changes, sessionId, taskId) - Changes(w.changes, sessionId, taskId)
           <= after.executionStatus.Rank() - before.executionStatus.Rank()
    decreases |steps|
  {
    hide Inv, Next, TerminalTask, Changes;
    if steps != [] {
      NextKeeps(projects, w, steps[0]);
      StepIsMonotone(projects, w, steps[0], sessionId, taskId);
      TerminalIsHighest(projects, w, sessionId, taskId);
      TaskIsMonotone(projects, Next(projects, w, steps[0]), steps[1..], sessionId, taskId);
    }
  }

  /** Any two terminal tasks ever stored for one execution, in whatever session and however much later, agree:
      an execution has one outcome, and that is what every terminal task says. */
  lemma TerminalTasksAgree(
    projects: Projects, w: World, steps: seq<Step>, s: string, t: string, taskId: string)
    requires Inv(projects, w) && Stored(w, s, taskId) && TerminalTask(TaskAt(w, s, taskId))
    requires var end := Run(projects, w, steps);
             && Stored(end, t, taskId)
             && TerminalTask(TaskAt(end, t, taskId))
             && projects(end.sessions[t].authBinding) == projects(w.sessions[s].authBinding)
    ensures
      var first, last := TaskAt(w, s, taskId), TaskAt(Run(projects, w, steps), t, taskId);
      && first.status == last.status
      && first.executionStatus == last.executionStatus
      && first.statusMessage == last.statusMessage
      && first.progress == last.progress == 2
  {
    var key := KeyOf(projects, w.sessions[s].authBinding, taskId);
    RunKeeps(projects, w, steps);
    assert Faithful(projects, w.store, w.sessions[s].authBinding, TaskAt(w, s, taskId));
    StoreExtends(projects, w, steps);
    var end := Run(projects, w, steps);
    assert E.RowExtends(w.store.executions[key], end.store.executions[key]);
    assert Faithful(projects, end.store, end.sessions[t].authBinding, TaskAt(end, t, taskId));
  }

  lemma NextExtends(projects: Projects, w: World, step: Step)
    requires E.Valid(w.store)
    ensures E.Valid(Next(projects, w, step).store) && E.Extends(w.store, Next(projects, w, step).store)
  {
    hide E.Valid, E.Extends;
    R.ExtendsItself(w.store);
    match step
    case Executor(call) => R.ApplyKeeps(w.store, call);
    case Cancel(op, now) =>
      if op < |w.ops| {
        R.ApplyKeeps(w.store, R.CallCancel(KeyOf(projects, w.ops[op].authBinding, w.ops[op].task.taskId), now));
      }
    case _ =>
  }

  lemma {:induction false} StoreExtends(projects: Projects, w: World, steps: seq<Step>)
    requires E.Valid(w.store)
    ensures E.Extends(w.store, Run(projects, w, steps).store)
    decreases |steps|
  {
    hide E.Valid, E.Extends, Next;
    if steps == [] {
      R.ExtendsItself(w.store);
    } else {
      var next := Next(projects, w, steps[0]);
      NextExtends(projects, w, steps[0]);
      StoreExtends(projects, next, steps[1..]);
      E.ExtendsTransitive(w.store, next.store, Run(projects, w, steps).store);
    }
  }

  /** Saving a terminal candidate leaves the stored task terminal, with the execution's outcome: either the
      candidate's, or the one an earlier save has already stored, and they are the same. */
  lemma TerminalSaveWins(projects: Projects, w: World, op: Op)
    requires Inv(projects, w) && op in w.ops && TerminalTask(op.task)
    requires op.sessionId in w.sessions && w.sessions[op.sessionId].authBinding == op.authBinding
    ensures
      var end := SaveStep(w, op);
      var phase := PhaseOf(w, KeyOf(projects, op.authBinding, op.task.taskId));
      && Stored(end, op.sessionId, op.task.taskId)
      && TaskAt(end, op.sessionId, op.task.taskId).status == TaskStatusOf(phase.StatusOf())
      && TaskAt(end, op.sessionId, op.task.taskId).statusMessage == TaskStatusMessage(phase)
  {
    assert Faithful(projects, w.store, op.authBinding, op.task);
    SaveEffect(w.sessions, op.sessionId, op.authBinding, op.task);
    hide E.Valid, SaveTask, TaskStatusMessage;
    var current := Lookup(w.sessions[op.sessionId], op.task.taskId);
    if current.Some? {
      assert Faithful(projects, w.store, op.authBinding, current.value);
    }
  }

  lemma {:induction false} RunConcat(projects: Projects, w: World, a: seq<Step>, b: seq<Step>)
    ensures Run(projects, w, a + b) == Run(projects, Run(projects, w, a), b)
    decreases |a|
  {
    hide Next;
    if a == [] {
      assert a + b == b;
    } else {
      assert (a + b)[1..] == a[1..] + b;
      RunConcat(projects, Next(projects, w, a[0]), a[1..], b);
    }
  }

  /** In every interleaving: once a terminal candidate has been saved into its session, and for as long as the
      task stays stored, it has the outcome that its execution then had and still has. */
  lemma TerminalSaveDecides(projects: Projects, start: World, before: seq<Step>, i: nat, after: seq<Step>)
    requires Inv(projects, start)
    requires
      var w := Run(projects, start, before);
      && i < |w.ops| && w.ops[i].Ready? && TerminalTask(w.ops[i].task)
      && w.ops[i].sessionId in w.sessions && w.sessions[w.ops[i].sessionId].authBinding == w.ops[i].authBinding
      && StaysStored(projects, Next(projects, w, Save(i)), after, w.ops[i].sessionId, w.ops[i].task.taskId)
    ensures
      var w := Run(projects, start, before);
      var op := w.ops[i];
      var key := KeyOf(projects, op.authBinding, op.task.taskId);
      var end := Run(projects, start, before + [Save(i)] + after);
      && key in w.store.executions && key in end.store.executions
      && PhaseOf(end, key) == PhaseOf(w, key)
      && Stored(end, op.sessionId, op.task.taskId)
      && TaskAt(end, op.sessionId, op.task.taskId).status == TaskStatusOf(PhaseOf(end, key).StatusOf())
      && TaskAt(end, op.sessionId, op.task.taskId).statusMessage == TaskStatusMessage(PhaseOf(end, key))
  {
    var w := Run(projects, start, before);
    var op := w.ops[i];
    RunKeeps(projects, start, before);
    TerminalSaveStays(projects, w, i, after);
    RunConcat(projects, start, before + [Save(i)], after);
    RunConcat(projects, start, before, [Save(i)]);
    assert Run(projects, w, [Save(i)]) == Next(projects, w, Save(i)) by {
      assert [Save(i)][1..] == [];
    }
  }

  lemma TerminalSaveStays(projects: Projects, w: World, i: nat, after: seq<Step>)
    requires Inv(projects, w)
    requires
      && i < |w.ops| && w.ops[i].Ready? && TerminalTask(w.ops[i].task)
      && w.ops[i].sessionId in w.sessions && w.sessions[w.ops[i].sessionId].authBinding == w.ops[i].authBinding
      && StaysStored(projects, Next(projects, w, Save(i)), after, w.ops[i].sessionId, w.ops[i].task.taskId)
    ensures
      var op := w.ops[i];
      var key := KeyOf(projects, op.authBinding, op.task.taskId);
      var end := Run(projects, Next(projects, w, Save(i)), after);
      && key in w.store.executions && key in end.store.executions
      && PhaseOf(end, key) == PhaseOf(w, key)
      && Stored(end, op.sessionId, op.task.taskId)
      && TaskAt(end, op.sessionId, op.task.taskId).status == TaskStatusOf(PhaseOf(w, key).StatusOf())
      && TaskAt(end, op.sessionId, op.task.taskId).statusMessage == TaskStatusMessage(PhaseOf(w, key))
  {
    hide Inv, E.Valid, E.Extends, StaysStored, SaveTask, TaskStatusMessage;
    var op := w.ops[i];
    var saved := Next(projects, w, Save(i));
    OpIsFaithful(projects, w, i);
    TerminalSaveWins(projects, w, op);
    NextKeeps(projects, w, Save(i));
    TaskIsMonotone(projects, saved, after, op.sessionId, op.task.taskId);
    OutcomeStays(projects, saved, after, KeyOf(projects, op.authBinding, op.task.taskId));
  }

  lemma OpIsFaithful(projects: Projects, w: World, i: nat)
    requires Inv(projects, w) && i < |w.ops|
    ensures Faithful(projects, w.store, w.ops[i].authBinding, w.ops[i].task)
  {
    hide E.Valid, SessionsInv, Faithful;
  }

  /** A terminal execution keeps its record over every run. */
  lemma OutcomeStays(projects: Projects, w: World, steps: seq<Step>, key: E.ExecutionKey)
    requires Inv(projects, w) && key in w.store.executions && PhaseOf(w, key).StatusOf().Terminal()
    ensures key in Run(projects, w, steps).store.executions
    ensures PhaseOf(Run(projects, w, steps), key) == PhaseOf(w, key)
  {
    hide E.Valid, SessionsInv, OpsInv, Next;
    StoreExtends(projects, w, steps);
    var end := Run(projects, w, steps);
    assert E.RowExtends(w.store.executions[key], end.store.executions[key]);
  }

  /** Progress: once an execution is terminal, a poll that still holds a non-terminal snapshot and then saves
      leaves the stored task, if its session is still there, terminal with the execution's outcome. */
  lemma PollFinishesTask(projects: Projects, w: World, op: Op, now: Timestamp)
    requires Inv(projects, w) && op in w.ops && !TerminalTask(op.task)
    requires PhaseOf(w, KeyOf(projects, op.authBinding, op.task.taskId)).StatusOf().Terminal()
    requires op.sessionId in w.sessions && w.sessions[op.sessionId].authBinding == op.authBinding
    ensures
      var phase := PhaseOf(w, KeyOf(projects, op.authBinding, op.task.taskId));
      var read := RefreshStep(projects, w, op, now);
      && |read.ops| == |w.ops| + 1
      && var end := SaveStep(read, read.ops[|w.ops|]);
      && Stored(end, op.sessionId, op.task.taskId)
      && TaskAt(end, op.sessionId, op.task.taskId).status == TaskStatusOf(phase.StatusOf())
      && TaskAt(end, op.sessionId, op.task.taskId).statusMessage == TaskStatusMessage(phase)
  {
    hide E.Valid, SessionsInv, SaveStep, TaskStatusMessage;
    var key := KeyOf(projects, op.authBinding, op.task.taskId);
    var progress := ExecutionProgress(PhaseOf(w, key).StatusOf());
    var read := RefreshStep(projects, w, op, now);
    assert Faithful(projects, w.store, op.authBinding, op.task);
    ObserveKeeps(projects, w, op, now, progress);
    assert read == Observe(w, op, PhaseOf(w, key), now, progress);
    TerminalSaveWins(projects, read, read.ops[|w.ops|]);
  }
}
