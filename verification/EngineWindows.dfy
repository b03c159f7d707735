// When an idempotency scope is taken and when it is free, read off the history
// alone: a scope is taken from an admission until the end of that admission's
// window, and a request under it is admitted exactly when no window is open.
module EngineWindows {
  import opened Wrappers
  import opened JavaScript
  import opened ExecutionRecords
  import opened ExecutionStore
  import Calls = StoreRuns
  import opened ExecutionEngine
  import opened EngineInvariants
  import opened EngineSteps
  import opened EngineTheorems
  import opened EngineHistory

  /** The end of the window of the last admission under this scope. */
  function WindowEnd(log: seq<Event>, scope: ScopeKey): Option<Timestamp> {
    if log == [] then None
    else
      var e := log[|log| - 1];
      if e.Admitted? && e.scope == Some(scope) then Some(e.expiresAt) else WindowEnd(log[..|log| - 1], scope)
  }

  /** The index of the store is what the history says. */
  ghost predicate IndexIsHistory(w: World) {
    forall scope :: ExpiryOf(w.store, scope) == WindowEnd(w.log, scope)
  }

  lemma StepIndexes(w: World, w2: World, e: Option<Event>)
    requires IndexIsHistory(w) && StepOk(w, w2, e)
    ensures IndexIsHistory(w2)
  {
    hide Valid, Extends, RowStep, ArrivalOk, WorkersInv;
    forall scope ensures ExpiryOf(w2.store, scope) == WindowEnd(w2.log, scope) {
      if e.Some? {
        assert w2.log[..|w.log|] == w.log && w2.log[|w.log|] == e.value;
      } else {
        assert w2.log == w.log;
      }
    }
  }

  lemma {:induction false} RunIndexes(actions: seq<Action>)
    ensures IndexIsHistory(Run(actions))
  {
    hide Inv, Step, IndexIsHistory, StepOk;
    if actions == [] {
      NothingIndexed();
    } else {
      var w := Run(actions[..|actions| - 1]);
      RunIndexes(actions[..|actions| - 1]);
      RunInv(actions[..|actions| - 1]);
      ActionKeeps(w, actions[|actions| - 1]);
      if Run(actions) != w {
        var e :| StepOk(w, Run(actions), e);
        StepIndexes(w, Run(actions), e);
      }
    }
  }

  lemma NothingIndexed()
    ensures IndexIsHistory(INITIAL)
  {
  }

  /** What the allocation step of a request does to the world. */
  ghost predicate IsAdmitted(w: World, w2: World, cmd: ExecuteCommand) {
    && |w2.log| == |w.log| + 1 && w2.log[..|w.log|] == w.log
    && var e := w2.log[|w.log|];
    && e.Admitted? && e.key == cmd.Key() && e.scope == ScopeOf(cmd)
    && e.createdAt == cmd.record.identity.createdAt
    && (e.scope.Some? ==> e.expiresAt == e.createdAt + Max(86400000, cmd.retentionMs))
    && cmd.Key() !in w.store.executions && cmd.Key() in w2.store.executions
    && w2.store.executions[cmd.Key()].record == cmd.record
    && w2.store.executions[cmd.Key()].request == cmd.request
  }

  /** Nothing is admitted: the history and the store stay as they are. */
  ghost predicate IsTurnedAway(w: World, w2: World) {
    w2.log == w.log && w2.store == w.store
  }

  lemma AllocationDecides(w: World, id: nat, c: Choice)
    requires Valid(w.store) && id in w.workers && w.workers[id].pc.ExecAllocate?
    requires !w.workers[id].pc.cmd.record.replayed
    requires w.workers[id].pc.cmd.Key() !in w.store.executions
    ensures
      var cmd, w2 := w.workers[id].pc.cmd, AdvanceExecute(w, id, c);
      if ScopeOf(cmd).Some? && ExpiryOf(w.store, ScopeOf(cmd).value).Some?
         && cmd.record.identity.createdAt < ExpiryOf(w.store, ScopeOf(cmd).value).value
      then IsTurnedAway(w, w2)
      else IsAdmitted(w, w2, cmd)
  {
    hide Valid, CatalogMajor, Allocate, InspectAllocation;
    var pc := w.workers[id].pc;
    var a := FullAllocation(pc.cmd, pc.report, pc.reservation, c.text);
    if a.idempotency.Some? {
      Calls.TakenUntilExpiry(w.store, a);
    } else {
      Calls.KeylessIsAlwaysNew(w.store, a);
      KeylessRow(w.store, a);
    }
  }

  lemma KeylessRow(s: Store, a: Allocation)
    requires !a.record.replayed && a.idempotency.None? && a.Key() !in s.executions
    ensures
      var t := Allocate(s, a).0;
      && a.Key() in t.executions
      && t.executions[a.Key()].record == a.record && t.executions[a.Key()].request == a.request
  {
  }

  /** In every run a request with a fresh execution ID is admitted if and only if its scope has no open window:
      no execution was ever admitted under the scope, or the last one's window ended no later than this request's
      creation. A request without an idempotency key is always admitted. */
  lemma AdmittedIffNoOpenWindow(actions: seq<Action>, id: nat, c: Choice)
    requires id in Run(actions).workers && Run(actions).workers[id].pc.ExecAllocate?
    requires !Run(actions).workers[id].pc.cmd.record.replayed
    requires Run(actions).workers[id].pc.cmd.Key() !in Run(actions).store.executions
    ensures ScopeOf(Run(actions).workers[id].pc.cmd).Some? <==> Run(actions).workers[id].pc.cmd.idempotencyKey.Some?
    ensures
      var w, w2 := Run(actions), Run(actions + [Go(id, c)]);
      var cmd := w.workers[id].pc.cmd;
      if ScopeOf(cmd).Some? && WindowEnd(w.log, ScopeOf(cmd).value).Some?
         && cmd.record.identity.createdAt < WindowEnd(w.log, ScopeOf(cmd).value).value
      then IsTurnedAway(w, w2)
      else IsAdmitted(w, w2, cmd)
  {
    hide MarkersInv, EntriesInv, OutcomesInv, EffectsInv, FinalizedInv, AdmissionsInv, WorkersInv, Valid;
    hide Run, AdvanceExecute, CatalogMajor, IsAdmitted, IsTurnedAway;
    RunInv(actions);
    RunIndexes(actions);
    LastStep(actions, Go(id, c));
    AllocationDecides(Run(actions), id, c);
  }

  /** The text before the first dot, or all of it if there is none. */
  lemma {:induction false} MajorIsBeforeTheDot(version: string)
    ensures
      var major := CatalogMajor(version);
      && major <= version && '.' !in major
      && (|major| < |version| ==> version[|major|] == '.')
  {
    if version != "" && version[0] != '.' {
      MajorIsBeforeTheDot(version[1..]);
    }
  }
}
