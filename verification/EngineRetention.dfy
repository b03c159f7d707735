// The configured idempotency retention reaches every window that is promised:
// a command carries its engine's retention from the request to the allocation.
module EngineRetention {
  import opened Wrappers
  import opened JavaScript
  import opened ExecutionRecords
  import opened ExecutionStore
  import opened ExecutionEngine
  import opened EngineMoves
  import opened EngineTheorems

  /** The admission that a command asks for: under its scope, for a day or its retention, whichever is longer. */
  function Admission(cmd: ExecuteCommand): Event {
    var createdAt := cmd.record.identity.createdAt;
    Admitted(
      cmd.Key(), ScopeOf(cmd), createdAt,
      if cmd.idempotencyKey.None? then 0 else createdAt + Max(DAY_MS, cmd.retentionMs))
  }

  predicate Carries(pc: Pc, cmds: set<ExecuteCommand>) {
    CommandOf(pc).Some? ==> CommandOf(pc).value in cmds
  }

  ghost predicate Promises(e: Event, cmds: set<ExecuteCommand>) {
    e.Admitted? ==> exists cmd <- cmds :: e == Admission(cmd)
  }

  /** Whatever is executed and whatever was admitted is one of these commands. */
  ghost predicate Commanded(w: World, cmds: set<ExecuteCommand>) {
    && (forall j <- w.workers :: Carries(w.workers[j].pc, cmds))
    && (forall e <- w.log :: Promises(e, cmds))
  }

  lemma MovesOneKeeps(w: World, w2: World, id: nat, cmds: set<ExecuteCommand>)
    requires id in w.workers && Commanded(w, cmds) && MovesOne(w, w2, id)
    ensures Commanded(w2, cmds)
  {
    hide Promises;
    assert w2.log == w.log || w2.log == w.log + [w2.log[|w.log|]];
    assert w2.log != w.log ==> Promises(w2.log[|w.log|], cmds) by {
      AnyOtherPromises(w2.log, |w.log|, cmds);
    }
  }

  lemma AnyOtherPromises(log: seq<Event>, i: nat, cmds: set<ExecuteCommand>)
    ensures i < |log| && !log[i].Admitted? ==> Promises(log[i], cmds)
  {
  }

  lemma AdmissionPromises(cmd: ExecuteCommand, a: Allocation, cmds: set<ExecuteCommand>)
    requires cmd in cmds && a.idempotency == IdempotencyReservationOf(cmd)
    ensures
      var expiresAt := if a.idempotency.None? then 0 else a.idempotency.value.expiresAt;
      Promises(Admitted(cmd.Key(), ScopeOf(cmd), cmd.record.identity.createdAt, expiresAt), cmds)
  {
    hide CatalogMajor, ScopeOf;
    var expiresAt := if a.idempotency.None? then 0 else a.idempotency.value.expiresAt;
    assert Admitted(cmd.Key(), ScopeOf(cmd), cmd.record.identity.createdAt, expiresAt) == Admission(cmd);
  }

  lemma AllocateCarries(w: World, id: nat, c: Choice, cmds: set<ExecuteCommand>)
    requires id in w.workers && w.workers[id].pc.ExecAllocate? && Commanded(w, cmds)
    ensures Commanded(AdvanceExecute(w, id, c), cmds)
  {
    hide Allocate, IdempotencyReservationOf, ScopeOf, Promises;
    var cmd := w.workers[id].pc.cmd;
    assert Carries(w.workers[id].pc, cmds);
    AdmissionPromises(
      cmd, FullAllocation(cmd, w.workers[id].pc.report, w.workers[id].pc.reservation, c.text), cmds);
  }

  lemma AbortCarries(w: World, id: nat, c: Choice, cmds: set<ExecuteCommand>)
    requires id in w.workers && Commanded(w, cmds) && w.workers[id].pc.CancelAbort?
    ensures Commanded(AdvanceOther(w, id, c), cmds)
  {
    hide RunKey, Promises;
  }

  lemma StartCarries(w: World, id: nat, c: Choice, cmds: set<ExecuteCommand>)
    requires id in w.workers && Commanded(w, cmds) && w.workers[id].pc.StartReconcile?
    ensures Commanded(AdvanceReconcile(w, id, c), cmds)
  {
    hide Promises;
  }

  lemma AdvanceCarries(w: World, id: nat, c: Choice, cmds: set<ExecuteCommand>)
    requires id in w.workers && Commanded(w, cmds)
    ensures Commanded(Advance(w, id, c), cmds)
  {
    hide AdvanceExecute, AdvanceJob, AdvanceRun, AdvanceOther, AdvanceReconcile, Commanded, MovesOne;
    var pc := w.workers[id].pc;
    if pc.ExecAllocate? {
      AllocateCarries(w, id, c, cmds);
    } else if pc.CancelAbort? {
      AbortCarries(w, id, c, cmds);
    } else if pc.StartReconcile? {
      StartCarries(w, id, c, cmds);
    } else {
      AdvanceMoves(w, id, c);
      if Advance(w, id, c) != w {
        MovesOneKeeps(w, Advance(w, id, c), id, cmds);
      }
    }
  }

  lemma StepCarries(w: World, action: Action, cmds: set<ExecuteCommand>)
    requires Commanded(w, cmds)
    requires action.StartExecute? ==> action.cmd in cmds
    ensures Commanded(Step(w, action), cmds)
  {
    hide Advance, Promises;
    if action.Go? && action.worker in w.workers {
      AdvanceCarries(w, action.worker, action.choice, cmds);
    }
  }

  lemma {:induction false} RunCarries(actions: seq<Action>, cmds: set<ExecuteCommand>)
    requires forall a <- actions :: a.StartExecute? ==> a.cmd in cmds
    ensures Commanded(Run(actions), cmds)
  {
    hide Step, Commanded;
    if actions == [] {
      NothingCommanded(cmds);
    } else {
      RunCarries(actions[..|actions| - 1], cmds);
      StepCarries(Run(actions[..|actions| - 1]), actions[|actions| - 1], cmds);
    }
  }

  lemma NothingCommanded(cmds: set<ExecuteCommand>)
    ensures Commanded(INITIAL, cmds)
  {
  }

  function Commands(actions: seq<Action>): set<ExecuteCommand> {
    set a | a in actions && a.StartExecute? :: a.cmd
  }

  /** The window is exact: in every run each admission is that of a request which some client made, under that
      request's scope, for its creation time plus a day or its configured retention, whichever is longer. */
  lemma WindowIsExact(actions: seq<Action>, e: Event) returns (n: nat)
    requires e in Run(actions).log && e.Admitted?
    ensures n < |actions| && actions[n].StartExecute?
    ensures
      var cmd := actions[n].cmd;
      && e.key == cmd.Key() && e.scope == ScopeOf(cmd) && e.createdAt == cmd.record.identity.createdAt
      && (e.scope.Some? ==> e.expiresAt == e.createdAt + Max(86400000, cmd.retentionMs))
  {
    hide Run, Carries, CatalogMajor;
    RunCarries(actions, Commands(actions));
    assert Promises(e, Commands(actions));
    var cmd :| cmd in Commands(actions) && e == Admission(cmd);
    n :| 0 <= n < |actions| && actions[n].StartExecute? && actions[n].cmd == cmd;
  }

  /** If every engine is configured with at least this retention, so is every window that is promised. */
  lemma ConfiguredRetention(actions: seq<Action>, retention: int)
    requires forall a <- actions :: a.StartExecute? ==> a.cmd.retentionMs >= retention
    ensures RetentionAtLeast(Run(actions).log, retention)
  {
    hide Run, ScopeOf;
    forall e <- Run(actions).log | e.Admitted? && e.scope.Some? ensures e.createdAt + retention <= e.expiresAt {
      var n := WindowIsExact(actions, e);
    }
  }

  /** For any clock, the i-th and j-th executions admitted under one scope were created at least (j - i) spans
      apart, the span being a day or the configured retention, whichever is longer. */
  lemma ConfiguredSpacing(actions: seq<Action>, scope: ScopeKey, retention: int)
    requires forall a <- actions :: a.StartExecute? ==> a.cmd.retentionMs >= retention
    ensures
      var created := ScopeCreations(Run(actions).log, scope);
      forall i, j :: 0 <= i < j < |created| ==> created[j] - created[i] >= (j - i) * Max(DAY_MS, retention)
  {
    hide Run;
    ConfiguredRetention(actions, retention);
    IdempotencySpacing(actions, scope, retention);
  }

  /** The provider sees at most one dispatch per scope per configured span of creation times. */
  lemma ConfiguredDispatches(
    actions: seq<Action>, scope: ScopeKey, retention: int, i: nat, j: nat, m: nat, n: nat)
    requires forall a <- actions :: a.StartExecute? ==> a.cmd.retentionMs >= retention
    requires i < |Run(actions).log| && j < |Run(actions).log| && m < |Run(actions).log| && n < |Run(actions).log|
    requires
      var log := Run(actions).log;
      && log[i].AdapterEntered? && log[j].AdapterEntered? && i != j
      && log[m].Admitted? && log[m].key == log[i].key && log[m].scope == Some(scope)
      && log[n].Admitted? && log[n].key == log[j].key && log[n].scope == Some(scope)
    ensures
      var log := Run(actions).log;
      && log[i].key != log[j].key
      && (|| log[m].createdAt + Max(DAY_MS, retention) <= log[n].createdAt
          || log[n].createdAt + Max(DAY_MS, retention) <= log[m].createdAt)
  {
    hide Run;
    ConfiguredRetention(actions, retention);
    DispatchesSpaced(actions, scope, retention, i, j, m, n);
  }
}
