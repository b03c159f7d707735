// What the history tells about every row and about every worker: each stored
// execution was admitted once, under the scope that its row still shows, and a
// run that lost to a cancellation releases nothing for the rest of its life.
module EngineHistory {
  import opened Wrappers
  import opened JavaScript
  import opened ExecutionRecords
  import opened ExecutionStore
  import Calls = StoreRuns
  import opened ExecutionEngine
  import opened EngineMoves
  import opened EngineInvariants
  import opened EngineSteps
  import opened EngineTheorems
  import opened EngineRetention

  // ------------------------------------------------------ Rows are admitted

  /** The idempotency scope of a stored execution, read off its row. */
  function RowScope(k: ExecutionKey, row: StoredExecution): Option<ScopeKey> {
    match row.idempotencyKey
    case None => None
    case Some(key) =>
      Some(ScopeKey(
             k.projectId,
             IdempotencyScope(
               key,
               row.request.tool,
               row.request.userId,
               row.request.connectionId.GetOr("default"),
               CatalogMajor(row.record.identity.catalogVersion))))
  }

  predicate IsAdmission(e: Event, k: ExecutionKey, row: StoredExecution) {
    e.Admitted? && e.key == k && e.scope == RowScope(k, row)
  }

  ghost predicate Recorded(w: World) {
    forall k <- w.store.executions :: exists e <- w.log :: IsAdmission(e, k, w.store.executions[k])
  }

  lemma ScopeStays(k: ExecutionKey, a: StoredExecution, b: StoredExecution)
    requires RowExtends(a, b)
    ensures RowScope(k, a) == RowScope(k, b)
  {
    hide CatalogMajor;
  }

  /** While no row is added, admissions stay on record. */
  lemma RecordedStays(w: World, w2: World)
    requires Recorded(w) && Extends(w.store, w2.store) && w.log <= w2.log
    requires w2.store.executions.Keys == w.store.executions.Keys
    ensures Recorded(w2)
  {
    hide RowScope, RowExtends;
    forall k <- w2.store.executions ensures exists e <- w2.log :: IsAdmission(e, k, w2.store.executions[k]) {
      assert RowExtends(w.store.executions[k], w2.store.executions[k]);
      ScopeStays(k, w.store.executions[k], w2.store.executions[k]);
      var e :| e in w.log && IsAdmission(e, k, w.store.executions[k]);
      assert e in w2.log;
    }
  }

  lemma NewRowScope(cmd: ExecuteCommand, a: Allocation, sequence: nat)
    requires a.idempotency == IdempotencyReservationOf(cmd) && a.projectId == cmd.projectId
    requires a.record == cmd.record && a.request == cmd.request
    ensures RowScope(cmd.Key(), NewRow(a, sequence)) == ScopeOf(cmd)
  {
    hide CatalogMajor;
  }

  /** An allocation adds one row and logs its admission, or changes nothing. */
  lemma AllocationRecords(w: World, id: nat, c: Choice)
    requires Inv(w) && id in w.workers && w.workers[id].pc.ExecAllocate? && Recorded(w)
    requires Extends(w.store, AdvanceExecute(w, id, c).store) && w.log <= AdvanceExecute(w, id, c).log
    ensures Recorded(AdvanceExecute(w, id, c))
  {
    hide Valid, MarkersInv, EntriesInv, OutcomesInv, EffectsInv, FinalizedInv, AdmissionsInv, WorkersInv;
    hide Extends, Recorded, Allocate, RowScope, ScopeOf, IdempotencyReservationOf, NewRow, Quiet, SameExpiries;
    var pc := w.workers[id].pc;
    var a := FullAllocation(pc.cmd, pc.report, pc.reservation, c.text);
    var (t, result) := Allocate(w.store, a);
    var w2 := AdvanceExecute(w, id, c);
    assert w2.store == t;
    if result.Ok? && result.value.Allocated? {
      AdmissionFacts(w.store, a);
      NewRowScope(pc.cmd, a, w.store.sequence + 1);
      InsertKeys(w.store, a);
      var e := w2.log[|w.log|];
      assert w2.log == w.log + [e] && IsAdmission(e, a.Key(), t.executions[a.Key()]);
      RecordedGrows(w, w2, a.Key(), e);
    } else {
      RejectedAllocation(w.store, a);
      RecordedStays(w, w2);
    }
  }

  lemma InsertKeys(s: Store, a: Allocation)
    ensures Insert(s, a).executions.Keys == s.executions.Keys + {a.Key()}
  {
  }

  lemma RecordedGrows(w: World, w2: World, key: ExecutionKey, admission: Event)
    requires Recorded(w) && Extends(w.store, w2.store) && w.log <= w2.log
    requires w2.store.executions.Keys == w.store.executions.Keys + {key}
    requires admission in w2.log && IsAdmission(admission, key, w2.store.executions[key])
    ensures Recorded(w2)
  {
    hide RowScope, RowExtends;
    forall k <- w2.store.executions ensures exists e <- w2.log :: IsAdmission(e, k, w2.store.executions[k]) {
      if k in w.store.executions {
        assert RowExtends(w.store.executions[k], w2.store.executions[k]);
        ScopeStays(k, w.store.executions[k], w2.store.executions[k]);
        var e :| e in w.log && IsAdmission(e, k, w.store.executions[k]);
        assert e in w2.log;
      }
    }
  }

  lemma AbortKeepsStore(w: World, id: nat, c: Choice)
    requires id in w.workers && w.workers[id].pc.CancelAbort?
    ensures AdvanceOther(w, id, c).store == w.store
  {
    hide RunKey;
  }

  lemma StartKeepsStore(w: World, id: nat, c: Choice)
    requires id in w.workers && w.workers[id].pc.StartReconcile?
    ensures AdvanceReconcile(w, id, c).store == w.store
  {
  }

  lemma StepRecords(w: World, action: Action)
    requires Inv(w) && Recorded(w)
    requires Extends(w.store, Step(w, action).store) && w.log <= Step(w, action).log
    ensures Recorded(Step(w, action))
  {
    hide Inv, Extends, Recorded, Advance, AdvanceExecute, AdvanceJob, AdvanceRun, AdvanceOther, AdvanceReconcile;
    var w2 := Step(w, action);
    if action.Go? && action.worker in w.workers {
      AdvanceRecords(w, action.worker, action.choice);
    } else {
      RecordedStays(w, w2);
    }
  }

  lemma AdvanceRecords(w: World, id: nat, c: Choice)
    requires Inv(w) && Recorded(w) && id in w.workers
    requires Extends(w.store, Advance(w, id, c).store) && w.log <= Advance(w, id, c).log
    ensures Recorded(Advance(w, id, c))
  {
    hide Inv, Extends, Recorded, AdvanceExecute, AdvanceJob, AdvanceRun, AdvanceOther, AdvanceReconcile;
    var pc := w.workers[id].pc;
    if pc.ExecAllocate? {
      AllocationRecords(w, id, c);
    } else {
      if pc.CancelAbort? {
        AbortKeepsStore(w, id, c);
      } else if pc.StartReconcile? {
        StartKeepsStore(w, id, c);
      } else {
        AdvanceMoves(w, id, c);
      }
      RecordedStays(w, Advance(w, id, c));
    }
  }

  lemma StepAdvancesStore(w: World, action: Action)
    requires Inv(w)
    ensures Extends(w.store, Step(w, action).store) && w.log <= Step(w, action).log
  {
    hide Inv, StepOk, Step, Extends;
    ActionKeeps(w, action);
    if Step(w, action) == w {
      Calls.ExtendsItself(w.store);
    } else {
      var e :| StepOk(w, Step(w, action), e);
      StepGrows(w, Step(w, action), e);
    }
  }

  lemma {:induction false} RunRecords(actions: seq<Action>)
    ensures Recorded(Run(actions))
  {
    hide Inv, Step, Recorded, Extends;
    if actions == [] {
      NothingRecorded();
    } else {
      var w := Run(actions[..|actions| - 1]);
      RunRecords(actions[..|actions| - 1]);
      RunInv(actions[..|actions| - 1]);
      StepAdvancesStore(w, actions[|actions| - 1]);
      StepRecords(w, actions[|actions| - 1]);
    }
  }

  lemma NothingRecorded()
    ensures Recorded(INITIAL)
  {
  }

  /** In every run each stored execution has exactly one admission in the history, with its creation time and
      with the scope that its row shows. */
  lemma AdmittedOnce(actions: seq<Action>, k: ExecutionKey) returns (m: nat)
    requires k in Run(actions).store.executions
    ensures
      var row, log := Run(actions).store.executions[k], Run(actions).log;
      && m < |log| && IsAdmission(log[m], k, row) && log[m].createdAt == row.record.identity.createdAt
      && forall n :: 0 <= n < |log| && log[n].Admitted? && log[n].key == k ==> n == m
  {
    hide Valid, WorkersInv, MarkersInv, EntriesInv, OutcomesInv, EffectsInv, FinalizedInv, Run, RowScope;
    RunInv(actions);
    RunRecords(actions);
    var log := Run(actions).log;
    var e :| e in log && IsAdmission(e, k, Run(actions).store.executions[k]);
    m :| 0 <= m < |log| && log[m] == e;
  }

  /** The provider sees at most one dispatch per scope per span, read off the store alone: two different
      executions that were dispatched and whose rows show one scope were created at least a configured retention
      apart, or a day if that is longer. */
  lemma ScopeIsDispatchedOncePerSpan(actions: seq<Action>, retention: int, i: nat, j: nat)
    requires forall a <- actions :: a.StartExecute? ==> a.cmd.retentionMs >= retention
    requires i < |Run(actions).log| && j < |Run(actions).log| && i != j
    requires Run(actions).log[i].AdapterEntered? && Run(actions).log[j].AdapterEntered?
    ensures
      var k, l := Run(actions).log[i].key, Run(actions).log[j].key;
      var rows := Run(actions).store.executions;
      && k != l && k in rows && l in rows
      && (RowScope(k, rows[k]).Some? && RowScope(k, rows[k]) == RowScope(l, rows[l]) ==>
            var a, b := rows[k].record.identity.createdAt, rows[l].record.identity.createdAt;
            a + Max(DAY_MS, retention) <= b || b + Max(DAY_MS, retention) <= a)
  {
    hide Run, RowScope, Carries;
    EnteredIsStored(actions, i);
    EnteredIsStored(actions, j);
    EnteredApart(actions, i, j);
    var k, l := Run(actions).log[i].key, Run(actions).log[j].key;
    var m := AdmittedOnce(actions, k);
    var n := AdmittedOnce(actions, l);
    if RowScope(k, Run(actions).store.executions[k]).Some?
       && RowScope(k, Run(actions).store.executions[k]) == RowScope(l, Run(actions).store.executions[l]) {
      ConfiguredDispatches(
        actions, RowScope(k, Run(actions).store.executions[k]).value, retention, i, j, m, n);
    }
  }

  lemma EnteredIsStored(actions: seq<Action>, i: nat)
    requires i < |Run(actions).log| && Run(actions).log[i].AdapterEntered?
    ensures Run(actions).log[i].key in Run(actions).store.executions
  {
    hide Valid, WorkersInv, OutcomesInv, EffectsInv, FinalizedInv, AdmissionsInv, Run;
    RunInv(actions);
    var w := Run(actions);
    var e := MarkerWon(w.log[i].worker, w.log[i].key);
    assert e in w.log[..i];
    assert e in w.log;
  }

  lemma EnteredApart(actions: seq<Action>, i: nat, j: nat)
    requires i < |Run(actions).log| && j < |Run(actions).log| && i != j
    requires Run(actions).log[i].AdapterEntered? && Run(actions).log[j].AdapterEntered?
    ensures Run(actions).log[i].key != Run(actions).log[j].key
  {
    hide Run;
    if Run(actions).log[i].key == Run(actions).log[j].key {
      AtMostOnceDispatch(actions, i, j);
    }
  }

  // ------------------------------------------------ Lost runs release nothing

  /** Worker `lost` is quitting, or gone for good, and has released nothing since the log was `from` long. */
  ghost predicate ReleasesNothing(w: World, lost: nat, from: nat) {
    && lost < w.nextWorker
    && (lost in w.workers ==> Quitting(w.workers[lost].pc))
    && from <= |w.log|
    && (forall n :: from <= n < |w.log| && w.log[n].ReservationReleased? ==> w.log[n].worker != lost)
  }

  lemma MoveReleasesNothing(w: World, w2: World, id: nat, lost: nat, from: nat)
    requires id in w.workers && ReleasesNothing(w, lost, from) && MovesOne(w, w2, id)
    ensures ReleasesNothing(w2, lost, from)
  {
    hide Quitting, CommandOf;
    forall n | from <= n < |w2.log| && w2.log[n].ReservationReleased? ensures w2.log[n].worker != lost {
      if n < |w.log| {
        assert w2.log[n] == w.log[n];
      }
    }
  }

  lemma AllocationReleasesNothing(w: World, id: nat, c: Choice, lost: nat, from: nat)
    requires id in w.workers && w.workers[id].pc.ExecAllocate? && ReleasesNothing(w, lost, from)
    ensures ReleasesNothing(AdvanceExecute(w, id, c), lost, from)
  {
    hide Allocate, FullAllocation, ScopeOf;
  }

  lemma AbortReleasesNothing(w: World, id: nat, c: Choice, lost: nat, from: nat)
    requires id in w.workers && w.workers[id].pc.CancelAbort? && ReleasesNothing(w, lost, from)
    ensures ReleasesNothing(AdvanceOther(w, id, c), lost, from)
  {
    hide RunKey;
  }

  lemma StartReleasesNothing(w: World, id: nat, c: Choice, lost: nat, from: nat)
    requires id in w.workers && w.workers[id].pc.StartReconcile? && ReleasesNothing(w, lost, from)
    ensures ReleasesNothing(AdvanceReconcile(w, id, c), lost, from)
  {
  }

  lemma AdvanceReleasesNothing(w: World, id: nat, c: Choice, lost: nat, from: nat)
    requires id in w.workers && ReleasesNothing(w, lost, from)
    ensures ReleasesNothing(Advance(w, id, c), lost, from)
  {
    hide ReleasesNothing, MovesOne, AdvanceExecute, AdvanceJob, AdvanceRun, AdvanceOther, AdvanceReconcile;
    var pc := w.workers[id].pc;
    if pc.ExecAllocate? {
      AllocationReleasesNothing(w, id, c, lost, from);
    } else if pc.CancelAbort? {
      AbortReleasesNothing(w, id, c, lost, from);
    } else if pc.StartReconcile? {
      StartReleasesNothing(w, id, c, lost, from);
    } else {
      AdvanceMoves(w, id, c);
      if Advance(w, id, c) != w {
        MoveReleasesNothing(w, Advance(w, id, c), id, lost, from);
      }
    }
  }

  lemma StepReleasesNothing(w: World, action: Action, lost: nat, from: nat)
    requires ReleasesNothing(w, lost, from)
    ensures ReleasesNothing(Step(w, action), lost, from)
  {
    hide Advance, Quitting;
    if action.Go? && action.worker in w.workers {
      AdvanceReleasesNothing(w, action.worker, action.choice, lost, from);
    }
  }

  lemma {:induction false} RunReleasesNothing(actions: seq<Action>, more: seq<Action>, lost: nat, from: nat)
    requires ReleasesNothing(Run(actions), lost, from)
    ensures ReleasesNothing(Run(actions + more), lost, from)
    decreases |more|
  {
    hide ReleasesNothing, Step;
    if more == [] {
      assert actions + more == actions;
    } else {
      var shorter := more[..|more| - 1];
      assert (actions + more)[..|actions + more| - 1] == actions + shorter;
      RunReleasesNothing(actions, shorter, lost, from);
      StepReleasesNothing(Run(actions + shorter), more[|more| - 1], lost, from);
    }
  }

  /** A run that lost to a cancellation reconciles the winner and never releases its reservation, whatever
      happens in any continuation. */
  lemma LostRunReleasesNothing(actions: seq<Action>, id: nat, c: Choice, more: seq<Action>, n: nat)
    requires id in Run(actions).workers && MayHaveLost(Run(actions).workers[id])
    requires
      var k := Run(actions).workers[id].pc.l.key;
      k in Run(actions).store.executions && Run(actions).store.executions[k].record.phase.Cancelled?
    requires |Run(actions).log| <= n < |Run(actions + [Go(id, c)] + more).log|
    ensures
      var e := Run(actions + [Go(id, c)] + more).log[n];
      e.ReservationReleased? ==> e.worker != id
  {
    hide Inv, Run, AdvanceRun, ReleasesNothing;
    var w := Run(actions);
    RunInv(actions);
    LostRunReconcilesWinner(w, id, c);
    LastStep(actions, Go(id, c));
    LostRunQuits(w, id, c);
    RunReleasesNothing(actions + [Go(id, c)], more, id, |w.log|);
    ReleasedNothing(Run(actions + [Go(id, c)] + more), id, |w.log|, n);
  }

  lemma LastStep(actions: seq<Action>, action: Action)
    ensures Run(actions + [action]) == Step(Run(actions), action)
  {
    hide Step;
    assert (actions + [action])[..|actions|] == actions;
  }

  lemma ReleasedNothing(w: World, lost: nat, from: nat, n: nat)
    requires ReleasesNothing(w, lost, from) && from <= n < |w.log|
    ensures w.log[n].ReservationReleased? ==> w.log[n].worker != lost
  {
  }

  lemma LostRunQuits(w: World, id: nat, c: Choice)
    requires Inv(w) && id in w.workers && MayHaveLost(w.workers[id])
    requires AdvanceRun(w, id, c).workers[id].pc.StartReconcile?
    requires AdvanceRun(w, id, c).workers[id].pc.after.AfterWinner?
    ensures ReleasesNothing(Step(w, Go(id, c)), id, |w.log|)
  {
    hide Valid, MarkersInv, EntriesInv, OutcomesInv, EffectsInv, FinalizedInv, AdmissionsInv, HeldInv, HeldBy;
    hide GetRecoverable, RowInput;
  }
}
