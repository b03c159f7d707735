// What becomes of a request, turn by turn: the usage that the gate answered
// reaches the row or is released, a replay is observed, and a request that
// waits is answered when, and only when, its execution is finished.
module EngineRequests {
  import opened Wrappers
  import opened ExecutionRecords
  import opened ExecutionStore
  import Calls = StoreRuns
  import opened ExecutionEngine
  import opened EngineInvariants
  import opened EngineSteps
  import opened EngineProgress

  // ------------------------------------------ Usage from request to row

  lemma ReserveGoesOn(w: World, id: nat, c: Choice)
    requires id in w.workers && w.workers[id].pc.ExecReserve? && !c.fails && !c.alt
    ensures
      var w2 := Advance(w, id, c);
      && id in w2.workers && w2.workers[id].process == w.workers[id].process
      && w2.workers[id].pc == ExecAllocate(w.workers[id].pc.cmd, c.report, c.reservation)
  {
  }

  lemma AllocatedContext(s: Store, a: Allocation)
    requires a.Key() !in s.executions && a.Key() in Allocate(s, a).0.executions
    ensures
      var row := Allocate(s, a).0.executions[a.Key()];
      && row.resumeContext == (if a.recovery.None? then None else Some(a.recovery.value.resumeContext))
      && row.webhookEventId == (if a.recovery.None? then None else Some(a.recovery.value.webhookEventId))
      && row.dispatchStartedAt.None? && row.usageFinalizedAt.None? && row.webhookPublishedAt.None?
  {
  }

  lemma AllocateGoesOn(w: World, id: nat, c: Choice)
    requires id in w.workers && w.workers[id].pc.ExecAllocate?
    ensures
      var pc, w2 := w.workers[id].pc, Advance(w, id, c);
      var key, record := pc.cmd.Key(), pc.cmd.record;
      && id in w2.workers && w2.workers[id].process == w.workers[id].process
      && (if key !in w.store.executions && key in w2.store.executions
          then if pc.cmd.request.sync
               then w2.workers[id].pc
                    == RunAcquire(Locals(SyncCaller, key, record, pc.report, pc.reservation, Some(c.text)))
               else w2.workers[id].pc.Done?
          else (|| w2.workers[id].pc == ExecReleaseUnused(key, pc.reservation)
                || (w2.workers[id].pc.ExecReplay? && w2.workers[id].pc.cmd == pc.cmd
                    && w2.workers[id].pc.reservation == pc.reservation)))
  {
    hide Allocate, ScopeOf, Locals, FullAllocation;
    var pc := w.workers[id].pc;
    AllocationAddsRow(w.store, FullAllocation(pc.cmd, pc.report, pc.reservation, c.text));
    AllocationKey(pc.cmd, pc.report, pc.reservation, c.text);
  }

  lemma AllocationKey(
    cmd: ExecuteCommand, report: Option<UsageReport>, reservation: Option<UsageReservation>, eventId: string)
    ensures FullAllocation(cmd, report, reservation, eventId).Key() == cmd.Key()
  {
  }

  lemma AllocationAddsRow(s: Store, a: Allocation)
    ensures
      var (t, result) := Allocate(s, a);
      a.Key() !in s.executions && a.Key() in t.executions <==> result.Ok? && result.value.Allocated?
  {
  }

  /** What the usage gate answered a request is what its execution will be billed by: if the request is admitted in
      its next turn, whatever the others did, the row's resume context holds exactly the report and the reservation
      of the gate's answer, the row has the event ID drawn in that turn, and nothing is recorded as done yet. */
  lemma UsageReachesTheRow(actions: seq<Action>, id: nat, reserve: Turn, allocate: Turn)
    requires id in Run(actions).workers && Run(actions).workers[id].pc.ExecReserve?
    requires !reserve.choice.fails && !reserve.choice.alt
    requires
      var process := Run(actions).workers[id].process;
      Undisturbed(reserve.others, id, process) && Undisturbed(allocate.others, id, process)
    requires
      var k, reserved := Run(actions).workers[id].pc.cmd.Key(), TurnEnd(actions, id, reserve);
      && k !in Run(TurnStart(reserved, allocate)).store.executions
      && k in Run(TurnEnd(reserved, id, allocate)).store.executions
    ensures
      var cmd := Run(actions).workers[id].pc.cmd;
      var row := Run(TurnEnd(TurnEnd(actions, id, reserve), id, allocate)).store.executions[cmd.Key()];
      && row.resumeContext.Some? && row.resumeContext.value.version == 1
      && row.resumeContext.value.usageReport == reserve.choice.report
      && row.resumeContext.value.usageReservation == reserve.choice.reservation
      && row.webhookEventId == Some(allocate.choice.text)
      && row.dispatchStartedAt.None? && row.usageFinalizedAt.None? && row.webhookPublishedAt.None?
  {
    hide Inv, Run, Advance, Extends, TurnStart, TurnEnd;
    TurnSteps(actions, id, reserve);
    ReserveGoesOn(Run(TurnStart(actions, reserve)), id, reserve.choice);
    var reserved := TurnEnd(actions, id, reserve);
    TurnSteps(reserved, id, allocate);
    AllocatedRowHolds(Run(TurnStart(reserved, allocate)), id, allocate.choice);
  }

  lemma AllocatedRowHolds(w: World, id: nat, c: Choice)
    requires id in w.workers && w.workers[id].pc.ExecAllocate?
    requires w.workers[id].pc.cmd.Key() !in w.store.executions
    requires w.workers[id].pc.cmd.Key() in Advance(w, id, c).store.executions
    ensures
      var pc, row := w.workers[id].pc, Advance(w, id, c).store.executions[w.workers[id].pc.cmd.Key()];
      && row.resumeContext.Some? && row.resumeContext.value.version == 1
      && row.resumeContext.value.usageReport == pc.report
      && row.resumeContext.value.usageReservation == pc.reservation
      && row.webhookEventId == Some(c.text)
      && row.dispatchStartedAt.None? && row.usageFinalizedAt.None? && row.webhookPublishedAt.None?
  {
    hide Allocate, ScopeOf, Locals;
    var pc := w.workers[id].pc;
    AllocatedContext(w.store, FullAllocation(pc.cmd, pc.report, pc.reservation, c.text));
  }

  lemma UnusedGoesOn(w: World, id: nat, c: Choice)
    requires id in w.workers && (w.workers[id].pc.ExecReleaseUnused? || w.workers[id].pc.ExecReplay?)
    requires w.workers[id].pc.reservation.Some?
    ensures
      var pc := w.workers[id].pc;
      Advance(w, id, c).log
      == w.log + [ReservationReleased(id, if pc.ExecReplay? then pc.cmd.Key() else pc.key)]
  {
  }

  /** A reservation that is not used is released: if a request with a reservation is not admitted, because it is
      replayed, in conflict or rejected, its next turn releases the reservation, whatever the others do. */
  lemma UnusedReservationIsReleased(actions: seq<Action>, id: nat, allocate: Turn, release: Turn)
    requires id in Run(actions).workers && Run(actions).workers[id].pc.ExecAllocate?
    requires Run(actions).workers[id].pc.reservation.Some?
    requires
      var process := Run(actions).workers[id].process;
      Undisturbed(allocate.others, id, process) && Undisturbed(release.others, id, process)
    requires
      var k := Run(actions).workers[id].pc.cmd.Key();
      k in Run(TurnEnd(actions, id, allocate)).store.executions ==>
        k in Run(TurnStart(actions, allocate)).store.executions
    ensures
      var tried := TurnEnd(actions, id, allocate);
      Run(TurnEnd(tried, id, release)).log
      == Run(TurnStart(tried, release)).log + [ReservationReleased(id, Run(actions).workers[id].pc.cmd.Key())]
  {
    hide Inv, Run, Advance, Extends, TurnStart, TurnEnd;
    TurnSteps(actions, id, allocate);
    AllocateGoesOn(Run(TurnStart(actions, allocate)), id, allocate.choice);
    var tried := TurnEnd(actions, id, allocate);
    TurnSteps(tried, id, release);
    UnusedGoesOn(Run(TurnStart(tried, release)), id, release.choice);
  }

  // ---------------------------------------------------------- Preflights

  lemma PreflightGoesOn(w: World, id: nat, c: Choice)
    requires id in w.workers && (w.workers[id].pc.ExecInspect? || w.workers[id].pc.ExecLateInspect?)
    ensures
      var pc, w2 := w.workers[id].pc, Advance(w, id, c);
      var seen := InspectAllocation(w.store, PreflightAllocation(pc.cmd));
      && id in w2.workers
      && w2.workers[id].pc
         == (if seen.Ok? && seen.value.WouldReplay? then ExecReplay(pc.cmd, seen.value.record, None)
             else if seen == Ok(Available) && pc.ExecInspect? then ExecReserve(pc.cmd) else Done)
  {
    hide InspectAllocation, PreflightAllocation;
  }

  lemma PreflightSees(s: Store, cmd: ExecuteCommand)
    requires Valid(s) && !cmd.record.replayed && ScopeOf(cmd).Some?
    ensures
      var scope, seen := ScopeOf(cmd).value, InspectAllocation(s, PreflightAllocation(cmd));
      if scope in s.idempotency && cmd.record.identity.createdAt < s.idempotency[scope].reservation.expiresAt then
        if s.idempotency[scope].reservation.requestHash == cmd.requestHash
        then && seen.Ok? && seen.value.WouldReplay? && s.idempotency[scope].Key() in s.executions
             && seen.value.record == s.executions[s.idempotency[scope].Key()].Public()
        else seen == Ok(WouldConflict)
      else seen == Ok(Available)
  {
    hide Valid, Allocate, CatalogMajor;
    var a := PreflightAllocation(cmd);
    Calls.TakenUntilExpiry(s, a);
    if ScopeOf(cmd).value in s.idempotency {
      Calls.EntryIsStored(s, ScopeOf(cmd).value);
    }
  }

  /** The preflight of a request under an idempotency key, and the late one after its usage was refused: if the
      window of its scope is open it goes on to replay the scope's execution when that was made for the same
      request, and is in conflict when it was not; if no window is open, the first goes on to reserve usage and the
      late one ends. */
  lemma PreflightDecides(actions: seq<Action>, id: nat, turn: Turn)
    requires id in Run(actions).workers
    requires Run(actions).workers[id].pc.ExecInspect? || Run(actions).workers[id].pc.ExecLateInspect?
    requires Undisturbed(turn.others, id, Run(actions).workers[id].process)
    requires
      var cmd := Run(actions).workers[id].pc.cmd;
      !cmd.record.replayed && ScopeOf(cmd).Some?
    ensures
      var pc, s, w := Run(actions).workers[id].pc, Run(TurnStart(actions, turn)).store, Run(TurnEnd(actions, id, turn));
      var scope := ScopeOf(pc.cmd).value;
      && id in w.workers
      && var next := w.workers[id].pc;
      if scope in s.idempotency && pc.cmd.record.identity.createdAt < s.idempotency[scope].reservation.expiresAt then
        if s.idempotency[scope].reservation.requestHash == pc.cmd.requestHash
        then && s.idempotency[scope].Key() in s.executions
             && next == ExecReplay(pc.cmd, s.executions[s.idempotency[scope].Key()].Public(), None)
        else next.Done?
      else next == if pc.ExecInspect? then ExecReserve(pc.cmd) else Done
  {
    hide Inv, Run, Advance, Extends, TurnStart, TurnEnd, ScopeOf, InspectAllocation, PreflightAllocation, Valid;
    TurnSteps(actions, id, turn);
    var v := Run(TurnStart(actions, turn));
    InvWorkers(v);
    PreflightSees(v.store, Run(actions).workers[id].pc.cmd);
    PreflightGoesOn(v, id, turn.choice);
  }

  // ------------------------------------------------------------ Replays

  lemma ObserveGoesOn(w: World, id: nat, c: Choice)
    requires id in w.workers && w.workers[id].pc.ExecMarkReplayed?
    requires
      var pc := w.workers[id].pc;
      ExecutionKey(pc.cmd.projectId, pc.record.identity.executionId) in w.store.executions
    ensures
      var pc, w2 := w.workers[id].pc, Advance(w, id, c);
      var k := ExecutionKey(pc.cmd.projectId, pc.record.identity.executionId);
      && k in w2.store.executions && id in w2.workers
      && w2.store.executions[k].replayObservedAt == w.store.executions[k].replayObservedAt.Or(Some(c.now))
      && w2.workers[id].pc == if pc.record.Terminal() then ExecReplayRead(k, pc.record)
                              else if pc.cmd.request.sync then ExecWait(pc.cmd, pc.record) else Done
  {
  }

  lemma ReplayedRow(w: World, id: nat)
    requires Inv(w) && id in w.workers && w.workers[id].pc.ExecMarkReplayed?
    ensures
      var pc := w.workers[id].pc;
      ExecutionKey(pc.cmd.projectId, pc.record.identity.executionId) in w.store.executions
  {
    hide Valid, MarkersInv, EntriesInv, OutcomesInv, EffectsInv, FinalizedInv, AdmissionsInv;
    MyHeld(w, id);
  }

  /** A replay is observed: one turn of a replayed request leaves its execution marked as replayed, at the time of
      the first replay of all, and the request goes on to the finished record, to wait for it, or to its answer. */
  lemma ReplayIsObserved(actions: seq<Action>, id: nat, turn: Turn)
    requires id in Run(actions).workers && Run(actions).workers[id].pc.ExecMarkReplayed?
    requires Undisturbed(turn.others, id, Run(actions).workers[id].process)
    ensures
      var pc, v, w := Run(actions).workers[id].pc, Run(TurnStart(actions, turn)), Run(TurnEnd(actions, id, turn));
      var k := ExecutionKey(pc.cmd.projectId, pc.record.identity.executionId);
      && k in v.store.executions && k in w.store.executions && id in w.workers
      && (if v.store.executions[k].replayObservedAt.Some?
          then w.store.executions[k].replayObservedAt == v.store.executions[k].replayObservedAt
          else w.store.executions[k].replayObservedAt == Some(turn.choice.now))
      && (pc.record.Terminal() ==> w.workers[id].pc == ExecReplayRead(k, pc.record))
      && (!pc.record.Terminal() && pc.cmd.request.sync ==> w.workers[id].pc == ExecWait(pc.cmd, pc.record))
  {
    hide Inv, Run, Advance, Extends, TurnStart, TurnEnd;
    TurnSteps(actions, id, turn);
    ReplayedRow(Run(TurnStart(actions, turn)), id);
    ObserveGoesOn(Run(TurnStart(actions, turn)), id, turn.choice);
  }

  lemma TicketIsHeld(w: World, id: nat)
    requires Inv(w) && id in w.workers && w.workers[id].pc.ExecAwaitTerminal?
    ensures
      var pc := w.workers[id].pc;
      pc.ticket < |w.store.tickets| && w.store.tickets[pc.ticket] == pc.waited
  {
    hide Valid, MarkersInv, EntriesInv, OutcomesInv, EffectsInv, FinalizedInv, AdmissionsInv;
    MyHeld(w, id);
  }

  lemma {:induction false} DeliveryIsFound(deliveries: seq<Delivery>, i: nat)
    requires i < |deliveries|
    ensures FindDelivery(deliveries, deliveries[i].ticket).Some?
  {
    if i > 0 && deliveries[0].ticket != deliveries[i].ticket {
      DeliveryIsFound(deliveries[1..], i - 1);
    }
  }

  /** A ticket is answered with the execution's outcome if it is finished, and not answered if it is not. */
  lemma AnsweredIffFinished(s: Store, t: nat)
    requires Valid(s) && t < |s.tickets|
    ensures
      var k, found := s.tickets[t], FindDelivery(s.deliveries, t);
      && (found.Some? <==> Finished(s, k))
      && (found.Some? ==> SameUpToReplay(found.value, s.executions[k].record))
  {
    hide RowsValid, IndexValid, SameUpToReplay;
    assert TicketValid(s, t);
    var found := FindDelivery(s.deliveries, t);
    if found.Some? {
      var i :| 0 <= i < |s.deliveries| && s.deliveries[i] == Delivery(t, found.value);
      assert DeliveryValid(s, i);
    }
    if Finished(s, s.tickets[t]) {
      var i :| 0 <= i < |s.deliveries| && s.deliveries[i].ticket == t;
      DeliveryIsFound(s.deliveries, i);
    }
  }

  lemma AwaitGoesOn(w: World, id: nat, c: Choice)
    requires id in w.workers && w.workers[id].pc.ExecAwaitTerminal?
    ensures
      var pc, w2 := w.workers[id].pc, Advance(w, id, c);
      var found := FindDelivery(w.store.deliveries, pc.ticket);
      if found.None? then w2 == w
      else id in w2.workers && w2.workers[id].pc == ExecReplayRead(pc.waited, found.value) && w2.store == w.store
  {
  }

  /** A request that waits for an execution goes on in its first turn after the execution is finished, with its
      outcome, and never before. */
  lemma WaiterGoesOnIffFinished(actions: seq<Action>, id: nat, turn: Turn)
    requires id in Run(actions).workers && Run(actions).workers[id].pc.ExecAwaitTerminal?
    requires Undisturbed(turn.others, id, Run(actions).workers[id].process)
    ensures
      var pc, v, w := Run(actions).workers[id].pc, Run(TurnStart(actions, turn)), Run(TurnEnd(actions, id, turn));
      && id in w.workers && pc.waited in v.store.executions
      && var row, next := v.store.executions[pc.waited], w.workers[id].pc;
      if row.record.Terminal()
      then && next.ExecReplayRead? && next.replayed == pc.waited
           && next.record.phase == row.record.phase && next.record.identity == row.record.identity
      else next == pc
  {
    hide Inv, Run, Advance, Extends, TurnStart, TurnEnd, Valid;
    TurnSteps(actions, id, turn);
    var v := Run(TurnStart(actions, turn));
    TicketIsHeld(v, id);
    InvWorkers(v);
    WaitedRow(v.store, Run(actions).workers[id].pc.ticket);
    AnsweredIffFinished(v.store, Run(actions).workers[id].pc.ticket);
    AwaitGoesOn(v, id, turn.choice);
  }

  lemma WaitedRow(s: Store, t: nat)
    requires Valid(s) && t < |s.tickets|
    ensures s.tickets[t] in s.executions
  {
    hide RowsValid, IndexValid;
    assert TicketValid(s, t);
  }
}
