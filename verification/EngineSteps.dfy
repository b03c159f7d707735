// Every step of the engine meets its obligations: one lemma per program point.
// The induction over runs is in EngineTheorems.dfy.
module EngineSteps {
  import opened Wrappers
  import opened JavaScript
  import opened ExecutionRecords
  import opened ExecutionStore
  import Calls = StoreRuns
  import opened ExecutionEngine
  import opened EngineInvariants

  ghost predicate Keeps(w: World, w2: World) {
    exists e :: StepOk(w, w2, e)
  }

  // ------------------------------------------------------ Shapes of a step

  /** A store change that sets no marker and ends no record as succeeded or cancelled. */
  ghost predicate RowQuiet(s: Store, t: Store, k: ExecutionKey)
    requires k in t.executions
  {
    var b := t.executions[k];
    if k !in s.executions then b.record.phase.Pending? && b.dispatchStartedAt.None?
    else
      && b.dispatchStartedAt == s.executions[k].dispatchStartedAt
      && (b.record == s.executions[k].record || b.record.phase.Running? || b.record.phase.Failed?)
  }

  ghost predicate Quiet(s: Store, t: Store) {
    && Valid(t) && Extends(s, t)
    && (forall k <- t.executions :: RowQuiet(s, t, k))
  }

  ghost predicate SameExpiries(s: Store, t: Store) {
    forall sk :: ExpiryOf(s, sk) == ExpiryOf(t, sk)
  }

  lemma QuietItself(s: Store)
    requires Valid(s)
    ensures Quiet(s, s) && SameExpiries(s, s)
  {
    hide Valid;
    Calls.ExtendsItself(s);
  }

  /** Workers that a step does not move keep what they hold. */
  lemma OthersKeep(w: World, w2: World, e: Option<Event>, j: nat)
    requires WorkersInv(w) && Extends(w.store, w2.store) && w2.log == w.log + EventSeq(e)
    requires j in w.workers && j in w2.workers && w2.workers[j].pc == w.workers[j].pc
    requires e.Some? && e.value.ReconciliationRead? ==> e.value.worker != j
    ensures HeldInv(w2.store, w2.log, HeldBy(j, w2.workers[j].pc)) && ArrivalOk(w, w2, e, j)
  {
    hide Extends, HeldInv, HeldBy;
    HeldStable(w.store, w2.store, w.log, w2.log, HeldBy(j, w.workers[j].pc));
  }

  ghost predicate Placed(w: World, w2: World, e: Option<Event>, j: nat)
    requires j in w2.workers
  {
    && j < w2.nextWorker
    && HeldInv(w2.store, w2.log, HeldBy(j, w2.workers[j].pc))
    && ArrivalOk(w, w2, e, j)
  }

  lemma StepFromParts(w: World, w2: World, e: Option<Event>)
    requires Valid(w2.store) && Extends(w.store, w2.store) && w2.log == w.log + EventSeq(e)
    requires forall k <- w2.store.executions :: RowStep(w, w2, e, k)
    requires IndexStep(w, w2, e) && (e.Some? ==> EventOk(w, w2, e.value))
    requires forall j <- w2.workers :: Placed(w, w2, e, j)
    ensures Keeps(w, w2)
  {
    hide Valid, Extends, RowStep, IndexStep, EventOk, HeldInv, ArrivalOk;
    assert StepOk(w, w2, e);
  }

  lemma QuietRows(w: World, w2: World, e: Option<Event>)
    requires Quiet(w.store, w2.store)
    ensures forall k <- w2.store.executions :: RowStep(w, w2, e, k)
  {
    hide Valid, Extends;
  }

  /** One worker moves to `pc`, writing store `s` and logging at most one event. */
  function Moved(w: World, id: nat, s: Store, pc: Pc, e: Option<Event>): World
    requires id in w.workers
  {
    At(w.(store := s, log := w.log + EventSeq(e)), id, pc)
  }

  lemma MovedWorkers(w: World, id: nat, s: Store, pc: Pc, e: Option<Event>)
    requires WorkersInv(w) && id in w.workers && Extends(w.store, s)
    requires e.Some? && e.value.ReconciliationRead? ==> e.value.worker == id
    requires HeldInv(s, w.log + EventSeq(e), HeldBy(id, pc))
    requires ArrivalOk(w, Moved(w, id, s, pc, e), e, id)
    ensures forall j <- Moved(w, id, s, pc, e).workers :: Placed(w, Moved(w, id, s, pc, e), e, j)
  {
    var w2 := Moved(w, id, s, pc, e);
    forall j <- w2.workers ensures Placed(w, w2, e, j) {
      if j != id {
        OthersKeep(w, w2, e, j);
      }
    }
  }

  lemma MoveStep(w: World, id: nat, s: Store, pc: Pc, e: Option<Event>)
    requires WorkersInv(w) && id in w.workers
    requires Quiet(w.store, s)
    requires e.Some? && e.value.ReconciliationRead? ==> e.value.worker == id
    requires IndexStep(w, Moved(w, id, s, pc, e), e)
    requires e.Some? ==> EventOk(w, Moved(w, id, s, pc, e), e.value)
    requires HeldInv(s, w.log + EventSeq(e), HeldBy(id, pc))
    requires ArrivalOk(w, Moved(w, id, s, pc, e), e, id)
    ensures Keeps(w, Moved(w, id, s, pc, e))
  {
    hide Valid, Extends, RowStep, IndexStep, EventOk, HeldInv, HeldBy, ArrivalOk, WorkersInv, RowQuiet;
    var w2 := Moved(w, id, s, pc, e);
    MovedWorkers(w, id, s, pc, e);
    QuietRows(w, w2, e);
    StepFromParts(w, w2, e);
  }

  /** A quiet store call that logs nothing. */
  lemma CallStep(w: World, id: nat, s: Store, pc: Pc)
    requires WorkersInv(w) && id in w.workers
    requires Quiet(w.store, s) && SameExpiries(w.store, s)
    requires HeldInv(s, w.log, HeldBy(id, pc))
    requires !pc.RunEnterAdapter? && !pc.ReconUsage?
    ensures Keeps(w, At(w.(store := s), id, pc))
  {
    hide Quiet, HeldInv, HeldBy, WorkersInv;
    assert w.log + EventSeq(None) == w.log;
    MoveStep(w, id, s, pc, None);
  }

  /** A step that only moves the worker. */
  lemma PcStep(w: World, id: nat, pc: Pc)
    requires Valid(w.store) && WorkersInv(w) && id in w.workers
    requires HeldInv(w.store, w.log, HeldBy(id, pc))
    requires !pc.RunEnterAdapter? && !pc.ReconUsage?
    ensures Keeps(w, At(w, id, pc))
  {
    hide Valid, Quiet, HeldInv, HeldBy, WorkersInv;
    QuietItself(w.store);
    CallStep(w, id, w.store, pc);
    assert w.(store := w.store) == w;
  }

  /** A step that moves the worker and logs an event, with the store unchanged. */
  lemma EventStep(w: World, id: nat, pc: Pc, e: Event)
    requires Valid(w.store) && WorkersInv(w) && id in w.workers
    requires EventOk(w, At(Emit(w, e), id, pc), e) && !e.Admitted?
    requires e.ReconciliationRead? ==> e.worker == id
    requires HeldInv(w.store, w.log + [e], HeldBy(id, pc))
    requires ArrivalOk(w, At(Emit(w, e), id, pc), Some(e), id)
    ensures Keeps(w, At(Emit(w, e), id, pc))
  {
    hide Valid, Quiet, HeldInv, HeldBy, WorkersInv, EventOk, ArrivalOk;
    QuietItself(w.store);
    assert Moved(w, id, w.store, pc, Some(e)) == At(Emit(w, e), id, pc);
    MoveStep(w, id, w.store, pc, Some(e));
  }

  lemma HeldGrows(s: Store, log: seq<Event>, e: Event, held: Held)
    requires HeldInv(s, log, held)
    ensures HeldInv(s, log + [e], held)
  {
    Calls.ExtendsItself(s);
    HeldStable(s, s, log, log + [e], held);
  }

  /** What the moving worker holds. */
  lemma MyHeld(w: World, id: nat)
    requires WorkersInv(w) && id in w.workers
    ensures HeldInv(w.store, w.log, HeldBy(id, w.workers[id].pc))
  {
    hide HeldInv, HeldBy;
  }

  // ---------------------------------------------------------- Quiet calls

  lemma QuietUpdate(s: Store, key: ExecutionKey, record: ExecutionRecord)
    requires Valid(s) && key.executionId == record.identity.executionId
    requires record.phase.Running? || record.phase.Failed?
    ensures Quiet(s, Update(s, key.projectId, record).0)
    ensures SameExpiries(s, Update(s, key.projectId, record).0)
    ensures Update(s, key.projectId, record).1.None? ==>
              key in Update(s, key.projectId, record).0.executions
              && Update(s, key.projectId, record).0.executions[key].record == record
              && key in s.executions
              && record.identity == s.executions[key].record.identity
              && Update(s, key.projectId, record).0.executions[key] == s.executions[key].(record := record)
  {
    hide Valid, Extends;
    Calls.ApplyKeeps(s, Calls.CallUpdate(key.projectId, record));
  }

  lemma QuietMarkReplayed(s: Store, key: ExecutionKey, at: Timestamp)
    requires Valid(s)
    ensures Quiet(s, MarkReplayed(s, key, at).0) && SameExpiries(s, MarkReplayed(s, key, at).0)
  {
    hide Valid, Extends;
    Calls.ApplyKeeps(s, Calls.CallMarkReplayed(key, at));
  }

  lemma QuietWait(s: Store, key: ExecutionKey)
    requires Valid(s)
    ensures Quiet(s, Wait(s, key).0) && SameExpiries(s, Wait(s, key).0)
  {
    hide Valid, Extends;
    Calls.ApplyKeeps(s, Calls.CallWait(key));
  }

  lemma QuietSetResolvedConnection(s: Store, key: ExecutionKey, connection: Option<string>)
    requires Valid(s)
    ensures Quiet(s, SetResolvedConnection(s, key, connection).0)
    ensures SameExpiries(s, SetResolvedConnection(s, key, connection).0)
  {
    hide Valid, Extends;
    Calls.ApplyKeeps(s, Calls.CallSetResolvedConnection(key, connection));
  }

  lemma QuietSetResumeContext(s: Store, key: ExecutionKey, recovery: Recovery)
    requires Valid(s)
    ensures Quiet(s, SetResumeContext(s, key, recovery).0) && SameExpiries(s, SetResumeContext(s, key, recovery).0)
  {
    hide Valid, Extends;
    Calls.ApplyKeeps(s, Calls.CallSetResumeContext(key, recovery));
  }

  lemma QuietSetWebhookEventId(s: Store, key: ExecutionKey, eventId: string)
    requires Valid(s)
    ensures Quiet(s, SetWebhookEventId(s, key, eventId).0) && SameExpiries(s, SetWebhookEventId(s, key, eventId).0)
  {
    hide Valid, Extends;
    Calls.ApplyKeeps(s, Calls.CallSetWebhookEventId(key, eventId));
  }

  lemma QuietMarkUsageFinalized(s: Store, key: ExecutionKey, at: Timestamp)
    requires Valid(s)
    ensures Quiet(s, MarkUsageFinalized(s, key, at).0) && SameExpiries(s, MarkUsageFinalized(s, key, at).0)
  {
    hide Valid, Extends;
    Calls.ApplyKeeps(s, Calls.CallMarkUsageFinalized(key, at));
  }

  lemma QuietMarkWebhookPublished(s: Store, key: ExecutionKey, at: Timestamp)
    requires Valid(s)
    ensures Quiet(s, MarkWebhookPublished(s, key, at).0) && SameExpiries(s, MarkWebhookPublished(s, key, at).0)
  {
    hide Valid, Extends;
    Calls.ApplyKeeps(s, Calls.CallMarkWebhookPublished(key, at));
  }

  /** The held facts survive a quiet call. */
  lemma HeldAcross(w: World, id: nat, s: Store)
    requires WorkersInv(w) && id in w.workers && Quiet(w.store, s)
    ensures HeldInv(s, w.log, HeldBy(id, w.workers[id].pc))
  {
    hide Valid, Extends, HeldInv, HeldBy, RowQuiet;
    HeldStable(w.store, s, w.log, w.log, HeldBy(id, w.workers[id].pc));
  }

  // -------------------------------------------------------------- #execute

  lemma InspectSeen(s: Store, a: Allocation)
    requires Valid(s) && InspectAllocation(s, a).Ok? && InspectAllocation(s, a).value.WouldReplay?
    ensures
      var r := InspectAllocation(s, a).value.record;
      SeenRecord(s, ExecutionKey(a.projectId, r.identity.executionId), r)
  {
    hide IndexValid, WaitersValid;
    var storageKey := ScopeKey(a.projectId, a.idempotency.value.scope);
    assert RowValid(s, ExecutionKey(a.projectId, s.idempotency[storageKey].executionId));
  }

  lemma AllocateSeen(s: Store, a: Allocation)
    requires Valid(s) && Allocate(s, a).1.Ok? && Allocate(s, a).1.value.Replay?
    ensures Allocate(s, a).0 == s
    ensures
      var r := Allocate(s, a).1.value.record;
      SeenRecord(s, ExecutionKey(a.projectId, r.identity.executionId), r)
  {
    hide IndexValid, WaitersValid;
    var storageKey := ScopeKey(a.projectId, a.idempotency.value.scope);
    assert RowValid(s, ExecutionKey(a.projectId, s.idempotency[storageKey].executionId));
  }

  lemma StepExecInspect(w: World, id: nat, c: Choice)
    requires Inv(w) && id in w.workers
    requires w.workers[id].pc.ExecInspect? || w.workers[id].pc.ExecReserve? || w.workers[id].pc.ExecLateInspect?
    ensures Keeps(w, AdvanceExecute(w, id, c))
  {
    hide Valid, WorkersInv, MarkersInv, EntriesInv, OutcomesInv, EffectsInv, FinalizedInv, AdmissionsInv, Keeps;
    hide SeenRecord, InspectAllocation;
    var pc := w.workers[id].pc;
    var seen := InspectAllocation(w.store, PreflightAllocation(pc.cmd));
    if seen.Ok? && seen.value.WouldReplay? {
      InspectSeen(w.store, PreflightAllocation(pc.cmd));
      PcStep(w, id, ExecReplay(pc.cmd, seen.value.record, None));
    }
    PcStep(w, id, Done);
    PcStep(w, id, ExecReserve(pc.cmd));
    PcStep(w, id, ExecAllocate(pc.cmd, c.report, c.reservation));
    PcStep(w, id, ExecLateInspect(pc.cmd));
  }

  /** An admission under a scope happens only when the scope's previous entry has expired. */
  lemma AdmissionIndex(s: Store, a: Allocation)
    requires IndexValid(s) && ExistingAnswer(s, a).None? && a.idempotency.Some?
    ensures
      var t := Insert(s, a);
      var sk := ScopeKey(a.projectId, a.idempotency.value.scope);
      && ExpiryOf(t, sk) == Some(a.idempotency.value.expiresAt)
      && (ExpiryOf(s, sk).Some? ==> ExpiryOf(s, sk).value <= a.record.identity.createdAt)
      && (forall other :: other != sk ==> ExpiryOf(s, other) == ExpiryOf(t, other))
  {
    var sk := ScopeKey(a.projectId, a.idempotency.value.scope);
    if sk in s.idempotency {
      assert EntryValid(s, sk);
    }
  }

  lemma AdmissionFacts(s: Store, a: Allocation)
    requires Valid(s) && Allocate(s, a).1.Ok? && Allocate(s, a).1.value.Allocated?
    ensures
      var t := Allocate(s, a).0;
      && ExistingAnswer(s, a).None? && t == Insert(s, a)
      && a.Key() !in s.executions && Quiet(s, t)
      && a.Key() in t.executions && t.executions[a.Key()] == NewRow(a, s.sequence + 1)
      && (a.idempotency.None? ==> SameExpiries(s, t))
  {
    hide Valid, Extends;
    Calls.ApplyKeeps(s, Calls.CallAllocate(a));
  }

  lemma ValidParts(s: Store)
    requires Valid(s)
    ensures RowsValid(s) && IndexValid(s) && WaitersValid(s)
  {
  }

  /** What an admission tells is true, and the index changes for its scope alone. */
  lemma AdmissionIsLogged(w: World, w2: World, cmd: ExecuteCommand, a: Allocation)
    requires Valid(w.store) && w2.store == Allocate(w.store, a).0
    requires a.idempotency == IdempotencyReservationOf(cmd) && a.record == cmd.record && a.projectId == cmd.projectId
    requires Allocate(w.store, a).1.Ok? && Allocate(w.store, a).1.value.Allocated?
    ensures
      var expiresAt := if a.idempotency.None? then 0 else a.idempotency.value.expiresAt;
      var e := Admitted(cmd.Key(), ScopeOf(cmd), cmd.record.identity.createdAt, expiresAt);
      EventOk(w, w2, e) && IndexStep(w, w2, Some(e))
  {
    hide Valid, IndexValid, Allocate, Insert, ExistingAnswer, Quiet;
    ValidParts(w.store);
    AdmissionFacts(w.store, a);
    if a.idempotency.Some? {
      AdmissionIndex(w.store, a);
    }
  }

  lemma StepAdmission(w: World, id: nat, cmd: ExecuteCommand, a: Allocation, pc: Pc)
    requires Inv(w) && id in w.workers
    requires a.idempotency == IdempotencyReservationOf(cmd) && a.record == cmd.record && a.projectId == cmd.projectId
    requires Allocate(w.store, a).1.Ok? && Allocate(w.store, a).1.value.Allocated?
    requires !pc.RunEnterAdapter? && !pc.ReconUsage?
    requires HeldInv(Allocate(w.store, a).0, w.log, HeldBy(id, pc))
    ensures
      var expiresAt := if a.idempotency.None? then 0 else a.idempotency.value.expiresAt;
      var e := Admitted(cmd.Key(), ScopeOf(cmd), cmd.record.identity.createdAt, expiresAt);
      Keeps(w, At(Emit(w.(store := Allocate(w.store, a).0), e), id, pc))
  {
    hide Valid, MarkersInv, EntriesInv, OutcomesInv, EffectsInv, FinalizedInv, AdmissionsInv, EventOk, IndexStep;
    hide Extends, HeldInv, HeldBy, Allocate, RowQuiet, WorkersInv, ExistingAnswer, Insert,
         IdempotencyReservationOf, ScopeOf;
    var t := Allocate(w.store, a).0;
    var expiresAt := if a.idempotency.None? then 0 else a.idempotency.value.expiresAt;
    var e := Admitted(cmd.Key(), ScopeOf(cmd), cmd.record.identity.createdAt, expiresAt);
    AdmissionFacts(w.store, a);
    HeldGrows(t, w.log, e, HeldBy(id, pc));
    var w2 := Moved(w, id, t, pc, Some(e));
    assert w2 == At(Emit(w.(store := t), e), id, pc);
    AdmissionIsLogged(w, w2, cmd, a);
    MoveStep(w, id, t, pc, Some(e));
  }

  lemma StepExecAllocate(w: World, id: nat, c: Choice)
    requires Inv(w) && id in w.workers && w.workers[id].pc.ExecAllocate?
    ensures Keeps(w, AdvanceExecute(w, id, c))
  {
    hide Valid, WorkersInv, MarkersInv, EntriesInv, OutcomesInv, EffectsInv, FinalizedInv, AdmissionsInv, Keeps;
    hide SeenRecord, Allocate, Extends, RowQuiet;
    var pc := w.workers[id].pc;
    var a := FullAllocation(pc.cmd, pc.report, pc.reservation, c.text);
    var (t, result) := Allocate(w.store, a);
    if result.Ok? && result.value.Allocated? {
      AdmissionFacts(w.store, a);
      var run := RunAcquire(Locals(SyncCaller, pc.cmd.Key(), pc.cmd.record, pc.report, pc.reservation, Some(c.text)));
      StepAdmission(w, id, pc.cmd, a, if pc.cmd.request.sync then run else Done);
    } else {
      RejectedAllocation(w.store, a);
      if result.Ok? && result.value.Replay? {
        AllocateSeen(w.store, a);
        PcStep(w, id, ExecReplay(pc.cmd, result.value.record, pc.reservation));
      } else {
        PcStep(w, id, ExecReleaseUnused(pc.cmd.Key(), pc.reservation));
      }
    }
  }

  lemma RejectedAllocation(s: Store, a: Allocation)
    requires !(Allocate(s, a).1.Ok? && Allocate(s, a).1.value.Allocated?)
    ensures Allocate(s, a).0 == s
  {
  }

  lemma StepExecRelease(w: World, id: nat, c: Choice)
    requires Inv(w) && id in w.workers && (w.workers[id].pc.ExecReleaseUnused? || w.workers[id].pc.ExecReplay?)
    ensures Keeps(w, AdvanceExecute(w, id, c))
  {
    hide Valid, MarkersInv, EntriesInv, OutcomesInv, EffectsInv, FinalizedInv, AdmissionsInv, Keeps;
    hide SeenRecord, WorkersInv;
    MyHeld(w, id);
    var pc := w.workers[id].pc;
    match pc
    case ExecReleaseUnused(key, reservation) =>
      PcStep(w, id, Done);
      EventStep(w, id, Done, ReservationReleased(id, key));
    case ExecReplay(cmd, record, reservation) =>
      var next := if reservation.Some? && c.fails then Done
                  else if cmd.reservedId && record.identity.executionId != cmd.record.identity.executionId then Done
                  else ExecMarkReplayed(cmd, record);
      var e := ReservationReleased(id, cmd.Key());
      PcStep(w, id, next);
      HeldGrows(w.store, w.log, e, HeldBy(id, next));
      EventStep(w, id, next, e);
  }

  lemma StepExecMarkReplayed(w: World, id: nat, c: Choice)
    requires Inv(w) && id in w.workers && w.workers[id].pc.ExecMarkReplayed?
    ensures Keeps(w, AdvanceExecute(w, id, c))
  {
    hide Valid, MarkersInv, EntriesInv, OutcomesInv, EffectsInv, FinalizedInv, AdmissionsInv, Keeps;
    hide SeenRecord, WorkersInv, Quiet, SameExpiries, MarkReplayed;
    var pc := w.workers[id].pc;
    var key := ExecutionKey(pc.cmd.projectId, pc.record.identity.executionId);
    var (t, marked) := MarkReplayed(w.store, key, c.now);
    QuietMarkReplayed(w.store, key, c.now);
    HeldAcross(w, id, t);
    var next := if !marked then Done
                else if pc.record.Terminal() then ExecReplayRead(key, pc.record)
                else if pc.cmd.request.sync then ExecWait(pc.cmd, pc.record)
                else Done;
    CallStep(w, id, t, next);
  }

  lemma WaitTicket(s: Store, key: ExecutionKey)
    ensures Wait(s, key).1.Ok? ==>
              Wait(s, key).1.value < |Wait(s, key).0.tickets| && Wait(s, key).0.tickets[Wait(s, key).1.value] == key
  {
  }

  lemma StepExecWait(w: World, id: nat, c: Choice)
    requires Inv(w) && id in w.workers && w.workers[id].pc.ExecWait?
    ensures Keeps(w, AdvanceExecute(w, id, c))
  {
    hide Valid, MarkersInv, EntriesInv, OutcomesInv, EffectsInv, FinalizedInv, AdmissionsInv, Keeps;
    hide SeenRecord, WorkersInv, Quiet, SameExpiries, Wait;
    var pc := w.workers[id].pc;
    var key := ExecutionKey(pc.cmd.projectId, pc.record.identity.executionId);
    var (t, ticket) := Wait(w.store, key);
    QuietWait(w.store, key);
    WaitTicket(w.store, key);
    CallStep(w, id, t, if ticket.Ok? then ExecAwaitTerminal(key, ticket.value) else Done);
  }

  /** A delivered record is the terminal record of the execution that the ticket waits for. */
  lemma DeliverySeen(s: Store, key: ExecutionKey, ticket: nat)
    requires Valid(s) && ticket < |s.tickets| && s.tickets[ticket] == key
    ensures FindDelivery(s.deliveries, ticket).Some? ==>
              && SeenRecord(s, key, FindDelivery(s.deliveries, ticket).value)
              && FindDelivery(s.deliveries, ticket).value.Terminal()
  {
    hide RowsValid, IndexValid;
    var r := FindDelivery(s.deliveries, ticket);
    if r.Some? {
      var i :| 0 <= i < |s.deliveries| && s.deliveries[i] == Delivery(ticket, r.value);
      assert DeliveryValid(s, i);
    }
  }

  lemma PublicSeen(s: Store, key: ExecutionKey)
    requires key in s.executions
    ensures SeenRecord(s, key, s.executions[key].Public())
    ensures s.executions[key].Public().phase == s.executions[key].record.phase
  {
  }

  /** What the engine builds from a row it has just read fits the row. */
  lemma RowInputFits(s: Store, key: ExecutionKey, row: StoredExecution, record: ExecutionRecord)
    requires GetRecoverable(s, key) == Some(row)
    requires SeenRecord(s, key, record) && record.Terminal()
    ensures InputInv(s, RowInput(key, record, row))
    ensures InputInv(s, ReconInput(key, record, None, None, None))
  {
  }

  lemma RowSeen(s: Store, key: ExecutionKey, row: StoredExecution)
    requires GetRecoverable(s, key) == Some(row)
    ensures key in s.executions && SeenRow(s, Recoverable(key, row)) && SeenRecord(s, key, row.record)
    ensures row.webhookEventId == s.executions[key].webhookEventId
  {
    PublicSeen(s, key);
  }

  lemma StepExecReplayRead(w: World, id: nat, c: Choice)
    requires Inv(w) && id in w.workers && (w.workers[id].pc.ExecAwaitTerminal? || w.workers[id].pc.ExecReplayRead?)
    ensures AdvanceExecute(w, id, c) == w || Keeps(w, AdvanceExecute(w, id, c))
  {
    hide Valid, MarkersInv, EntriesInv, OutcomesInv, EffectsInv, FinalizedInv, AdmissionsInv, Keeps;
    hide SeenRecord, WorkersInv, FindDelivery, GetRecoverable, InputInv;
    MyHeld(w, id);
    var pc := w.workers[id].pc;
    match pc
    case ExecAwaitTerminal(key, ticket) =>
      DeliverySeen(w.store, key, ticket);
      var r := FindDelivery(w.store.deliveries, ticket);
      if r.Some? {
        PcStep(w, id, ExecReplayRead(key, r.value));
      }
    case ExecReplayRead(key, record) =>
      var row := GetRecoverable(w.store, key);
      PcStep(w, id, Done);
      if row.Some? {
        RowSeen(w.store, key, row.value);
        var latest := if row.value.record.Terminal() then row.value.record else record;
        RowInputFits(w.store, key, row.value, latest);
        PcStep(w, id, StartReconcile(RowInput(key, latest, row.value), AfterFinish));
      }
  }

  // ------------------------------------------------------------------ Jobs

  lemma StepJobDecide(w: World, id: nat, rec: Recoverable, c: Choice)
    requires Valid(w.store) && WorkersInv(w) && id in w.workers && SeenRow(w.store, rec)
    ensures Keeps(w, JobDecide(w, id, rec, c))
  {
    hide Valid, WorkersInv, Keeps;
    var eventId := rec.row.webhookEventId.GetOr(c.text);
    var context := rec.row.resumeContext;
    PcStep(w, id, Done);
    PcStep(w, id, FailSetEvent(rec, eventId, true));
    PcStep(w, id, FailSetEvent(rec, eventId, false));
    if context.Some? {
      PcStep(w, id, RunAcquire(Locals(
        JobCaller, rec.key, rec.row.record,
        context.value.usageReport, context.value.usageReservation, rec.row.webhookEventId)));
    }
  }

  lemma StepJobTerminal(w: World, id: nat, key: ExecutionKey, row: StoredExecution)
    requires Valid(w.store) && WorkersInv(w) && id in w.workers
    requires GetRecoverable(w.store, key) == Some(row) && row.record.Terminal()
    ensures Keeps(w, At(w, id, StartReconcile(RowInput(key, row.record, row), AfterFinish)))
  {
    hide Valid, WorkersInv, Keeps, SeenRecord, SeenRow, GetRecoverable, InputInv;
    RowSeen(w.store, key, row);
    RowInputFits(w.store, key, row, row.record);
    PcStep(w, id, StartReconcile(RowInput(key, row.record, row), AfterFinish));
  }

  lemma StepJobRead(w: World, id: nat, c: Choice)
    requires Inv(w) && id in w.workers && w.workers[id].pc.JobRead?
    ensures Keeps(w, AdvanceJob(w, id, c))
  {
    hide Valid, MarkersInv, EntriesInv, OutcomesInv, EffectsInv, FinalizedInv, AdmissionsInv, Keeps;
    hide SeenRecord, SeenRow, WorkersInv, GetRecoverable, JobDecide;
    var key := w.workers[id].pc.key;
    var row := GetRecoverable(w.store, key);
    if row.None? {
      PcStep(w, id, Done);
    } else if row.value.record.Terminal() {
      StepJobTerminal(w, id, key, row.value);
    } else {
      var rec := Recoverable(key, row.value);
      var eventId := row.value.webhookEventId.GetOr(c.text);
      RowSeen(w.store, key, row.value);
      if row.value.resumeContext.Some? {
        StepJobDecide(w, id, rec, c);
      } else if row.value.record.phase.Running? || c.alt {
        PcStep(w, id, FailSetEvent(rec, eventId, row.value.record.phase.Running?));
      } else {
        PcStep(w, id, JobSetResume(rec, c.context, eventId));
      }
    }
  }

  lemma StepJobAfterThrow(w: World, id: nat, c: Choice)
    requires Inv(w) && id in w.workers && w.workers[id].pc.JobAfterThrow?
    ensures Keeps(w, AdvanceJob(w, id, c))
  {
    hide Valid, MarkersInv, EntriesInv, OutcomesInv, EffectsInv, FinalizedInv, AdmissionsInv, Keeps;
    hide WorkersInv, GetRecoverable;
    var key := w.workers[id].pc.key;
    var row := GetRecoverable(w.store, key);
    if row.Some? && row.value.record.Terminal() {
      StepJobTerminal(w, id, key, row.value);
    } else {
      PcStep(w, id, Done);
    }
  }

  lemma NoEventId(s: Store, rec: Recoverable)
    requires SeenRow(s, rec)
    ensures rec.key in s.executions
  {
  }

  lemma StepJobResume(w: World, id: nat, c: Choice)
    requires Inv(w) && id in w.workers && (w.workers[id].pc.JobSetResume? || w.workers[id].pc.JobReread?)
    ensures Keeps(w, AdvanceJob(w, id, c))
  {
    hide Valid, MarkersInv, EntriesInv, OutcomesInv, EffectsInv, FinalizedInv, AdmissionsInv, Keeps;
    hide SeenRecord, SeenRow, WorkersInv, GetRecoverable, JobDecide, Quiet, SameExpiries, SetResumeContext;
    MyHeld(w, id);
    var pc := w.workers[id].pc;
    match pc
    case JobSetResume(rec, context, eventId) =>
      var (t, result) := SetResumeContext(w.store, rec.key, Recovery(context, eventId));
      QuietSetResumeContext(w.store, rec.key, Recovery(context, eventId));
      HeldAcross(w, id, t);
      NoEventId(t, rec);
      CallStep(w, id, t, if result.Ok? then JobReread(rec) else Done);
    case JobReread(rec) =>
      var row := GetRecoverable(w.store, rec.key);
      StepJobDecide(w, id, rec, c);
      if row.Some? {
        RowSeen(w.store, rec.key, row.value);
        StepJobDecide(w, id, Recoverable(rec.key, row.value), c);
      }
  }

  // ---------------------------------------------------------- #runAllocated

  /** Like MoveStep, for the three store calls that are not quiet. */
  lemma LoudStep(w: World, id: nat, s: Store, pc: Pc, e: Option<Event>)
    requires WorkersInv(w) && id in w.workers && Valid(s) && Extends(w.store, s)
    requires forall k <- s.executions :: RowStep(w, Moved(w, id, s, pc, e), e, k)
    requires SameExpiries(w.store, s)
    requires e.Some? ==> EventOk(w, Moved(w, id, s, pc, e), e.value) && !e.value.ReconciliationRead?
    requires HeldInv(s, w.log + EventSeq(e), HeldBy(id, pc))
    requires ArrivalOk(w, Moved(w, id, s, pc, e), e, id)
    ensures Keeps(w, Moved(w, id, s, pc, e))
  {
    hide Valid, Extends, RowStep, EventOk, HeldInv, HeldBy, ArrivalOk, WorkersInv;
    MovedWorkers(w, id, s, pc, e);
    StepFromParts(w, Moved(w, id, s, pc, e), e);
  }

  lemma LocalsIrrelevant(s: Store, l: RunLocals, m: RunLocals)
    requires LocalsInv(s, l) && m.key == l.key && m.pending == l.pending && m.webhookEventId == l.webhookEventId
    ensures LocalsInv(s, m)
  {
  }

  lemma StepRunAcquire(w: World, id: nat, c: Choice)
    requires Inv(w) && id in w.workers && (w.workers[id].pc.RunAcquire? || w.workers[id].pc.RunResolveCredential?)
    ensures Keeps(w, AdvanceRun(w, id, c))
  {
    hide Valid, MarkersInv, EntriesInv, OutcomesInv, EffectsInv, FinalizedInv, AdmissionsInv, Keeps;
    hide LocalsInv, WorkersInv;
    MyHeld(w, id);
    var pc := w.workers[id].pc;
    match pc
    case RunAcquire(l) =>
      var startedAt :=
        if l.pending.phase.Running? then l.pending.startedAt.GetOr(l.pending.identity.createdAt) else c.now;
      var l' := l.(startedAt := startedAt);
      LocalsIrrelevant(w.store, l, l');
      PcStep(w, id, RunOuterCatch(l, OtherFailure));
      PcStep(w, id, RunMarkRunning(l'));
      PcStep(w, id, RunResolveCredential(l'));
    case RunResolveCredential(l) =>
      PcStep(w, id, RunInnerCatch(l, if c.alt then UnexpectedCredentialFailure else OtherFailure));
      PcStep(w, id, RunSetConnection(l));
  }

  lemma LocalsKey(s: Store, l: RunLocals)
    requires Valid(s) && LocalsInv(s, l)
    ensures l.key in s.executions && l.key == ExecutionKey(l.key.projectId, l.pending.identity.executionId)
  {
    hide IndexValid, WaitersValid;
    assert RowValid(s, l.key);
  }

  lemma StepRunMarkRunning(w: World, id: nat, c: Choice)
    requires Inv(w) && id in w.workers && w.workers[id].pc.RunMarkRunning?
    ensures Keeps(w, AdvanceRun(w, id, c))
  {
    hide Valid, MarkersInv, EntriesInv, OutcomesInv, EffectsInv, FinalizedInv, AdmissionsInv, Keeps;
    hide LocalsInv, WorkersInv, Quiet, SameExpiries, Update;
    MyHeld(w, id);
    var l := w.workers[id].pc.l;
    LocalsKey(w.store, l);
    var record := RunRecord(l, Phase.Running);
    var (t, error) := Update(w.store, l.key.projectId, record);
    QuietUpdate(w.store, l.key, record);
    HeldAcross(w, id, t);
    CallStep(w, id, t, if error.None? then RunResolveCredential(l) else RunOuterCatch(l, FailureOf(error.value)));
  }

  lemma StepRunSetConnection(w: World, id: nat, c: Choice)
    requires Inv(w) && id in w.workers && w.workers[id].pc.RunSetConnection?
    ensures Keeps(w, AdvanceRun(w, id, c))
  {
    hide Valid, MarkersInv, EntriesInv, OutcomesInv, EffectsInv, FinalizedInv, AdmissionsInv, Keeps;
    hide LocalsInv, WorkersInv, Quiet, SameExpiries, SetResolvedConnection;
    MyHeld(w, id);
    var l := w.workers[id].pc.l;
    var (t, error) := SetResolvedConnection(w.store, l.key, c.connection);
    QuietSetResolvedConnection(w.store, l.key, c.connection);
    HeldAcross(w, id, t);
    CallStep(w, id, t, if error.Some? || c.fails then RunInnerCatch(l, OtherFailure) else RunMarkDispatch(l));
  }

  lemma MarkRows(w: World, id: nat, key: ExecutionKey, at: Timestamp, pc: Pc)
    requires Valid(w.store) && id in w.workers && MarkDispatchStarted(w.store, key, at).1
    ensures
      var (t, e) := (MarkDispatchStarted(w.store, key, at).0, MarkerWon(id, key));
      var w2 := Moved(w, id, t, pc, Some(e));
      && Valid(t) && Extends(w.store, t) && SameExpiries(w.store, t)
      && (forall k <- t.executions :: RowStep(w, w2, Some(e), k))
      && EventOk(w, w2, e)
  {
    hide Valid, Extends;
    Calls.ApplyKeeps(w.store, Calls.CallMarkDispatchStarted(key, at));
  }

  lemma StepRunMarkDispatch(w: World, id: nat, c: Choice)
    requires Inv(w) && id in w.workers && w.workers[id].pc.RunMarkDispatch?
    ensures Keeps(w, AdvanceRun(w, id, c))
  {
    hide Valid, MarkersInv, EntriesInv, OutcomesInv, EffectsInv, FinalizedInv, AdmissionsInv, Keeps;
    hide LocalsInv, WorkersInv, SameExpiries, MarkDispatchStarted, RowStep, EventOk, Extends;
    MyHeld(w, id);
    var l := w.workers[id].pc.l;
    var fenced := l.(dispatchFenced := true);
    LocalsIrrelevant(w.store, l, fenced);
    var (t, marked) := MarkDispatchStarted(w.store, l.key, c.now);
    if w.workers[id].Aborted() {
      PcStep(w, id, RunInnerCatch(l, OtherFailure));
    } else if marked {
      var e := MarkerWon(id, l.key);
      MarkRows(w, id, l.key, c.now, RunEnterAdapter(l));
      LocalsStable(w.store, t, l);
      var w2 := Moved(w, id, t, RunEnterAdapter(l), Some(e));
      assert w2 == At(Emit(w.(store := t), e), id, RunEnterAdapter(l));
      LoudStep(w, id, t, RunEnterAdapter(l), Some(e));
    } else {
      UnmarkedIsSame(w.store, l.key, c.now);
      PcStep(w, id, RunInnerCatch(fenced, FencedFailure));
    }
  }

  lemma UnmarkedIsSame(s: Store, key: ExecutionKey, at: Timestamp)
    ensures !MarkDispatchStarted(s, key, at).1 ==> MarkDispatchStarted(s, key, at).0 == s
  {
  }

  lemma StepRunAdapter(w: World, id: nat, c: Choice)
    requires Inv(w) && id in w.workers && (w.workers[id].pc.RunEnterAdapter? || w.workers[id].pc.RunInAdapter?)
    ensures Keeps(w, AdvanceRun(w, id, c))
  {
    hide Valid, MarkersInv, EntriesInv, OutcomesInv, EffectsInv, FinalizedInv, AdmissionsInv, Keeps;
    hide LocalsInv, WorkersInv;
    MyHeld(w, id);
    var pc := w.workers[id].pc;
    match pc
    case RunEnterAdapter(l) =>
      var l' := l.(dispatchAttempted := true);
      LocalsIrrelevant(w.store, l, l');
      PcStep(w, id, RunInnerCatch(l', OtherFailure));
      EventStep(w, id, RunInAdapter(l'), AdapterEntered(id, l.key));
    case RunInAdapter(l) =>
      PcStep(w, id, RunInnerCatch(l, OtherFailure));
      PcStep(w, id, RunPersistSuccess(l, c.text));
  }

  /** An accepted update writes the record of one row; a rejected one changes nothing. */
  lemma UpdateChange(s: Store, key: ExecutionKey, record: ExecutionRecord)
    requires key.executionId == record.identity.executionId
    ensures
      var (t, rejected) := Update(s, key.projectId, record);
      if rejected.Some? then t == s
      else
        && key in s.executions
        && t.executions == s.executions[key := s.executions[key].(record := record)]
        && t.idempotency == s.idempotency
  {
  }

  lemma SuccessRows(w: World, id: nat, key: ExecutionKey, record: ExecutionRecord, pc: Pc)
    requires Valid(w.store) && id in w.workers && key.executionId == record.identity.executionId
    requires record.phase.Succeeded? && AdapterEntered(id, key) in w.log
    ensures
      var t := Update(w.store, key.projectId, record).0;
      && Valid(t) && Extends(w.store, t) && SameExpiries(w.store, t)
      && (forall k <- t.executions :: RowStep(w, Moved(w, id, t, pc, None), None, k))
      && (if Update(w.store, key.projectId, record).1.None?
          then key in t.executions && t.executions[key].record == record
          else t == w.store)
  {
    hide Valid, Extends, Update, SameExpiries;
    Calls.ApplyKeeps(w.store, Calls.CallUpdate(key.projectId, record));
    UpdateChange(w.store, key, record);
    SameIndexSameExpiries(w.store, Update(w.store, key.projectId, record).0);
  }

  lemma SameIndexSameExpiries(s: Store, t: Store)
    requires s.idempotency == t.idempotency
    ensures SameExpiries(s, t)
  {
  }

  /** The record a run has just written is a proper reconciliation input. */
  lemma RunInputFits(s: Store, t: Store, l: RunLocals, record: ExecutionRecord)
    requires LocalsInv(s, l) && Extends(s, t)
    requires l.key in t.executions && t.executions[l.key].record == record && record.Terminal()
    ensures InputInv(t, RunInput(l, record)) && LocalsInv(t, l)
  {
    LocalsStable(s, t, l);
  }

  lemma StepRunPersistSuccess(w: World, id: nat, c: Choice)
    requires Inv(w) && id in w.workers && w.workers[id].pc.RunPersistSuccess?
    ensures Keeps(w, AdvanceRun(w, id, c))
  {
    hide Valid, MarkersInv, EntriesInv, OutcomesInv, EffectsInv, FinalizedInv, AdmissionsInv, Keeps;
    hide LocalsInv, InputInv, WorkersInv, SameExpiries, Update, RowStep, Extends;
    MyHeld(w, id);
    var l := w.workers[id].pc.l;
    LocalsKey(w.store, l);
    var record := RunRecord(l, Phase.Succeeded(c.now, Max(0, c.now - l.startedAt), w.workers[id].pc.output));
    var (t, error) := Update(w.store, l.key.projectId, record);
    var done := l.(terminalPersisted := true);
    var next := StartReconcile(RunInput(l, record), AfterSuccess(done));
    SuccessRows(w, id, l.key, record, next);
    assert w.log + EventSeq(None) == w.log;
    if error.None? {
      RunInputFits(w.store, t, l, record);
      LocalsIrrelevant(t, l, done);
      LoudStep(w, id, t, next, None);
    } else {
      PcStep(w, id, RunInnerCatch(l, FailureOf(error.value)));
    }
  }

  lemma StepRunInnerCatch(w: World, id: nat, c: Choice)
    requires Inv(w) && id in w.workers && w.workers[id].pc.RunInnerCatch?
    ensures Keeps(w, AdvanceRun(w, id, c))
  {
    hide Valid, MarkersInv, EntriesInv, OutcomesInv, EffectsInv, FinalizedInv, AdmissionsInv, Keeps;
    hide LocalsInv, InputInv, WorkersInv, SameExpiries, Update, RowQuiet, Extends;
    MyHeld(w, id);
    var l := w.workers[id].pc.l;
    var failure := w.workers[id].pc.failure;
    PcStep(w, id, RunOuterCatch(l, failure));
    LocalsKey(w.store, l);
    var record := RunRecord(l, Phase.Failed(c.now, Max(0, c.now - l.startedAt), c.error));
    var (t, error) := Update(w.store, l.key.projectId, record);
    QuietUpdate(w.store, l.key, record);
    HeldAcross(w, id, t);
    if error.None? {
      RunInputFits(w.store, t, l, record);
      CallStep(w, id, t, StartReconcile(RunInput(l, record), AfterFailure(l, failure)));
    } else {
      CallStep(w, id, t, RunOuterCatch(l, FailureOf(error.value)));
    }
  }

  lemma StepRunThrow(w: World, id: nat, l: RunLocals)
    requires Valid(w.store) && WorkersInv(w) && id in w.workers
    ensures Keeps(w, RunThrow(w, id, l))
  {
    hide Valid, WorkersInv, Keeps;
    PcStep(w, id, JobAfterThrow(l.key));
    PcStep(w, id, Done);
  }

  /** A failure after which the run asks whether somebody else has ended the execution. */
  predicate MayHaveLost(worker: Worker) {
    && worker.pc.RunOuterCatch?
    && (worker.pc.failure.ConflictFailure? || worker.pc.failure.FencedFailure? || worker.Aborted())
  }

  /** A run that lost to a cancellation goes on to reconcile the record that won, and releases nothing; any other
      failed run goes on to the release. */
  lemma LostRunReconcilesWinner(w: World, id: nat, c: Choice)
    requires Inv(w) && id in w.workers && w.workers[id].pc.RunOuterCatch?
    ensures
      var l := w.workers[id].pc.l;
      var next := AdvanceRun(w, id, c).workers[id].pc;
      && l.key in w.store.executions
      && var winner := w.store.executions[l.key].record;
      if MayHaveLost(w.workers[id]) && winner.phase.Cancelled?
      then && next.StartReconcile? && next.after == AfterWinner(l)
           && next.input.key == l.key && SameUpToReplay(next.input.record, winner)
      else next == RunRelease(l)
  {
    hide Valid, MarkersInv, EntriesInv, OutcomesInv, EffectsInv, FinalizedInv, AdmissionsInv, WorkersInv;
    MyHeld(w, id);
  }

  lemma StepRunOuterCatch(w: World, id: nat, c: Choice)
    requires Inv(w) && id in w.workers && w.workers[id].pc.RunOuterCatch?
    ensures Keeps(w, AdvanceRun(w, id, c))
  {
    hide Valid, MarkersInv, EntriesInv, OutcomesInv, EffectsInv, FinalizedInv, AdmissionsInv, Keeps;
    hide LocalsInv, InputInv, WorkersInv, GetRecoverable, SeenRecord, SeenRow;
    MyHeld(w, id);
    var l := w.workers[id].pc.l;
    var row := GetRecoverable(w.store, l.key);
    PcStep(w, id, RunRelease(l));
    if row.Some? && row.value.record.phase.Cancelled? {
      RowSeen(w.store, l.key, row.value);
      RowInputFits(w.store, l.key, row.value, row.value.record);
      PcStep(w, id, StartReconcile(RowInput(l.key, row.value.record, row.value), AfterWinner(l)));
    }
  }

  lemma StepRunRelease(w: World, id: nat, c: Choice)
    requires Inv(w) && id in w.workers && w.workers[id].pc.RunRelease?
    ensures Keeps(w, AdvanceRun(w, id, c))
  {
    hide Valid, MarkersInv, EntriesInv, OutcomesInv, EffectsInv, FinalizedInv, AdmissionsInv, Keeps;
    hide LocalsInv, WorkersInv;
    var l := w.workers[id].pc.l;
    StepRunThrow(w, id, l);
    var next := if l.caller.JobCaller? then JobAfterThrow(l.key) else Done;
    EventStep(w, id, next, ReservationReleased(id, l.key));
  }

  // ------------------------------------ interruption, cancellation, recovery

  lemma StepFailSetEvent(w: World, id: nat, c: Choice)
    requires Inv(w) && id in w.workers && w.workers[id].pc.FailSetEvent?
    ensures Keeps(w, AdvanceOther(w, id, c))
  {
    hide Valid, MarkersInv, EntriesInv, OutcomesInv, EffectsInv, FinalizedInv, AdmissionsInv, Keeps;
    hide SeenRecord, WorkersInv, Quiet, SameExpiries, SetWebhookEventId;
    MyHeld(w, id);
    var pc := w.workers[id].pc;
    var (t, result) := SetWebhookEventId(w.store, pc.rec.key, pc.eventId);
    QuietSetWebhookEventId(w.store, pc.rec.key, pc.eventId);
    HeldAcross(w, id, t);
    EventIdIsSet(w.store, pc.rec, pc.eventId);
    CallStep(w, id, t, if result.Ok? then FailPersist(pc.rec, pc.eventId, pc.began) else Done);
  }

  lemma EventIdIsSet(s: Store, rec: Recoverable, eventId: string)
    requires SeenRow(s, rec)
    ensures
      var (t, result) := SetWebhookEventId(s, rec.key, eventId);
      rec.key in t.executions && (result.Ok? ==> t.executions[rec.key].webhookEventId == Some(eventId))
  {
  }

  lemma InterruptedInputFits(s: Store, t: Store, rec: Recoverable, record: ExecutionRecord, eventId: string)
    requires SeenRow(s, rec) && s.executions[rec.key].webhookEventId == Some(eventId)
    requires rec.key in t.executions && t.executions[rec.key] == s.executions[rec.key].(record := record)
    requires record.Terminal()
    ensures InputInv(t, RowInput(rec.key, record, rec.row).(webhookEventId := Some(eventId)))
  {
  }

  lemma FailPersisted(w: World, id: nat, rec: Recoverable, eventId: string, record: ExecutionRecord)
    requires Inv(w) && id in w.workers
    requires SeenRow(w.store, rec) && SetOnce(Some(eventId), w.store.executions[rec.key].webhookEventId)
    requires record.identity == rec.row.record.identity && record.phase.Failed? && !record.replayed
    requires Update(w.store, rec.key.projectId, record).1.None?
    ensures
      var input := RowInput(rec.key, record, rec.row).(webhookEventId := Some(eventId));
      Keeps(w, At(w.(store := Update(w.store, rec.key.projectId, record).0), id, StartReconcile(input, AfterFinish)))
  {
    hide Valid, MarkersInv, EntriesInv, OutcomesInv, EffectsInv, FinalizedInv, AdmissionsInv, Keeps;
    hide WorkersInv, Quiet, SameExpiries, Update, SeenRecord, InputInv;
    var t := Update(w.store, rec.key.projectId, record).0;
    SeenKey(w.store, rec.key, rec.row.record);
    QuietUpdate(w.store, rec.key, record);
    NoEventId(w.store, rec);
    InterruptedInputFits(w.store, t, rec, record, eventId);
    CallStep(w, id, t,
                 StartReconcile(RowInput(rec.key, record, rec.row).(webhookEventId := Some(eventId)), AfterFinish));
  }

  lemma StepFailPersist(w: World, id: nat, c: Choice)
    requires Inv(w) && id in w.workers && w.workers[id].pc.FailPersist?
    ensures Keeps(w, AdvanceOther(w, id, c))
  {
    hide Valid, MarkersInv, EntriesInv, OutcomesInv, EffectsInv, FinalizedInv, AdmissionsInv, Keeps;
    hide WorkersInv, Quiet, SameExpiries, Update, SeenRecord, InputInv;
    MyHeld(w, id);
    var pc := w.workers[id].pc;
    var rec := pc.rec;
    var record := InterruptedRecord(rec.row.record, pc.began, c.now);
    var (t, rejected) := Update(w.store, rec.key.projectId, record);
    if rejected.None? {
      FailPersisted(w, id, rec, pc.eventId, record);
    } else {
      SeenKey(w.store, rec.key, rec.row.record);
      QuietUpdate(w.store, rec.key, record);
      CallStep(w, id, t, Done);
    }
  }

  lemma SeenKey(s: Store, key: ExecutionKey, r: ExecutionRecord)
    requires Valid(s) && SeenRecord(s, key, r)
    ensures key.executionId == r.identity.executionId
  {
    hide IndexValid, WaitersValid;
    assert RowValid(s, key);
  }

  /** A cancellation that wins changes one row, to a cancelled record that says whether the marker was set. */
  lemma CancelChange(s: Store, key: ExecutionKey, at: Timestamp)
    requires Cancel(s, key, at).1.Ok? && Cancel(s, key, at).1.value.NowCancelled?
    ensures
      var t := Cancel(s, key, at).0;
      && key in s.executions && key in t.executions
      && t.executions == s.executions[key := t.executions[key]]
      && t.idempotency == s.idempotency
      && var before, after := s.executions[key], t.executions[key];
      && !before.record.Terminal()
      && after == before.(record := after.record)
      && after.record.identity == before.record.identity
      && after.record.phase.Cancelled?
      && after.record.phase.dispatchMayHaveBegun == before.dispatchStartedAt.Some?
      && Cancel(s, key, at).1.value.cancelled == after.Public()
  {
  }

  lemma CancelRows(w: World, id: nat, key: ExecutionKey, at: Timestamp, pc: Pc)
    requires Valid(w.store) && id in w.workers
    requires Cancel(w.store, key, at).1.Ok? && Cancel(w.store, key, at).1.value.NowCancelled?
    ensures
      var t := Cancel(w.store, key, at).0;
      && key in t.executions
      && var e := CancelRecorded(key, t.executions[key].dispatchStartedAt.Some?);
      && var w2 := Moved(w, id, t, pc, Some(e));
      && Valid(t) && Extends(w.store, t) && SameExpiries(w.store, t)
      && (forall k <- t.executions :: RowStep(w, w2, Some(e), k))
      && EventOk(w, w2, e)
      && SeenRecord(t, key, Cancel(w.store, key, at).1.value.cancelled)
      && Cancel(w.store, key, at).1.value.cancelled.Terminal()
  {
    hide Valid, Extends, Cancel;
    Calls.ApplyKeeps(w.store, Calls.CallCancel(key, at));
    CancelChange(w.store, key, at);
  }

  lemma QuietCancel(s: Store, key: ExecutionKey, at: Timestamp)
    requires !(Cancel(s, key, at).1.Ok? && Cancel(s, key, at).1.value.NowCancelled?)
    ensures Cancel(s, key, at).0 == s
    ensures Cancel(s, key, at).1.Ok? && Cancel(s, key, at).1.value.AlreadyCancelled? ==>
              && SeenRecord(s, key, Cancel(s, key, at).1.value.cancelled)
              && Cancel(s, key, at).1.value.cancelled.Terminal()
  {
  }

  lemma CancelWins(w: World, id: nat, key: ExecutionKey, at: Timestamp)
    requires Inv(w) && id in w.workers
    requires Cancel(w.store, key, at).1.Ok? && Cancel(w.store, key, at).1.value.NowCancelled?
    ensures
      var (t, result) := Cancel(w.store, key, at);
      && key in t.executions
      && var e := CancelRecorded(key, t.executions[key].dispatchStartedAt.Some?);
      Keeps(w, At(Emit(w.(store := t), e), id, CancelAbort(key, result.value.cancelled)))
  {
    hide Valid, MarkersInv, EntriesInv, OutcomesInv, EffectsInv, FinalizedInv, AdmissionsInv, Keeps;
    hide WorkersInv, SameExpiries, Cancel, RowStep, EventOk, Extends, SeenRecord;
    var (t, result) := Cancel(w.store, key, at);
    var next := CancelAbort(key, result.value.cancelled);
    CancelRows(w, id, key, at, next);
    var e := CancelRecorded(key, t.executions[key].dispatchStartedAt.Some?);
    assert Moved(w, id, t, next, Some(e)) == At(Emit(w.(store := t), e), id, next);
    LoudStep(w, id, t, next, Some(e));
  }

  lemma StepCancelStore(w: World, id: nat, c: Choice)
    requires Inv(w) && id in w.workers && w.workers[id].pc.CancelStore?
    ensures Keeps(w, AdvanceOther(w, id, c))
  {
    hide Valid, MarkersInv, EntriesInv, OutcomesInv, EffectsInv, FinalizedInv, AdmissionsInv, Keeps;
    hide WorkersInv, Cancel, SeenRecord;
    var key := w.workers[id].pc.key;
    var (t, result) := Cancel(w.store, key, c.now);
    if result.Ok? && result.value.NowCancelled? {
      CancelWins(w, id, key, c.now);
    } else {
      QuietCancel(w.store, key, c.now);
      PcStep(w, id,
        if result.Ok? && result.value.AlreadyCancelled? then CancelAbort(key, result.value.cancelled) else Done);
    }
  }

  /** A step that leaves the store and the log alone and lets no worker arrive at the adapter or a usage effect. */
  lemma WorkersOnly(w: World, w2: World)
    requires Valid(w.store) && WorkersInv(w) && w2.store == w.store && w2.log == w.log
    requires forall j <- w2.workers ::
               && j < w2.nextWorker
               && (|| (j in w.workers && w2.workers[j].pc == w.workers[j].pc)
                   || (&& HeldInv(w.store, w.log, HeldBy(j, w2.workers[j].pc))
                       && !w2.workers[j].pc.RunEnterAdapter? && !w2.workers[j].pc.ReconUsage?))
    ensures Keeps(w, w2)
  {
    hide Valid, Extends, HeldInv, HeldBy, Keeps, RowQuiet, WorkersInv;
    QuietItself(w.store);
    QuietRows(w, w2, None);
    assert w.log + EventSeq(None) == w.log;
    forall j <- w2.workers ensures Placed(w, w2, None, j) {
      if j in w.workers && w2.workers[j].pc == w.workers[j].pc {
        OthersKeep(w, w2, None, j);
      }
    }
    StepFromParts(w, w2, None);
  }

  lemma CancelInputFits(s: Store, key: ExecutionKey, record: ExecutionRecord)
    requires SeenRecord(s, key, record) && record.Terminal()
    ensures InputInv(s, ReconInput(key, record, None, None, None))
  {
  }

  lemma StepCancelAbort(w: World, id: nat, c: Choice)
    requires Inv(w) && id in w.workers && w.workers[id].pc.CancelAbort?
    ensures Keeps(w, AdvanceOther(w, id, c))
  {
    hide Valid, MarkersInv, EntriesInv, OutcomesInv, EffectsInv, FinalizedInv, AdmissionsInv, Keeps;
    hide SeenRecord, InputInv, RunKey;
    MyHeld(w, id);
    var pc := w.workers[id].pc;
    CancelInputFits(w.store, pc.key, pc.record);
    var next := StartReconcile(ReconInput(pc.key, pc.record, None, None, None), AfterFinish);
    assert HeldInv(w.store, w.log, HeldBy(id, next));
    hide HeldInv, HeldBy;
    var w2 := AdvanceOther(w, id, c);
    forall j <- w2.workers
      ensures j < w2.nextWorker
      ensures || (j in w.workers && w2.workers[j].pc == w.workers[j].pc)
              || (&& HeldInv(w.store, w.log, HeldBy(j, w2.workers[j].pc))
                  && !w2.workers[j].pc.RunEnterAdapter? && !w2.workers[j].pc.ReconUsage?)
    {
      assert j in w.workers;
    }
    hide WorkersInv;
    WorkersOnly(w, w2);
  }

  lemma RecordSeen(s: Store, key: ExecutionKey, row: StoredExecution)
    requires SeenRow(s, Recoverable(key, row))
    ensures SeenRecord(s, key, row.record)
  {
    hide SeenRecord;
  }

  lemma ReconcileCancelled(w: World, id: nat, key: ExecutionKey, row: StoredExecution)
    requires Inv(w) && id in w.workers && GetRecoverable(w.store, key) == Some(row) && row.record.phase.Cancelled?
    ensures Keeps(w, At(w, id, StartReconcile(ReconInput(key, row.record, None, None, None), AfterFinish)))
  {
    hide Valid, MarkersInv, EntriesInv, OutcomesInv, EffectsInv, FinalizedInv, AdmissionsInv, Keeps;
    hide SeenRecord, SeenRow, InputInv, GetRecoverable, WorkersInv;
    RowSeen(w.store, key, row);
    RecordSeen(w.store, key, row);
    CancelInputFits(w.store, key, row.record);
    PcStep(w, id, StartReconcile(ReconInput(key, row.record, None, None, None), AfterFinish));
  }

  lemma StepRecoverRead(w: World, id: nat, c: Choice)
    requires Inv(w) && id in w.workers && w.workers[id].pc.RecoverRead?
    ensures Keeps(w, AdvanceOther(w, id, c))
  {
    hide Valid, MarkersInv, EntriesInv, OutcomesInv, EffectsInv, FinalizedInv, AdmissionsInv, Keeps;
    hide GetRecoverable, WorkersInv;
    var key := w.workers[id].pc.key;
    var row := GetRecoverable(w.store, key);
    if row.Some? && row.value.record.phase.Cancelled? {
      ReconcileCancelled(w, id, key, row.value);
    } else {
      PcStep(w, id, Done);
    }
  }

  // ------------------------------------------------------- Reconciliation

  lemma SpawnReconcile(w: World, id: nat, c: Choice)
    requires Inv(w) && id in w.workers && w.workers[id].pc.StartReconcile?
    requires ReconSlot(w.workers[id].process, w.workers[id].pc.input.key) !in w.reconciling
    ensures Keeps(w, AdvanceReconcile(w, id, c))
  {
    hide Valid, MarkersInv, EntriesInv, OutcomesInv, EffectsInv, FinalizedInv, AdmissionsInv, Keeps;
    hide InputInv;
    MyHeld(w, id);
    var w2 := AdvanceReconcile(w, id, c);
    forall j <- w2.workers
      ensures j < w2.nextWorker
      ensures || (j in w.workers && w2.workers[j].pc == w.workers[j].pc)
              || (&& HeldInv(w.store, w.log, HeldBy(j, w2.workers[j].pc))
                  && !w2.workers[j].pc.RunEnterAdapter? && !w2.workers[j].pc.ReconUsage?)
    {
      assert id < w.nextWorker;
      assert j in w.workers || j == w.nextWorker;
    }
    hide WorkersInv, HeldInv, HeldBy;
    WorkersOnly(w, w2);
  }

  lemma StepStartReconcile(w: World, id: nat, c: Choice)
    requires Inv(w) && id in w.workers && w.workers[id].pc.StartReconcile?
    ensures Keeps(w, AdvanceReconcile(w, id, c))
  {
    hide Valid, MarkersInv, EntriesInv, OutcomesInv, EffectsInv, FinalizedInv, AdmissionsInv, Keeps,
         WorkersInv, AfterInv;
    hide InputInv;
    var slot := ReconSlot(w.workers[id].process, w.workers[id].pc.input.key);
    if slot in w.reconciling {
      MyHeld(w, id);
      PcStep(w, id, Awaiting(w.reconciling[slot], w.workers[id].pc.after));
    } else {
      SpawnReconcile(w, id, c);
    }
  }

  lemma StepResume(w: World, id: nat, after: After, ok: bool)
    requires Valid(w.store) && WorkersInv(w) && id in w.workers && AfterInv(w.store, after)
    ensures Keeps(w, Resume(w, id, after, ok))
  {
    hide Valid, WorkersInv, Keeps, LocalsInv;
    PcStep(w, id, Done);
    match after
    case AfterFinish =>
    case AfterSuccess(l) => PcStep(w, id, RunInnerCatch(l, OtherFailure));
    case AfterFailure(l, failure) =>
      LocalsIrrelevant(w.store, l, l.(usageFinalized := true));
      PcStep(w, id, RunOuterCatch(l, OtherFailure));
      PcStep(w, id, RunOuterCatch(l.(usageFinalized := true), failure));
    case AfterWinner(l) => StepRunThrow(w, id, l);
  }

  lemma StepAwaiting(w: World, id: nat, c: Choice)
    requires Inv(w) && id in w.workers && w.workers[id].pc.Awaiting?
    ensures AdvanceReconcile(w, id, c) == w || Keeps(w, AdvanceReconcile(w, id, c))
  {
    hide Valid, MarkersInv, EntriesInv, OutcomesInv, EffectsInv, FinalizedInv, AdmissionsInv, Keeps;
    hide AfterInv, WorkersInv, Resume;
    MyHeld(w, id);
    var pc := w.workers[id].pc;
    StepResume(w, id, pc.after, true);
    StepResume(w, id, pc.after, false);
  }

  /** What a reconciliation decides from its one read is what the row says, then and ever after. */
  lemma ReadFits(s: Store, input: ReconInput)
    requires InputInv(s, input)
    ensures DataInv(s, ReadForReconciliation(input, GetRecoverable(s, input.key)))
    ensures ReadForReconciliation(input, GetRecoverable(s, input.key)).key == input.key
    ensures GetRecoverable(s, input.key).Some?
    ensures GetRecoverable(s, input.key).value.usageFinalizedAt == s.executions[input.key].usageFinalizedAt
  {
  }

  lemma StepReconRead(w: World, id: nat, c: Choice)
    requires Inv(w) && id in w.workers && w.workers[id].pc.ReconRead?
    ensures Keeps(w, AdvanceReconcile(w, id, c))
  {
    hide Valid, MarkersInv, EntriesInv, OutcomesInv, EffectsInv, FinalizedInv, AdmissionsInv, Keeps;
    hide WorkersInv, GetRecoverable, ReadForReconciliation;
    MyHeld(w, id);
    var input := w.workers[id].pc.input;
    var stored := GetRecoverable(w.store, input.key);
    var d := ReadForReconciliation(input, stored);
    ReadFits(w.store, input);
    var next := if stored.value.usageFinalizedAt.Some? then ReconWebhook(d) else ReconUsage(d);
    EventStep(w, id, next, ReconciliationRead(id, input.key));
  }

  /** Ending a reconciliation only frees its slot. */
  lemma EndingKeeps(w: World, v: World, id: nat, key: ExecutionKey, ok: bool)
    requires id in v.workers && Keeps(w, At(v, id, ReconDone(ok)))
    ensures Keeps(w, EndReconciliation(v, id, key, ok))
  {
    hide Valid, Extends, HeldInv, HeldBy, IndexStep;
    var a, b := At(v, id, ReconDone(ok)), EndReconciliation(v, id, key, ok);
    var e :| StepOk(w, a, e);
    assert forall k <- b.store.executions :: RowStep(w, a, e, k) ==> RowStep(w, b, e, k);
    assert forall j <- b.workers :: ArrivalOk(w, a, e, j) ==> ArrivalOk(w, b, e, j);
    assert IndexStep(w, b, e) by {
      SameIndexStep(w, a, b, e);
    }
    assert StepOk(w, b, e);
  }

  lemma SameIndexStep(w: World, a: World, b: World, e: Option<Event>)
    requires IndexStep(w, a, e) && a.store == b.store
    ensures IndexStep(w, b, e)
  {
  }

  lemma DataHeld(s: Store, log: seq<Event>, id: nat, d: ReconData)
    ensures HeldInv(s, log, HeldBy(id, ReconUsage(d))) <==> DataInv(s, d)
    ensures HeldInv(s, log, HeldBy(id, ReconFinalize(d))) <==> DataInv(s, d)
    ensures HeldInv(s, log, HeldBy(id, ReconWebhook(d))) <==> DataInv(s, d)
    ensures HeldInv(s, log, HeldBy(id, ReconPublish(d))) <==> DataInv(s, d)
    ensures forall ok :: HeldInv(s, log, HeldBy(id, ReconDone(ok)))
  {
  }

  lemma StepUsageEffect(w: World, id: nat, d: ReconData, e: Event, fails: bool)
    requires Valid(w.store) && WorkersInv(w) && id in w.workers && w.workers[id].pc == ReconUsage(d)
    requires e == if d.dispatchMayHaveBegun then UsageReported(id, d.key) else UsageReleased(id, d.key)
    ensures Keeps(w, if fails then EndReconciliation(Emit(w, e), id, d.key, false)
                      else At(Emit(w, e), id, ReconFinalize(d)))
  {
    hide Valid, Keeps, WorkersInv, EndReconciliation, HeldInv, HeldBy;
    MyHeld(w, id);
    DataHeld(w.store, w.log, id, d);
    DataHeld(w.store, w.log + [e], id, d);
    if fails {
      EventStep(w, id, ReconDone(false), e);
      EndingKeeps(w, Emit(w, e), id, d.key, false);
    } else {
      EventStep(w, id, ReconFinalize(d), e);
    }
  }

  lemma StepReconUsage(w: World, id: nat, c: Choice)
    requires Inv(w) && id in w.workers && w.workers[id].pc.ReconUsage?
    ensures Keeps(w, AdvanceReconcile(w, id, c))
  {
    hide Valid, MarkersInv, EntriesInv, OutcomesInv, EffectsInv, FinalizedInv, AdmissionsInv, Keeps;
    hide WorkersInv, EndReconciliation, DataInv;
    MyHeld(w, id);
    var d := w.workers[id].pc.d;
    if (d.dispatchMayHaveBegun && d.usageReport.Some?) || (!d.dispatchMayHaveBegun && d.reservation.Some?) {
      var e := if d.dispatchMayHaveBegun then UsageReported(id, d.key) else UsageReleased(id, d.key);
      StepUsageEffect(w, id, d, e, c.fails);
    } else {
      PcStep(w, id, ReconFinalize(d));
    }
  }

  lemma FinalizeMarks(s: Store, key: ExecutionKey, at: Timestamp)
    ensures
      var t := MarkUsageFinalized(s, key, at).0;
      key in s.executions ==> key in t.executions && t.executions[key].usageFinalizedAt.Some?
  {
  }

  lemma StepReconFinalize(w: World, id: nat, c: Choice)
    requires Inv(w) && id in w.workers && w.workers[id].pc.ReconFinalize?
    ensures Keeps(w, AdvanceReconcile(w, id, c))
  {
    hide Valid, MarkersInv, EntriesInv, OutcomesInv, EffectsInv, FinalizedInv, AdmissionsInv, Keeps;
    hide WorkersInv, Extends, RowQuiet, MarkUsageFinalized;
    MyHeld(w, id);
    var d := w.workers[id].pc.d;
    var e := UsageFinalized(id, d.key);
    var t := MarkUsageFinalized(w.store, d.key, c.now).0;
    QuietMarkUsageFinalized(w.store, d.key, c.now);
    FinalizeMarks(w.store, d.key, c.now);
    DataStable(w.store, t, d);
    assert Moved(w, id, t, ReconWebhook(d), Some(e)) == At(Emit(w.(store := t), e), id, ReconWebhook(d));
    MoveStep(w, id, t, ReconWebhook(d), Some(e));
  }

  lemma StepReconWebhook(w: World, id: nat, c: Choice)
    requires Inv(w) && id in w.workers && w.workers[id].pc.ReconWebhook?
    ensures Keeps(w, AdvanceReconcile(w, id, c))
  {
    hide Valid, MarkersInv, EntriesInv, OutcomesInv, EffectsInv, FinalizedInv, AdmissionsInv, Keeps;
    hide WorkersInv, EndReconciliation, HeldInv, HeldBy;
    MyHeld(w, id);
    var d := w.workers[id].pc.d;
    DataHeld(w.store, w.log, id, d);
    if d.eventId.None? || d.published {
      PcStep(w, id, ReconDone(true));
      EndingKeeps(w, w, id, d.key, true);
    } else {
      var e := WebhookEnqueued(id, d.key, d.eventId.value);
      DataHeld(w.store, w.log + [e], id, d);
      if c.fails {
        EventStep(w, id, ReconDone(false), e);
        EndingKeeps(w, Emit(w, e), id, d.key, false);
      } else {
        EventStep(w, id, ReconPublish(d), e);
      }
    }
  }

  lemma StepReconPublish(w: World, id: nat, c: Choice)
    requires Inv(w) && id in w.workers && w.workers[id].pc.ReconPublish?
    ensures Keeps(w, AdvanceReconcile(w, id, c))
  {
    hide Valid, MarkersInv, EntriesInv, OutcomesInv, EffectsInv, FinalizedInv, AdmissionsInv, Keeps;
    hide WorkersInv, EndReconciliation, Quiet, SameExpiries, MarkWebhookPublished;
    var d := w.workers[id].pc.d;
    var t := MarkWebhookPublished(w.store, d.key, c.now).0;
    QuietMarkWebhookPublished(w.store, d.key, c.now);
    CallStep(w, id, t, ReconDone(true));
    EndingKeeps(w, w.(store := t), id, d.key, true);
  }
}
