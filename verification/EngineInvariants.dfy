// What every step of the engine keeps. A step is judged by five small
// obligations (StepOk); each part of the invariant is then carried across any
// step that meets them.
module EngineInvariants {
  import opened Wrappers
  import opened ExecutionRecords
  import opened ExecutionStore
  import Calls = StoreRuns
  import opened ExecutionEngine

  // ------------------------------------------------- What a worker may hold

  /** A record that some call returned: still about this row, and final if it is terminal. */
  ghost predicate SeenRecord(s: Store, k: ExecutionKey, r: ExecutionRecord) {
    && k in s.executions
    && r.identity == s.executions[k].record.identity
    && (r.Terminal() ==> Finished(s, k) && SameUpToReplay(r, s.executions[k].record))
  }

  ghost predicate SeenRow(s: Store, rec: Recoverable) {
    && SeenRecord(s, rec.key, rec.row.record)
    && SetOnce(rec.row.webhookEventId, s.executions[rec.key].webhookEventId)
  }

  ghost predicate LocalsInv(s: Store, l: RunLocals) {
    && l.key in s.executions
    && l.pending.identity == s.executions[l.key].record.identity
    && SetOnce(l.webhookEventId, s.executions[l.key].webhookEventId)
  }

  ghost predicate InputInv(s: Store, input: ReconInput) {
    && SeenRecord(s, input.key, input.record) && input.record.Terminal()
    && SetOnce(input.webhookEventId, s.executions[input.key].webhookEventId)
  }

  ghost predicate Began(s: Store, k: ExecutionKey)
    requires k in s.executions
  {
    MayHaveBegun(s.executions[k].record, s.executions[k].dispatchStartedAt)
  }

  ghost predicate DataInv(s: Store, d: ReconData) {
    && Finished(s, d.key)
    && d.dispatchMayHaveBegun == Began(s, d.key)
    && SetOnce(d.eventId, s.executions[d.key].webhookEventId)
  }

  ghost predicate AfterInv(s: Store, after: After) {
    match after
    case AfterFinish => true
    case AfterSuccess(l) => LocalsInv(s, l)
    case AfterFailure(l, _) => LocalsInv(s, l)
    case AfterWinner(l) => LocalsInv(s, l)
  }

  /** The part of a program counter's locals that refers to the store or to the worker's own past. */
  datatype Held =
    | Nothing
    | HoldsRecord(key: ExecutionKey, record: ExecutionRecord, terminal: bool)
    | HoldsTicket(key: ExecutionKey, ticket: nat)
    | HoldsRow(rec: Recoverable, eventId: Option<string>)
    | HoldsLocals(l: RunLocals, past: Option<Event>)
    | HoldsInput(input: ReconInput, after: After)
    | HoldsAfter(after: After)
    | HoldsData(d: ReconData)

  function HeldBy(id: nat, pc: Pc): Held {
    match pc
    case ExecReplay(cmd, r, _) => HoldsRecord(ExecutionKey(cmd.projectId, r.identity.executionId), r, false)
    case ExecMarkReplayed(cmd, r) => HoldsRecord(ExecutionKey(cmd.projectId, r.identity.executionId), r, false)
    case ExecWait(cmd, r) => HoldsRecord(ExecutionKey(cmd.projectId, r.identity.executionId), r, false)
    case ExecAwaitTerminal(k, t) => HoldsTicket(k, t)
    case ExecReplayRead(k, r) => HoldsRecord(k, r, true)
    case JobSetResume(rec, _, _) => HoldsRow(rec, None)
    case JobReread(rec) => HoldsRow(rec, None)
    case FailSetEvent(rec, _, _) => HoldsRow(rec, None)
    case FailPersist(rec, eventId, _) => HoldsRow(rec, Some(eventId))
    case RunAcquire(l) => HoldsLocals(l, None)
    case RunMarkRunning(l) => HoldsLocals(l, None)
    case RunResolveCredential(l) => HoldsLocals(l, None)
    case RunSetConnection(l) => HoldsLocals(l, None)
    case RunMarkDispatch(l) => HoldsLocals(l, None)
    case RunEnterAdapter(l) => HoldsLocals(l, Some(MarkerWon(id, l.key)))
    case RunInAdapter(l) => HoldsLocals(l, Some(AdapterEntered(id, l.key)))
    case RunPersistSuccess(l, _) => HoldsLocals(l, Some(AdapterEntered(id, l.key)))
    case RunInnerCatch(l, _) => HoldsLocals(l, None)
    case RunOuterCatch(l, _) => HoldsLocals(l, None)
    case RunRelease(l) => HoldsLocals(l, None)
    case CancelAbort(k, r) => HoldsRecord(k, r, true)
    case StartReconcile(input, after) => HoldsInput(input, after)
    case Awaiting(_, after) => HoldsAfter(after)
    case ReconRead(input) => HoldsInput(input, AfterFinish)
    case ReconUsage(d) => HoldsData(d)
    case ReconFinalize(d) => HoldsData(d)
    case ReconWebhook(d) => HoldsData(d)
    case ReconPublish(d) => HoldsData(d)
    case _ => Nothing
  }

  ghost predicate HeldInv(s: Store, log: seq<Event>, held: Held) {
    match held
    case Nothing => true
    case HoldsRecord(k, r, terminal) => SeenRecord(s, k, r) && (terminal ==> r.Terminal())
    case HoldsTicket(k, t) => t < |s.tickets| && s.tickets[t] == k
    case HoldsRow(rec, eventId) => SeenRow(s, rec) && SetOnce(eventId, s.executions[rec.key].webhookEventId)
    case HoldsLocals(l, past) => LocalsInv(s, l) && (past.Some? ==> past.value in log)
    case HoldsInput(input, after) => InputInv(s, input) && AfterInv(s, after)
    case HoldsAfter(after) => AfterInv(s, after)
    case HoldsData(d) => DataInv(s, d)
  }

  ghost predicate WorkersInv(w: World) {
    && (forall j <- w.workers :: j < w.nextWorker)
    && (forall j <- w.workers :: HeldInv(w.store, w.log, HeldBy(j, w.workers[j].pc)))
  }

  lemma RowFacts(s: Store, t: Store, k: ExecutionKey)
    requires Extends(s, t) && k in s.executions
    ensures k in t.executions && RowExtends(s.executions[k], t.executions[k])
  {
  }

  lemma SeenRecordStable(s: Store, t: Store, k: ExecutionKey, r: ExecutionRecord)
    requires Extends(s, t) && SeenRecord(s, k, r)
    ensures SeenRecord(t, k, r)
  {
    RowFacts(s, t, k);
  }

  lemma SeenRowStable(s: Store, t: Store, rec: Recoverable)
    requires Extends(s, t) && SeenRow(s, rec)
    ensures SeenRow(t, rec)
    ensures s.executions[rec.key].webhookEventId.Some? ==>
              t.executions[rec.key].webhookEventId == s.executions[rec.key].webhookEventId
  {
    RowFacts(s, t, rec.key);
    SeenRecordStable(s, t, rec.key, rec.row.record);
  }

  lemma LocalsStable(s: Store, t: Store, l: RunLocals)
    requires Extends(s, t) && LocalsInv(s, l)
    ensures LocalsInv(t, l)
  {
    RowFacts(s, t, l.key);
  }

  lemma InputStable(s: Store, t: Store, input: ReconInput)
    requires Extends(s, t) && InputInv(s, input)
    ensures InputInv(t, input)
  {
    RowFacts(s, t, input.key);
    SeenRecordStable(s, t, input.key, input.record);
  }

  lemma DataStable(s: Store, t: Store, d: ReconData)
    requires Extends(s, t) && DataInv(s, d)
    ensures DataInv(t, d)
  {
    RowFacts(s, t, d.key);
  }

  lemma AfterStable(s: Store, t: Store, after: After)
    requires Extends(s, t) && AfterInv(s, after)
    ensures AfterInv(t, after)
  {
    match after
    case AfterFinish =>
    case AfterSuccess(l) => LocalsStable(s, t, l);
    case AfterFailure(l, _) => LocalsStable(s, t, l);
    case AfterWinner(l) => LocalsStable(s, t, l);
  }

  /** What a worker holds stays true while others write the store and the log grows. */
  lemma HeldStable(s: Store, t: Store, log: seq<Event>, more: seq<Event>, held: Held)
    requires Extends(s, t) && HeldInv(s, log, held) && log <= more
    ensures HeldInv(t, more, held)
  {
    match held
    case Nothing =>
    case HoldsRecord(k, r, _) => SeenRecordStable(s, t, k, r);
    case HoldsTicket(k, ticket) => assert s.tickets <= t.tickets;
    case HoldsRow(rec, _) => SeenRowStable(s, t, rec);
    case HoldsLocals(l, past) => LocalsStable(s, t, l); assert past.Some? ==> past.value in more;
    case HoldsInput(input, after) => InputStable(s, t, input); AfterStable(s, t, after);
    case HoldsAfter(after) => AfterStable(s, t, after);
    case HoldsData(d) => DataStable(s, t, d);
  }

  // ------------------------------------------------- Obligations of one step

  function EventSeq(e: Option<Event>): seq<Event> {
    if e.None? then [] else [e.value]
  }

  /** How one row may change in one step: a marker only with its event, a cancellation only with its event
      and with the marker's truth, a success only after the adapter was entered. */
  ghost predicate RowStep(w: World, w2: World, e: Option<Event>, k: ExecutionKey)
    requires k in w2.store.executions
  {
    var b := w2.store.executions[k];
    if k !in w.store.executions then
      b.record.phase.Pending? && b.dispatchStartedAt.None?
    else
      var a := w.store.executions[k];
      && (a.dispatchStartedAt == b.dispatchStartedAt || (e.Some? && e.value.MarkerWon? && e.value.key == k))
      && (|| a.record == b.record
          || b.record.phase.Running?
          || b.record.phase.Failed?
          || (&& b.record.phase.Cancelled?
              && e == Some(CancelRecorded(k, b.dispatchStartedAt.Some?))
              && b.record.phase.dispatchMayHaveBegun == b.dispatchStartedAt.Some?)
          || (b.record.phase.Succeeded? && exists j :: AdapterEntered(j, k) in w.log))
  }

  function ExpiryOf(s: Store, sk: ScopeKey): Option<Timestamp> {
    if sk in s.idempotency then Some(s.idempotency[sk].reservation.expiresAt) else None
  }

  ghost predicate IndexStep(w: World, w2: World, e: Option<Event>) {
    forall sk :: ExpiryOf(w.store, sk) != ExpiryOf(w2.store, sk) ==>
      e.Some? && e.value.Admitted? && e.value.scope == Some(sk)
  }

  ghost predicate EventOk(w: World, w2: World, e: Event) {
    match e
    case Admitted(k, scope, createdAt, expiresAt) =>
      && k !in w.store.executions && k in w2.store.executions
      && w2.store.executions[k].record.identity.createdAt == createdAt
      && (scope.Some? ==>
            && ExpiryOf(w2.store, scope.value) == Some(expiresAt)
            && createdAt + DAY_MS <= expiresAt
            && (ExpiryOf(w.store, scope.value).Some? ==> ExpiryOf(w.store, scope.value).value <= createdAt))
    case MarkerWon(j, k) =>
      && k in w.store.executions && k in w2.store.executions
      && w.store.executions[k].dispatchStartedAt.None? && w2.store.executions[k].dispatchStartedAt.Some?
      && w2.store.executions[k].record.phase.Running?
    case AdapterEntered(j, k) =>
      && MarkerWon(j, k) in w.log
      && j in w.workers && w.workers[j].pc.RunEnterAdapter? && w.workers[j].pc.l.key == k
      && j in w2.workers && !w2.workers[j].pc.RunEnterAdapter?
    case CancelRecorded(k, began) =>
      && k in w.store.executions && k in w2.store.executions
      && !w.store.executions[k].record.Terminal()
      && w2.store.executions[k].record.phase.Cancelled?
      && w2.store.executions[k].record.phase.dispatchMayHaveBegun == began
      && w.store.executions[k].dispatchStartedAt.Some? == began
    case ReconciliationRead(j, k) => true
    case UsageReported(j, k) =>
      Finished(w.store, k) && Began(w.store, k) && j in w.workers
      && w.workers[j].pc.ReconUsage? && w.workers[j].pc.d.key == k
    case UsageReleased(j, k) =>
      Finished(w.store, k) && !Began(w.store, k) && j in w.workers
      && w.workers[j].pc.ReconUsage? && w.workers[j].pc.d.key == k
    case UsageFinalized(j, k) => k in w2.store.executions && w2.store.executions[k].usageFinalizedAt.Some?
    case WebhookEnqueued(j, k, eventId) =>
      k in w.store.executions && w.store.executions[k].webhookEventId == Some(eventId)
    case ReservationReleased(j, k) => true
  }

  /** How a worker comes to stand before the adapter, or before a usage effect: by the event just logged. */
  ghost predicate ArrivalOk(w: World, w2: World, e: Option<Event>, j: nat)
    requires j in w2.workers
  {
    var pc := w2.workers[j].pc;
    && (pc.RunEnterAdapter? ==>
          || (j in w.workers && w.workers[j].pc == pc)
          || e == Some(MarkerWon(j, pc.l.key)))
    && (pc.ReconUsage? ==>
          || (j in w.workers && w.workers[j].pc == pc
              && !(e.Some? && e.value.ReconciliationRead? && e.value.worker == j))
          || (&& e == Some(ReconciliationRead(j, pc.d.key))
              && pc.d.key in w.store.executions && w.store.executions[pc.d.key].usageFinalizedAt.None?))
  }

  ghost predicate StepOk(w: World, w2: World, e: Option<Event>) {
    && Valid(w2.store) && Extends(w.store, w2.store)
    && w2.log == w.log + EventSeq(e)
    && (forall k <- w2.store.executions :: RowStep(w, w2, e, k))
    && IndexStep(w, w2, e)
    && (e.Some? ==> EventOk(w, w2, e.value))
    && (forall j <- w2.workers :: ArrivalOk(w, w2, e, j))
    && WorkersInv(w2)
  }

  // ------------------------------------------------------ Invariants of runs

  /** Each marker event belongs to a marked row that has started, once per execution, and each marked row has one. */
  ghost predicate MarkersInv(w: World) {
    && (forall e <- w.log :: e.MarkerWon? ==>
          && e.key in w.store.executions && w.store.executions[e.key].dispatchStartedAt.Some?
          && !w.store.executions[e.key].record.phase.Pending?)
    && (forall i, j :: 0 <= i < j < |w.log| && w.log[i].MarkerWon? && w.log[j].MarkerWon? ==>
          w.log[i].key != w.log[j].key)
    && (forall k <- w.store.executions :: w.store.executions[k].dispatchStartedAt.Some? ==>
          exists j :: MarkerWon(j, k) in w.log)
  }

  /** Each entry into an adapter was preceded by the same worker's marker event, and happens once per execution. */
  ghost predicate EntriesInv(w: World) {
    && (forall j :: 0 <= j < |w.log| && w.log[j].AdapterEntered? ==>
          MarkerWon(w.log[j].worker, w.log[j].key) in w.log[..j])
    && (forall i, j :: 0 <= i < j < |w.log| && w.log[i].AdapterEntered? && w.log[j].AdapterEntered? ==>
          w.log[i].key != w.log[j].key)
    && (forall e <- w.log :: e.AdapterEntered? && e.worker in w.workers && w.workers[e.worker].pc.RunEnterAdapter? ==>
          w.workers[e.worker].pc.l.key != e.key)
  }

  /** What terminal rows say about dispatch. */
  ghost predicate OutcomesInv(w: World) {
    && (forall k <- w.store.executions :: w.store.executions[k].record.phase.Cancelled? ==>
          && w.store.executions[k].record.phase.dispatchMayHaveBegun == w.store.executions[k].dispatchStartedAt.Some?
          && CancelRecorded(k, w.store.executions[k].dispatchStartedAt.Some?) in w.log)
    && (forall k <- w.store.executions :: w.store.executions[k].record.phase.Succeeded? ==>
          exists j :: AdapterEntered(j, k) in w.log)
    && (forall j :: 0 <= j < |w.log| && w.log[j].CancelRecorded? ==>
          && Finished(w.store, w.log[j].key)
          && (w.log[j].dispatchMayHaveBegun ==> exists i :: MarkerWon(i, w.log[j].key) in w.log[..j]))
  }

  /** The effects of reconciliation agree with the one row they are about. */
  ghost predicate EffectsInv(w: World) {
    forall e <- w.log ::
      match e
      case UsageReported(_, k) => Finished(w.store, k) && Began(w.store, k)
      case UsageReleased(_, k) => Finished(w.store, k) && !Began(w.store, k)
      case UsageFinalized(_, k) => k in w.store.executions && w.store.executions[k].usageFinalizedAt.Some?
      case WebhookEnqueued(_, k, eventId) =>
        k in w.store.executions && w.store.executions[k].webhookEventId == Some(eventId)
      case _ => true
  }

  predicate UsageEffect(e: Event) { e.UsageReported? || e.UsageReleased? }

  /** Worker j read the row of k after some reconciliation had finalized its usage. */
  ghost predicate ReadAfterFinalized(log: seq<Event>, j: nat, k: ExecutionKey) {
    exists i, l :: 0 <= i < l < |log| && log[i].UsageFinalized? && log[i].key == k && log[l] == ReconciliationRead(j, k)
  }

  ghost predicate FinalizedInv(w: World) {
    && (forall j <- w.workers :: w.workers[j].pc.ReconUsage? ==> !ReadAfterFinalized(w.log, j, w.workers[j].pc.d.key))
    && (forall n :: 0 <= n < |w.log| && UsageEffect(w.log[n]) ==>
          !ReadAfterFinalized(w.log[..n], w.log[n].worker, w.log[n].key))
  }

  /** Admissions under one scope: each starts no earlier than every earlier one expired. */
  ghost predicate AdmissionsInv(w: World) {
    && (forall e <- w.log :: e.Admitted? ==>
          && e.key in w.store.executions
          && w.store.executions[e.key].record.identity.createdAt == e.createdAt
          && (e.scope.Some? ==>
                && e.createdAt + DAY_MS <= e.expiresAt
                && ExpiryOf(w.store, e.scope.value).Some?
                && e.expiresAt <= ExpiryOf(w.store, e.scope.value).value))
    && (forall i, j :: 0 <= i < j < |w.log| && w.log[i].Admitted? && w.log[j].Admitted? ==>
          && w.log[i].key != w.log[j].key
          && (w.log[i].scope.Some? && w.log[i].scope == w.log[j].scope ==> w.log[i].expiresAt <= w.log[j].createdAt))
  }

  ghost predicate Inv(w: World) {
    && Valid(w.store) && WorkersInv(w)
    && MarkersInv(w) && EntriesInv(w) && OutcomesInv(w)
    && EffectsInv(w) && FinalizedInv(w) && AdmissionsInv(w)
  }

  // --------------------------------------- Carrying each part across a step

  lemma MarkersStep(w: World, w2: World, e: Option<Event>)
    requires MarkersInv(w) && StepOk(w, w2, e)
    ensures MarkersInv(w2)
  {
    hide Valid, WorkersInv, ArrivalOk, IndexStep;
    forall f <- w2.log | f.MarkerWon?
      ensures f.key in w2.store.executions && w2.store.executions[f.key].dispatchStartedAt.Some?
      ensures !w2.store.executions[f.key].record.phase.Pending?
    {
      if f in w.log {
        RowFacts(w.store, w2.store, f.key);
      }
    }
    forall i, j | 0 <= i < j < |w2.log| && w2.log[i].MarkerWon? && w2.log[j].MarkerWon?
      ensures w2.log[i].key != w2.log[j].key
    {
      if j == |w.log| {
        assert w.log[i] in w.log;
      }
    }
    forall k <- w2.store.executions | w2.store.executions[k].dispatchStartedAt.Some?
      ensures exists j :: MarkerWon(j, k) in w2.log
    {
      assert RowStep(w, w2, e, k);
      if e.Some? && e.value.MarkerWon? && e.value.key == k {
        assert MarkerWon(e.value.worker, k) in w2.log;
      } else {
        var j :| MarkerWon(j, k) in w.log;
        assert MarkerWon(j, k) in w2.log;
      }
    }
  }

  lemma EntriesAreMarked(w: World, w2: World, e: Option<Event>)
    requires EntriesInv(w) && StepOk(w, w2, e)
    ensures forall j :: 0 <= j < |w2.log| && w2.log[j].AdapterEntered? ==>
              MarkerWon(w2.log[j].worker, w2.log[j].key) in w2.log[..j]
  {
    hide Valid, WorkersInv, IndexStep, Extends, ArrivalOk, RowStep;
    forall j | 0 <= j < |w2.log| && w2.log[j].AdapterEntered?
      ensures MarkerWon(w2.log[j].worker, w2.log[j].key) in w2.log[..j]
    {
      assert w2.log[..j] == w.log[..j];
    }
  }

  lemma EntriesAreUnique(w: World, w2: World, e: Option<Event>)
    requires MarkersInv(w) && EntriesInv(w) && StepOk(w, w2, e)
    ensures forall i, j :: 0 <= i < j < |w2.log| && w2.log[i].AdapterEntered? && w2.log[j].AdapterEntered? ==>
              w2.log[i].key != w2.log[j].key
  {
    hide Valid, WorkersInv, IndexStep, Extends, ArrivalOk, RowStep, MarkersInv;
    var n := |w.log|;
    forall i, j | 0 <= i < j < |w2.log| && w2.log[i].AdapterEntered? && w2.log[j].AdapterEntered?
      ensures w2.log[i].key != w2.log[j].key
    {
      if j == n {
        assert w.log[i] in w.log;
        SameMarker(w, i, w2.log[n].worker, w2.log[n].key);
      }
    }
  }

  lemma EntrantsHaveNoEntry(w: World, w2: World, e: Option<Event>)
    requires MarkersInv(w) && EntriesInv(w) && StepOk(w, w2, e)
    ensures forall f <- w2.log ::
              f.AdapterEntered? && f.worker in w2.workers && w2.workers[f.worker].pc.RunEnterAdapter? ==>
              w2.workers[f.worker].pc.l.key != f.key
  {
    hide Valid, WorkersInv, IndexStep, Extends, RowStep;
    forall f <- w2.log | f.AdapterEntered? && f.worker in w2.workers && w2.workers[f.worker].pc.RunEnterAdapter?
      ensures w2.workers[f.worker].pc.l.key != f.key
    {
      assert ArrivalOk(w, w2, e, f.worker);
      if f in w.log && e == Some(MarkerWon(f.worker, w2.workers[f.worker].pc.l.key)) {
        var i :| 0 <= i < |w.log| && w.log[i] == f;
        assert MarkerWon(f.worker, f.key) in w.log;
      }
    }
  }

  lemma EntriesStep(w: World, w2: World, e: Option<Event>)
    requires MarkersInv(w) && EntriesInv(w) && StepOk(w, w2, e)
    ensures EntriesInv(w2)
  {
    hide StepOk, MarkersInv;
    EntriesAreMarked(w, w2, e);
    EntriesAreUnique(w, w2, e);
    EntrantsHaveNoEntry(w, w2, e);
  }

  /** Two workers that both hold a marker event of one execution are one worker. */
  lemma SameMarker(w: World, i: nat, worker: nat, k: ExecutionKey)
    requires MarkersInv(w) && EntriesInv(w)
    requires i < |w.log| && w.log[i].AdapterEntered? && MarkerWon(worker, k) in w.log
    ensures w.log[i].key == k ==> w.log[i].worker == worker
  {
    var a :| 0 <= a < |w.log[..i]| && w.log[..i][a] == MarkerWon(w.log[i].worker, w.log[i].key);
    var b :| 0 <= b < |w.log| && w.log[b] == MarkerWon(worker, k);
    assert w.log[a] == MarkerWon(w.log[i].worker, w.log[i].key);
  }

  lemma OutcomesAreLogged(w: World, w2: World, e: Option<Event>)
    requires OutcomesInv(w) && StepOk(w, w2, e)
    ensures forall k <- w2.store.executions :: w2.store.executions[k].record.phase.Cancelled? ==>
              && w2.store.executions[k].record.phase.dispatchMayHaveBegun
                 == w2.store.executions[k].dispatchStartedAt.Some?
              && CancelRecorded(k, w2.store.executions[k].dispatchStartedAt.Some?) in w2.log
    ensures forall k <- w2.store.executions :: w2.store.executions[k].record.phase.Succeeded? ==>
              exists j :: AdapterEntered(j, k) in w2.log
  {
    hide Valid, WorkersInv, IndexStep, ArrivalOk;
    assert forall f <- w.log :: f in w2.log;
    forall k <- w2.store.executions
      ensures w2.store.executions[k].record.phase.Cancelled? ==>
        && w2.store.executions[k].record.phase.dispatchMayHaveBegun == w2.store.executions[k].dispatchStartedAt.Some?
        && CancelRecorded(k, w2.store.executions[k].dispatchStartedAt.Some?) in w2.log
      ensures w2.store.executions[k].record.phase.Succeeded? ==> exists j :: AdapterEntered(j, k) in w2.log
    {
      assert RowStep(w, w2, e, k);
      if k in w.store.executions {
        RowFacts(w.store, w2.store, k);
        if w2.store.executions[k].record.phase.Succeeded? {
          var j :| AdapterEntered(j, k) in w.log;
          assert AdapterEntered(j, k) in w2.log;
        }
      }
    }
  }

  lemma CancelsAreHonest(w: World, w2: World, e: Option<Event>)
    requires MarkersInv(w) && OutcomesInv(w) && StepOk(w, w2, e)
    ensures forall j :: 0 <= j < |w2.log| && w2.log[j].CancelRecorded? ==>
              && Finished(w2.store, w2.log[j].key)
              && (w2.log[j].dispatchMayHaveBegun ==> exists i :: MarkerWon(i, w2.log[j].key) in w2.log[..j])
  {
    hide Valid, WorkersInv, IndexStep, ArrivalOk, RowStep, Extends;
    forall j | 0 <= j < |w2.log| && w2.log[j].CancelRecorded?
      ensures Finished(w2.store, w2.log[j].key)
      ensures w2.log[j].dispatchMayHaveBegun ==> exists i :: MarkerWon(i, w2.log[j].key) in w2.log[..j]
    {
      assert w2.log[..j] == w.log[..j];
      if j < |w.log| {
        RowFacts(w.store, w2.store, w2.log[j].key);
      } else {
        assert w2.log[..j] == w.log;
      }
    }
  }

  lemma OutcomesStep(w: World, w2: World, e: Option<Event>)
    requires MarkersInv(w) && OutcomesInv(w) && StepOk(w, w2, e)
    ensures OutcomesInv(w2)
  {
    hide StepOk, MarkersInv;
    OutcomesAreLogged(w, w2, e);
    CancelsAreHonest(w, w2, e);
  }

  lemma EffectsStep(w: World, w2: World, e: Option<Event>)
    requires EffectsInv(w) && StepOk(w, w2, e)
    ensures EffectsInv(w2)
  {
    hide Valid, WorkersInv, IndexStep, ArrivalOk, RowStep;
    forall f <- w2.log
      ensures
        match f
        case UsageReported(_, k) => Finished(w2.store, k) && Began(w2.store, k)
        case UsageReleased(_, k) => Finished(w2.store, k) && !Began(w2.store, k)
        case UsageFinalized(_, k) => k in w2.store.executions && w2.store.executions[k].usageFinalizedAt.Some?
        case WebhookEnqueued(_, k, eventId) =>
          k in w2.store.executions && w2.store.executions[k].webhookEventId == Some(eventId)
        case _ => true
    {
      if !f.UsageFinalized? || f in w.log {
        if UsageEffect(f) || f.UsageFinalized? || f.WebhookEnqueued? {
          RowFacts(w.store, w2.store, f.key);
        }
      }
    }
  }

  /** Where a late read in a log grown by one event can come from. */
  lemma LateReads(log: seq<Event>, e: Option<Event>, j: nat, k: ExecutionKey)
    ensures ReadAfterFinalized(log + EventSeq(e), j, k) ==> exists f <- log :: f.UsageFinalized? && f.key == k
    ensures ReadAfterFinalized(log + EventSeq(e), j, k) ==>
              ReadAfterFinalized(log, j, k) || e == Some(ReconciliationRead(j, k))
  {
    var more := log + EventSeq(e);
    if ReadAfterFinalized(more, j, k) {
      var i, l :| && 0 <= i < l < |more|
                  && more[i].UsageFinalized? && more[i].key == k && more[l] == ReconciliationRead(j, k);
      assert log[i] in log;
    }
  }

  lemma FinalizedStep(w: World, w2: World, e: Option<Event>)
    requires EffectsInv(w) && FinalizedInv(w) && StepOk(w, w2, e)
    ensures FinalizedInv(w2)
  {
    hide Valid, WorkersInv, IndexStep, RowStep, Extends;
    var n := |w.log|;
    forall j <- w2.workers | w2.workers[j].pc.ReconUsage?
      ensures !ReadAfterFinalized(w2.log, j, w2.workers[j].pc.d.key)
    {
      var k := w2.workers[j].pc.d.key;
      assert ArrivalOk(w, w2, e, j);
      LateReads(w.log, e, j, k);
    }
    forall m | 0 <= m < |w2.log| && UsageEffect(w2.log[m])
      ensures !ReadAfterFinalized(w2.log[..m], w2.log[m].worker, w2.log[m].key)
    {
      assert w2.log[..m] == w.log[..m];
      assert w.log[..n] == w.log;
    }
  }

  lemma AdmissionsStep(w: World, w2: World, e: Option<Event>)
    requires AdmissionsInv(w) && StepOk(w, w2, e)
    ensures AdmissionsInv(w2)
  {
    hide Valid, WorkersInv, ArrivalOk, RowStep;
    var n := |w.log|;
    forall f <- w2.log | f.Admitted?
      ensures f.key in w2.store.executions
      ensures w2.store.executions[f.key].record.identity.createdAt == f.createdAt
      ensures f.scope.Some? ==>
        && f.createdAt + DAY_MS <= f.expiresAt
        && ExpiryOf(w2.store, f.scope.value).Some?
        && f.expiresAt <= ExpiryOf(w2.store, f.scope.value).value
    {
      if f in w.log {
        RowFacts(w.store, w2.store, f.key);
      }
    }
    forall i, j | 0 <= i < j < |w2.log| && w2.log[i].Admitted? && w2.log[j].Admitted?
      ensures w2.log[i].key != w2.log[j].key
      ensures w2.log[i].scope.Some? && w2.log[i].scope == w2.log[j].scope ==> w2.log[i].expiresAt <= w2.log[j].createdAt
    {
      if j == n {
        assert w.log[i] in w.log;
      }
    }
  }

  /** Any step that meets its obligations keeps the whole invariant. */
  lemma StepKeeps(w: World, w2: World, e: Option<Event>)
    requires Inv(w) && StepOk(w, w2, e)
    ensures Inv(w2)
  {
    MarkersStep(w, w2, e);
    EntriesStep(w, w2, e);
    OutcomesStep(w, w2, e);
    EffectsStep(w, w2, e);
    FinalizedStep(w, w2, e);
    AdmissionsStep(w, w2, e);
    hide *;
  }
}
