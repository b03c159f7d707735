// The fair semaphore keyed by project and toolkit, as a value: buckets, every
// permit ever handed out, and every promise of `acquire` (a ticket). The object
// whose methods refine it is in SemaphoreObject.dfy.
module Semaphore {
  import opened Wrappers
  import opened JavaScript

  /** `active` permits are out; `waiters` are the tickets queued, in arrival order. */
  datatype Bucket = Bucket(active: int, limit: int, waiters: seq<nat>)

  datatype Permit = Permit(key: string, released: bool)

  /** Ticket t was issued for bucket tickets[t]; once resolved it holds permit number grants[t]. */
  datatype Sem = Sem(
    buckets: map<string, Bucket>,
    permits: seq<Permit>,
    tickets: seq<string>,
    grants: map<nat, nat>)

  const EMPTY := Sem(map[], [], [], map[])

  datatype SemError = BlankKey | InvalidLimit | LimitChanged

  /** The checks of `#state`: what is thrown before anything is read or written. */
  function Refusal(s: Sem, key: string, limit: int): Option<SemError> {
    if Blank(key) then Some(BlankKey)
    else if !(1 <= limit <= MAX_SAFE_INTEGER) then Some(InvalidLimit)
    else if key in s.buckets && s.buckets[key].limit != limit then Some(LimitChanged)
    else None
  }

  function BucketOf(s: Sem, key: string, limit: int): Bucket {
    if key in s.buckets then s.buckets[key] else Bucket(0, limit, [])
  }

  /** The permit number, or None when the bucket is full or somebody waits. */
  function TryAcquire(s: Sem, key: string, limit: int): (Sem, Result<Option<nat>, SemError>) {
    match Refusal(s, key, limit)
    case Some(error) => (s, Err(error))
    case None =>
      var b := BucketOf(s, key, limit);
      if b.active >= limit || |b.waiters| > 0 then (s, Ok(None))
      else
        (s.(buckets := s.buckets[key := b.(active := b.active + 1)], permits := s.permits + [Permit(key, false)]),
         Ok(Some(|s.permits|)))
  }

  /** What the three outcomes do: nothing, nothing, or one more permit of the bucket. */
  lemma TryAcquireCases(s: Sem, key: string, limit: int)
    ensures
      var b := BucketOf(s, key, limit);
      var r := TryAcquire(s, key, limit);
      match Refusal(s, key, limit)
      case Some(error) => r == (s, Err(error))
      case None =>
        if b.active >= limit || |b.waiters| > 0
        then r == (s, Ok(None)) && key in s.buckets
        else r == (s.(buckets := s.buckets[key := b.(active := b.active + 1)],
                      permits := s.permits + [Permit(key, false)]),
                   Ok(Some(|s.permits|)))
  {
  }

  /** The ticket of the returned promise; it is resolved at once if a permit is free. */
  function Acquire(s: Sem, key: string, limit: int): (Sem, Result<nat, SemError>) {
    var ticket := |s.tickets|;
    match TryAcquire(s, key, limit)
    case (_, Err(error)) => (s, Err(error))
    case (t, Ok(Some(permit))) => (t.(tickets := s.tickets + [key], grants := s.grants[ticket := permit]), Ok(ticket))
    case (t, Ok(None)) =>
      var b := BucketOf(t, key, limit);
      (t.(buckets := t.buckets[key := b.(waiters := b.waiters + [ticket])], tickets := s.tickets + [key]), Ok(ticket))
  }

  /** What `acquire` adds to the outcome of `tryAcquire`: a ticket, granted at once or queued last. */
  lemma AcquireCases(s: Sem, key: string, limit: int)
    ensures
      var (t, r) := TryAcquire(s, key, limit);
      match r
      case Err(error) => Acquire(s, key, limit) == (t, Err(error))
      case Ok(Some(permit)) =>
        Acquire(s, key, limit)
        == (t.(tickets := t.tickets + [key], grants := t.grants[|t.tickets| := permit]), Ok(|t.tickets|))
      case Ok(None) =>
        && t == s
        && key in s.buckets
        && Refusal(s, key, limit).None?
        && var b := s.buckets[key];
        Acquire(s, key, limit)
        == (s.(buckets := s.buckets[key := b.(waiters := b.waiters + [|s.tickets|])], tickets := s.tickets + [key]),
            Ok(|s.tickets|))
  {
  }

  /** An effective release hands the permit to the first waiter, or frees it; a second release does nothing. */
  function Release(s: Sem, permit: nat): Sem
    requires permit < |s.permits|
  {
    var p := s.permits[permit];
    if p.released || p.key !in s.buckets then s
    else
      var b := s.buckets[p.key];
      var permits := s.permits[permit := p.(released := true)];
      if |b.waiters| > 0 then
        s.(buckets := s.buckets[p.key := b.(waiters := b.waiters[1..])],
           permits := permits + [Permit(p.key, false)],
           grants := s.grants[b.waiters[0] := |permits|])
      else if b.active - 1 == 0 then
        s.(buckets := s.buckets - {p.key}, permits := permits)
      else
        s.(buckets := s.buckets[p.key := b.(active := b.active - 1)], permits := permits)
  }

  lemma SecondRelease(s: Sem, permit: nat)
    requires permit < |s.permits| && s.permits[permit].released
    ensures Release(s, permit) == s
  {
  }

  /** An effective release gives the place to the head of the queue, unmaps an idle bucket, or counts one down. */
  lemma ReleaseCases(s: Sem, permit: nat)
    requires permit < |s.permits| && !s.permits[permit].released && s.permits[permit].key in s.buckets
    ensures
      var key := s.permits[permit].key;
      var b := s.buckets[key];
      var permits := s.permits[permit := Permit(key, true)];
      var t := Release(s, permit);
      if |b.waiters| > 0 then
        t == s.(buckets := s.buckets[key := b.(waiters := b.waiters[1..])],
                permits := permits + [Permit(key, false)],
                grants := s.grants[b.waiters[0] := |s.permits|])
      else
        t == s.(buckets := if b.active == 1 then s.buckets - {key} else s.buckets[key := b.(active := b.active - 1)],
                permits := permits)
  {
  }

  // -------------------------------------------------------------- Invariant

  /** Granted and unreleased permits of one bucket. */
  function Live(permits: seq<Permit>, key: string): nat {
    if permits == [] then 0
    else
      Live(permits[..|permits| - 1], key) +
      if permits[|permits| - 1] == Permit(key, false) then 1 else 0
  }

  ghost predicate BucketValid(s: Sem, key: string) {
    if key !in s.buckets then Live(s.permits, key) == 0
    else
      var b := s.buckets[key];
      && b.active == Live(s.permits, key)
      && 1 <= b.active <= b.limit
      && (b.waiters != [] ==> b.active == b.limit)
  }

  /** Queues hold ungranted tickets of their own bucket in ascending, that is arrival, order. */
  ghost predicate QueueValid(s: Sem, key: string)
    requires key in s.buckets
  {
    var queue := s.buckets[key].waiters;
    && (forall i :: 0 <= i < |queue| ==> queue[i] < |s.tickets| && s.tickets[queue[i]] == key && queue[i] !in s.grants)
    && (forall i, j :: 0 <= i < j < |queue| ==> queue[i] < queue[j])
  }

  ghost predicate TicketValid(s: Sem, t: nat)
    requires t < |s.tickets|
  {
    if t in s.grants
    then s.grants[t] < |s.permits| && s.permits[s.grants[t]].key == s.tickets[t]
    else s.tickets[t] in s.buckets && t in s.buckets[s.tickets[t]].waiters
  }

  /** Nobody is overtaken: of two tickets for one bucket, the later is never granted before the earlier. */
  ghost predicate Fair(s: Sem) {
    forall t, u :: 0 <= t < u < |s.tickets| && s.tickets[t] == s.tickets[u] && u in s.grants ==> t in s.grants
  }

  ghost predicate Valid(s: Sem) {
    && (forall key :: BucketValid(s, key))
    && (forall key <- s.buckets :: QueueValid(s, key))
    && (forall t: nat :: t < |s.tickets| ==> TicketValid(s, t))
    && (forall t <- s.grants :: t < |s.tickets|)
    && Fair(s)
  }

  lemma LiveAppend(permits: seq<Permit>, p: Permit, key: string)
    ensures Live(permits + [p], key) == Live(permits, key) + if p == Permit(key, false) then 1 else 0
  {
    assert (permits + [p])[..|permits|] == permits;
  }

  lemma {:induction false} LiveRelease(permits: seq<Permit>, i: nat, key: string)
    requires i < |permits| && !permits[i].released
    ensures Live(permits[i := permits[i].(released := true)], key)
         == Live(permits, key) - if permits[i].key == key then 1 else 0
  {
    var last := |permits| - 1;
    var changed := permits[i := permits[i].(released := true)];
    if i < last {
      assert changed[..last] == permits[..last][i := permits[i].(released := true)];
      LiveRelease(permits[..last], i, key);
    } else {
      assert changed[..last] == permits[..last];
    }
  }

  /** The tickets and queues stay valid while no queue and no grant changes. */
  lemma QueuesFrame(s: Sem, t: Sem)
    requires Valid(s) && t.tickets == s.tickets && t.grants == s.grants
    requires forall key <- s.buckets :: s.buckets[key].waiters != [] ==>
               key in t.buckets && t.buckets[key].waiters == s.buckets[key].waiters
    requires forall key <- t.buckets ::
               t.buckets[key].waiters != [] ==> key in s.buckets && t.buckets[key].waiters == s.buckets[key].waiters
    requires forall i: nat :: i < |s.permits| ==> i < |t.permits| && t.permits[i].key == s.permits[i].key
    ensures forall key <- t.buckets :: QueueValid(t, key)
    ensures forall u: nat :: u < |t.tickets| ==> TicketValid(t, u)
    ensures Fair(t)
  {
    forall key <- t.buckets ensures QueueValid(t, key) {
      if t.buckets[key].waiters != [] {
        assert QueueValid(s, key);
      }
    }
    forall u: nat | u < |t.tickets| ensures TicketValid(t, u) {
      assert TicketValid(s, u);
    }
  }

  lemma TryAcquireKeeps(s: Sem, key: string, limit: int)
    requires Valid(s)
    ensures Valid(TryAcquire(s, key, limit).0)
  {
    var t := TryAcquire(s, key, limit).0;
    if t != s {
      assert BucketValid(s, key);
      QueuesFrame(s, t);
      forall k ensures BucketValid(t, k) {
        assert BucketValid(s, k);
        LiveAppend(s.permits, Permit(key, false), k);
      }
    }
  }

  /** Everybody who waits in a bucket came before the next ticket. */
  lemma NewTicketIsLast(s: Sem, key: string)
    requires Valid(s)
    ensures |s.tickets| !in s.grants
    ensures key in s.buckets ==>
              forall i :: 0 <= i < |s.buckets[key].waiters| ==> s.buckets[key].waiters[i] < |s.tickets|
  {
    if key in s.buckets {
      assert QueueValid(s, key);
    }
  }

  lemma GrantAtOnceKeeps(s: Sem, key: string, limit: int)
    requires Valid(s) && TryAcquire(s, key, limit).1.Ok? && TryAcquire(s, key, limit).1.value.Some?
    ensures Valid(Acquire(s, key, limit).0)
  {
    var t, u := TryAcquire(s, key, limit).0, Acquire(s, key, limit).0;
    TryAcquireKeeps(s, key, limit);
    NewTicketIsLast(s, key);
    forall k ensures BucketValid(u, k) {
      assert BucketValid(t, k);
    }
    forall k <- u.buckets ensures QueueValid(u, k) {
      assert QueueValid(t, k);
    }
    forall v: nat | v < |u.tickets| ensures TicketValid(u, v) {
      if v < |s.tickets| {
        assert TicketValid(t, v);
      }
    }
    forall a, b | 0 <= a < b < |u.tickets| && u.tickets[a] == u.tickets[b] && b in u.grants ensures a in u.grants {
      assert TicketValid(t, a);
    }
  }

  lemma EnqueueKeeps(s: Sem, key: string, limit: int)
    requires Valid(s) && TryAcquire(s, key, limit).1.Ok? && TryAcquire(s, key, limit).1.value.None?
    ensures Valid(Acquire(s, key, limit).0)
  {
    var u := Acquire(s, key, limit).0;
    var b := BucketOf(s, key, limit);
    NewTicketIsLast(s, key);
    assert BucketValid(s, key);
    assert key in s.buckets;
    forall k ensures BucketValid(u, k) {
      assert BucketValid(s, k);
    }
    forall k <- u.buckets ensures QueueValid(u, k) {
      assert QueueValid(s, k);
    }
    assert u.buckets[key].waiters[|b.waiters|] == |s.tickets|;
    forall v: nat | v < |u.tickets| ensures TicketValid(u, v) {
      if v < |s.tickets| {
        assert TicketValid(s, v);
        assert v in b.waiters ==> v in u.buckets[key].waiters;
      }
    }
  }

  lemma AcquireKeeps(s: Sem, key: string, limit: int)
    requires Valid(s)
    ensures Valid(Acquire(s, key, limit).0)
  {
    hide Valid;
    var r := TryAcquire(s, key, limit).1;
    if r.Ok? && r.value.Some? {
      GrantAtOnceKeeps(s, key, limit);
    } else if r.Ok? {
      EnqueueKeeps(s, key, limit);
    }
  }

  /** An unreleased permit's bucket is mapped, so a release by its holder is always effective. */
  lemma LivePermitIsMapped(s: Sem, permit: nat)
    requires Valid(s) && permit < |s.permits| && !s.permits[permit].released
    ensures s.permits[permit].key in s.buckets && s.buckets[s.permits[permit].key].active >= 1
  {
    LiveRelease(s.permits, permit, s.permits[permit].key);
    assert BucketValid(s, s.permits[permit].key);
  }

  lemma LivePermitsAreMapped(s: Sem)
    requires Valid(s)
    ensures forall i :: 0 <= i < |s.permits| && !s.permits[i].released ==> s.permits[i].key in s.buckets
  {
    forall i | 0 <= i < |s.permits| && !s.permits[i].released ensures s.permits[i].key in s.buckets {
      LivePermitIsMapped(s, i);
    }
  }

  lemma FreeingKeeps(s: Sem, permit: nat)
    requires Valid(s) && permit < |s.permits| && !s.permits[permit].released
    requires s.permits[permit].key in s.buckets && s.buckets[s.permits[permit].key].waiters == []
    ensures Valid(Release(s, permit))
  {
    var t := Release(s, permit);
    QueuesFrame(s, t);
    forall k ensures BucketValid(t, k) {
      assert BucketValid(s, k);
      LiveRelease(s.permits, permit, k);
    }
  }

  /** Handing over grants the head of the queue, the oldest ticket that waits, and leaves the others queued. */
  lemma HandOverIsFair(s: Sem, permit: nat)
    requires Valid(s) && permit < |s.permits| && !s.permits[permit].released
    requires s.permits[permit].key in s.buckets && s.buckets[s.permits[permit].key].waiters != []
    ensures var t := Release(s, permit);
            (forall v: nat :: v < |t.tickets| ==> TicketValid(t, v)) && Fair(t)
  {
    var t := Release(s, permit);
    var queue := s.buckets[s.permits[permit].key].waiters;
    assert QueueValid(s, s.permits[permit].key);
    forall v: nat | v < |t.tickets| ensures TicketValid(t, v) {
      assert TicketValid(s, v);
      if v in queue && v != queue[0] {
        var i :| 0 <= i < |queue| && queue[i] == v;
        assert queue[1..][i - 1] == v;
      }
    }
    assert forall i :: 0 <= i < |queue| ==> queue[0] <= queue[i];
    forall a, b | 0 <= a < b < |t.tickets| && t.tickets[a] == t.tickets[b] && b in t.grants ensures a in t.grants {
      assert TicketValid(s, a);
    }
  }

  lemma HandOverKeeps(s: Sem, permit: nat)
    requires Valid(s) && permit < |s.permits| && !s.permits[permit].released
    requires s.permits[permit].key in s.buckets && s.buckets[s.permits[permit].key].waiters != []
    ensures Valid(Release(s, permit))
  {
    var t := Release(s, permit);
    var key := s.permits[permit].key;
    var released := s.permits[permit := s.permits[permit].(released := true)];
    assert QueueValid(s, key);
    HandOverIsFair(s, permit);
    hide TicketValid, Fair;
    forall k ensures BucketValid(t, k) {
      assert BucketValid(s, k);
      LiveRelease(s.permits, permit, k);
      LiveAppend(released, Permit(key, false), k);
    }
    forall k <- t.buckets ensures QueueValid(t, k) {
      assert QueueValid(s, k);
    }
  }

  lemma ReleaseKeeps(s: Sem, permit: nat)
    requires Valid(s) && permit < |s.permits|
    ensures Valid(Release(s, permit))
  {
    if !s.permits[permit].released {
      LivePermitIsMapped(s, permit);
      hide Valid;
      if s.buckets[s.permits[permit].key].waiters == [] {
        FreeingKeeps(s, permit);
      } else {
        HandOverKeeps(s, permit);
      }
    }
  }

  // ------------------------------------------------------------------- Runs

  datatype Call =
    | CallTry(key: string, limit: int)
    | CallAcquire(key: string, limit: int)
    | CallRelease(permit: nat)

  /** Only a permit that was handed out can be released. */
  function Apply(s: Sem, call: Call): Sem {
    match call
    case CallTry(key, limit) => TryAcquire(s, key, limit).0
    case CallAcquire(key, limit) => Acquire(s, key, limit).0
    case CallRelease(permit) => if permit < |s.permits| then Release(s, permit) else s
  }

  function Run(s: Sem, calls: seq<Call>): Sem
    decreases |calls|
  {
    if calls == [] then s else Run(Apply(s, calls[0]), calls[1..])
  }

  predicate Effective(s: Sem, call: Call, key: string) {
    call.CallRelease? && call.permit < |s.permits| && s.permits[call.permit] == Permit(key, false)
  }

  /** How many releases of this bucket take effect during a run. */
  function Releases(s: Sem, calls: seq<Call>, key: string): nat
    decreases |calls|
  {
    if calls == [] then 0
    else (if Effective(s, calls[0], key) then 1 else 0) + Releases(Apply(s, calls[0]), calls[1..], key)
  }

  lemma ApplyKeeps(s: Sem, call: Call)
    requires Valid(s)
    ensures Valid(Apply(s, call))
  {
    match call
    case CallTry(key, limit) => TryAcquireKeeps(s, key, limit);
    case CallAcquire(key, limit) => AcquireKeeps(s, key, limit);
    case CallRelease(permit) =>
      if permit < |s.permits| {
        ReleaseKeeps(s, permit);
      }
  }

  /** Over every run from the empty semaphore: a bucket is mapped iff a permit of it is out, `active` is the
      number of permits out and never above the limit, somebody waits only at the limit, and nobody overtakes. */
  lemma {:induction false} RunKeeps(s: Sem, calls: seq<Call>)
    requires Valid(s)
    ensures Valid(Run(s, calls))
    decreases |calls|
  {
    hide Valid;
    if calls != [] {
      ApplyKeeps(s, calls[0]);
      RunKeeps(Apply(s, calls[0]), calls[1..]);
    }
  }

  lemma EmptyIsValid()
    ensures Valid(EMPTY)
  {
  }

  lemma SemaphoreSafety(calls: seq<Call>, key: string)
    ensures
      var s := Run(EMPTY, calls);
      && (key in s.buckets <==> Live(s.permits, key) >= 1)
      && (key in s.buckets ==>
            && s.buckets[key].active == Live(s.permits, key) <= s.buckets[key].limit
            && (s.buckets[key].waiters != [] ==> s.buckets[key].active == s.buckets[key].limit))
      && Fair(s)
  {
    EmptyIsValid();
    RunKeeps(EMPTY, calls);
    assert BucketValid(Run(EMPTY, calls), key);
  }

  lemma DoubleReleaseIsNoOp(s: Sem, permit: nat)
    requires permit < |s.permits|
    ensures permit < |Release(s, permit).permits|
    ensures Valid(s) ==> Release(Release(s, permit), permit) == Release(s, permit)
  {
    if Valid(s) && !s.permits[permit].released {
      LivePermitIsMapped(s, permit);
    }
  }

  /** Exactly when a call gets a permit, in every run: a well-formed call under the limit in use is granted if and
      only if fewer permits than the limit are out; otherwise `tryAcquire` gets nothing and `acquire` gets a place at
      the end of the queue, behind everybody who waits. A refused call changes nothing. */
  lemma GrantedIffFree(calls: seq<Call>, key: string, limit: int)
    ensures
      var s := Run(EMPTY, calls);
      var out := Live(s.permits, key);
      var tried, acquired := TryAcquire(s, key, limit), Acquire(s, key, limit);
      if Blank(key) || limit < 1 || limit > MAX_SAFE_INTEGER || (key in s.buckets && s.buckets[key].limit != limit)
      then tried.1.Err? && acquired.1.Err? && tried.0 == s && acquired.0 == s
      else
        && tried.1.Ok? && acquired.1 == Ok(|s.tickets|)
        && (if out < limit
            then && tried.1 == Ok(Some(|s.permits|))
                 && tried.0.permits == s.permits + [Permit(key, false)]
                 && acquired.0.permits == s.permits + [Permit(key, false)]
                 && acquired.0.grants == s.grants[|s.tickets| := |s.permits|]
            else && tried == (s, Ok(None)) && acquired.0.permits == s.permits && acquired.0.grants == s.grants
                 && key in s.buckets && WaitsBehind(acquired.0, |s.tickets|, key, |s.buckets[key].waiters|))
  {
    EmptyIsValid();
    RunKeeps(EMPTY, calls);
    var s := Run(EMPTY, calls);
    assert BucketValid(s, key);
    hide Valid, Live, Run, Blank;
    AcquireCases(s, key, limit);
    TryAcquireCases(s, key, limit);
  }

  // --------------------------------------------------------------- Fairness

  /** Ticket t waits in its bucket with exactly k tickets ahead of it. */
  ghost predicate WaitsBehind(s: Sem, t: nat, key: string, k: nat) {
    key in s.buckets && k < |s.buckets[key].waiters| && s.buckets[key].waiters[k] == t
  }

  /** One call moves a waiter up by one place per effective release of its bucket, and by nothing else. */
  lemma StepMovesUp(s: Sem, call: Call, t: nat, key: string, k: nat)
    requires Valid(s) && WaitsBehind(s, t, key, k)
    ensures
      var after := Apply(s, call);
      if !Effective(s, call, key) then WaitsBehind(after, t, key, k)
      else if k == 0 then
        t in after.grants && after.grants[t] < |after.permits| && !after.permits[after.grants[t]].released
      else WaitsBehind(after, t, key, k - 1)
  {
    assert BucketValid(s, key);
    if call.CallRelease? && call.permit < |s.permits| && !s.permits[call.permit].released {
      LivePermitIsMapped(s, call.permit);
    }
    hide Valid;
  }

  lemma {:induction false} GrantsStay(s: Sem, calls: seq<Call>, t: nat)
    requires t in s.grants && Valid(s)
    ensures t in Run(s, calls).grants
    decreases |calls|
  {
    hide Valid, Apply;
    if calls != [] {
      ApplyKeeps(s, calls[0]);
      GrantStays(s, calls[0], t);
      GrantsStay(Apply(s, calls[0]), calls[1..], t);
    }
  }

  lemma GrantStays(s: Sem, call: Call, t: nat)
    requires t in s.grants
    ensures t in Apply(s, call).grants
  {
  }

  /** A waiter with k tickets ahead of it holds a permit as soon as k + 1 releases of its bucket have taken
      effect, and not before, whatever else is called in between. */
  lemma {:induction false} WaiterIsServed(s: Sem, calls: seq<Call>, t: nat, key: string, k: nat)
    requires Valid(s) && WaitsBehind(s, t, key, k)
    ensures
      var after := Run(s, calls);
      var releases := Releases(s, calls, key);
      if releases > k then t in after.grants else WaitsBehind(after, t, key, k - releases)
    decreases |calls|
  {
    hide Valid, Apply, Effective, WaitsBehind;
    if calls != [] {
      StepMovesUp(s, calls[0], t, key, k);
      ApplyKeeps(s, calls[0]);
      var next := Apply(s, calls[0]);
      if !Effective(s, calls[0], key) {
        WaiterIsServed(next, calls[1..], t, key, k);
      } else if k > 0 {
        WaiterIsServed(next, calls[1..], t, key, k - 1);
      } else {
        GrantsStay(next, calls[1..], t);
      }
    }
  }
}
