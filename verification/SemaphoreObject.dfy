// The process-local limiter: bucket objects that permits keep alive through the
// bucket they were issued from, released in place. Every method refines the
// value-level semaphore and keeps its invariant.
module SemaphoreObject {
  import opened Wrappers
  import opened JavaScript
  import S = Semaphore

  lemma LastUpdateWins<K, V>(m: map<K, V>, k: K, v: V, w: V)
    ensures m[k := v][k := w] == m[k := w]
  {
  }

  lemma LastUpdateGone<K, V>(m: map<K, V>, k: K, v: V)
    ensures m[k := v] - {k} == m - {k}
  {
  }

  class ConcurrencyState {
    var active: int
    const limit: int
    var waiters: seq<nat>

    constructor (limit: int)
      ensures this.active == 0 && this.limit == limit && this.waiters == []
    {
      this.active, this.limit, this.waiters := 0, limit, [];
    }
  }

  /** A permit remembers its bucket's key and the bucket object itself. */
  class ConcurrencyPermit {
    const key: string
    const state: ConcurrencyState
    var released: bool

    constructor (key: string, state: ConcurrencyState)
      ensures this.key == key && this.state == state && !this.released
    {
      this.key, this.state, this.released := key, state, false;
    }
  }

  class InMemoryToolkitConcurrencyLimiter {
    var states: map<string, ConcurrencyState>
    var permits: seq<ConcurrencyPermit>
    var tickets: seq<string>
    var grants: map<nat, nat>
    /** The semaphore value this object stands for. */
    ghost var abs: S.Sem

    /** The mapped buckets, none of them shared, are those of `abs`. */
    ghost predicate BucketsTied()
      reads this`states, this`abs, states.Values
    {
      && states.Keys == abs.buckets.Keys
      && (forall k <- states :: Stands(states[k], abs.buckets[k]))
      && (forall k <- states, l <- states :: k != l ==> states[k] != states[l])
    }

    static ghost predicate Stands(state: ConcurrencyState, b: S.Bucket)
      reads state
    {
      state.active == b.active && state.limit == b.limit && state.waiters == b.waiters
    }

    /** The permits, all distinct, are those of `abs`; one that is out was issued from the mapped bucket. */
    ghost predicate PermitsTied()
      reads this`states, this`permits, this`abs, permits
    {
      && |permits| == |abs.permits|
      && (forall i :: 0 <= i < |permits| ==>
            permits[i].key == abs.permits[i].key && permits[i].released == abs.permits[i].released)
      && (forall i, j :: 0 <= i < j < |permits| ==> permits[i] != permits[j])
      && (forall i :: 0 <= i < |permits| && !permits[i].released ==>
            permits[i].key in states && states[permits[i].key] == permits[i].state)
    }

    ghost predicate Tied()
      reads this, states.Values, permits
    {
      BucketsTied() && PermitsTied() && tickets == abs.tickets && grants == abs.grants
    }

    ghost predicate Valid()
      reads this, states.Values, permits
    {
      Tied() && S.Valid(abs)
    }

    constructor ()
      ensures Valid() && abs == S.EMPTY
    {
      states, permits, tickets, grants, abs := map[], [], [], map[], S.EMPTY;
      new;
      S.EmptyIsValid();
    }

    /** The bucket of a key, made on first use; nothing changes when the arguments are refused. */
    method State(key: string, limit: int) returns (r: Result<ConcurrencyState, S.SemError>)
      requires Tied()
      modifies this`states, this`abs
      ensures Tied()
      ensures match S.Refusal(old(abs), key, limit)
              case Some(error) => r == Err(error) && states == old(states) && abs == old(abs)
              case None =>
                && r.Ok?
                && key in states && states[key] == r.value
                && (if key in old(abs).buckets then states == old(states) && abs == old(abs) else fresh(r.value))
                && Stands(r.value, S.BucketOf(old(abs), key, limit))
                && abs == old(abs).(buckets := old(abs).buckets[key := S.BucketOf(old(abs), key, limit)])
    {
      if Blank(key) {
        return Err(S.BlankKey);
      }
      if !(1 <= limit <= MAX_SAFE_INTEGER) {
        return Err(S.InvalidLimit);
      }
      if key in states {
        if states[key].limit != limit {
          return Err(S.LimitChanged);
        }
        assert abs.buckets == abs.buckets[key := S.BucketOf(abs, key, limit)];
        return Ok(states[key]);
      }
      var state := new ConcurrencyState(limit);
      abs := abs.(buckets := abs.buckets[key := S.BucketOf(abs, key, limit)]);
      states := states[key := state];
      r := Ok(state);
    }

    /** Hands out a new permit of a mapped bucket. */
    method Issue(key: string, state: ConcurrencyState) returns (permit: nat)
      requires Tied() && key in states && states[key] == state
      modifies this`permits, this`abs
      ensures Tied() && permit == |old(abs).permits|
      ensures abs == old(abs).(permits := old(abs).permits + [S.Permit(key, false)])
    {
      permit := |permits|;
      var issued := new ConcurrencyPermit(key, state);
      permits := permits + [issued];
      abs := abs.(permits := abs.permits + [S.Permit(key, false)]);
    }

    /** The number of the permit, nothing when the bucket is full or has waiters, or the error thrown. */
    method TryAcquire(key: string, limit: int) returns (r: Result<Option<nat>, S.SemError>)
      requires Valid()
      modifies this`states, this`permits, this`abs, states.Values
      ensures Valid()
      ensures (abs, r) == S.TryAcquire(old(abs), key, limit)
      ensures r.Ok? && r.value.None? ==> states == old(states)
    {
      hide S.Valid, S.TryAcquire, S.Refusal, S.BucketOf, Tied;
      S.TryAcquireKeeps(abs, key, limit);
      S.TryAcquireCases(abs, key, limit);
      ghost var b := S.BucketOf(abs, key, limit);
      var found := State(key, limit);
      if found.Err? {
        r := Err(found.error);
      } else if found.value.active >= limit || |found.value.waiters| > 0 {
        r := Ok(None);
      } else {
        LastUpdateWins(old(abs).buckets, key, b, b.(active := b.active + 1));
        var permit := Grant(key, found.value);
        r := Ok(Some(permit));
      }
    }

    /** Counts one more permit out of a bucket and hands it out. */
    method Grant(key: string, state: ConcurrencyState) returns (permit: nat)
      requires Tied() && key in states && states[key] == state
      modifies this`permits, state`active, this`abs
      ensures Tied() && permit == |old(abs).permits|
      ensures var b := old(abs).buckets[key];
              abs == old(abs).(buckets := old(abs).buckets[key := b.(active := b.active + 1)],
                               permits := old(abs).permits + [S.Permit(key, false)])
    {
      state.active := state.active + 1;
      abs := abs.(buckets := abs.buckets[key := abs.buckets[key].(active := state.active)]);
      permit := Issue(key, state);
    }

    /** The ticket of the promise; a promise that resolves at once is granted its permit here. */
    method Acquire(key: string, limit: int) returns (r: Result<nat, S.SemError>)
      requires Valid()
      modifies this, states.Values
      ensures Valid()
      ensures (abs, r) == S.Acquire(old(abs), key, limit)
    {
      S.AcquireKeeps(abs, key, limit);
      S.AcquireCases(abs, key, limit);
      hide S.Valid, Blank, S.Refusal, S.TryAcquire, S.Acquire, Tied;
      var immediate := TryAcquire(key, limit);
      if immediate.Err? {
        r := Err(immediate.error);
      } else if immediate.value.Some? {
        var ticket := Resolved(key, immediate.value.value);
        r := Ok(ticket);
      } else {
        var ticket := Queued(key, limit);
        r := Ok(ticket);
      }
    }

    /** A promise that holds its permit from the start. */
    method Resolved(key: string, permit: nat) returns (ticket: nat)
      requires Tied()
      modifies this`tickets, this`grants, this`abs
      ensures Tied() && ticket == |old(abs).tickets|
      ensures abs == old(abs).(tickets := old(abs).tickets + [key], grants := old(abs).grants[ticket := permit])
    {
      ticket := |tickets|;
      tickets, grants := tickets + [key], grants[ticket := permit];
      abs := abs.(tickets := tickets, grants := grants);
    }

    /** Puts a ticket behind the ones already waiting in a bucket. */
    method Push(key: string, state: ConcurrencyState, ticket: nat)
      requires Tied() && key in states && states[key] == state
      modifies this`abs, state`waiters
      ensures Tied()
      ensures var b := old(abs).buckets[key];
              abs == old(abs).(buckets := old(abs).buckets[key := b.(waiters := b.waiters + [ticket])])
    {
      state.waiters := state.waiters + [ticket];
      abs := abs.(buckets := abs.buckets[key := abs.buckets[key].(waiters := state.waiters)]);
    }

    /** A promise that waits behind the ones already waiting in its bucket. */
    method Queued(key: string, limit: int) returns (ticket: nat)
      requires Tied() && key in abs.buckets && S.Refusal(abs, key, limit).None?
      modifies this`states, this`tickets, this`abs, states.Values
      ensures Tied() && ticket == |old(abs).tickets|
      ensures var b := old(abs).buckets[key];
              abs == old(abs).(buckets := old(abs).buckets[key := b.(waiters := b.waiters + [ticket])],
                               tickets := old(abs).tickets + [key])
    {
      hide Blank, Stands;
      ticket := |tickets|;
      var found := State(key, limit);
      Push(key, found.value, ticket);
      tickets := tickets + [key];
      abs := abs.(tickets := tickets);
    }

    lemma TiedPermit(i: nat)
      requires Tied() && i < |permits|
      ensures i < |abs.permits| && abs.permits[i] == S.Permit(permits[i].key, permits[i].released)
      ensures var p := permits[i];
              !p.released ==> p.key in states && states[p.key] == p.state && Stands(p.state, abs.buckets[p.key])
    {
    }

    /** Marks a permit released and counts it back in. */
    method GiveBack(i: nat)
      requires Tied() && i < |permits| && !permits[i].released
      modifies this`abs, permits[i], permits[i].state
      ensures Tied()
      ensures var key := permits[i].key;
              && key in states && permits[i].state == states[key] && Stands(states[key], abs.buckets[key])
              && key in old(abs).buckets && i < |old(abs).permits|
              && var b := old(abs).buckets[key];
              abs == old(abs).(buckets := old(abs).buckets[key := b.(active := b.active - 1)],
                               permits := old(abs).permits[i := S.Permit(key, true)])
    {
      var state := permits[i].state;
      ghost var key := permits[i].key;
      permits[i].released := true;
      state.active := state.active - 1;
      abs := abs.(buckets := abs.buckets[key := abs.buckets[key].(active := state.active)],
                  permits := abs.permits[i := S.Permit(key, true)]);
    }

    /** Gives the place of a released permit to the first waiter. */
    method HandOver(key: string, state: ConcurrencyState)
      requires Tied() && key in states && states[key] == state && |state.waiters| > 0
      modifies this`permits, this`grants, this`abs, state
      ensures Tied()
      ensures var b := old(abs).buckets[key];
              && |b.waiters| > 0
              && var served := b.(active := b.active + 1, waiters := b.waiters[1..]);
              abs == old(abs).(buckets := old(abs).buckets[key := served],
                                  permits := old(abs).permits + [S.Permit(key, false)],
                                  grants := old(abs).grants[b.waiters[0] := |old(abs).permits|])
    {
      var next := Shift(key, state);
      var permit := Issue(key, state);
      grants := grants[next := permit];
      abs := abs.(grants := grants);
    }

    /** Takes the first waiter off the queue and counts its permit. */
    method Shift(key: string, state: ConcurrencyState) returns (next: nat)
      requires Tied() && key in states && states[key] == state && |state.waiters| > 0
      modifies this`abs, state
      ensures Tied() && next == old(state.waiters)[0] && |old(abs).buckets[key].waiters| > 0
      ensures var b := old(abs).buckets[key];
              && next == b.waiters[0]
              && var served := b.(active := b.active + 1, waiters := b.waiters[1..]);
              abs == old(abs).(buckets := old(abs).buckets[key := served])
    {
      next := state.waiters[0];
      state.waiters := state.waiters[1..];
      state.active := state.active + 1;
      abs := abs.(buckets := abs.buckets[key := abs.buckets[key].(active := state.active, waiters := state.waiters)]);
    }

    /** Forgets a bucket no permit of which is out. */
    method Unmap(key: string)
      requires Tied() && key in states
      requires forall j :: 0 <= j < |abs.permits| && !abs.permits[j].released ==> abs.permits[j].key != key
      modifies this`states, this`abs
      ensures Tied()
      ensures abs == old(abs).(buckets := old(abs).buckets - {key})
    {
      states := states - {key};
      abs := abs.(buckets := abs.buckets - {key});
    }

    /** The closure a permit carries: it acts on the bucket the permit was issued from. */
    method Release(i: nat)
      requires Valid() && i < |permits|
      modifies this, permits[i], permits[i].state
      ensures Valid()
      ensures abs == S.Release(old(abs), i)
    {
      hide S.Valid, S.Release, S.Live, Tied;
      TiedPermit(i);
      if permits[i].released {
        S.SecondRelease(abs, i);
      } else {
        S.LivePermitIsMapped(abs, i);
        S.ReleaseKeeps(abs, i);
        S.ReleaseCases(abs, i);
        S.LivePermitsAreMapped(S.Release(abs, i));
        var key, state := permits[i].key, permits[i].state;
        ghost var b := abs.buckets[key];
        ghost var less := b.(active := b.active - 1);
        GiveBack(i);
        if |state.waiters| > 0 {
          LastUpdateWins(old(abs).buckets, key, less, b.(waiters := b.waiters[1..]));
          HandOver(key, state);
        } else if state.active == 0 {
          LastUpdateGone(old(abs).buckets, key, less);
          Unmap(key);
        }
      }
    }
  }
}
