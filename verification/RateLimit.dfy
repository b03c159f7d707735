// The in-memory rate limiter: a token bucket and an aligned fixed window per
// bucket key. Tokens are exact reals; the clock may run backwards.
module RateLimit {
  import opened Wrappers
  import opened JavaScript

  datatype Policy =
    | TokenBucket(limit: int, intervalMs: int, burst: int)
    | FixedWindow(limit: int, windowMs: int)

  datatype RateLimitResult = RateLimitResult(allowed: bool, remaining: int, resetAt: int, retryAfterMs: Option<int>)

  datatype LimitError = BlankKey | InvalidPolicy

  /** The signature that tells one policy's state from another's is the policy itself. */
  datatype LimitState =
    | Bucket(signature: Policy, tokens: real, updatedAt: int)
    | Window(signature: Policy, used: int, windowStart: int)

  const EPSILON: real := 1.0 / 4503599627370496.0

  function MaxReal(a: real, b: real): real { if a < b then b else a }
  function MinReal(a: real, b: real): real { if a < b then a else b }

  function Ceil(x: real): (c: int)
    ensures c as real - 1.0 < x <= c as real
  {
    -((-x).Floor)
  }

  predicate PositiveSafeInteger(value: int) {
    1 <= value <= MAX_SAFE_INTEGER
  }

  predicate ValidPolicy(policy: Policy) {
    && PositiveSafeInteger(policy.limit)
    && match policy
       case TokenBucket(_, intervalMs, burst) => PositiveSafeInteger(intervalMs) && PositiveSafeInteger(burst)
       case FixedWindow(_, windowMs) => PositiveSafeInteger(windowMs)
  }

  function Rate(policy: Policy): real
    requires policy.TokenBucket? && ValidPolicy(policy)
  {
    policy.limit as real / policy.intervalMs as real
  }

  // ---------------------------------------------------------- Token bucket

  /** The level at clock `now` of a bucket that held `tokens` at `updatedAt`; a clock behind refills nothing. */
  function LevelAt(policy: Policy, tokens: real, updatedAt: int, now: int): real
    requires policy.TokenBucket? && ValidPolicy(policy)
  {
    var elapsed := Max(0, now - updatedAt);
    MinReal(policy.burst as real, tokens + elapsed as real * Rate(policy))
  }

  /** The milliseconds until a bucket that holds `tokens` holds `wanted`. */
  function RefillTime(policy: Policy, tokens: real, wanted: real): int
    requires policy.TokenBucket? && ValidPolicy(policy)
  {
    Ceil(MaxReal(0.0, wanted - tokens) / Rate(policy))
  }

  /** The bucket after the refill of a check at `now`. */
  function Refilled(existing: Option<LimitState>, policy: Policy, now: int): LimitState
    requires policy.TokenBucket? && ValidPolicy(policy)
  {
    var state :=
      if existing.Some? && existing.value.Bucket? && existing.value.signature == policy
      then existing.value
      else Bucket(policy, policy.burst as real, now);
    Bucket(policy, LevelAt(policy, state.tokens, state.updatedAt, now), Max(state.updatedAt, now))
  }

  function CheckTokenBucket(existing: Option<LimitState>, policy: Policy, now: int): (LimitState, RateLimitResult)
    requires policy.TokenBucket? && ValidPolicy(policy)
  {
    var refilled := Refilled(existing, policy, now);
    var allowed := refilled.tokens + EPSILON >= 1.0;
    var state := if allowed then refilled.(tokens := MaxReal(0.0, refilled.tokens - 1.0)) else refilled;
    (state,
     RateLimitResult(
       allowed,
       Max(0, (state.tokens + EPSILON).Floor),
       now + RefillTime(policy, state.tokens, policy.burst as real),
       if allowed then None else Some(Max(1, RefillTime(policy, state.tokens, 1.0)))))
  }

  // ---------------------------------------------------------- Fixed window

  /** Aligned to epoch boundaries; `/` rounds down for a positive divisor, as Math.floor does. */
  function AlignedStart(policy: Policy, now: int): int
    requires policy.FixedWindow? && ValidPolicy(policy)
  {
    now / policy.windowMs * policy.windowMs
  }

  function CheckFixedWindow(existing: Option<LimitState>, policy: Policy, now: int): (LimitState, RateLimitResult)
    requires policy.FixedWindow? && ValidPolicy(policy)
  {
    var current := AlignedStart(policy, now);
    var state :=
      if && existing.Some? && existing.value.Window? && existing.value.signature == policy
         && existing.value.windowStart >= current
      then existing.value
      else Window(policy, 0, current);
    var allowed := state.used < policy.limit;
    var charged := if allowed then state.(used := state.used + 1) else state;
    var resetAt := state.windowStart + policy.windowMs;
    (charged,
     RateLimitResult(
       allowed, Max(0, policy.limit - charged.used), resetAt,
       if allowed then None else Some(Max(1, resetAt - now))))
  }

  // --------------------------------------------------------------- Limiter

  type States = map<string, LimitState>

  function Lookup(states: States, key: string): Option<LimitState> {
    if key in states then Some(states[key]) else None
  }

  function Check(states: States, key: string, policy: Policy, now: int): (States, Result<RateLimitResult, LimitError>) {
    if Blank(key) then (states, Err(BlankKey))
    else if !ValidPolicy(policy) then (states, Err(InvalidPolicy))
    else
      var (state, result) :=
        if policy.TokenBucket? then CheckTokenBucket(Lookup(states, key), policy, now)
        else CheckFixedWindow(Lookup(states, key), policy, now);
      (states[key := state], Ok(result))
  }

  class InMemoryRateLimiter {
    var states: States

    constructor ()
      ensures states == map[]
    {
      states := map[];
    }

    method CheckLimit(key: string, policy: Policy, now: int) returns (r: Result<RateLimitResult, LimitError>)
      modifies this
      ensures (states, r) == Check(old(states), key, policy, now)
    {
      if Blank(key) {
        return Err(BlankKey);
      }
      if !ValidPolicy(policy) {
        return Err(InvalidPolicy);
      }
      var result: RateLimitResult;
      if policy.TokenBucket? {
        result := TakeToken(key, policy, now);
      } else {
        result := ChargeWindow(key, policy, now);
      }
      return Ok(result);
    }

    method TakeToken(key: string, policy: Policy, now: int) returns (r: RateLimitResult)
      requires policy.TokenBucket? && ValidPolicy(policy)
      modifies this
      ensures
        var (state, result) := CheckTokenBucket(Lookup(old(states), key), policy, now);
        states == old(states)[key := state] && r == result
    {
      var tokens, updatedAt := policy.burst as real, now;
      if key in states && states[key].Bucket? && states[key].signature == policy {
        tokens, updatedAt := states[key].tokens, states[key].updatedAt;
      }
      hide LevelAt, RefillTime;
      tokens := LevelAt(policy, tokens, updatedAt, now);
      updatedAt := Max(updatedAt, now);
      var allowed := tokens + EPSILON >= 1.0;
      if allowed {
        tokens := MaxReal(0.0, tokens - 1.0);
      }
      states := states[key := Bucket(policy, tokens, updatedAt)];
      var remaining := Max(0, (tokens + EPSILON).Floor);
      var resetAfterMs := RefillTime(policy, tokens, policy.burst as real);
      if allowed {
        return RateLimitResult(true, remaining, now + resetAfterMs, None);
      }
      var retryAfterMs := Max(1, RefillTime(policy, tokens, 1.0));
      return RateLimitResult(false, remaining, now + resetAfterMs, Some(retryAfterMs));
    }

    method ChargeWindow(key: string, policy: Policy, now: int) returns (r: RateLimitResult)
      requires policy.FixedWindow? && ValidPolicy(policy)
      modifies this
      ensures
        var (state, result) := CheckFixedWindow(Lookup(old(states), key), policy, now);
        states == old(states)[key := state] && r == result
    {
      var currentWindowStart := now / policy.windowMs * policy.windowMs;
      var used, windowStart := 0, currentWindowStart;
      if key in states && states[key].Window? && states[key].signature == policy
         && states[key].windowStart >= currentWindowStart {
        used, windowStart := states[key].used, states[key].windowStart;
      }
      var allowed := used < policy.limit;
      if allowed {
        used := used + 1;
      }
      states := states[key := Window(policy, used, windowStart)];
      var resetAt := windowStart + policy.windowMs;
      var retryAfterMs: Option<int> := None;
      if !allowed {
        retryAfterMs := Some(Max(1, resetAt - now));
      }
      return RateLimitResult(allowed, Max(0, policy.limit - used), resetAt, retryAfterMs);
    }
  }

  // ------------------------------------------------------------------ Runs

  datatype Request = Request(key: string, policy: Policy, now: int)

  function Run(requests: seq<Request>): States {
    if requests == [] then map[]
    else
      var r := requests[|requests| - 1];
      Check(Run(requests[..|requests| - 1]), r.key, r.policy, r.now).0
  }

  /** What the i-th request of a run is answered. */
  function Answer(requests: seq<Request>, i: nat): Result<RateLimitResult, LimitError>
    requires i < |requests|
  {
    Check(Run(requests[..i]), requests[i].key, requests[i].policy, requests[i].now).1
  }

  predicate AdmittedAt(requests: seq<Request>, i: nat)
    requires i < |requests|
  {
    Answer(requests, i).Ok? && Answer(requests, i).value.allowed
  }

  predicate DeniedAt(requests: seq<Request>, i: nat)
    requires i < |requests|
  {
    Answer(requests, i).Ok? && !Answer(requests, i).value.allowed
  }

  /** How many of the first n requests were admitted for this key. */
  function Admissions(requests: seq<Request>, n: nat, key: string): nat
    requires n <= |requests|
  {
    if n == 0 then 0
    else Admissions(requests, n - 1, key) + if requests[n - 1].key == key && AdmittedAt(requests, n - 1) then 1 else 0
  }

  /** The first and the highest clock value among the first n requests for this key. */
  function Clock(requests: seq<Request>, n: nat, key: string): Option<(int, int)>
    requires n <= |requests|
  {
    if n == 0 then None
    else
      var seen := Clock(requests, n - 1, key);
      var r := requests[n - 1];
      if r.key != key then seen
      else if seen.None? then Some((r.now, r.now))
      else Some((seen.value.0, Max(seen.value.1, r.now)))
  }

  ghost predicate OnlyPolicy(requests: seq<Request>, key: string, policy: Policy) {
    && !Blank(key) && ValidPolicy(policy)
    && forall r <- requests :: r.key == key ==> r.policy == policy
  }

  lemma RunPrefix(requests: seq<Request>, n: nat)
    requires 0 < n <= |requests|
    ensures
      var r := requests[n - 1];
      && Run(requests[..n]) == Check(Run(requests[..n - 1]), r.key, r.policy, r.now).0
      && Answer(requests, n - 1) == Check(Run(requests[..n - 1]), r.key, r.policy, r.now).1
  {
    assert requests[..n][..n - 1] == requests[..n - 1];
  }

  // ------------------------------------------------- The token-bucket bound

  /** tokens + what was admitted never exceed the burst plus the refill of the highest clock's advance. */
  ghost predicate BucketInv(state: Option<LimitState>, policy: Policy, admitted: nat, clock: Option<(int, int)>)
    requires policy.TokenBucket? && ValidPolicy(policy)
  {
    if clock.None? then state.None? && admitted == 0
    else
      && state.Some? && state.value.Bucket? && state.value.signature == policy
      && 0.0 <= state.value.tokens <= policy.burst as real
      && state.value.updatedAt == clock.value.1 && clock.value.0 <= clock.value.1
      && admitted as real * (1.0 - EPSILON) + state.value.tokens
           <= policy.burst as real + Rate(policy) * (clock.value.1 - clock.value.0) as real
  }

  function Advanced(clock: Option<(int, int)>, now: int): Option<(int, int)> {
    if clock.None? then Some((now, now)) else Some((clock.value.0, Max(clock.value.1, now)))
  }

  lemma RefillKeeps(state: Option<LimitState>, policy: Policy, admitted: nat, clock: Option<(int, int)>, now: int)
    requires policy.TokenBucket? && ValidPolicy(policy) && BucketInv(state, policy, admitted, clock)
    ensures BucketInv(Some(Refilled(state, policy, now)), policy, admitted, Advanced(clock, now))
  {
    var rate := Rate(policy);
    RatePositive(policy);
    hide Rate;
    if clock.Some? {
      var (first, high) := clock.value;
      var elapsed := Max(0, now - high);
      assert rate * (Max(high, now) - first) as real == rate * (high - first) as real + elapsed as real * rate;
      NonNegativeProduct(elapsed as real, rate);
    }
  }

  lemma ChargeKeeps(bucket: LimitState, policy: Policy, admitted: nat, clock: Option<(int, int)>)
    requires policy.TokenBucket? && ValidPolicy(policy) && clock.Some?
    requires BucketInv(Some(bucket), policy, admitted, clock) && bucket.tokens + EPSILON >= 1.0
    ensures BucketInv(Some(bucket.(tokens := MaxReal(0.0, bucket.tokens - 1.0))), policy, admitted + 1, clock)
  {
    hide Rate;
    assert (admitted + 1) as real * (1.0 - EPSILON) == admitted as real * (1.0 - EPSILON) + (1.0 - EPSILON);
  }

  lemma BucketStepKeeps(state: Option<LimitState>, policy: Policy, admitted: nat, clock: Option<(int, int)>, now: int)
    requires policy.TokenBucket? && ValidPolicy(policy) && BucketInv(state, policy, admitted, clock)
    ensures
      var (state', result) := CheckTokenBucket(state, policy, now);
      BucketInv(Some(state'), policy, admitted + if result.allowed then 1 else 0, Advanced(clock, now))
  {
    hide Refilled, RefillTime, Rate, BucketInv;
    RefillKeeps(state, policy, admitted, clock, now);
    if CheckTokenBucket(state, policy, now).1.allowed {
      RefilledIsBucket(state, policy, now);
      ChargeKeeps(Refilled(state, policy, now), policy, admitted, Advanced(clock, now));
    }
  }

  lemma RefilledIsBucket(state: Option<LimitState>, policy: Policy, now: int)
    requires policy.TokenBucket? && ValidPolicy(policy)
    ensures Refilled(state, policy, now).Bucket?
  {
  }

  lemma NothingYet(policy: Policy)
    requires policy.TokenBucket? && ValidPolicy(policy)
    ensures BucketInv(None, policy, 0, None)
  {
  }

  lemma {:induction false} BucketRun(requests: seq<Request>, n: nat, key: string, policy: Policy)
    requires policy.TokenBucket? && OnlyPolicy(requests, key, policy) && n <= |requests|
    ensures BucketInv(Lookup(Run(requests[..n]), key), policy, Admissions(requests, n, key), Clock(requests, n, key))
  {
    hide CheckTokenBucket, CheckFixedWindow, BucketInv, Blank;
    if n == 0 {
      NothingYet(policy);
      assert requests[..0] == [];
    } else {
      RunPrefix(requests, n);
      BucketRun(requests, n - 1, key, policy);
      var r := requests[n - 1];
      if r.key == key {
        assert r in requests;
        BucketStepKeeps(
          Lookup(Run(requests[..n - 1]), key), policy, Admissions(requests, n - 1, key),
          Clock(requests, n - 1, key), r.now);
      }
    }
  }

  ghost predicate BucketBound(state: Option<LimitState>, policy: Policy, admitted: nat, clock: Option<(int, int)>)
    requires policy.TokenBucket? && ValidPolicy(policy)
  {
    if clock.None? then admitted == 0
    else
      var advance := (clock.value.1 - clock.value.0) as real;
      && admitted as real * (1.0 - EPSILON) <= policy.burst as real + Rate(policy) * advance
      && state.Some? && state.value.Bucket? && 0.0 <= state.value.tokens <= policy.burst as real
  }

  /** Over any sequence of checks, on any keys and with any clock, the checks of one key under one policy
      admit at most burst + (limit / interval) * D calls (up to the epsilon per call), where D is how far the
      highest clock value seen has advanced; and the bucket stays between empty and full. */
  lemma TokenBucketBound(requests: seq<Request>, key: string, policy: Policy)
    requires policy.TokenBucket? && OnlyPolicy(requests, key, policy)
    ensures BucketBound(
              Lookup(Run(requests), key), policy, Admissions(requests, |requests|, key),
              Clock(requests, |requests|, key))
  {
    hide Run, Admissions, Clock, BucketInv, BucketBound, Rate;
    BucketRun(requests, |requests|, key, policy);
    assert requests[..|requests|] == requests;
    BoundFromInv(Lookup(Run(requests), key), policy,
      Admissions(requests, |requests|, key), Clock(requests, |requests|, key));
  }

  lemma BoundFromInv(state: Option<LimitState>, policy: Policy, admitted: nat, clock: Option<(int, int)>)
    requires policy.TokenBucket? && ValidPolicy(policy) && BucketInv(state, policy, admitted, clock)
    ensures BucketBound(state, policy, admitted, clock)
  {
  }

  lemma RatePositive(policy: Policy)
    requires policy.TokenBucket? && ValidPolicy(policy)
    ensures Rate(policy) > 0.0
  {
  }

  lemma NonNegativeProduct(a: real, b: real)
    requires a >= 0.0 && b >= 0.0
    ensures a * b >= 0.0
  {
  }

  lemma Distributes(a: real, b: real, c: real)
    ensures (a - b) * c == a * c - b * c
  {
  }

  lemma PositiveProduct(a: real, b: real)
    requires a > 0.0 && b > 0.0
    ensures a * b > 0.0
  {
  }

  // -------------------------------------------------------- Retry advice

  lemma SplitRefill(policy: Policy, tokens: real, updatedAt: int, middle: int, now: int)
    requires policy.TokenBucket? && ValidPolicy(policy) && updatedAt <= middle
    ensures LevelAt(policy, LevelAt(policy, tokens, updatedAt, middle), middle, now)
         == LevelAt(policy, tokens, updatedAt, Max(middle, now))
  {
    var rate := Rate(policy);
    RatePositive(policy);
    hide Rate;
    var a, b := (middle - updatedAt) as real, Max(0, now - middle) as real;
    assert (a + b) * rate == a * rate + b * rate;
    NonNegativeProduct(a, rate);
    NonNegativeProduct(b, rate);
  }

  /** Waiting as long as the advice says fills at least one token. */
  lemma AdviceFills(policy: Policy, tokens: real, updatedAt: int, now: int)
    requires policy.TokenBucket? && ValidPolicy(policy)
    requires now >= updatedAt + Max(1, RefillTime(policy, tokens, 1.0))
    ensures LevelAt(policy, tokens, updatedAt, now) >= 1.0
  {
    var rate := Rate(policy);
    RatePositive(policy);
    hide Rate;
    var need := MaxReal(0.0, 1.0 - tokens);
    var wait := (now - updatedAt) as real;
    assert wait >= need / rate;
    NonNegativeProduct(wait - need / rate, rate);
    assert need / rate * rate == need;
  }

  /** A denied check is a refill. */
  lemma DenialIsRefill(policy: Policy, tokens: real, updatedAt: int, now: int)
    requires policy.TokenBucket? && ValidPolicy(policy)
    ensures
      var (state, result) := CheckTokenBucket(Some(Bucket(policy, tokens, updatedAt)), policy, now);
      var level := LevelAt(policy, tokens, updatedAt, now);
      && (result.allowed <==> level + EPSILON >= 1.0)
      && (!result.allowed ==>
            && state == Bucket(policy, level, Max(updatedAt, now))
            && result.retryAfterMs == Some(Max(1, RefillTime(policy, level, 1.0))))
  {
    hide Rate;
  }

  /** The advice of a denial is computed from the bucket that it leaves behind, which is short of a token. */
  lemma DenialAdvice(existing: Option<LimitState>, policy: Policy, now: int)
    requires policy.TokenBucket? && ValidPolicy(policy)
    ensures
      var (state, result) := CheckTokenBucket(existing, policy, now);
      !result.allowed ==>
        && state.tokens + EPSILON < 1.0 && now <= state.updatedAt
        && result.retryAfterMs == Some(Max(1, RefillTime(policy, state.tokens, 1.0)))
  {
    hide Rate, LevelAt, RefillTime;
  }

  lemma LevelNow(policy: Policy, tokens: real, now: int)
    requires policy.TokenBucket? && ValidPolicy(policy) && tokens <= policy.burst as real
    ensures LevelAt(policy, tokens, now, now) == tokens
  {
  }

  /** After a denial and only denials since, the bucket is the denial's bucket refilled to the highest clock
      value since, and is still short of a token. */
  lemma {:induction false} DenialsOnlyRefill(requests: seq<Request>, i: nat, n: nat, key: string, policy: Policy)
    requires policy.TokenBucket? && OnlyPolicy(requests, key, policy)
    requires i < n <= |requests| && requests[i].key == key && DeniedAt(requests, i)
    requires forall m :: i < m < n && requests[m].key == key ==> DeniedAt(requests, m)
    ensures
      var s, t := Lookup(Run(requests[..i + 1]), key), Lookup(Run(requests[..n]), key);
      && s.Some? && s.value.Bucket? && t.Some? && t.value.Bucket? && t.value.signature == policy
      && s.value.updatedAt <= t.value.updatedAt
      && t.value.tokens == LevelAt(policy, s.value.tokens, s.value.updatedAt, t.value.updatedAt)
      && t.value.tokens + EPSILON < 1.0
  {
    hide CheckTokenBucket, CheckFixedWindow, Rate, LevelAt, RefillTime, IsSpace, Blank;
    RunPrefix(requests, n);
    BucketRun(requests, i + 1, key, policy);
    var r := requests[n - 1];
    assert r in requests;
    var s := Lookup(Run(requests[..i + 1]), key).value;
    if n > i + 1 {
      DenialsOnlyRefill(requests, i, n - 1, key, policy);
      var before := Lookup(Run(requests[..n - 1]), key).value;
      if r.key == key {
        SplitRefill(policy, s.tokens, s.updatedAt, before.updatedAt, r.now);
        DenialIsRefill(policy, before.tokens, before.updatedAt, r.now);
      }
    } else {
      LevelNow(policy, s.tokens, s.updatedAt);
      DenialAdvice(Lookup(Run(requests[..i]), key), policy, r.now);
    }
  }

  lemma LevelGrows(policy: Policy, tokens: real, updatedAt: int, a: int, b: int)
    requires policy.TokenBucket? && ValidPolicy(policy) && a <= b
    ensures LevelAt(policy, tokens, updatedAt, a) <= LevelAt(policy, tokens, updatedAt, b)
  {
    var rate := Rate(policy);
    RatePositive(policy);
    hide Rate;
    var x, y := Max(0, a - updatedAt) as real, Max(0, b - updatedAt) as real;
    NonNegativeProduct(y - x, rate);
    assert (y - x) * rate == y * rate - x * rate;
  }

  /** What a denial leaves behind decides the next check that is not denied: with only denials in between, and
      whatever their clocks, a check is admitted exactly when the denial's bucket, refilled up to the clock of
      that check, is within the epsilon of a token. */
  lemma RetryLevel(requests: seq<Request>, i: nat, j: nat, key: string, policy: Policy)
    requires policy.TokenBucket? && OnlyPolicy(requests, key, policy)
    requires i < j < |requests| && requests[i].key == key && requests[j].key == key
    requires DeniedAt(requests, i)
    requires forall m :: i < m < j && requests[m].key == key ==> DeniedAt(requests, m)
    ensures
      var s := Lookup(Run(requests[..i + 1]), key);
      var clock := Clock(requests, i + 1, key);
      && s.Some? && s.value.Bucket? && clock.Some?
      && requests[i].now <= clock.value.1 == s.value.updatedAt
      && s.value.tokens + EPSILON < 1.0
      && Answer(requests, i).value.retryAfterMs == Some(Max(1, RefillTime(policy, s.value.tokens, 1.0)))
      && (AdmittedAt(requests, j)
          <==> LevelAt(policy, s.value.tokens, s.value.updatedAt, requests[j].now) + EPSILON >= 1.0)
  {
    hide CheckFixedWindow, CheckTokenBucket, IsSpace, Blank, Run, LevelAt, RefillTime, Rate;
    RunPrefix(requests, i + 1);
    RunPrefix(requests, j + 1);
    assert requests[i] in requests && requests[j] in requests;
    BucketRun(requests, i + 1, key, policy);
    DenialsOnlyRefill(requests, i, j, key, policy);
    DenialAdvice(Lookup(Run(requests[..i]), key), policy, requests[i].now);
    var s := Lookup(Run(requests[..i + 1]), key).value;
    var before := Lookup(Run(requests[..j]), key).value;
    var now := requests[j].now;
    DenialIsRefill(policy, before.tokens, before.updatedAt, now);
    SplitRefill(policy, s.tokens, s.updatedAt, before.updatedAt, now);
    if now < before.updatedAt {
      LevelGrows(policy, s.tokens, s.updatedAt, now, before.updatedAt);
    }
  }

  /** Honest retry advice: if a check was denied with advice r at a clock value t that no earlier check of the
      key had passed, then a check of the key at or after t + r is admitted, provided none in between was,
      however many denied checks came in between and whatever their clocks said. */
  lemma HonestRetryAdvice(requests: seq<Request>, i: nat, j: nat, key: string, policy: Policy)
    requires policy.TokenBucket? && OnlyPolicy(requests, key, policy)
    requires i < j < |requests| && requests[i].key == key && requests[j].key == key
    requires DeniedAt(requests, i)
    requires Clock(requests, i + 1, key).Some? && Clock(requests, i + 1, key).value.1 == requests[i].now
    requires forall m :: i < m < j && requests[m].key == key ==> DeniedAt(requests, m)
    requires requests[j].now >= requests[i].now + Answer(requests, i).value.retryAfterMs.GetOr(0)
    ensures AdmittedAt(requests, j)
  {
    hide AdmittedAt, DeniedAt, Answer, Run, LevelAt, RefillTime, Clock, OnlyPolicy;
    RetryLevel(requests, i, j, key, policy);
    var s := Lookup(Run(requests[..i + 1]), key).value;
    PolicyIsValid(requests, key, policy);
    AdviceFills(policy, s.tokens, s.updatedAt, requests[j].now);
  }

  lemma PolicyIsValid(requests: seq<Request>, key: string, policy: Policy)
    requires OnlyPolicy(requests, key, policy)
    ensures ValidPolicy(policy)
  {
  }

  /** How far the advised wait overshoots a whole token: the wait is rounded up to a millisecond. */
  function Overshoot(policy: Policy, tokens: real): real
    requires policy.TokenBucket? && ValidPolicy(policy)
  {
    tokens + Max(1, RefillTime(policy, tokens, 1.0)) as real * Rate(policy) - 1.0
  }

  /** The cap does not matter to whether a check is admitted, as it is at least a token. */
  lemma AdmitsIff(policy: Policy, tokens: real, updatedAt: int, now: int, gain: real)
    requires policy.TokenBucket? && ValidPolicy(policy)
    requires gain == Max(0, now - updatedAt) as real * Rate(policy)
    ensures LevelAt(policy, tokens, updatedAt, now) + EPSILON >= 1.0 <==> tokens + gain + EPSILON >= 1.0
  {
    hide Rate;
    assert policy.burst as real >= 1.0;
  }

  /** What is gained in the advised wait, given what the wait and the lead of the bucket's clock are worth. */
  lemma GainAfterAdvice(wait: int, lag: int, rate: real) returns (gain: real)
    requires rate > 0.0
    ensures gain == Max(0, wait - lag) as real * rate
    ensures if wait < lag then gain == 0.0 && wait as real * rate < lag as real * rate
            else gain == wait as real * rate - lag as real * rate
  {
    gain := Max(0, wait - lag) as real * rate;
    if wait < lag {
      PositiveProduct(lag as real - wait as real, rate);
      Distributes(lag as real, wait as real, rate);
    } else {
      Distributes(wait as real, lag as real, rate);
    }
  }

  lemma LevelAfterAdvice(policy: Policy, tokens: real, updatedAt: int, now: int)
    requires policy.TokenBucket? && ValidPolicy(policy) && tokens + EPSILON < 1.0 && now <= updatedAt
    ensures
      var r := Max(1, RefillTime(policy, tokens, 1.0));
      LevelAt(policy, tokens, updatedAt, now + r) + EPSILON >= 1.0
      <==> (updatedAt - now) as real * Rate(policy) <= Overshoot(policy, tokens) + EPSILON
  {
    hide RefillTime, Rate, LevelAt;
    RatePositive(policy);
    var r := Max(1, RefillTime(policy, tokens, 1.0));
    var gain := GainAfterAdvice(r, updatedAt - now, Rate(policy));
    AdmitsIff(policy, tokens, updatedAt, now + r, gain);
  }

  /** Exactly when a retry at the advised time is admitted, for every policy and run: what the bucket's clock was
      ahead of the denied check must not outweigh the overshoot of the advice, up to the epsilon. */
  lemma AdviceDeficit(requests: seq<Request>, i: nat, j: nat, key: string, policy: Policy)
    requires policy.TokenBucket? && OnlyPolicy(requests, key, policy)
    requires i < j < |requests| && requests[i].key == key && requests[j].key == key
    requires DeniedAt(requests, i)
    requires forall m :: i < m < j && requests[m].key == key ==> DeniedAt(requests, m)
    requires requests[j].now == requests[i].now + Answer(requests, i).value.retryAfterMs.GetOr(0)
    ensures
      var s := Lookup(Run(requests[..i + 1]), key);
      var clock := Clock(requests, i + 1, key);
      && s.Some? && s.value.Bucket? && clock.Some?
      && (AdmittedAt(requests, j)
          <==> (clock.value.1 - requests[i].now) as real * Rate(policy) <= Overshoot(policy, s.value.tokens) + EPSILON)
  {
    hide AdmittedAt, DeniedAt, Answer, Run, LevelAt, RefillTime, Rate, Overshoot, Clock, OnlyPolicy;
    RetryLevel(requests, i, j, key, policy);
    PolicyIsValid(requests, key, policy);
    var s := Lookup(Run(requests[..i + 1]), key).value;
    LevelAfterAdvice(policy, s.tokens, s.updatedAt, requests[i].now);
  }

  // ------------------------------------------------ Levels lie on a grid

  /** A level that refills of whole milliseconds and charges of whole tokens can reach. */
  ghost predicate OnGrid(policy: Policy, level: real)
    requires policy.TokenBucket?
  {
    exists k: int :: IsUnits(level, policy.intervalMs, k)
  }

  predicate IsUnits(level: real, interval: int, k: int) {
    level * interval as real == k as real
  }

  lemma RefillOnGrid(policy: Policy, tokens: real, updatedAt: int, now: int)
    requires policy.TokenBucket? && ValidPolicy(policy) && OnGrid(policy, tokens)
    ensures OnGrid(policy, LevelAt(policy, tokens, updatedAt, now))
  {
    var k: int :| IsUnits(tokens, policy.intervalMs, k);
    var elapsed := Max(0, now - updatedAt);
    RefilledUnits(policy, tokens, k, elapsed);
    FullOnGrid(policy);
  }

  lemma RefilledUnits(policy: Policy, tokens: real, k: int, elapsed: int)
    requires policy.TokenBucket? && ValidPolicy(policy) && IsUnits(tokens, policy.intervalMs, k)
    ensures IsUnits(tokens + elapsed as real * Rate(policy), policy.intervalMs, k + elapsed * policy.limit)
  {
    var interval, rate := policy.intervalMs as real, Rate(policy);
    assert rate * interval == policy.limit as real;
    hide Rate;
    calc {
      (tokens + elapsed as real * rate) * interval;
      tokens * interval + elapsed as real * rate * interval;
      k as real + elapsed as real * (rate * interval);
      (k + elapsed * policy.limit) as real;
    }
  }

  lemma FullOnGrid(policy: Policy)
    requires policy.TokenBucket?
    ensures OnGrid(policy, policy.burst as real) && OnGrid(policy, 0.0)
  {
    assert IsUnits(policy.burst as real, policy.intervalMs, policy.burst * policy.intervalMs);
    assert IsUnits(0.0, policy.intervalMs, 0);
  }

  lemma ChargeOnGrid(policy: Policy, tokens: real)
    requires policy.TokenBucket? && OnGrid(policy, tokens)
    ensures OnGrid(policy, MaxReal(0.0, tokens - 1.0))
  {
    var k: int :| IsUnits(tokens, policy.intervalMs, k);
    assert IsUnits(tokens - 1.0, policy.intervalMs, k - policy.intervalMs);
    FullOnGrid(policy);
  }

  lemma CheckOnGrid(existing: Option<LimitState>, policy: Policy, now: int)
    requires policy.TokenBucket? && ValidPolicy(policy)
    requires existing.Some? && existing.value.Bucket? && existing.value.signature == policy ==>
               OnGrid(policy, existing.value.tokens)
    ensures CheckTokenBucket(existing, policy, now).0.Bucket?
    ensures OnGrid(policy, CheckTokenBucket(existing, policy, now).0.tokens)
  {
    hide LevelAt, RefillTime, OnGrid;
    FullOnGrid(policy);
    var from :=
      if existing.Some? && existing.value.Bucket? && existing.value.signature == policy
      then existing.value
      else Bucket(policy, policy.burst as real, now);
    RefillOnGrid(policy, from.tokens, from.updatedAt, now);
    var level := LevelAt(policy, from.tokens, from.updatedAt, now);
    assert Refilled(existing, policy, now).tokens == level;
    ChargeOnGrid(policy, level);
    var (state, result) := CheckTokenBucket(existing, policy, now);
    assert state.tokens == level || state.tokens == MaxReal(0.0, level - 1.0);
  }

  lemma {:induction false} RunOnGrid(requests: seq<Request>, n: nat, key: string, policy: Policy)
    requires policy.TokenBucket? && OnlyPolicy(requests, key, policy) && n <= |requests|
    ensures var state := Lookup(Run(requests[..n]), key);
            state.Some? ==> state.value.Bucket? && OnGrid(policy, state.value.tokens)
  {
    hide CheckTokenBucket, CheckFixedWindow, OnGrid, Blank;
    if n > 0 {
      RunPrefix(requests, n);
      RunOnGrid(requests, n - 1, key, policy);
      var r := requests[n - 1];
      assert r in requests;
      if r.key == key {
        CheckOnGrid(Lookup(Run(requests[..n - 1]), key), policy, r.now);
      } else {
        assert Lookup(Run(requests[..n]), key) == Lookup(Run(requests[..n - 1]), key);
      }
    }
  }

  /** The grid is coarser than the epsilon below this interval, so a level short of a token is short by more. */
  const EPSILON_INTERVAL: int := 4503599627370496

  lemma ShortByMoreThanEpsilon(policy: Policy, level: real)
    requires policy.TokenBucket? && ValidPolicy(policy) && policy.intervalMs < EPSILON_INTERVAL
    requires OnGrid(policy, level) && level < 1.0
    ensures level + EPSILON < 1.0
  {
    hide OnGrid;
    ShortByAUnit(policy, level);
    MoreThanEpsilon(1.0 - level, policy.intervalMs as real);
  }

  lemma ShortByAUnit(policy: Policy, level: real)
    requires policy.TokenBucket? && ValidPolicy(policy) && OnGrid(policy, level) && level < 1.0
    ensures (1.0 - level) * policy.intervalMs as real >= 1.0
  {
    var interval := policy.intervalMs as real;
    var k: int :| IsUnits(level, policy.intervalMs, k);
    PositiveProduct(1.0 - level, interval);
    Distributes(1.0, level, interval);
    assert (policy.intervalMs - k) as real > 0.0;
  }

  lemma MoreThanEpsilon(short: real, interval: real)
    requires 1.0 <= interval <= 4503599627370495.0 && short * interval >= 1.0
    ensures short > EPSILON
  {
    assert EPSILON * interval < 1.0;
    if short <= EPSILON {
      NonNegativeProduct(EPSILON - short, interval);
      Distributes(EPSILON, short, interval);
    }
  }

  /** A bucket whose clock is ahead is short of a token when the advised wait is over. */
  lemma StaleAdviceFallsShort(policy: Policy, tokens: real, updatedAt: int, now: int)
    requires policy.TokenBucket? && ValidPolicy(policy)
    requires tokens < 1.0 && now < updatedAt
    ensures LevelAt(policy, tokens, updatedAt, now + Max(1, RefillTime(policy, tokens, 1.0))) < 1.0
  {
    var rate := Rate(policy);
    RatePositive(policy);
    hide Rate;
    var need := 1.0 - tokens;
    var refill := RefillTime(policy, tokens, 1.0);
    assert need / rate > 0.0;
    var elapsed := Max(0, now + refill - updatedAt);
    assert elapsed as real < need / rate;
    var gap := need / rate - elapsed as real;
    PositiveProduct(gap, rate);
    assert gap * rate == need - elapsed as real * rate by {
      assert need / rate * rate == need;
    }
  }

  /** When the advice is right: for every policy with an interval below 2^52 ms, a retry at exactly the advised
      time, with only denials in between, is admitted if and only if no earlier check of the key had seen a later
      clock than the denied one. */
  lemma AdviceIsRightIff(requests: seq<Request>, i: nat, j: nat, key: string, policy: Policy)
    requires policy.TokenBucket? && OnlyPolicy(requests, key, policy)
    requires i < j < |requests| && requests[i].key == key && requests[j].key == key
    requires DeniedAt(requests, i)
    requires forall m :: i < m < j && requests[m].key == key ==> DeniedAt(requests, m)
    requires requests[j].now == requests[i].now + Answer(requests, i).value.retryAfterMs.GetOr(0)
    requires policy.intervalMs < EPSILON_INTERVAL
    ensures Clock(requests, i + 1, key).Some?
    ensures AdmittedAt(requests, j) <==> Clock(requests, i + 1, key).value.1 == requests[i].now
  {
    hide AdmittedAt, DeniedAt, Answer, Run, LevelAt, RefillTime, Rate, Clock, OnlyPolicy, OnGrid;
    RetryLevel(requests, i, j, key, policy);
    PolicyIsValid(requests, key, policy);
    RunOnGrid(requests, i + 1, key, policy);
    var s := Lookup(Run(requests[..i + 1]), key).value;
    if s.updatedAt <= requests[i].now {
      AdviceFills(policy, s.tokens, s.updatedAt, requests[j].now);
    } else {
      StaleAdviceFallsShort(policy, s.tokens, s.updatedAt, requests[i].now);
      RefillOnGrid(policy, s.tokens, s.updatedAt, requests[j].now);
      ShortByMoreThanEpsilon(policy, LevelAt(policy, s.tokens, s.updatedAt, requests[j].now));
    }
  }

  // ------------------------------------------------ Two concrete runs

  /** One token at a time, refilled over one interval. */
  function OneToken(intervalMs: int): Policy {
    TokenBucket(1, intervalMs, 1)
  }

  lemma FirstTokenIsTaken(intervalMs: int, now: int)
    requires PositiveSafeInteger(intervalMs)
    ensures
      var (state, result) := CheckTokenBucket(None, OneToken(intervalMs), now);
      state == Bucket(OneToken(intervalMs), 0.0, now) && result.allowed
  {
    assert Max(0, now - now) as real * Rate(OneToken(intervalMs)) == 0.0;
  }

  /** At a clock that is not ahead of the bucket nothing is refilled, and the advice is always one interval. */
  lemma EmptyBucketDenies(intervalMs: int, updatedAt: int, now: int)
    requires PositiveSafeInteger(intervalMs) && now <= updatedAt
    ensures
      var empty := Bucket(OneToken(intervalMs), 0.0, updatedAt);
      var (state, result) := CheckTokenBucket(Some(empty), OneToken(intervalMs), now);
      state == empty && !result.allowed && result.retryAfterMs == Some(intervalMs)
  {
    hide CheckTokenBucket, LevelAt, RefillTime, Rate;
    var policy := OneToken(intervalMs);
    BehindRefillsNothing(policy, 0.0, updatedAt, now);
    EmptyRefillTime(intervalMs);
    DenialIsRefill(policy, 0.0, updatedAt, now);
  }

  lemma EmptyRefillTime(intervalMs: int)
    requires PositiveSafeInteger(intervalMs)
    ensures RefillTime(OneToken(intervalMs), 0.0, 1.0) == intervalMs
  {
    assert MaxReal(0.0, 1.0 - 0.0) / Rate(OneToken(intervalMs)) == intervalMs as real;
  }

  lemma RunOfThree(a: Request, b: Request, c: Request)
    requires !Blank("k") && a.key == b.key == c.key == "k" && a.policy == b.policy == c.policy
    requires a.policy.TokenBucket? && ValidPolicy(a.policy)
    ensures
      var requests := [a, b, c];
      var (s, first) := CheckTokenBucket(None, a.policy, a.now);
      var (t, second) := CheckTokenBucket(Some(s), a.policy, b.now);
      var third := CheckTokenBucket(Some(t), a.policy, c.now).1;
      Answer(requests, 0) == Ok(first) && Answer(requests, 1) == Ok(second) && Answer(requests, 2) == Ok(third)
  {
    hide CheckTokenBucket, CheckFixedWindow, Run, Blank;
    var requests := [a, b, c];
    RunOfNothing();
    assert requests[..0] == [];
    RunPrefix(requests, 1);
    RunPrefix(requests, 2);
    RunPrefix(requests, 3);
  }

  /** The clock condition is needed: after a check at 10 s empties the bucket, a check at a clock set back to 0
      is told to retry after one second, and retrying at exactly that time is denied again. */
  lemma StaleClockBreaksAdvice()
    ensures
      var policy := OneToken(1000);
      var requests := [Request("k", policy, 10000), Request("k", policy, 0), Request("k", policy, 1000)];
      && AdmittedAt(requests, 0)
      && DeniedAt(requests, 1) && Answer(requests, 1).value.retryAfterMs == Some(1000)
      && DeniedAt(requests, 2)
  {
    hide CheckTokenBucket, Run, IsSpace, Blank;
    var policy := OneToken(1000);
    NotBlank();
    FirstTokenIsTaken(1000, 10000);
    EmptyBucketDenies(1000, 10000, 0);
    EmptyBucketDenies(1000, 10000, 1000);
    RunOfThree(Request("k", policy, 10000), Request("k", policy, 0), Request("k", policy, 1000));
  }

  /** The interval condition of the exact statement is needed: with a refill so slow that the epsilon is worth
      more than a millisecond of it, a bucket whose clock is one millisecond ahead still admits the retry. */
  lemma SlowRefillForgives()
    ensures
      var policy := OneToken(MAX_SAFE_INTEGER);
      var requests := [Request("k", policy, 1), Request("k", policy, 0), Request("k", policy, MAX_SAFE_INTEGER)];
      && AdmittedAt(requests, 0)
      && DeniedAt(requests, 1) && Answer(requests, 1).value.retryAfterMs == Some(MAX_SAFE_INTEGER)
      && Clock(requests, 2, "k").Some? && Clock(requests, 2, "k").value.1 == 1 > requests[1].now
      && AdmittedAt(requests, 2)
  {
    hide CheckTokenBucket, Run, IsSpace, Blank;
    var policy := OneToken(MAX_SAFE_INTEGER);
    NotBlank();
    FirstTokenIsTaken(MAX_SAFE_INTEGER, 1);
    EmptyBucketDenies(MAX_SAFE_INTEGER, 1, 0);
    AlmostFullAdmits();
    var requests := [Request("k", policy, 1), Request("k", policy, 0), Request("k", policy, MAX_SAFE_INTEGER)];
    assert Clock(requests, 1, "k") == Some((1, 1));
    RunOfThree(requests[0], requests[1], requests[2]);
  }

  lemma AlmostFullAdmits()
    ensures
      var policy := OneToken(MAX_SAFE_INTEGER);
      CheckTokenBucket(Some(Bucket(policy, 0.0, 1)), policy, MAX_SAFE_INTEGER).1.allowed
  {
    var policy := OneToken(MAX_SAFE_INTEGER);
    assert LevelAt(policy, 0.0, 1, MAX_SAFE_INTEGER) + EPSILON >= 1.0;
  }

  lemma NotBlank()
    ensures !Blank("k")
  {
    assert !IsSpace("k"[0]);
  }

  lemma RunOfNothing()
    ensures Run([]) == map[]
  {
  }

  // ----------------------------------------------------------- Quota window

  /** The window that the i-th request was charged to, as its caller can read it off the answer. */
  function ChargedWindow(requests: seq<Request>, i: nat, policy: Policy): int
    requires i < |requests| && Answer(requests, i).Ok? && policy.FixedWindow?
  {
    Answer(requests, i).value.resetAt - policy.windowMs
  }

  /** How many of the first n requests for this key were admitted in the window that starts at `start`. */
  function AdmittedIn(requests: seq<Request>, n: nat, key: string, policy: Policy, start: int): nat
    requires n <= |requests| && policy.FixedWindow?
  {
    if n == 0 then 0
    else
      AdmittedIn(requests, n - 1, key, policy, start) +
      if && requests[n - 1].key == key && AdmittedAt(requests, n - 1)
         && ChargedWindow(requests, n - 1, policy) == start
      then 1 else 0
  }

  ghost predicate WindowInv(requests: seq<Request>, n: nat, key: string, policy: Policy)
    requires n <= |requests| && policy.FixedWindow? && ValidPolicy(policy)
  {
    var state := Lookup(Run(requests[..n]), key);
    var clock := Clock(requests, n, key);
    if clock.None? then state.None? && forall start :: AdmittedIn(requests, n, key, policy, start) == 0
    else
      && state.Some? && state.value.Window? && state.value.signature == policy
      && state.value.windowStart == AlignedStart(policy, clock.value.1)
      && 0 <= state.value.used <= policy.limit
      && AdmittedIn(requests, n, key, policy, state.value.windowStart) == state.value.used
      && (forall start :: start > state.value.windowStart ==> AdmittedIn(requests, n, key, policy, start) == 0)
      && (forall start :: AdmittedIn(requests, n, key, policy, start) <= policy.limit)
  }

  lemma AlignedMonotone(policy: Policy, a: int, b: int)
    requires policy.FixedWindow? && ValidPolicy(policy) && a <= b
    ensures AlignedStart(policy, a) <= AlignedStart(policy, b)
  {
    var w := policy.windowMs;
    var p, q := a / w, b / w;
    DivBounds(a, w);
    DivBounds(b, w);
    CancelProduct(p, q + 1, w);
    MonotoneProduct(p, q, w);
  }

  lemma DivBounds(a: int, w: int)
    requires w >= 1
    ensures a / w * w <= a < (a / w + 1) * w
  {
  }

  lemma CancelProduct(x: int, y: int, m: int)
    requires m >= 1 && x * m < y * m
    ensures x < y
  {
    assert (y - x) * m > 0;
  }

  lemma MonotoneProduct(x: int, y: int, m: int)
    requires m >= 0 && x <= y
    ensures x * m <= y * m
  {
    assert (y - x) * m >= 0;
  }

  /** One check moves the window to that of the highest clock, and counts in it what it admits. */
  lemma WindowStep(existing: Option<LimitState>, policy: Policy, high: int, now: int)
    requires policy.FixedWindow? && ValidPolicy(policy)
    requires existing.Some? ==>
               && existing.value.Window? && existing.value.signature == policy
               && existing.value.windowStart == AlignedStart(policy, high)
               && 0 <= existing.value.used <= policy.limit
    requires existing.None? ==> high <= now
    ensures
      var (state, result) := CheckFixedWindow(existing, policy, now);
      && state.Window? && state.signature == policy
      && state.windowStart == AlignedStart(policy, Max(high, now))
      && (existing.Some? ==> existing.value.windowStart <= state.windowStart)
      && 0 <= state.used <= policy.limit
      && var carried :=
          if existing.Some? && existing.value.windowStart == state.windowStart then existing.value.used else 0;
      && state.used == carried + (if result.allowed then 1 else 0)
      && result.resetAt == state.windowStart + policy.windowMs
  {
    hide AlignedStart;
    if high <= now {
      AlignedMonotone(policy, high, now);
    } else {
      AlignedMonotone(policy, now, high);
    }
  }

  lemma {:induction false} WindowRun(requests: seq<Request>, n: nat, key: string, policy: Policy)
    requires policy.FixedWindow? && OnlyPolicy(requests, key, policy) && n <= |requests|
    ensures WindowInv(requests, n, key, policy)
  {
    hide AlignedStart, CheckFixedWindow, CheckTokenBucket;
    if n > 0 {
      RunPrefix(requests, n);
      WindowRun(requests, n - 1, key, policy);
      var r := requests[n - 1];
      assert r in requests;
      if r.key == key {
        var clock := Clock(requests, n - 1, key);
        var before := Lookup(Run(requests[..n - 1]), key);
        WindowStep(before, policy, if clock.Some? then clock.value.1 else r.now, r.now);
        var state := CheckFixedWindow(before, policy, r.now).0;
        assert Lookup(Run(requests[..n]), key) == Some(state);
        assert Clock(requests, n, key).Some?
               && state.windowStart == AlignedStart(policy, Clock(requests, n, key).value.1);
        assert AdmittedIn(requests, n, key, policy, state.windowStart) == state.used;
        assert forall start :: start > state.windowStart ==> AdmittedIn(requests, n, key, policy, start) == 0;
      } else {
        assert Lookup(Run(requests[..n]), key) == Lookup(Run(requests[..n - 1]), key);
        assert forall start ::
               AdmittedIn(requests, n, key, policy, start) == AdmittedIn(requests, n - 1, key, policy, start);
      }
      forall start ensures AdmittedIn(requests, n, key, policy, start) <= policy.limit {
        assert AdmittedIn(requests, n - 1, key, policy, start) <= policy.limit;
      }
    }
  }

  /** A backward clock never reopens a quota window: under one policy the stored window is always that of the
      highest clock value seen, and every aligned window admits at most `limit` calls in all, for any clock. */
  lemma QuotaNeverReopens(requests: seq<Request>, key: string, policy: Policy, start: int)
    requires policy.FixedWindow? && OnlyPolicy(requests, key, policy)
    ensures AdmittedIn(requests, |requests|, key, policy, start) <= policy.limit
    ensures forall i, j :: 0 <= i < j < |requests| && requests[i].key == key && requests[j].key == key ==>
              && Answer(requests, i).Ok? && Answer(requests, j).Ok?
              && ChargedWindow(requests, i, policy) <= ChargedWindow(requests, j, policy)
    ensures forall i :: 0 <= i < |requests| && requests[i].key == key ==>
              && Answer(requests, i).Ok?
              && ChargedWindow(requests, i, policy) == AlignedStart(policy, Clock(requests, i + 1, key).value.1)
  {
    hide AlignedStart, CheckTokenBucket, IsSpace;
    WindowRun(requests, |requests|, key, policy);
    forall i | 0 <= i < |requests| && requests[i].key == key
      ensures Answer(requests, i).Ok?
      ensures ChargedWindow(requests, i, policy) == AlignedStart(policy, Clock(requests, i + 1, key).value.1)
    {
      assert requests[i] in requests;
      RunPrefix(requests, i + 1);
      WindowRun(requests, i + 1, key, policy);
    }
    forall i, j | 0 <= i < j < |requests| && requests[i].key == key && requests[j].key == key
      ensures ChargedWindow(requests, i, policy) <= ChargedWindow(requests, j, policy)
    {
      ClockGrows(requests, i + 1, j + 1, key);
      AlignedMonotone(policy, Clock(requests, i + 1, key).value.1, Clock(requests, j + 1, key).value.1);
    }
  }

  lemma AlignedBounds(policy: Policy, now: int)
    requires policy.FixedWindow? && ValidPolicy(policy)
    ensures AlignedStart(policy, now) <= now < AlignedStart(policy, now) + policy.windowMs
    ensures AlignedStart(policy, now) % policy.windowMs == 0
  {
    DivBounds(now, policy.windowMs);
    MultipleOf(now / policy.windowMs, policy.windowMs);
  }

  lemma MultipleOf(q: int, w: int)
    requires w >= 1
    ensures q * w % w == 0
  {
    var r := q * w;
    CancelProduct(r / w, q + 1, w) by {
      DivBounds(r, w);
    }
    CancelProduct(q, r / w + 1, w) by {
      DivBounds(r, w);
    }
  }

  /** Exactly when a quota admits: a check is charged to the aligned window that holds the highest clock value
      seen, is admitted if and only if fewer than `limit` checks were admitted in that window before, and is told
      how many are left. */
  lemma QuotaAdmitsIff(requests: seq<Request>, i: nat, key: string, policy: Policy)
    requires policy.FixedWindow? && OnlyPolicy(requests, key, policy)
    requires i < |requests| && requests[i].key == key
    ensures Answer(requests, i).Ok? && Clock(requests, i + 1, key).Some?
    ensures
      var start, high := ChargedWindow(requests, i, policy), Clock(requests, i + 1, key).value.1;
      && start <= high < start + policy.windowMs && start % policy.windowMs == 0
      && (AdmittedAt(requests, i) <==> AdmittedIn(requests, i, key, policy, start) < policy.limit)
      && Answer(requests, i).value.remaining == policy.limit - AdmittedIn(requests, i + 1, key, policy, start)
  {
    hide AlignedStart, CheckTokenBucket, CheckFixedWindow, IsSpace, Blank;
    assert requests[i] in requests;
    RunPrefix(requests, i + 1);
    WindowRun(requests, i, key, policy);
    WindowRun(requests, i + 1, key, policy);
    AlignedBounds(policy, Clock(requests, i + 1, key).value.1);
    QuotaAnswer(Lookup(Run(requests[..i]), key), policy, requests[i].now);
  }

  /** A window that is carried over or started afresh, and what the check of it answers. */
  lemma QuotaAnswer(existing: Option<LimitState>, policy: Policy, now: int)
    requires policy.FixedWindow? && ValidPolicy(policy)
    ensures
      var (state, result) := CheckFixedWindow(existing, policy, now);
      && state.Window? && result.resetAt == state.windowStart + policy.windowMs
      && result.remaining == Max(0, policy.limit - state.used)
      && (result.allowed <==>
            (if && existing.Some? && existing.value.Window? && existing.value.signature == policy
                && existing.value.windowStart == state.windowStart
             then existing.value.used else 0) < policy.limit)
  {
  }

  lemma {:induction false} ClockGrows(requests: seq<Request>, m: nat, n: nat, key: string)
    requires m <= n <= |requests| && Clock(requests, m, key).Some?
    ensures Clock(requests, n, key).Some? && Clock(requests, m, key).value.1 <= Clock(requests, n, key).value.1
    decreases n
  {
    if m < n {
      ClockGrows(requests, m, n - 1, key);
    }
  }

  // --------------------------------------------------- What an answer means

  ghost predicate SoundState(existing: Option<LimitState>, policy: Policy)
    requires ValidPolicy(policy)
  {
    existing.Some? && existing.value.signature == policy ==>
      match policy
      case TokenBucket(_, _, burst) => existing.value.Bucket? && 0.0 <= existing.value.tokens <= burst as real
      case FixedWindow(limit, windowMs) =>
        existing.value.Window? && 0 <= existing.value.used <= limit && existing.value.windowStart % windowMs == 0
  }

  /** `remaining` is the number of further checks that would pass at the same clock, and a bucket whose clock is
      current is full at `resetAt`. */
  lemma BucketAnswerIsHonest(existing: Option<LimitState>, policy: Policy, now: int)
    requires policy.TokenBucket? && ValidPolicy(policy) && SoundState(existing, policy)
    ensures
      var (state, result) := CheckTokenBucket(existing, policy, now);
      var again := CheckTokenBucket(Some(state), policy, now).1;
      && (again.allowed <==> result.remaining >= 1)
      && again.remaining == Max(0, result.remaining - 1)
      && (state.updatedAt == now ==> LevelAt(policy, state.tokens, now, result.resetAt) == policy.burst as real)
  {
    var (state, result) := CheckTokenBucket(existing, policy, now);
    assert 0.0 <= state.tokens <= policy.burst as real by {
      SoundAfterCheck(existing, policy, now);
    }
    BehindRefillsNothing(policy, state.tokens, state.updatedAt, now);
    RefillTimeFills(policy, state.tokens, policy.burst as real, now);
    hide LevelAt, RefillTime;
  }

  lemma SoundAfterCheck(existing: Option<LimitState>, policy: Policy, now: int)
    requires policy.TokenBucket? && ValidPolicy(policy) && SoundState(existing, policy)
    ensures 0.0 <= CheckTokenBucket(existing, policy, now).0.tokens <= policy.burst as real
    ensures now <= CheckTokenBucket(existing, policy, now).0.updatedAt
  {
    RatePositive(policy);
    var refilled := Refilled(existing, policy, now);
    if existing.Some? && existing.value.Bucket? && existing.value.signature == policy {
      NonNegativeProduct(Max(0, now - existing.value.updatedAt) as real, Rate(policy));
    }
    assert 0.0 <= refilled.tokens <= policy.burst as real;
    hide LevelAt, RefillTime, Rate;
  }

  lemma BehindRefillsNothing(policy: Policy, tokens: real, updatedAt: int, now: int)
    requires policy.TokenBucket? && ValidPolicy(policy) && tokens <= policy.burst as real && now <= updatedAt
    ensures LevelAt(policy, tokens, updatedAt, now) == tokens
  {
  }

  lemma RefillTimeFills(policy: Policy, tokens: real, wanted: real, now: int)
    requires policy.TokenBucket? && ValidPolicy(policy) && tokens <= wanted <= policy.burst as real
    ensures wanted <= LevelAt(policy, tokens, now, now + RefillTime(policy, tokens, wanted)) <= policy.burst as real
  {
    var rate := Rate(policy);
    RatePositive(policy);
    hide Rate;
    var need := wanted - tokens;
    var wait := RefillTime(policy, tokens, wanted);
    assert wait as real >= need / rate;
    NonNegativeProduct(wait as real - need / rate, rate);
    assert need / rate * rate == need;
    assert wait >= 0 by {
      assert need / rate >= 0.0;
    }
  }

  /** `remaining` counts the further checks that would pass in the charged window, and retrying as late as a
      denial advises lands in a later window and passes, for any clock of the denial. */
  lemma WindowAnswerIsHonest(existing: Option<LimitState>, policy: Policy, now: int, later: int)
    requires policy.FixedWindow? && ValidPolicy(policy) && SoundState(existing, policy)
    ensures
      var (state, result) := CheckFixedWindow(existing, policy, now);
      var again := CheckFixedWindow(Some(state), policy, later).1;
      && (AlignedStart(policy, later) <= state.windowStart ==>
            && (again.allowed <==> result.remaining >= 1)
            && again.remaining == Max(0, result.remaining - 1))
      && (!result.allowed && later >= now + result.retryAfterMs.value ==> again.allowed)
  {
    var (state, result) := CheckFixedWindow(existing, policy, now);
    var w := policy.windowMs;
    var current := AlignedStart(policy, now);
    DivBounds(now, w);
    if !result.allowed && later >= now + result.retryAfterMs.value {
      AlignedMonotone(policy, state.windowStart + w, later);
      AlignedOfStart(policy, state.windowStart);
    }
  }

  lemma AlignedOfStart(policy: Policy, start: int)
    requires policy.FixedWindow? && ValidPolicy(policy) && start % policy.windowMs == 0
    ensures AlignedStart(policy, start + policy.windowMs) == start + policy.windowMs
  {
    var w := policy.windowMs;
    var q := start / w;
    assert start == q * w;
    DivBounds(start + w, w);
    assert (q + 1) * w == start + w;
    CancelProduct((start + w) / w, q + 2, w) by {
      assert (q + 2) * w == start + w + w;
    }
    CancelProduct(q + 1, (start + w) / w + 1, w);
  }
}
