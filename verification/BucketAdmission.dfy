// Which checks a token bucket admits, said with the run alone: a bucket starts
// full, the first checks up to the burst pass, and a check passes exactly when
// every stretch of checks that ends with it stays within the burst and the
// refill of that stretch.
module BucketAdmission {
  import opened Wrappers
  import opened JavaScript
  import opened RateLimit

  // ------------------------------------------------------ Starting full

  /** The policy of the last well-formed check of this key among the first n requests. */
  function LastPolicy(requests: seq<Request>, n: nat, key: string): Option<Policy>
    requires n <= |requests|
  {
    if n == 0 then None
    else if requests[n - 1].key == key && ValidPolicy(requests[n - 1].policy) then Some(requests[n - 1].policy)
    else LastPolicy(requests, n - 1, key)
  }

  lemma {:induction false} SignatureIsLast(requests: seq<Request>, n: nat, key: string)
    requires n <= |requests| && !Blank(key)
    ensures
      var state := Lookup(Run(requests[..n]), key);
      match LastPolicy(requests, n, key)
      case None => state.None?
      case Some(policy) =>
        state.Some? && state.value.signature == policy && (state.value.Bucket? <==> policy.TokenBucket?)
  {
    hide LevelAt, RefillTime, AlignedStart, Blank;
    if n == 0 {
      assert requests[..0] == [];
    } else {
      RunPrefix(requests, n);
      SignatureIsLast(requests, n - 1, key);
    }
  }

  predicate Matches(existing: Option<LimitState>, policy: Policy) {
    existing.Some? && existing.value.Bucket? && existing.value.signature == policy
  }

  /** The level that a check finds, and what it makes of it. */
  lemma CheckLevel(existing: Option<LimitState>, policy: Policy, now: int) returns (level: real)
    requires policy.TokenBucket? && ValidPolicy(policy)
    ensures level == if Matches(existing, policy)
                     then LevelAt(policy, existing.value.tokens, existing.value.updatedAt, now)
                     else policy.burst as real
    ensures
      var (state, result) := CheckTokenBucket(existing, policy, now);
      && (result.allowed <==> level + EPSILON >= 1.0)
      && state == Bucket(
           policy,
           if result.allowed then MaxReal(0.0, level - 1.0) else level,
           if Matches(existing, policy) then Max(existing.value.updatedAt, now) else now)
      && result.remaining == Max(0, (state.tokens + EPSILON).Floor)
  {
    hide LevelAt, RefillTime, Rate;
    LevelNow(policy, policy.burst as real, now);
    level := Refilled(existing, policy, now).tokens;
  }

  /** A bucket starts full: the first check of a key, and likewise the first one after a change of the policy,
      is admitted and leaves all but one token, which is back after the refill of one token. */
  lemma FirstCheckFindsItFull(requests: seq<Request>, n: nat)
    requires n < |requests| && !Blank(requests[n].key)
    requires requests[n].policy.TokenBucket? && ValidPolicy(requests[n].policy)
    requires LastPolicy(requests, n, requests[n].key) != Some(requests[n].policy)
    ensures AdmittedAt(requests, n)
    ensures
      var policy, answer := requests[n].policy, Answer(requests, n).value;
      && answer.remaining == policy.burst - 1 && answer.retryAfterMs.None?
      && var wait := answer.resetAt - requests[n].now;
      && wait * policy.limit >= policy.intervalMs > (wait - 1) * policy.limit
  {
    hide LevelAt, RefillTime, Rate, Run, Blank;
    var r := requests[n];
    RunPrefix(requests, n + 1);
    SignatureIsLast(requests, n, r.key);
    var level := CheckLevel(Lookup(Run(requests[..n]), r.key), r.policy, r.now);
    var tokens := level - 1.0;
    RefillOfOne(r.policy);
    assert tokens == (r.policy.burst - 1) as real;
  }

  lemma RefillOfOne(policy: Policy)
    requires policy.TokenBucket? && ValidPolicy(policy)
    ensures
      var wait := RefillTime(policy, (policy.burst - 1) as real, policy.burst as real);
      wait * policy.limit >= policy.intervalMs > (wait - 1) * policy.limit
  {
    var wait := RefillTime(policy, (policy.burst - 1) as real, policy.burst as real);
    assert 1.0 / Rate(policy) == policy.intervalMs as real / policy.limit as real;
    WholeQuotient(policy.intervalMs, policy.limit, wait);
  }

  lemma WholeQuotient(a: int, b: int, wait: int)
    requires b >= 1 && wait == Ceil(a as real / b as real)
    ensures wait * b >= a > (wait - 1) * b
  {
    var q := a as real / b as real;
    QuotientTimes(a as real, b as real);
    Between(a, b, wait, q);
  }

  lemma QuotientTimes(a: real, b: real)
    requires b != 0.0
    ensures a / b * b == a
  {
  }

  lemma Between(a: int, b: int, wait: int, q: real)
    requires b >= 1 && q * b as real == a as real && wait as real - 1.0 < q <= wait as real
    ensures wait * b >= a > (wait - 1) * b
  {
    ScaledBelow(q, wait, b);
    ScaledAbove(wait - 1, q, b);
  }

  lemma ScaledBelow(q: real, n: int, b: int)
    requires b >= 1 && q <= n as real
    ensures q * b as real <= (n * b) as real
  {
    NonNegativeProduct(n as real - q, b as real);
    Distributes(n as real, q, b as real);
  }

  lemma ScaledAbove(n: int, q: real, b: int)
    requires b >= 1 && n as real < q
    ensures (n * b) as real < q * b as real
  {
    PositiveProduct(q - n as real, b as real);
    Distributes(q, n as real, b as real);
  }

  // ------------------------------------- Runs of one policy from a full start

  /** The key is checked under this policy alone from `start` on, and its bucket starts there. */
  ghost predicate StartsAt(requests: seq<Request>, start: nat, key: string, policy: Policy) {
    && start <= |requests| && !Blank(key) && policy.TokenBucket? && ValidPolicy(policy)
    && LastPolicy(requests, start, key) != Some(policy)
    && (forall i :: start <= i < |requests| && requests[i].key == key ==> requests[i].policy == policy)
  }

  lemma PolicyOf(requests: seq<Request>, start: nat, key: string, policy: Policy)
    requires StartsAt(requests, start, key, policy)
    ensures policy.TokenBucket? && ValidPolicy(policy) && start <= |requests|
  {
  }

  /** The highest clock value of the key's checks among the requests from `start` to before `n`. */
  function Latest(requests: seq<Request>, start: nat, n: nat, key: string): Option<int>
    requires start <= n <= |requests|
    decreases n
  {
    if n == start then None
    else
      var seen, r := Latest(requests, start, n - 1, key), requests[n - 1];
      if r.key != key then seen else if seen.None? then Some(r.now) else Some(Max(seen.value, r.now))
  }

  predicate IsCheck(requests: seq<Request>, start: nat, i: nat, key: string) {
    start <= i < |requests| && requests[i].key == key
  }

  lemma LatestAfterCheck(requests: seq<Request>, start: nat, i: nat, key: string)
    requires IsCheck(requests, start, i, key)
    ensures Latest(requests, start, i + 1, key).Some?
    ensures
      var before, after := Latest(requests, start, i, key), Latest(requests, start, i + 1, key).value;
      if before.None? then after == requests[i].now else after == Max(before.value, requests[i].now)
  {
  }

  /** The state that the key's checks have left after the first n requests. */
  ghost predicate Tracks(requests: seq<Request>, start: nat, n: nat, key: string, policy: Policy)
    requires start <= n <= |requests| && policy.TokenBucket?
  {
    var state, latest := Lookup(Run(requests[..n]), key), Latest(requests, start, n, key);
    if latest.None? then !Matches(state, policy)
    else
      && Matches(state, policy) && state.value.updatedAt == latest.value
      && 0.0 <= state.value.tokens <= policy.burst as real
  }

  lemma OtherKeysLeaveIt(requests: seq<Request>, n: nat, key: string)
    requires n < |requests| && requests[n].key != key
    ensures Lookup(Run(requests[..n + 1]), key) == Lookup(Run(requests[..n]), key)
    ensures Admissions(requests, n + 1, key) == Admissions(requests, n, key)
  {
    hide CheckTokenBucket, CheckFixedWindow, Blank, AdmittedAt;
    RunPrefix(requests, n + 1);
  }

  /** The level that a check finds. */
  ghost function Found(requests: seq<Request>, start: nat, i: nat, key: string, policy: Policy): real
    requires policy.TokenBucket? && ValidPolicy(policy) && IsCheck(requests, start, i, key)
    requires Tracks(requests, start, i, key, policy)
  {
    var latest := Latest(requests, start, i, key);
    if latest.None? then policy.burst as real
    else LevelAt(policy, Lookup(Run(requests[..i]), key).value.tokens, latest.value, requests[i].now)
  }

  /** One check of the run: the level it finds, whether it is admitted, and what it leaves. */
  lemma CheckAt(requests: seq<Request>, start: nat, i: nat, key: string, policy: Policy) returns (level: real)
    requires StartsAt(requests, start, key, policy) && IsCheck(requests, start, i, key)
    requires Tracks(requests, start, i, key, policy)
    ensures level == Found(requests, start, i, key, policy)
    ensures Answer(requests, i).Ok? && (AdmittedAt(requests, i) <==> level + EPSILON >= 1.0)
    ensures
      var after := Lookup(Run(requests[..i + 1]), key);
      && Matches(after, policy)
      && after.value.updatedAt == Latest(requests, start, i + 1, key).value
      && after.value.tokens == (if AdmittedAt(requests, i) then MaxReal(0.0, level - 1.0) else level)
      && Answer(requests, i).value.remaining == Max(0, (after.value.tokens + EPSILON).Floor)
    ensures Admissions(requests, i + 1, key)
         == Admissions(requests, i, key) + if AdmittedAt(requests, i) then 1 else 0
  {
    hide CheckTokenBucket, CheckFixedWindow, LevelAt, Blank, Rate, Run, LastPolicy;
    RunPrefix(requests, i + 1);
    level := CheckLevel(Lookup(Run(requests[..i]), key), policy, requests[i].now);
  }

  lemma LevelInRange(policy: Policy, tokens: real, updatedAt: int, now: int)
    requires policy.TokenBucket? && ValidPolicy(policy) && 0.0 <= tokens
    ensures 0.0 <= LevelAt(policy, tokens, updatedAt, now) <= policy.burst as real
  {
    RatePositive(policy);
    hide Rate;
    NonNegativeProduct(Max(0, now - updatedAt) as real, Rate(policy));
  }

  lemma {:induction false} TracksRun(requests: seq<Request>, start: nat, n: nat, key: string, policy: Policy)
    requires StartsAt(requests, start, key, policy) && start <= n <= |requests|
    ensures Tracks(requests, start, n, key, policy)
    decreases n
  {
    hide Run, LevelAt, LastPolicy, Blank, Admissions, AdmittedAt, Answer;
    if n == start {
      SignatureIsLast(requests, n, key);
    } else {
      TracksRun(requests, start, n - 1, key, policy);
      if requests[n - 1].key == key {
        var level := CheckAt(requests, start, n - 1, key, policy);
        var before, latest := Lookup(Run(requests[..n - 1]), key), Latest(requests, start, n - 1, key);
        if latest.Some? {
          LevelInRange(policy, before.value.tokens, latest.value, requests[n - 1].now);
        }
      } else {
        OtherKeysLeaveIt(requests, n - 1, key);
      }
    }
  }

  // --------------------------------------------------- What a stretch allows

  /** What the burst and the refill since check `f` leave for further admissions, when the clock has got to
      `clock` and `admitted` checks have been admitted in all. */
  function Left(
    requests: seq<Request>, start: nat, f: nat, key: string, policy: Policy, clock: int, admitted: int): real
    requires policy.TokenBucket? && ValidPolicy(policy) && IsCheck(requests, start, f, key)
  {
    LatestAfterCheck(requests, start, f, key);
    policy.burst as real
    + Rate(policy) * (clock - Latest(requests, start, f + 1, key).value) as real
    - (admitted - Admissions(requests, f, key)) as real
  }

  /** Room for check `i` in the stretch of checks that starts with check `f`: the burst, plus the refill while the
      clock advanced from `f` to `i`, less the admissions from `f` to before `i`. */
  function Room(requests: seq<Request>, start: nat, f: nat, i: nat, key: string, policy: Policy): real
    requires policy.TokenBucket? && ValidPolicy(policy)
    requires IsCheck(requests, start, f, key) && IsCheck(requests, start, i, key)
  {
    LatestAfterCheck(requests, start, i, key);
    Left(requests, start, f, key, policy, Latest(requests, start, i + 1, key).value, Admissions(requests, i, key))
  }

  lemma LeftMoves(
    requests: seq<Request>, start: nat, f: nat, key: string, policy: Policy, clock: int, later: int, admitted: int)
    requires StartsAt(requests, start, key, policy) && IsCheck(requests, start, f, key)
    ensures Left(requests, start, f, key, policy, later, admitted)
         == Left(requests, start, f, key, policy, clock, admitted) + (later - clock) as real * Rate(policy)
    ensures Left(requests, start, f, key, policy, clock, admitted + 1)
         == Left(requests, start, f, key, policy, clock, admitted) - 1.0
  {
    LatestAfterCheck(requests, start, f, key);
    hide Rate, StartsAt, IsCheck, Latest, Admissions;
    PolicyOf(requests, start, key, policy);
    var from, rate := Latest(requests, start, f + 1, key).value, Rate(policy);
    Distributes((later - from) as real, (clock - from) as real, rate);
    assert (later - from) as real - (clock - from) as real == (later - clock) as real;
  }

  lemma LeftAtOnce(requests: seq<Request>, start: nat, f: nat, key: string, policy: Policy)
    requires StartsAt(requests, start, key, policy) && IsCheck(requests, start, f, key)
    ensures Room(requests, start, f, f, key, policy) == policy.burst as real
  {
    LatestAfterCheck(requests, start, f, key);
    hide Rate, StartsAt, IsCheck, Latest, Admissions;
    PolicyOf(requests, start, key, policy);
    assert Rate(policy) * 0.0 == 0.0;
  }

  /** How much less than a whole token an admitted check may have found. */
  ghost predicate Slack(policy: Policy, slack: real)
    requires policy.TokenBucket?
  {
    slack == EPSILON || (slack == 0.0 && policy.intervalMs < EPSILON_INTERVAL)
  }

  /** The level that a check finds, against the room that a stretch ending with it leaves. */
  lemma LevelMoves(policy: Policy, tokens: real, latest: int, now: int)
    requires policy.TokenBucket? && ValidPolicy(policy)
    ensures
      var level, later := LevelAt(policy, tokens, latest, now), Max(latest, now);
      && level <= tokens + (later - latest) as real * Rate(policy)
      && (level == policy.burst as real || level == tokens + (later - latest) as real * Rate(policy))
  {
    hide Rate;
    assert Max(latest, now) - latest == Max(0, now - latest);
  }

  /** An admitted check has found a token, up to the slack. */
  lemma AdmittedFoundOne(requests: seq<Request>, start: nat, i: nat, key: string, policy: Policy, slack: real)
    requires StartsAt(requests, start, key, policy) && IsCheck(requests, start, i, key) && Slack(policy, slack)
    requires Tracks(requests, start, i, key, policy) && Found(requests, start, i, key, policy) + EPSILON >= 1.0
    ensures Found(requests, start, i, key, policy) >= 1.0 - slack
  {
    hide Run, Found, Rate, Blank, LastPolicy, OnGrid, Tracks;
    var level := Found(requests, start, i, key, policy);
    if slack == 0.0 && level < 1.0 {
      LevelOnGrid(requests, start, i, key, policy);
      ShortByMoreThanEpsilon(policy, level);
    }
  }

  lemma {:induction false} StateOnGrid(requests: seq<Request>, start: nat, n: nat, key: string, policy: Policy)
    requires StartsAt(requests, start, key, policy) && start <= n <= |requests|
    ensures
      var state := Lookup(Run(requests[..n]), key);
      Matches(state, policy) ==> OnGrid(policy, state.value.tokens)
    decreases n
  {
    hide LevelAt, Rate, Blank, LastPolicy, OnGrid, CheckTokenBucket, CheckFixedWindow, Run;
    if n == start {
      SignatureIsLast(requests, n, key);
    } else {
      StateOnGrid(requests, start, n - 1, key, policy);
      if requests[n - 1].key == key {
        RunPrefix(requests, n);
        CheckOnGrid(Lookup(Run(requests[..n - 1]), key), policy, requests[n - 1].now);
      } else {
        OtherKeysLeaveIt(requests, n - 1, key);
      }
    }
  }

  lemma LevelOnGrid(requests: seq<Request>, start: nat, i: nat, key: string, policy: Policy)
    requires StartsAt(requests, start, key, policy) && IsCheck(requests, start, i, key)
    requires Tracks(requests, start, i, key, policy)
    ensures OnGrid(policy, Found(requests, start, i, key, policy))
  {
    hide Run, LevelAt, Rate, Blank, LastPolicy, OnGrid;
    FullOnGrid(policy);
    StateOnGrid(requests, start, i, key, policy);
    var latest := Latest(requests, start, i, key);
    if latest.Some? {
      RefillOnGrid(policy, Lookup(Run(requests[..i]), key).value.tokens, latest.value, requests[i].now);
    }
  }

  /** No stretch is exceeded: what a check finds fits into the room of every stretch that ends with it. */
  lemma {:induction false} FindsAtMost(
    requests: seq<Request>, start: nat, f: nat, i: nat, key: string, policy: Policy, slack: real)
    requires StartsAt(requests, start, key, policy) && IsCheck(requests, start, f, key) && Slack(policy, slack)
    requires IsCheck(requests, start, i, key) && f <= i
    ensures Tracks(requests, start, i, key, policy)
    ensures Found(requests, start, i, key, policy)
         <= Room(requests, start, f, i, key, policy)
            + slack * (Admissions(requests, i, key) - Admissions(requests, f, key)) as real
    decreases i, 1
  {
    hide Run, LevelAt, Rate, Blank, LastPolicy, Admissions, Left, StartsAt, Slack;
    PolicyOf(requests, start, key, policy);
    TracksRun(requests, start, i, key, policy);
    if i == f {
      LeftAtOnce(requests, start, f, key, policy);
      FoundInRange(requests, start, i, key, policy);
    } else {
      HoldsAtMost(requests, start, f, i, key, policy, slack);
      LatestAfterCheck(requests, start, i, key);
      var tokens, latest := Lookup(Run(requests[..i]), key).value.tokens, Latest(requests, start, i, key).value;
      FoundMoves(requests, start, i, key, policy);
      LeftMoves(requests, start, f, key, policy, latest, Max(latest, requests[i].now), Admissions(requests, i, key));
    }
  }

  lemma FoundInRange(requests: seq<Request>, start: nat, i: nat, key: string, policy: Policy)
    requires StartsAt(requests, start, key, policy) && IsCheck(requests, start, i, key)
    requires Tracks(requests, start, i, key, policy)
    ensures 0.0 <= Found(requests, start, i, key, policy) <= policy.burst as real
  {
    hide Run, LevelAt, Rate, Blank, LastPolicy;
    var before, latest := Lookup(Run(requests[..i]), key), Latest(requests, start, i, key);
    if latest.Some? {
      LevelInRange(policy, before.value.tokens, latest.value, requests[i].now);
    }
  }

  lemma FoundMoves(requests: seq<Request>, start: nat, i: nat, key: string, policy: Policy)
    requires StartsAt(requests, start, key, policy) && IsCheck(requests, start, i, key)
    requires Tracks(requests, start, i, key, policy) && Latest(requests, start, i, key).Some?
    ensures
      var tokens, latest := Lookup(Run(requests[..i]), key).value.tokens, Latest(requests, start, i, key).value;
      var level, later := Found(requests, start, i, key, policy), Max(latest, requests[i].now);
      && level <= tokens + (later - latest) as real * Rate(policy)
      && (level == policy.burst as real || level == tokens + (later - latest) as real * Rate(policy))
  {
    hide Run, LevelAt, Rate, Blank, LastPolicy;
    var tokens, latest := Lookup(Run(requests[..i]), key).value.tokens, Latest(requests, start, i, key).value;
    LevelMoves(policy, tokens, latest, requests[i].now);
  }

  /** The same after a check: what the bucket holds fits into what every stretch leaves. */
  lemma {:induction false} HoldsAtMost(
    requests: seq<Request>, start: nat, f: nat, n: nat, key: string, policy: Policy, slack: real)
    requires StartsAt(requests, start, key, policy) && IsCheck(requests, start, f, key) && Slack(policy, slack)
    requires f < n <= |requests|
    ensures Tracks(requests, start, n, key, policy) && Latest(requests, start, n, key).Some?
    ensures
      var state, admitted := Lookup(Run(requests[..n]), key), Admissions(requests, n, key);
      state.value.tokens
      <= Left(requests, start, f, key, policy, Latest(requests, start, n, key).value, admitted)
         + slack * (admitted - Admissions(requests, f, key)) as real
    decreases n, 0
  {
    hide Run, Found, Rate, Blank, LastPolicy, Admissions, AdmittedAt, Answer, Left, StartsAt;
    PolicyOf(requests, start, key, policy);
    TracksRun(requests, start, n, key, policy);
    var i := n - 1;
    if requests[i].key != key {
      HoldsAtMost(requests, start, f, i, key, policy, slack);
      OtherKeysLeaveIt(requests, i, key);
    } else {
      FindsAtMost(requests, start, f, i, key, policy, slack);
      var level := CheckAt(requests, start, i, key, policy);
      LatestAfterCheck(requests, start, i, key);
      var admitted, clock := Admissions(requests, i, key), Latest(requests, start, n, key).value;
      if AdmittedAt(requests, i) {
        AdmittedFoundOne(requests, start, i, key, policy, slack);
        LeftMoves(requests, start, f, key, policy, clock, clock, admitted);
        MoreSlack(slack, admitted - Admissions(requests, f, key));
      }
    }
  }

  lemma MoreSlack(slack: real, n: int)
    ensures slack * (n + 1) as real == slack * n as real + slack
  {
    Distributes(n as real, -1.0, slack);
  }

  /** Some stretch is used up: a check finds no less than the room of some stretch that ends with it. */
  lemma {:induction false} FindsAtLeast(requests: seq<Request>, start: nat, i: nat, key: string, policy: Policy)
    returns (f: nat)
    requires StartsAt(requests, start, key, policy) && IsCheck(requests, start, i, key)
    ensures f <= i && IsCheck(requests, start, f, key) && Tracks(requests, start, i, key, policy)
    ensures Found(requests, start, i, key, policy) >= Room(requests, start, f, i, key, policy)
    decreases i, 1
  {
    hide Run, LevelAt, Rate, Blank, LastPolicy, Admissions, Left, StartsAt;
    PolicyOf(requests, start, key, policy);
    TracksRun(requests, start, i, key, policy);
    f := i;
    LeftAtOnce(requests, start, i, key, policy);
    if Found(requests, start, i, key, policy) != policy.burst as real {
      f := HoldsAtLeast(requests, start, i, key, policy);
      LatestAfterCheck(requests, start, i, key);
      var latest := Latest(requests, start, i, key).value;
      FoundMoves(requests, start, i, key, policy);
      LeftMoves(requests, start, f, key, policy, latest, Max(latest, requests[i].now), Admissions(requests, i, key));
    }
  }

  lemma {:induction false} HoldsAtLeast(requests: seq<Request>, start: nat, n: nat, key: string, policy: Policy)
    returns (f: nat)
    requires StartsAt(requests, start, key, policy) && start <= n <= |requests|
    requires Latest(requests, start, n, key).Some?
    ensures f < n && IsCheck(requests, start, f, key) && Tracks(requests, start, n, key, policy)
    ensures
      Lookup(Run(requests[..n]), key).value.tokens
      >= Left(requests, start, f, key, policy, Latest(requests, start, n, key).value, Admissions(requests, n, key))
    decreases n, 0
  {
    hide Run, Found, Rate, Blank, LastPolicy, Admissions, AdmittedAt, Answer, Left, StartsAt;
    PolicyOf(requests, start, key, policy);
    TracksRun(requests, start, n, key, policy);
    var i := n - 1;
    if requests[i].key != key {
      f := HoldsAtLeast(requests, start, i, key, policy);
      OtherKeysLeaveIt(requests, i, key);
    } else {
      f := FindsAtLeast(requests, start, i, key, policy);
      var level := CheckAt(requests, start, i, key, policy);
      LatestAfterCheck(requests, start, i, key);
      var clock := Latest(requests, start, n, key).value;
      LeftMoves(requests, start, f, key, policy, clock, clock, Admissions(requests, i, key));
    }
  }

  // ------------------------------------------------------------ Main results

  /** A check is denied only for want of room: some stretch of checks that ends with it has used up the burst and
      its refill, to more than the epsilon. */
  lemma DeniedOnlyWithoutRoom(requests: seq<Request>, start: nat, i: nat, key: string, policy: Policy)
    requires StartsAt(requests, start, key, policy) && IsCheck(requests, start, i, key)
    requires !AdmittedAt(requests, i)
    ensures exists f: nat :: IsCheck(requests, start, f, key) && f <= i
                     && Room(requests, start, f, i, key, policy) + EPSILON < 1.0
  {
    hide Run, Found, Rate, Blank, LastPolicy, Admissions, AdmittedAt, Answer, Room, StartsAt, Tracks;
    PolicyOf(requests, start, key, policy);
    var f := FindsAtLeast(requests, start, i, key, policy);
    var level := CheckAt(requests, start, i, key, policy);
  }

  /** A check is admitted only with room: every stretch of checks that ends with it has room for one more, up to
      the epsilon for every admission of the stretch. */
  lemma AdmittedOnlyWithRoom(requests: seq<Request>, start: nat, f: nat, i: nat, key: string, policy: Policy)
    requires StartsAt(requests, start, key, policy) && IsCheck(requests, start, i, key)
    requires IsCheck(requests, start, f, key) && f <= i && AdmittedAt(requests, i)
    ensures
      var admitted := Admissions(requests, i, key) - Admissions(requests, f, key);
      1.0 <= Room(requests, start, f, i, key, policy) + EPSILON * (admitted + 1) as real
  {
    hide Run, Found, Rate, Blank, LastPolicy, Admissions, AdmittedAt, Answer, Room, StartsAt, Tracks;
    PolicyOf(requests, start, key, policy);
    FindsAtMost(requests, start, f, i, key, policy, EPSILON);
    var level := CheckAt(requests, start, i, key, policy);
    MoreSlack(EPSILON, Admissions(requests, i, key) - Admissions(requests, f, key));
  }

  /** Exactly when a check is admitted, for every policy with an interval below 2^52 ms and any clock: every
      stretch of checks that ends with it, since its bucket started, has room for it. */
  lemma AdmittedIffRoom(requests: seq<Request>, start: nat, i: nat, key: string, policy: Policy)
    requires StartsAt(requests, start, key, policy) && IsCheck(requests, start, i, key)
    requires policy.intervalMs < EPSILON_INTERVAL
    ensures
      AdmittedAt(requests, i)
      <==> forall f: nat :: IsCheck(requests, start, f, key) && f <= i ==>
             1.0 <= Room(requests, start, f, i, key, policy)
  {
    hide Run, Found, Rate, Blank, LastPolicy, Admissions, AdmittedAt, Answer, Room, StartsAt, Tracks;
    PolicyOf(requests, start, key, policy);
    if AdmittedAt(requests, i) {
      forall f: nat | IsCheck(requests, start, f, key) && f <= i
        ensures 1.0 <= Room(requests, start, f, i, key, policy)
      {
        FindsAtMost(requests, start, f, i, key, policy, 0.0);
        var level := CheckAt(requests, start, i, key, policy);
        AdmittedFoundOne(requests, start, i, key, policy, 0.0);
      }
    } else {
      DeniedOnlyWithoutRoom(requests, start, i, key, policy);
    }
  }

  /** How many checks of this key there are among the requests from `start` to before `n`. */
  function Checks(requests: seq<Request>, start: nat, n: nat, key: string): nat
    requires start <= n <= |requests|
    decreases n
  {
    if n == start then 0
    else Checks(requests, start, n - 1, key) + if requests[n - 1].key == key then 1 else 0
  }

  lemma {:induction false} AdmissionsAreChecks(requests: seq<Request>, start: nat, f: nat, n: nat, key: string)
    requires start <= f <= n <= |requests|
    ensures Admissions(requests, n, key) - Admissions(requests, f, key)
         <= Checks(requests, start, n, key) - Checks(requests, start, f, key)
    decreases n
  {
    hide AdmittedAt;
    if f < n {
      AdmissionsAreChecks(requests, start, f, n - 1, key);
    }
  }

  lemma {:induction false} LatestGrows(requests: seq<Request>, start: nat, m: nat, n: nat, key: string)
    requires start <= m <= n <= |requests| && Latest(requests, start, m, key).Some?
    ensures Latest(requests, start, n, key).Some?
    ensures Latest(requests, start, m, key).value <= Latest(requests, start, n, key).value
    decreases n
  {
    if m < n {
      LatestGrows(requests, start, m, n - 1, key);
    }
  }

  /** Refill only adds room. */
  lemma RoomForUncounted(requests: seq<Request>, start: nat, f: nat, i: nat, key: string, policy: Policy)
    requires policy.TokenBucket? && ValidPolicy(policy)
    requires IsCheck(requests, start, f, key) && IsCheck(requests, start, i, key) && f <= i
    ensures Room(requests, start, f, i, key, policy) >= (policy.burst - Checks(requests, start, i, key)) as real
  {
    hide Run, Rate, Admissions, AdmittedAt, Answer, Checks, Latest;
    AdmissionsAreChecks(requests, start, f, i, key);
    LatestAfterCheck(requests, start, f, key);
    LatestAfterCheck(requests, start, i, key);
    LatestGrows(requests, start, f + 1, i + 1, key);
    RatePositive(policy);
    var advance := Latest(requests, start, i + 1, key).value - Latest(requests, start, f + 1, key).value;
    NonNegativeProduct(Rate(policy), advance as real);
  }

  /** The first checks up to the burst are all admitted, whatever their clocks say. */
  lemma BurstIsAdmitted(requests: seq<Request>, start: nat, i: nat, key: string, policy: Policy)
    requires StartsAt(requests, start, key, policy) && IsCheck(requests, start, i, key)
    requires Checks(requests, start, i, key) < policy.burst
    ensures AdmittedAt(requests, i)
  {
    hide Run, Rate, Blank, LastPolicy, Admissions, AdmittedAt, Answer, Checks, StartsAt, Latest, Room;
    PolicyOf(requests, start, key, policy);
    if !AdmittedAt(requests, i) {
      DeniedOnlyWithoutRoom(requests, start, i, key, policy);
      var f: nat :| && IsCheck(requests, start, f, key) && f <= i
                    && Room(requests, start, f, i, key, policy) + EPSILON < 1.0;
      RoomForUncounted(requests, start, f, i, key, policy);
    }
  }

  ghost predicate OneClock(requests: seq<Request>, start: nat, n: nat, key: string, now: int) {
    forall i :: start <= i < n <= |requests| && requests[i].key == key ==> requests[i].now == now
  }

  /** What is left after some checks at one clock value: the burst less one token for each. */
  lemma {:induction false} LeftAtOneClock(
    requests: seq<Request>, start: nat, n: nat, key: string, policy: Policy, now: int)
    requires StartsAt(requests, start, key, policy) && start <= n <= |requests|
    requires OneClock(requests, start, n, key, now)
    ensures Tracks(requests, start, n, key, policy)
    ensures if Checks(requests, start, n, key) == 0 then Latest(requests, start, n, key).None?
            else && Latest(requests, start, n, key) == Some(now)
                 && Lookup(Run(requests[..n]), key).value.tokens
                    == Max(0, policy.burst - Checks(requests, start, n, key)) as real
    decreases n
  {
    hide Run, LevelAt, Rate, Blank, LastPolicy, Admissions, AdmittedAt, Answer;
    TracksRun(requests, start, n, key, policy);
    if n > start {
      LeftAtOneClock(requests, start, n - 1, key, policy, now);
      if requests[n - 1].key == key {
        var level := CheckAt(requests, start, n - 1, key, policy);
        if Latest(requests, start, n - 1, key).Some? {
          LevelNow(policy, Lookup(Run(requests[..n - 1]), key).value.tokens, now);
        }
      } else {
        OtherKeysLeaveIt(requests, n - 1, key);
      }
    }
  }

  /** At one clock value exactly the first `burst` checks are admitted, each with one token less to go. */
  lemma BurstAtOneClock(requests: seq<Request>, start: nat, i: nat, key: string, policy: Policy)
    requires StartsAt(requests, start, key, policy) && IsCheck(requests, start, i, key)
    requires OneClock(requests, start, i + 1, key, requests[i].now)
    ensures
      var before := Checks(requests, start, i, key);
      && (AdmittedAt(requests, i) <==> before < policy.burst)
      && Answer(requests, i).Ok?
      && Answer(requests, i).value.remaining == Max(0, policy.burst - before - 1)
  {
    hide Run, LevelAt, Rate, Blank, LastPolicy, Admissions, AdmittedAt, Answer;
    LeftAtOneClock(requests, start, i, key, policy, requests[i].now);
    var level := CheckAt(requests, start, i, key, policy);
    if Latest(requests, start, i, key).Some? {
      LevelNow(policy, Lookup(Run(requests[..i]), key).value.tokens, requests[i].now);
    }
    LeftAtOneClock(requests, start, i + 1, key, policy, requests[i].now);
  }
}
