// The promise-chain lock around the process-global fetch. A call runs in three
// atomic segments: it links itself behind the latest call, it enters once the
// call before it has released, and it leaves. Any segment of any call that is
// ready may run next.
module ScopedFetch {
  import opened Wrappers

  /** A function value that can be installed as the global fetch. */
  type Fetch = nat

  /** Inside, a call remembers what it found in the global. Finished tells how its operation settled. */
  datatype Phase = Waiting | Inside(original: Fetch) | Finished(succeeded: bool)

  /** `previous` is the promise the call awaits: none for the initially resolved one, else that of a call. */
  datatype Call = Call(routed: Fetch, previous: Option<nat>, phase: Phase)

  /** Call i owns promise i, which is resolved when the call has finished. `entered` logs the entries. */
  datatype Boundary = Boundary(tail: Option<nat>, fetch: Fetch, calls: seq<Call>, entered: seq<nat>)

  function Start(fetch: Fetch): Boundary {
    Boundary(None, fetch, [], [])
  }

  predicate Resolved(b: Boundary, promise: Option<nat>) {
    promise.None? || (promise.value < |b.calls| && b.calls[promise.value].phase.Finished?)
  }

  predicate CanEnter(b: Boundary, i: nat) {
    i < |b.calls| && b.calls[i].phase.Waiting? && Resolved(b, b.calls[i].previous)
  }

  predicate CanLeave(b: Boundary, i: nat) {
    i < |b.calls| && b.calls[i].phase.Inside?
  }

  function Link(b: Boundary, routed: Fetch): Boundary {
    b.(tail := Some(|b.calls|), calls := b.calls + [Call(routed, b.tail, Waiting)])
  }

  function Enter(b: Boundary, i: nat): Boundary
    requires CanEnter(b, i)
  {
    b.(fetch := b.calls[i].routed,
       calls := b.calls[i := b.calls[i].(phase := Inside(b.fetch))],
       entered := b.entered + [i])
  }

  function Leave(b: Boundary, i: nat, succeeded: bool): Boundary
    requires CanLeave(b, i)
  {
    b.(fetch := b.calls[i].phase.original,
       calls := b.calls[i := b.calls[i].(phase := Finished(succeeded))])
  }

  datatype Step = DoLink(routed: Fetch) | DoEnter(call: nat) | DoLeave(call: nat, succeeded: bool)

  /** A segment that is not ready does not run. */
  function Next(b: Boundary, step: Step): Boundary {
    match step
    case DoLink(routed) => Link(b, routed)
    case DoEnter(i) => if CanEnter(b, i) then Enter(b, i) else b
    case DoLeave(i, succeeded) => if CanLeave(b, i) then Leave(b, i, succeeded) else b
  }

  function Run(b: Boundary, steps: seq<Step>): Boundary
    decreases |steps|
  {
    if steps == [] then b else Run(Next(b, steps[0]), steps[1..])
  }

  // -------------------------------------------------------------- Invariant

  /** The calls up to `head` have finished, the one at `head` waits or is inside, the rest wait. */
  ghost predicate Shape(b: Boundary, original: Fetch, head: nat) {
    && head <= |b.calls|
    && (forall i :: 0 <= i < |b.calls| ==>
          && b.calls[i].previous == (if i == 0 then None else Some(i - 1))
          && (i < head ==> b.calls[i].phase.Finished?)
          && (i > head ==> b.calls[i].phase.Waiting?))
    && b.tail == (if b.calls == [] then None else Some(|b.calls| - 1))
    && (if head < |b.calls| && !b.calls[head].phase.Waiting?
        then b.calls[head].phase == Inside(original) && b.fetch == b.calls[head].routed && |b.entered| == head + 1
        else b.fetch == original && |b.entered| == head)
    && (forall i :: 0 <= i < |b.entered| ==> b.entered[i] == i)
  }

  ghost predicate Valid(b: Boundary, original: Fetch) {
    exists head: nat :: Shape(b, original, head)
  }

  lemma NextKeeps(b: Boundary, original: Fetch, step: Step)
    requires Valid(b, original)
    ensures Valid(Next(b, step), original)
  {
    var head: nat :| Shape(b, original, head);
    var next := Next(b, step);
    match step
    case DoLink(routed) => assert Shape(next, original, head);
    case DoEnter(i) => assert Shape(next, original, head);
    case DoLeave(i, succeeded) =>
      if CanLeave(b, i) {
        assert Shape(next, original, head + 1);
      }
  }

  lemma {:induction false} RunKeeps(b: Boundary, original: Fetch, steps: seq<Step>)
    requires Valid(b, original)
    ensures Valid(Run(b, steps), original)
    decreases |steps|
  {
    hide Valid;
    if steps != [] {
      NextKeeps(b, original, steps[0]);
      RunKeeps(Next(b, steps[0]), original, steps[1..]);
    }
  }

  lemma RunFromStart(original: Fetch, steps: seq<Step>) returns (head: nat)
    ensures Shape(Run(Start(original), steps), original, head)
  {
    assert Shape(Start(original), original, 0);
    RunKeeps(Start(original), original, steps);
    head :| Shape(Run(Start(original), steps), original, head);
  }

  // --------------------------------------------------------------- Theorems

  /** In every interleaving: at most one call is inside; it sees its own routed fetch, and remembers the
      original; with nobody inside the global is the original. */
  lemma LockIsExclusiveAndRestores(original: Fetch, steps: seq<Step>)
    ensures
      var b := Run(Start(original), steps);
      && (forall i: nat, j: nat :: CanLeave(b, i) && CanLeave(b, j) ==> i == j)
      && (forall i: nat :: CanLeave(b, i) ==> b.fetch == b.calls[i].routed && b.calls[i].phase.original == original)
      && ((forall i: nat :: !CanLeave(b, i)) ==> b.fetch == original)
  {
    var head := RunFromStart(original, steps);
    var b := Run(Start(original), steps);
    assert CanLeave(b, head) || b.fetch == original;
  }

  /** First called, first entered: the k-th entry is that of the k-th call, and nobody enters twice. */
  lemma EntryInCallOrder(original: Fetch, steps: seq<Step>)
    ensures var b := Run(Start(original), steps);
            |b.entered| <= |b.calls| && forall k :: 0 <= k < |b.entered| ==> b.entered[k] == k
  {
    var head := RunFromStart(original, steps);
  }

  predicate Unfinished(b: Boundary, i: nat) {
    i < |b.calls| && !b.calls[i].phase.Finished?
  }

  /** No deadlock and no choice: the only call that can move is the oldest unfinished one, and it always can. */
  lemma OldestUnfinishedMoves(original: Fetch, steps: seq<Step>, i: nat)
    ensures
      var b := Run(Start(original), steps);
      CanEnter(b, i) || CanLeave(b, i) <==> Unfinished(b, i) && forall j: nat :: j < i ==> !Unfinished(b, j)
  {
    var head := RunFromStart(original, steps);
    var b := Run(Start(original), steps);
    assert head < |b.calls| ==> Unfinished(b, head);
    if i < |b.calls| && i > 0 {
      assert b.calls[i].previous == Some(i - 1);
    }
  }

  /** How many segments the unfinished calls still have to run. */
  function Remaining(calls: seq<Call>): nat {
    if calls == [] then 0
    else
      Remaining(calls[..|calls| - 1]) +
      match calls[|calls| - 1].phase { case Waiting => 2 case Inside(_) => 1 case Finished(_) => 0 }
  }

  lemma {:induction false} RemainingAfterMove(calls: seq<Call>, i: nat, call: Call)
    requires i < |calls|
    requires (calls[i].phase.Waiting? && call.phase.Inside?) || (calls[i].phase.Inside? && call.phase.Finished?)
    ensures Remaining(calls[i := call]) == Remaining(calls) - 1
  {
    var last := |calls| - 1;
    var moved := calls[i := call];
    if i < last {
      assert moved[..last] == calls[..last][i := call];
      RemainingAfterMove(calls[..last], i, call);
    } else {
      assert moved[..last] == calls[..last];
    }
  }

  /** Every call gets through: some schedule of enters and leaves alone finishes all of them, and each of its
      segments brings the end one closer, whichever way the operations settle. */
  lemma {:induction false} EverybodyGetsThrough(b: Boundary, original: Fetch) returns (steps: seq<Step>)
    requires Valid(b, original)
    ensures |steps| == Remaining(b.calls)
    ensures forall s <- steps :: !s.DoLink?
    ensures var end := Run(b, steps);
            |end.calls| == |b.calls| && end.fetch == original && forall call <- end.calls :: call.phase.Finished?
    decreases Remaining(b.calls)
  {
    var head: nat :| Shape(b, original, head);
    if head == |b.calls| {
      NothingRemains(b.calls);
      steps := [];
    } else {
      assert head > 0 ==> b.calls[head].previous == Some(head - 1);
      var step := if CanEnter(b, head) then DoEnter(head) else DoLeave(head, true);
      NextKeeps(b, original, step);
      RemainingAfterMove(b.calls, head, Next(b, step).calls[head]);
      var rest := EverybodyGetsThrough(Next(b, step), original);
      steps := [step] + rest;
      assert steps[1..] == rest;
    }
  }

  lemma {:induction false} NothingRemains(calls: seq<Call>)
    requires forall call <- calls :: call.phase.Finished?
    ensures Remaining(calls) == 0
  {
    if calls != [] {
      NothingRemains(calls[..|calls| - 1]);
    }
  }

  // -------------------------------------------------------------- The object

  /** The two process globals, and the calls whose segments touch them. */
  class GlobalFetch {
    var globalFetchTail: Option<nat>
    var fetch: Fetch
    var calls: seq<Call>
    ghost var entered: seq<nat>
    ghost const original: Fetch

    ghost function State(): Boundary
      reads this
    {
      Boundary(globalFetchTail, fetch, calls, entered)
    }

    ghost predicate Consistent()
      reads this
    {
      Valid(State(), original)
    }

    constructor (fetch: Fetch)
      ensures Consistent() && State() == Start(fetch) && original == fetch
    {
      this.globalFetchTail, this.fetch, this.calls, this.entered, this.original := None, fetch, [], [], fetch;
      new;
      assert Shape(State(), original, 0);
    }

    /** Up to `await previous`. */
    method WithScopedGlobalFetch(routed: Fetch) returns (i: nat)
      requires Consistent()
      modifies this
      ensures Consistent() && State() == Link(old(State()), routed) && i == |old(calls)|
    {
      NextKeeps(State(), original, DoLink(routed));
      i := |calls|;
      var previous := globalFetchTail;
      globalFetchTail := Some(i);
      calls := calls + [Call(routed, previous, Waiting)];
    }

    /** From `await previous` up to the operation. */
    method EnterBoundary(i: nat)
      requires Consistent() && CanEnter(State(), i)
      modifies this
      ensures Consistent() && State() == Enter(old(State()), i)
    {
      NextKeeps(State(), original, DoEnter(i));
      var originalFetch := fetch;
      fetch := calls[i].routed;
      calls := calls[i := calls[i].(phase := Inside(originalFetch))];
      entered := entered + [i];
    }

    /** The `finally` block, run whether the operation returned or threw. */
    method LeaveBoundary(i: nat, succeeded: bool)
      requires Consistent() && CanLeave(State(), i)
      modifies this
      ensures Consistent() && State() == Leave(old(State()), i, succeeded)
    {
      NextKeeps(State(), original, DoLeave(i, succeeded));
      fetch := calls[i].phase.original;
      calls := calls[i := calls[i].(phase := Finished(succeeded))];
    }
  }
}
