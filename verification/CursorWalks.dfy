// Paged reads of the execution store that interleave with writes: the public
// execution list (newest first, cursor = last ID) and the recovery scan
// (ascending sequence numbers, cursor = last sequence number).
module CursorWalks {
  import opened Wrappers
  import opened JavaScript
  import opened ExecutionRecords
  import opened ExecutionStore
  import opened StoreRuns

  // ------------------------------------------------------------------ Pages

  datatype Cursor = After(executionId: string) | Malformed

  datatype Filter = Filter(status: Option<Status>, tool: Option<string>, userId: Option<string>) {
    predicate Accepts(record: ExecutionRecord) {
      && (status.None? || record.StatusOf() == status.value)
      && (tool.None? || record.identity.tool == tool.value)
      && (userId.None? || record.identity.userId == userId.value)
    }
  }

  datatype ExecutionPage = ExecutionPage(executions: seq<ExecutionRecord>, nextCursor: Option<Cursor>)

  predicate Matches(s: Store, projectId: string, filter: Filter, key: ExecutionKey) {
    key.projectId == projectId && key in s.executions && filter.Accepts(s.executions[key].Public())
  }

  /** The matching keys among `keys`, newest first. */
  function NewestFirst(s: Store, projectId: string, filter: Filter, keys: seq<ExecutionKey>): seq<ExecutionKey> {
    if keys == [] then []
    else
      var older := NewestFirst(s, projectId, filter, keys[..|keys| - 1]);
      var newest := keys[|keys| - 1];
      if Matches(s, projectId, filter, newest) then [newest] + older else older
  }

  function FindIndex(keys: seq<ExecutionKey>, executionId: string): (r: Option<nat>)
    ensures r.Some? ==> r.value < |keys| && keys[r.value].executionId == executionId
    ensures r.Some? ==> forall i :: 0 <= i < r.value ==> keys[i].executionId != executionId
    ensures r.None? ==> forall i :: 0 <= i < |keys| ==> keys[i].executionId != executionId
  {
    if keys == [] then None
    else if keys[0].executionId == executionId then Some(0)
    else
      var rest := FindIndex(keys[1..], executionId);
      if rest.None? then None
      else
        assert forall i :: 1 <= i < |keys| ==> keys[i] == keys[1..][i - 1];
        Some(rest.value + 1)
  }

  function Records(s: Store, keys: seq<ExecutionKey>): seq<ExecutionRecord>
    requires forall k <- keys :: k in s.executions
  {
    seq(|keys|, i requires 0 <= i < |keys| => s.executions[keys[i]].Public())
  }

  lemma NewestFirstMatches(s: Store, projectId: string, filter: Filter, keys: seq<ExecutionKey>)
    ensures forall k <- NewestFirst(s, projectId, filter, keys) ::
              k in keys && Matches(s, projectId, filter, k) && k in s.executions
  {
  }

  /** The source's `all.slice(offset, offset + limit)` and the cursor after it. */
  function PageAt(s: Store, all: seq<ExecutionKey>, offset: nat, limit: nat): ExecutionPage
    requires offset <= |all| && forall k <- all :: k in s.executions
  {
    var end := Min(offset + limit, |all|);
    var page := all[offset..end];
    assert forall k <- page :: k in all;
    ExecutionPage(
      Records(s, page),
      if end < |all| && page != [] then Some(After(page[|page| - 1].executionId)) else None)
  }

  function List(s: Store, projectId: string, filter: Filter, cursor: Option<Cursor>, limit: nat)
    : Result<ExecutionPage, StoreError>
  {
    var all := NewestFirst(s, projectId, filter, s.order);
    var offset: Option<nat> :=
      match cursor
      case None => Some(0)
      case Some(Malformed) => None
      case Some(After(executionId)) =>
        var index := FindIndex(all, executionId);
        if executionId == "" || index.None? then None else Some(index.value + 1);
    NewestFirstMatches(s, projectId, filter, s.order);
    if offset.None? then Err(InvalidCursor) else Ok(PageAt(s, all, offset.value, limit))
  }

  ghost predicate LaterState(s: Store, t: Store) {
    exists writes :: t == Run(s, writes)
  }

  /** The stores that successive pages of one walk see: any number of writes happens between two pages. */
  ghost predicate Evolves(stores: seq<Store>) {
    && (forall s <- stores :: Valid(s))
    && forall i :: 0 <= i < |stores| - 1 ==> LaterState(stores[i], stores[i + 1])
  }

  lemma LaterStateExtends(s: Store, t: Store)
    requires Valid(s) && LaterState(s, t)
    ensures Extends(s, t)
  {
    hide RowsValid, IndexValid, WaitersValid, Extends;
    var writes :| t == Run(s, writes);
    RunKeeps(s, writes);
  }

  lemma EvolvesExtends(stores: seq<Store>)
    requires Evolves(stores) && |stores| >= 1
    ensures Evolves(stores[1..]) && (|stores| >= 2 ==> Extends(stores[0], stores[1]))
  {
    hide Valid, LaterState, Extends;
    if |stores| >= 2 {
      LaterStateExtends(stores[0], stores[1]);
    }
  }

  // -------------------------------------------------------- The public walk

  /** The IDs that a walk returns when its k-th page is read from stores[k], and whether it finished. */
  function Walk(stores: seq<Store>, projectId: string, filter: Filter, cursor: Option<Cursor>, limit: nat)
    : Result<(seq<string>, bool), StoreError>
    decreases |stores|
  {
    if stores == [] then Ok(([], false))
    else
      match List(stores[0], projectId, filter, cursor, limit)
      case Err(error) => Err(error)
      case Ok(page) =>
        var ids := Ids(page.executions);
        if page.nextCursor.None? then Ok((ids, true))
        else
          match Walk(stores[1..], projectId, filter, page.nextCursor, limit)
          case Err(error) => Err(error)
          case Ok(rest) => Ok((ids + rest.0, rest.1))
  }

  function Ids(records: seq<ExecutionRecord>): seq<string> {
    seq(|records|, i requires 0 <= i < |records| => records[i].identity.executionId)
  }

  function KeyIds(keys: seq<ExecutionKey>): seq<string> {
    seq(|keys|, i requires 0 <= i < |keys| => keys[i].executionId)
  }

  /** Tool and user are identity fields, so a write never changes whether a stored row matches them. */
  lemma {:induction false} MatchesAreStable(
    s: Store, t: Store, projectId: string, filter: Filter, keys: seq<ExecutionKey>)
    requires Extends(s, t) && filter.status.None?
    requires forall k <- keys :: k in s.executions
    ensures NewestFirst(t, projectId, filter, keys) == NewestFirst(s, projectId, filter, keys)
  {
    if keys != [] {
      var newest := keys[|keys| - 1];
      assert RowExtends(s.executions[newest], t.executions[newest]);
      MatchesAreStable(s, t, projectId, filter, keys[..|keys| - 1]);
    }
  }

  lemma {:induction false} NewestFirstConcat(
    s: Store, projectId: string, filter: Filter, a: seq<ExecutionKey>, b: seq<ExecutionKey>)
    ensures NewestFirst(s, projectId, filter, a + b)
         == NewestFirst(s, projectId, filter, b) + NewestFirst(s, projectId, filter, a)
  {
    if b == [] {
      assert a + b == a;
    } else {
      assert (a + b)[..|a + b| - 1] == a + b[..|b| - 1];
      NewestFirstConcat(s, projectId, filter, a, b[..|b| - 1]);
    }
  }

  ghost predicate NoDuplicates(keys: seq<ExecutionKey>) {
    forall i, j :: 0 <= i < j < |keys| ==> keys[i] != keys[j]
  }

  lemma OrderHasNoDuplicates(s: Store)
    requires RowsValid(s)
    ensures NoDuplicates(s.order) && forall k <- s.order :: k in s.executions
    ensures forall k <- s.executions :: k in s.order
  {
    forall i, j | 0 <= i < j < |s.order| ensures s.order[i] != s.order[j] {
      assert PositionValid(s, i) && PositionValid(s, j);
    }
    forall k <- s.order ensures k in s.executions {
      var i :| 0 <= i < |s.order| && s.order[i] == k;
      assert PositionValid(s, i);
    }
    forall k <- s.executions ensures k in s.order {
      assert RowValid(s, k);
    }
  }

  lemma {:induction false} NewestFirstHasNoDuplicates(
    s: Store, projectId: string, filter: Filter, keys: seq<ExecutionKey>)
    requires NoDuplicates(keys)
    ensures NoDuplicates(NewestFirst(s, projectId, filter, keys))
  {
    if keys != [] {
      NewestFirstHasNoDuplicates(s, projectId, filter, keys[..|keys| - 1]);
      NewestFirstMatches(s, projectId, filter, keys[..|keys| - 1]);
    }
  }

  /** The listing of any later store is some newer rows followed by the earlier listing. */
  lemma LaterListing(s: Store, t: Store, projectId: string, filter: Filter)
    requires RowsValid(s) && Extends(s, t) && filter.status.None?
    ensures
      var newer := NewestFirst(t, projectId, filter, t.order[|s.order|..]);
      NewestFirst(t, projectId, filter, t.order) == newer + NewestFirst(s, projectId, filter, s.order)
  {
    OrderHasNoDuplicates(s);
    hide RowsValid;
    assert t.order == s.order + t.order[|s.order|..];
    NewestFirstConcat(t, projectId, filter, s.order, t.order[|s.order|..]);
    MatchesAreStable(s, t, projectId, filter, s.order);
  }

  /** A listing names each ID once, so a cursor finds the position it was made from. */
  lemma CursorFindsPosition(t: Store, projectId: string, filter: Filter, j: nat, limit: nat)
    requires RowsValid(t) && j < |NewestFirst(t, projectId, filter, t.order)|
    requires NewestFirst(t, projectId, filter, t.order)[j].executionId != ""
    requires forall k <- NewestFirst(t, projectId, filter, t.order) :: k in t.executions
    ensures
      var all := NewestFirst(t, projectId, filter, t.order);
      List(t, projectId, filter, Some(After(all[j].executionId)), limit) == Ok(PageAt(t, all, j + 1, limit))
  {
    hide PageAt;
    var all := NewestFirst(t, projectId, filter, t.order);
    OrderHasNoDuplicates(t);
    NewestFirstHasNoDuplicates(t, projectId, filter, t.order);
    NewestFirstMatches(t, projectId, filter, t.order);
    var i := FindIndex(all, all[j].executionId);
    assert i.Some? && all[i.value] in all && all[j] in all;
  }

  lemma ShiftedSlice<T>(newer: seq<T>, all: seq<T>, p: nat, limit: nat)
    requires p <= |all|
    ensures
      var n, end := |newer|, Min(p + limit, |all|);
      && Min(n + p + limit, |newer + all|) == n + end
      && (newer + all)[n + p..n + end] == all[p..end]
      && (end > 0 ==> (newer + all)[n + end - 1] == all[end - 1])
  {
  }

  /** One page of a walk: a cursor made at position p - 1 of the first listing yields exactly the positions
      p .. p + limit of it, however many rows are newer by then. */
  lemma PageOfFirstListing(
    s: Store, t: Store, projectId: string, filter: Filter, p: nat, limit: nat)
    requires RowsValid(s) && RowsValid(t) && Extends(s, t) && filter.status.None?
    requires
      var all := NewestFirst(s, projectId, filter, s.order);
      1 <= p <= |all| && all[p - 1].executionId != ""
    ensures
      var all := NewestFirst(s, projectId, filter, s.order);
      var end := Min(p + limit, |all|);
      var page := List(t, projectId, filter, Some(After(all[p - 1].executionId)), limit);
      && page.Ok?
      && Ids(page.value.executions) == KeyIds(all[p..end])
      && page.value.nextCursor ==
         if end < |all| && p < end then Some(After(all[end - 1].executionId)) else None
  {
    hide RowsValid, PageAt, List, NewestFirst, Ids, KeyIds;
    var all := NewestFirst(s, projectId, filter, s.order);
    var later := NewestFirst(t, projectId, filter, t.order);
    LaterListing(s, t, projectId, filter);
    var newer := NewestFirst(t, projectId, filter, t.order[|s.order|..]);
    var n := |newer|;
    NewestFirstMatches(t, projectId, filter, t.order);
    assert later[n + p - 1] == all[p - 1];
    CursorFindsPosition(t, projectId, filter, n + p - 1, limit);
    assert later[n + p - 1].executionId == all[p - 1].executionId;
    PageAtIds(t, later, n + p, limit);
    ShiftedSlice(newer, all, p, limit);
  }

  lemma PageAtIds(t: Store, all: seq<ExecutionKey>, offset: nat, limit: nat)
    requires RowsValid(t) && offset <= |all| && forall k <- all :: k in t.executions
    ensures
      var end := Min(offset + limit, |all|);
      && Ids(PageAt(t, all, offset, limit).executions) == KeyIds(all[offset..end])
      && PageAt(t, all, offset, limit).nextCursor ==
         if end < |all| && offset < end then Some(After(all[end - 1].executionId)) else None
  {
    var end := Min(offset + limit, |all|);
    forall i | 0 <= i < end - offset
      ensures Ids(PageAt(t, all, offset, limit).executions)[i] == all[offset + i].executionId
    {
      assert all[offset + i] in all;
      assert RowValid(t, all[offset + i]);
    }
  }

  lemma FirstPage(s: Store, projectId: string, filter: Filter, limit: nat)
    requires RowsValid(s)
    ensures
      var all := NewestFirst(s, projectId, filter, s.order);
      var end := Min(limit, |all|);
      var page := List(s, projectId, filter, None, limit);
      && page.Ok?
      && Ids(page.value.executions) == KeyIds(all[..end])
      && page.value.nextCursor ==
         if end < |all| && 0 < end then Some(After(all[end - 1].executionId)) else None
  {
    NewestFirstMatches(s, projectId, filter, s.order);
    PageAtIds(s, NewestFirst(s, projectId, filter, s.order), 0, limit);
  }

  lemma KeyIdsSplit(keys: seq<ExecutionKey>, n: nat)
    requires n <= |keys|
    ensures KeyIds(keys) == KeyIds(keys[..n]) + KeyIds(keys[n..])
  {
  }

  lemma {:induction false} WalkFrom(
    s: Store, stores: seq<Store>, projectId: string, filter: Filter, p: nat, limit: nat)
    requires Valid(s) && Evolves(stores) && (stores != [] ==> Extends(s, stores[0]))
    requires filter.status.None? && limit >= 1
    requires forall k <- s.executions :: k.executionId != ""
    requires 1 <= p <= |NewestFirst(s, projectId, filter, s.order)|
    ensures
      var all := NewestFirst(s, projectId, filter, s.order);
      var walk := Walk(stores, projectId, filter, Some(After(all[p - 1].executionId)), limit);
      && walk.Ok?
      && walk.value.0 <= KeyIds(all[p..])
      && (walk.value.1 ==> walk.value.0 == KeyIds(all[p..]))
      && (|stores| > |all| - p ==> walk.value.1)
    decreases |stores|
  {
    hide RowsValid, IndexValid, WaitersValid, Extends, NewestFirst, List, Ids, KeyIds;
    if stores != [] {
      var all := NewestFirst(s, projectId, filter, s.order);
      NewestFirstMatches(s, projectId, filter, s.order);
      assert all[p - 1] in all && stores[0] in stores;
      PageOfFirstListing(s, stores[0], projectId, filter, p, limit);
      var end := Min(p + limit, |all|);
      KeyIdsSplit(all[p..], end - p);
      assert all[p..][..end - p] == all[p..end] && all[p..][end - p..] == all[end..];
      if end < |all| {
        EvolvesExtends(stores);
        if |stores| >= 2 {
          ExtendsTransitive(s, stores[0], stores[1]);
        }
        WalkFrom(s, stores[1..], projectId, filter, end, limit);
      } else {
        assert all[p..end] == all[p..];
      }
    }
  }

  /** A walk filtered on tool and user, with any writes between its pages, never fails, returns a prefix of
      the matches of the first page's store, newest first, and when it ends returns exactly those; it ends
      within one page more than there are matches. */
  lemma WalkIsTheFirstListing(stores: seq<Store>, projectId: string, filter: Filter, limit: nat)
    requires Evolves(stores) && stores != [] && filter.status.None? && limit >= 1
    requires forall k <- stores[0].executions :: k.executionId != ""
    ensures
      var all := NewestFirst(stores[0], projectId, filter, stores[0].order);
      var walk := Walk(stores, projectId, filter, None, limit);
      && walk.Ok?
      && walk.value.0 <= KeyIds(all)
      && (walk.value.1 ==> walk.value.0 == KeyIds(all))
      && (|stores| > |all| ==> walk.value.1)
  {
    hide RowsValid, IndexValid, WaitersValid, Extends;
    var s := stores[0];
    var all := NewestFirst(s, projectId, filter, s.order);
    assert s in stores;
    FirstPage(s, projectId, filter, limit);
    var end := Min(limit, |all|);
    assert KeyIds(all) == KeyIds(all[..end]) + KeyIds(all[end..]);
    if end < |all| {
      EvolvesExtends(stores);
      WalkFrom(s, stores[1..], projectId, filter, end, limit);
    } else {
      assert all[..end] == all && all[end..] == [];
    }
  }

  /** The listing is every matching row of the project, each once, in descending sequence. */
  lemma {:induction false} ListingIsComplete(s: Store, projectId: string, filter: Filter, n: nat)
    requires RowsValid(s) && n <= |s.order|
    ensures
      var all := NewestFirst(s, projectId, filter, s.order[..n]);
      && (forall k <- s.executions ::
            k in all <==> Matches(s, projectId, filter, k) && s.executions[k].sequence <= n)
      && (forall k <- all :: k in s.executions)
      && (forall i, j :: 0 <= i < j < |all| ==> s.executions[all[i]].sequence > s.executions[all[j]].sequence)
  {
    if n > 0 {
      ListingIsComplete(s, projectId, filter, n - 1);
      assert s.order[..n][..n - 1] == s.order[..n - 1];
      assert PositionValid(s, n - 1);
      forall k <- s.executions ensures s.executions[k].sequence == n <==> k == s.order[n - 1] {
        assert RowValid(s, k);
      }
    } else {
      forall k <- s.executions ensures s.executions[k].sequence > 0 {
        assert RowValid(s, k);
      }
    }
  }

  predicate HasStatus(phase: Phase, status: Status) {
    match status
    case Pending => phase.Pending?
    case Running => phase.Running?
    case Succeeded => phase.Succeeded?
    case Failed => phase.Failed?
    case Cancelled => phase.Cancelled?
  }

  /** A row is listed for a filter exactly when it is of the project and agrees with every field that the filter
      names. */
  lemma ListedIff(s: Store, projectId: string, filter: Filter, k: ExecutionKey)
    requires RowsValid(s) && k in s.executions
    ensures
      var record := s.executions[k].record;
      k in NewestFirst(s, projectId, filter, s.order)
      <==> && k.projectId == projectId
           && (filter.status.Some? ==> HasStatus(record.phase, filter.status.value))
           && (filter.tool.Some? ==> record.identity.tool == filter.tool.value)
           && (filter.userId.Some? ==> record.identity.userId == filter.userId.value)
  {
    hide NewestFirst, RowsValid;
    ListingIsComplete(s, projectId, filter, SizeOf(s));
    assert s.order[..SizeOf(s)] == s.order;
    SequenceInRange(s, k);
  }

  function SizeOf(s: Store): nat {
    |s.order|
  }

  lemma SequenceInRange(s: Store, k: ExecutionKey)
    requires RowsValid(s) && k in s.executions
    ensures s.executions[k].sequence <= SizeOf(s)
  {
    assert RowValid(s, k);
  }

  /** What a page shows: the stored records at its positions of the listing, and for each whether its execution was
      ever replayed; there is a cursor, to the last of them, exactly when the listing goes on. */
  lemma PageShowsRecords(s: Store, projectId: string, filter: Filter, limit: nat)
    requires Valid(s)
    ensures
      var all, r := NewestFirst(s, projectId, filter, s.order), List(s, projectId, filter, None, limit);
      && r.Ok? && |r.value.executions| == Min(limit, |all|)
      && (forall i :: 0 <= i < |r.value.executions| ==>
            && all[i] in s.executions
            && var row, shown := s.executions[all[i]], r.value.executions[i];
            && shown.identity == row.record.identity && shown.phase == row.record.phase
            && shown.startedAt == row.record.startedAt && (shown.replayed <==> row.replayObservedAt.Some?))
      && (if 0 < limit < |all| then r.value.nextCursor == Some(After(all[limit - 1].executionId))
          else r.value.nextCursor.None?)
  {
    NewestFirstMatches(s, projectId, filter, s.order);
    var all := NewestFirst(s, projectId, filter, s.order);
    forall k <- all ensures k in s.executions && !s.executions[k].record.replayed {
      assert RowValid(s, k);
    }
    hide NewestFirst, Valid;
  }
}
