// The recovery scan: the rows whose work is incomplete, paged by ascending
// sequence number while other workers keep writing.
module RecoveryScan {
  import opened Wrappers
  import opened JavaScript
  import opened ExecutionRecords
  import opened ExecutionStore
  import opened StoreRuns
  import opened CursorWalks

  datatype RecoveryPage = RecoveryPage(candidates: seq<ExecutionKey>, nextCursor: Option<nat>)

  predicate Incomplete(row: StoredExecution) {
    || !row.record.Terminal()
    || (row.webhookEventId.Some? && row.webhookPublishedAt.None?)
    || ( && row.resumeContext.Some?
         && (row.resumeContext.value.usageReport.Some? || row.resumeContext.value.usageReservation.Some?)
         && row.usageFinalizedAt.None?)
  }

  predicate Candidate(s: Store, cursor: Option<nat>, key: ExecutionKey) {
    && key in s.executions
    && (cursor.None? || s.executions[key].sequence > cursor.value)
    && Incomplete(s.executions[key])
  }

  function Select(s: Store, cursor: Option<nat>, keys: seq<ExecutionKey>): seq<ExecutionKey> {
    if keys == [] then []
    else
      var rest := Select(s, cursor, keys[1..]);
      if Candidate(s, cursor, keys[0]) then [keys[0]] + rest else rest
  }

  /** The outer map iterates over the projects in the order in which they were first written. */
  function Projects(order: seq<ExecutionKey>): seq<string> {
    if order == [] then []
    else
      var earlier := Projects(order[..|order| - 1]);
      var p := order[|order| - 1].projectId;
      if p in earlier then earlier else earlier + [p]
  }

  function OfProject(order: seq<ExecutionKey>, projectId: string): seq<ExecutionKey> {
    if order == [] then []
    else
      var rest := OfProject(order[1..], projectId);
      if order[0].projectId == projectId then [order[0]] + rest else rest
  }

  function FlatMap(order: seq<ExecutionKey>, projects: seq<string>): seq<ExecutionKey> {
    if projects == [] then [] else OfProject(order, projects[0]) + FlatMap(order, projects[1..])
  }

  function SequenceOf(s: Store, key: ExecutionKey): nat {
    if key in s.executions then s.executions[key].sequence else 0
  }

  function InsertBySequence(s: Store, key: ExecutionKey, sorted: seq<ExecutionKey>): seq<ExecutionKey> {
    if sorted == [] || SequenceOf(s, key) < SequenceOf(s, sorted[0]) then [key] + sorted
    else [sorted[0]] + InsertBySequence(s, key, sorted[1..])
  }

  function SortBySequence(s: Store, keys: seq<ExecutionKey>): seq<ExecutionKey> {
    if keys == [] then [] else InsertBySequence(s, keys[0], SortBySequence(s, keys[1..]))
  }

  function Slice(s: Store, sorted: seq<ExecutionKey>, limit: nat): RecoveryPage
    requires limit >= 1
  {
    var page := sorted[..Min(limit, |sorted|)];
    RecoveryPage(page, if |page| == limit then Some(SequenceOf(s, page[|page| - 1])) else None)
  }

  /** Flatten project by project, filter, sort, slice: the source's four steps. */
  function ListRecoveryCandidates(s: Store, cursor: Option<nat>, limit: int): Result<RecoveryPage, StoreError> {
    if limit < 1 then Err(InvalidLimit)
    else
      var sorted := SortBySequence(s, Select(s, cursor, FlatMap(s.order, Projects(s.order))));
      Ok(Slice(s, sorted, limit))
  }

  // ------------------------------------------- The page against its meaning

  ghost predicate Ascending(s: Store, keys: seq<ExecutionKey>) {
    forall i, j :: 0 <= i < j < |keys| ==> SequenceOf(s, keys[i]) < SequenceOf(s, keys[j])
  }

  lemma {:induction false} SelectMembers(s: Store, cursor: Option<nat>, keys: seq<ExecutionKey>)
    ensures forall k :: k in Select(s, cursor, keys) <==> k in keys && Candidate(s, cursor, k)
    ensures NoDuplicates(keys) ==> NoDuplicates(Select(s, cursor, keys))
  {
    if keys != [] {
      SelectMembers(s, cursor, keys[1..]);
      assert keys == [keys[0]] + keys[1..];
    }
  }

  lemma {:induction false} OfProjectMembers(order: seq<ExecutionKey>, projectId: string)
    ensures forall k :: k in OfProject(order, projectId) <==> k in order && k.projectId == projectId
    ensures NoDuplicates(order) ==> NoDuplicates(OfProject(order, projectId))
  {
    if order != [] {
      OfProjectMembers(order[1..], projectId);
      assert order == [order[0]] + order[1..];
    }
  }

  lemma {:induction false} ProjectsMembers(order: seq<ExecutionKey>)
    ensures forall k <- order :: k.projectId in Projects(order)
    ensures forall i, j :: 0 <= i < j < |Projects(order)| ==> Projects(order)[i] != Projects(order)[j]
  {
    if order != [] {
      ProjectsMembers(order[..|order| - 1]);
      assert order == order[..|order| - 1] + [order[|order| - 1]];
    }
  }

  lemma {:induction false} FlatMapMembers(order: seq<ExecutionKey>, projects: seq<string>)
    requires NoDuplicates(order)
    requires forall i, j :: 0 <= i < j < |projects| ==> projects[i] != projects[j]
    ensures forall k :: k in FlatMap(order, projects) <==> k in order && k.projectId in projects
    ensures NoDuplicates(FlatMap(order, projects))
  {
    if projects != [] {
      OfProjectMembers(order, projects[0]);
      FlatMapMembers(order, projects[1..]);
      assert projects == [projects[0]] + projects[1..];
      var a, b := OfProject(order, projects[0]), FlatMap(order, projects[1..]);
      forall i, j | 0 <= i < j < |a + b| ensures (a + b)[i] != (a + b)[j] {
        if i < |a| <= j {
          assert a[i] in a && b[j - |a|] in b;
        }
      }
    }
  }

  lemma {:induction false} InsertSorted(s: Store, key: ExecutionKey, sorted: seq<ExecutionKey>)
    requires Ascending(s, sorted)
    requires forall k <- sorted :: SequenceOf(s, k) != SequenceOf(s, key)
    ensures Ascending(s, InsertBySequence(s, key, sorted))
    ensures forall k :: k in InsertBySequence(s, key, sorted) <==> k == key || k in sorted
  {
    if sorted != [] && SequenceOf(s, key) >= SequenceOf(s, sorted[0]) {
      InsertSorted(s, key, sorted[1..]);
      assert sorted == [sorted[0]] + sorted[1..];
      var rest := InsertBySequence(s, key, sorted[1..]);
      forall j | 0 <= j < |rest| ensures SequenceOf(s, sorted[0]) < SequenceOf(s, rest[j]) {
        assert rest[j] in rest;
        if rest[j] != key {
          var i :| 0 <= i < |sorted[1..]| && sorted[1..][i] == rest[j];
          assert rest[j] == sorted[i + 1];
        } else {
          assert sorted[0] in sorted;
        }
      }
    }
  }

  lemma {:induction false} SortSorted(s: Store, keys: seq<ExecutionKey>)
    requires NoDuplicates(keys) && forall k <- keys, l <- keys :: SequenceOf(s, k) == SequenceOf(s, l) ==> k == l
    ensures Ascending(s, SortBySequence(s, keys))
    ensures forall k :: k in SortBySequence(s, keys) <==> k in keys
  {
    if keys != [] {
      assert keys == [keys[0]] + keys[1..];
      SortSorted(s, keys[1..]);
      InsertSorted(s, keys[0], SortBySequence(s, keys[1..]));
    }
  }

  /** What one unsliced scan is: exactly the candidates, in strictly ascending sequence. */
  ghost predicate IsScan(s: Store, cursor: Option<nat>, keys: seq<ExecutionKey>) {
    && Ascending(s, keys)
    && (forall k :: k in keys <==> Candidate(s, cursor, k))
  }

  lemma SortedSelectionIsScan(s: Store, cursor: Option<nat>)
    requires RowsValid(s)
    ensures IsScan(s, cursor, SortBySequence(s, Select(s, cursor, FlatMap(s.order, Projects(s.order)))))
  {
    OrderHasNoDuplicates(s);
    ProjectsMembers(s.order);
    FlatMapMembers(s.order, Projects(s.order));
    var flat := FlatMap(s.order, Projects(s.order));
    SelectMembers(s, cursor, flat);
    var selected := Select(s, cursor, flat);
    forall k <- selected, l <- selected | SequenceOf(s, k) == SequenceOf(s, l) ensures k == l {
      assert RowValid(s, k) && RowValid(s, l);
    }
    SortSorted(s, selected);
  }

  // --------------------------------------------------------------- The walk

  /** The rows that a scan visits when its k-th page is read from stores[k], and whether it finished. */
  function Scan(stores: seq<Store>, cursor: Option<nat>, limit: int): Result<(seq<ExecutionKey>, bool), StoreError>
    decreases |stores|
  {
    if stores == [] then Ok(([], false))
    else
      match ListRecoveryCandidates(stores[0], cursor, limit)
      case Err(error) => Err(error)
      case Ok(page) =>
        if page.nextCursor.None? then Ok((page.candidates, true))
        else
          match Scan(stores[1..], page.nextCursor, limit)
          case Err(error) => Err(error)
          case Ok(rest) => Ok((page.candidates + rest.0, rest.1))
  }

  ghost predicate IncompleteThroughout(stores: seq<Store>, key: ExecutionKey) {
    forall s <- stores :: key in s.executions && Incomplete(s.executions[key])
  }

  function Floor(cursor: Option<nat>): nat { cursor.GetOr(0) }

  /** What a caller learns from one page: its rows are the lowest candidates above the cursor, and either they
      are all of them or the page is full and the next cursor lies `limit` further on. */
  ghost predicate IsPage(s: Store, cursor: Option<nat>, limit: int, page: RecoveryPage) {
    && Ascending(s, page.candidates)
    && (forall k <- page.candidates :: Candidate(s, cursor, k) && SequenceOf(s, k) > Floor(cursor))
    && (page.nextCursor.Some? ==>
          && Floor(cursor) + limit <= page.nextCursor.value <= s.sequence
          && (forall k <- page.candidates :: SequenceOf(s, k) <= page.nextCursor.value))
    && (forall k :: Candidate(s, cursor, k) && k !in page.candidates ==>
          page.nextCursor.Some? && SequenceOf(s, k) > page.nextCursor.value)
  }

  lemma BeyondPage(s: Store, sorted: seq<ExecutionKey>, n: nat, k: ExecutionKey)
    requires Ascending(s, sorted) && n <= |sorted| && k in sorted && k !in sorted[..n]
    ensures n < |sorted| && forall i :: 0 <= i < n ==> SequenceOf(s, sorted[i]) < SequenceOf(s, k)
  {
    BeyondPrefix(sorted, n, k);
    var i :| 0 <= i < |sorted[n..]| && sorted[n..][i] == k;
    assert sorted[n + i] == k;
  }

  lemma WithinPage(s: Store, cursor: Option<nat>, sorted: seq<ExecutionKey>, n: nat, k: ExecutionKey)
    requires Ascending(s, sorted) && n <= |sorted| && k in sorted[..n]
    requires forall i :: 0 <= i < |sorted| ==> Floor(cursor) < SequenceOf(s, sorted[i])
    ensures k in sorted && Floor(cursor) < SequenceOf(s, k) <= SequenceOf(s, sorted[n - 1])
  {
    var i :| 0 <= i < n && sorted[..n][i] == k;
    assert sorted[i] == k;
  }

  lemma PrefixIsPage(s: Store, cursor: Option<nat>, limit: nat, sorted: seq<ExecutionKey>)
    requires limit >= 1 && IsScan(s, cursor, sorted)
    requires forall i :: 0 <= i < |sorted| ==> Floor(cursor) < SequenceOf(s, sorted[i]) <= s.sequence
    ensures IsPage(s, cursor, limit, Slice(s, sorted, limit))
  {
    var n := Min(limit, |sorted|);
    var page := sorted[..n];
    assert Ascending(s, page);
    if n == limit {
      AscendingGrows(s, page, Floor(cursor)) by {
        forall k <- page ensures SequenceOf(s, k) > Floor(cursor) {
          WithinPage(s, cursor, sorted, n, k);
        }
      }
      assert page[n - 1] == sorted[n - 1];
    }
    hide Candidate, SequenceOf, Ascending, Floor;
    forall k | k in page
      ensures Candidate(s, cursor, k) && SequenceOf(s, k) > Floor(cursor)
      ensures SequenceOf(s, k) <= SequenceOf(s, sorted[n - 1])
    {
      WithinPage(s, cursor, sorted, n, k);
    }
    forall k | Candidate(s, cursor, k) && k !in page
      ensures n == limit && SequenceOf(s, k) > SequenceOf(s, sorted[n - 1])
    {
      BeyondPage(s, sorted, n, k);
    }
  }

  lemma BeyondPrefix<T>(keys: seq<T>, n: nat, k: T)
    requires n <= |keys| && k in keys && k !in keys[..n]
    ensures k in keys[n..]
  {
    assert keys == keys[..n] + keys[n..];
  }

  lemma PageFacts(s: Store, cursor: Option<nat>, limit: int)
    requires RowsValid(s) && limit >= 1
    ensures ListRecoveryCandidates(s, cursor, limit).Ok?
    ensures IsPage(s, cursor, limit, ListRecoveryCandidates(s, cursor, limit).value)
  {
    SortedSelectionIsScan(s, cursor);
    var sorted := SortBySequence(s, Select(s, cursor, FlatMap(s.order, Projects(s.order))));
    hide SortBySequence, Select, FlatMap, Projects, Incomplete, IsPage;
    forall i | 0 <= i < |sorted| ensures Floor(cursor) < SequenceOf(s, sorted[i]) <= s.sequence {
      assert Candidate(s, cursor, sorted[i]) && RowValid(s, sorted[i]);
    }
    PrefixIsPage(s, cursor, limit, sorted);
  }

  lemma {:induction false} AscendingGrows(s: Store, keys: seq<ExecutionKey>, floor: nat)
    requires Ascending(s, keys) && keys != []
    requires forall k <- keys :: SequenceOf(s, k) > floor
    ensures SequenceOf(s, keys[|keys| - 1]) >= floor + |keys|
  {
    if |keys| > 1 {
      AscendingGrows(s, keys[..|keys| - 1], floor);
      assert keys[|keys| - 2] == keys[..|keys| - 1][|keys| - 2];
    } else {
      assert keys[0] in keys;
    }
  }

  /** Sequence numbers never change, so they can be read in any later store. */
  lemma SequenceIsStable(s: Store, t: Store, key: ExecutionKey)
    requires Extends(s, t) && key in s.executions
    ensures key in t.executions && SequenceOf(t, key) == SequenceOf(s, key)
  {
    assert RowExtends(s.executions[key], t.executions[key]);
  }

  ghost predicate VisitsInOrder(last: Store, keys: seq<ExecutionKey>, floor: nat) {
    && (forall k <- keys :: k in last.executions && SequenceOf(last, k) > floor)
    && Ascending(last, keys)
  }

  lemma {:induction false} LastExtends(stores: seq<Store>)
    requires Evolves(stores) && stores != []
    ensures Extends(stores[0], stores[|stores| - 1])
    decreases |stores|
  {
    hide Valid;
    if |stores| > 1 {
      EvolvesExtends(stores);
      LastExtends(stores[1..]);
      ExtendsTransitive(stores[0], stores[1], stores[|stores| - 1]);
    } else {
      ExtendsItself(stores[0]);
    }
  }

  lemma VisitsConcat(last: Store, a: seq<ExecutionKey>, b: seq<ExecutionKey>, floor: nat, middle: nat)
    requires VisitsInOrder(last, a, floor) && VisitsInOrder(last, b, middle) && floor <= middle
    requires forall k <- a :: SequenceOf(last, k) <= middle
    ensures VisitsInOrder(last, a + b, floor)
  {
    forall i, j | 0 <= i < j < |a + b| ensures SequenceOf(last, (a + b)[i]) < SequenceOf(last, (a + b)[j]) {
      if i < |a| <= j {
        assert a[i] in a && b[j - |a|] in b;
      }
    }
  }

  /** A recovery scan with any writes between its pages visits rows in strictly ascending sequence, so none
      twice; when it ends it has visited every row that was stored and incomplete throughout. */
  lemma {:induction false} ScanVisitsIncomplete(stores: seq<Store>, cursor: Option<nat>, limit: int)
    requires Evolves(stores) && stores != [] && limit >= 1
    ensures
      var scan := Scan(stores, cursor, limit);
      && scan.Ok?
      && VisitsInOrder(stores[|stores| - 1], scan.value.0, Floor(cursor))
      && (scan.value.1 ==>
            forall k :: IncompleteThroughout(stores, k) && SequenceOf(stores[0], k) > Floor(cursor) ==>
              k in scan.value.0)
    decreases |stores|
  {
    hide RowsValid, IndexValid, WaitersValid, Extends, ListRecoveryCandidates, Incomplete;
    assert stores[0] in stores;
    PageFacts(stores[0], cursor, limit);
    var page := ListRecoveryCandidates(stores[0], cursor, limit).value;
    var last := stores[|stores| - 1];
    LastExtends(stores);
    forall k <- page.candidates
      ensures k in last.executions && SequenceOf(last, k) == SequenceOf(stores[0], k)
    {
      SequenceIsStable(stores[0], last, k);
    }
    assert VisitsInOrder(last, page.candidates, Floor(cursor));
    if page.nextCursor.Some? && |stores| > 1 {
      EvolvesExtends(stores);
      ScanVisitsIncomplete(stores[1..], page.nextCursor, limit);
      var rest := Scan(stores[1..], page.nextCursor, limit).value;
      VisitsConcat(last, page.candidates, rest.0, Floor(cursor), page.nextCursor.value);
      forall k | rest.1 && IncompleteThroughout(stores, k) && SequenceOf(stores[0], k) > Floor(cursor)
        ensures k in page.candidates + rest.0
      {
        if k !in page.candidates {
          SequenceIsStable(stores[0], stores[1], k);
          assert Candidate(stores[0], cursor, k);
          assert IncompleteThroughout(stores[1..], k);
        }
      }
    }
  }

  /** Once allocations stop at sequence number `total`, a scan ends within (total - cursor) / limit + 1 pages. */
  lemma {:induction false} ScanTerminates(stores: seq<Store>, cursor: Option<nat>, limit: int, total: nat)
    requires Evolves(stores) && limit >= 1 && Floor(cursor) <= total
    requires forall s <- stores :: s.sequence <= total
    requires |stores| > (total - Floor(cursor)) / limit
    ensures Scan(stores, cursor, limit).Ok? && Scan(stores, cursor, limit).value.1
    decreases |stores|
  {
    hide RowsValid, IndexValid, WaitersValid, Extends, ListRecoveryCandidates;
    assert stores[0] in stores;
    PageFacts(stores[0], cursor, limit);
    var page := ListRecoveryCandidates(stores[0], cursor, limit).value;
    if page.nextCursor.Some? {
      EvolvesExtends(stores);
      FewerPagesLeft(total - Floor(cursor), total - page.nextCursor.value, limit);
      ScanTerminates(stores[1..], page.nextCursor, limit, total);
    }
  }

  lemma FewerPagesLeft(before: nat, after: nat, limit: int)
    requires limit >= 1 && after <= before - limit
    ensures after / limit <= before / limit - 1
  {
    var q, r := before / limit, after / limit;
    assert (r + 1) * limit <= before < (q + 1) * limit;
    assert (q - r) * limit > 0;
  }
}
