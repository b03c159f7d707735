// The conversion of a piece's result to JSON: a depth-first walk over an
// arbitrary object graph, with the set of objects on the current path as its
// only memory.
module JsonBoundary {
  import opened Wrappers

  type Id = nat

  datatype Number = Finite(value: real) | NotFinite

  /** A JavaScript value. A date carries its ISO text, or nothing when it is invalid. */
  datatype Value =
    | Undefined
    | FunctionValue
    | SymbolValue
    | Null
    | Text(text: string)
    | Bool(bool)
    | Num(number: Number)
    | BigInt(value: int)
    | DateValue(iso: Option<string>)
    | Ref(id: Id)

  /** `entries` is what `Object.entries` lists. */
  datatype Node = ArrayNode(items: seq<Value>) | RecordNode(entries: seq<(string, Value)>)

  type Heap = map<Id, Node>

  datatype Json =
    | JNull
    | JText(text: string)
    | JBool(bool)
    | JNumber(value: real)
    | JArray(items: seq<Json>)
    | JObject(members: seq<(string, Json)>)

  datatype Failure = Circular | InvalidDate

  predicate Omitted(v: Value) {
    v.Undefined? || v.FunctionValue?
  }

  function DigitText(n: nat): string {
    if n < 10 then ["0123456789"[n]] else DigitText(n / 10) + ["0123456789"[n % 10]]
  }

  function BigIntText(n: int): string {
    if n < 0 then "-" + DigitText(-n) else DigitText(n)
  }

  /** The properties of a record that JSON can carry, in order. */
  function Kept(entries: seq<(string, Value)>): (kept: seq<(string, Value)>)
    ensures forall e <- kept :: e in entries && !Omitted(e.1)
    ensures forall e <- entries :: Omitted(e.1) || e in kept
  {
    if entries == [] then []
    else
      var last := entries[|entries| - 1];
      Kept(entries[..|entries| - 1]) + if Omitted(last.1) then [] else [last]
  }

  /** The values the walk goes on to. */
  function Children(node: Node): seq<Value> {
    match node
    case ArrayNode(items) => items
    case RecordNode(entries) => seq(|Kept(entries)|, i requires 0 <= i < |Kept(entries)| => Kept(entries)[i].1)
  }

  ghost predicate ClosedHeap(heap: Heap) {
    forall id <- heap, v <- Children(heap[id]) :: v.Ref? ==> v.id in heap
  }

  // ----------------------------------------------------- What the result is

  /** `j` is the finite unfolding of `v`. */
  ghost predicate Unfolds(heap: Heap, v: Value, j: Json)
    decreases j
  {
    match v
    case Undefined => j == JNull
    case FunctionValue => j == JNull
    case SymbolValue => j == JNull
    case Null => j == JNull
    case Text(text) => j == JText(text)
    case Bool(b) => j == JBool(b)
    case Num(number) => j == if number.Finite? then JNumber(number.value) else JNull
    case BigInt(n) => j == JText(BigIntText(n))
    case DateValue(iso) => iso.Some? && j == JText(iso.value)
    case Ref(id) => id in heap && UnfoldsNode(heap, heap[id], j)
  }

  ghost predicate UnfoldsNode(heap: Heap, node: Node, j: Json)
    decreases j, 0
  {
    match node
    case ArrayNode(items) =>
      && j.JArray?
      && |j.items| == |items|
      && forall i :: 0 <= i < |items| ==> Unfolds(heap, items[i], j.items[i])
    case RecordNode(entries) =>
      && j.JObject?
      && |j.members| == |Kept(entries)|
      && forall i :: 0 <= i < |j.members| ==>
           && j.members[i].0 == Kept(entries)[i].0
           && Unfolds(heap, Kept(entries)[i].1, j.members[i].1)
  }

  /** The children of a node have the parts of its unfolding as theirs. */
  function Parts(j: Json): seq<Json> {
    match j
    case JArray(items) => items
    case JObject(members) => seq(|members|, i requires 0 <= i < |members| => members[i].1)
    case _ => []
  }

  lemma ChildrenUnfold(heap: Heap, node: Node, j: Json)
    requires UnfoldsNode(heap, node, j)
    ensures |Parts(j)| == |Children(node)|
    ensures forall i :: 0 <= i < |Parts(j)| ==> Unfolds(heap, Children(node)[i], Parts(j)[i])
  {
  }

  /** There is at most one. */
  lemma {:induction false} UnfoldingIsUnique(heap: Heap, v: Value, j: Json, k: Json)
    requires Unfolds(heap, v, j) && Unfolds(heap, v, k)
    ensures j == k
    decreases j
  {
    if v.Ref? {
      match heap[v.id]
      case ArrayNode(items) =>
        forall i | 0 <= i < |items| ensures j.items[i] == k.items[i] {
          UnfoldingIsUnique(heap, items[i], j.items[i], k.items[i]);
        }
      case RecordNode(entries) =>
        forall i | 0 <= i < |j.members| ensures j.members[i] == k.members[i] {
          UnfoldingIsUnique(heap, Kept(entries)[i].1, j.members[i].1, k.members[i].1);
        }
    }
  }

  lemma PartIsSmaller(j: Json, i: nat)
    requires i < |Parts(j)|
    ensures Parts(j)[i] < j
  {
    match j
    case JArray(items) => assert items[i] < j;
    case JObject(members) => assert members[i].1 < members[i] < j;
    case _ =>
  }

  // ------------------------------------------------------------------ Paths

  ghost predicate Path(heap: Heap, p: seq<Id>) {
    && |p| > 0
    && (forall i :: 0 <= i < |p| ==> p[i] in heap)
    && (forall i :: 0 <= i < |p| - 1 ==> Ref(p[i + 1]) in Children(heap[p[i]]))
  }

  ghost predicate PathFrom(heap: Heap, id: Id, p: seq<Id>) {
    Path(heap, p) && p[0] == id
  }

  /** The path ends where it has already been, or in `seen`. */
  predicate ComesBack(p: seq<Id>, seen: set<Id>) {
    |p| > 0 && var last := |p| - 1; p[last] in seen || exists i :: 0 <= i < last && p[i] == p[last]
  }

  /** An array or record is reachable from itself, or from itself through `seen`. */
  ghost predicate Cyclic(heap: Heap, v: Value, seen: set<Id>) {
    v.Ref? && exists p :: PathFrom(heap, v.id, p) && ComesBack(p, seen)
  }

  predicate IsInvalidDate(v: Value) {
    v.DateValue? && v.iso.None?
  }

  ghost predicate HoldsInvalidDate(heap: Heap, id: Id)
    requires id in heap
  {
    exists v <- Children(heap[id]) :: IsInvalidDate(v)
  }

  ghost predicate ReachesInvalidDate(heap: Heap, v: Value) {
    || IsInvalidDate(v)
    || (v.Ref? && exists p :: PathFrom(heap, v.id, p) && HoldsInvalidDate(heap, p[|p| - 1]))
  }

  /** Following a path down an unfolding ends at the unfolding of its last node, inside the first. */
  lemma {:induction false} Descend(heap: Heap, p: seq<Id>, j: Json) returns (k: Json)
    requires Path(heap, p) && Unfolds(heap, Ref(p[0]), j)
    ensures Unfolds(heap, Ref(p[|p| - 1]), k)
    ensures if |p| == 1 then k == j else k < j
    decreases |p|
  {
    if |p| == 1 {
      k := j;
    } else {
      ChildrenUnfold(heap, heap[p[0]], j);
      var i :| 0 <= i < |Children(heap[p[0]])| && Children(heap[p[0]])[i] == Ref(p[1]);
      PartIsSmaller(j, i);
      k := Descend(heap, p[1..], Parts(j)[i]);
    }
  }

  /** A node cannot unfold to a proper part of itself. */
  lemma PathDoesNotReturn(heap: Heap, p: seq<Id>, j: Json)
    requires Path(heap, p) && Unfolds(heap, Ref(p[0]), j)
    ensures forall i :: 0 <= i < |p| - 1 ==> p[i] != p[|p| - 1]
  {
    hide Children, Unfolds;
    forall i | 0 <= i < |p| - 1 ensures p[i] != p[|p| - 1] {
      var outer := Descend(heap, p[..i + 1], j);
      var inner := Descend(heap, p[i..], outer);
      if p[i] == p[|p| - 1] {
        UnfoldingIsUnique(heap, Ref(p[i]), outer, inner);
      }
    }
  }

  /** What has a finite unfolding has no reachable cycle. */
  lemma UnfoldingHasNoCycle(heap: Heap, v: Value, j: Json)
    requires Unfolds(heap, v, j)
    ensures !Cyclic(heap, v, {})
  {
    hide Path, Unfolds;
    if v.Ref? {
      forall p | PathFrom(heap, v.id, p) ensures !ComesBack(p, {}) {
        PathDoesNotReturn(heap, p, j);
      }
    }
  }

  lemma UnfoldedNodeHasNoInvalidDate(heap: Heap, id: Id, j: Json)
    requires Unfolds(heap, Ref(id), j)
    ensures !HoldsInvalidDate(heap, id)
  {
    hide Children;
    ChildrenUnfold(heap, heap[id], j);
    forall v <- Children(heap[id]) ensures !IsInvalidDate(v) {
      var i :| 0 <= i < |Children(heap[id])| && Children(heap[id])[i] == v;
      assert Unfolds(heap, v, Parts(j)[i]);
    }
  }

  lemma UnfoldingHasNoInvalidDate(heap: Heap, v: Value, j: Json)
    requires Unfolds(heap, v, j)
    ensures !ReachesInvalidDate(heap, v)
  {
    hide UnfoldsNode, HoldsInvalidDate;
    if v.Ref? {
      forall p | PathFrom(heap, v.id, p) ensures !HoldsInvalidDate(heap, p[|p| - 1]) {
        var k := Descend(heap, p, j);
        UnfoldedNodeHasNoInvalidDate(heap, p[|p| - 1], k);
      }
    }
  }

  lemma CycleThroughChild(heap: Heap, id: Id, v: Value, seen: set<Id>)
    requires id in heap && v in Children(heap[id]) && Cyclic(heap, v, seen + {id})
    ensures Cyclic(heap, Ref(id), seen)
  {
    hide Children;
    var p :| PathFrom(heap, v.id, p) && ComesBack(p, seen + {id});
    var q := [id] + p;
    assert PathFrom(heap, id, q);
    var last := |p| - 1;
    if p[last] !in seen {
      if p[last] == id {
        assert q[0] == q[|q| - 1];
      } else {
        var i :| 0 <= i < last && p[i] == p[last];
        assert q[i + 1] == q[|q| - 1];
      }
    }
    assert ComesBack(q, seen);
  }

  lemma InvalidDateThroughChild(heap: Heap, id: Id, v: Value)
    requires id in heap && v in Children(heap[id]) && ReachesInvalidDate(heap, v)
    ensures ReachesInvalidDate(heap, Ref(id))
  {
    hide Children;
    if IsInvalidDate(v) {
      assert PathFrom(heap, id, [id]) && HoldsInvalidDate(heap, [id][0]);
    } else {
      var p :| PathFrom(heap, v.id, p) && HoldsInvalidDate(heap, p[|p| - 1]);
      var q := [id] + p;
      assert PathFrom(heap, id, q) && q[|q| - 1] == p[|p| - 1];
    }
  }

  // --------------------------------------------------------------- The walk

  /** The `Set` that one conversion shares among its calls. */
  class PathSet {
    var ids: set<Id>

    constructor ()
      ensures ids == {}
    {
      ids := {};
    }
  }

  /** What one call promises: the unfolding with `seen` as it was, or the reason that there is none. */
  ghost predicate Converts(heap: Heap, v: Value, before: set<Id>, after: set<Id>, r: Result<Json, Failure>) {
    match r
    case Ok(j) => Unfolds(heap, v, j) && after == before
    case Err(Circular) => Cyclic(heap, v, before)
    case Err(InvalidDate) => ReachesInvalidDate(heap, v)
  }

  method ToJsonValue(heap: Heap, v: Value, seen: PathSet) returns (r: Result<Json, Failure>)
    requires ClosedHeap(heap) && (v.Ref? ==> v.id in heap)
    modifies seen
    ensures Converts(heap, v, old(seen.ids), seen.ids, r)
    decreases heap.Keys - seen.ids, 1
  {
    match v
    case Undefined => r := Ok(JNull);
    case FunctionValue => r := Ok(JNull);
    case SymbolValue => r := Ok(JNull);
    case Null => r := Ok(JNull);
    case Text(text) => r := Ok(JText(text));
    case Bool(b) => r := Ok(JBool(b));
    case Num(number) => r := Ok(if number.Finite? then JNumber(number.value) else JNull);
    case BigInt(n) => r := Ok(JText(BigIntText(n)));
    case DateValue(iso) => r := if iso.Some? then Ok(JText(iso.value)) else Err(InvalidDate);
    case Ref(id) =>
      if id in seen.ids {
        assert PathFrom(heap, id, [id]) && ComesBack([id], seen.ids);
        return Err(Circular);
      }
      ghost var before := seen.ids;
      seen.ids := seen.ids + {id};
      match heap[id] {
        case ArrayNode(items) => r := ConvertItems(heap, id, items, seen);
        case RecordNode(entries) => r := ConvertEntries(heap, id, entries, seen);
      }
      seen.ids := if r.Ok? then seen.ids - {id} else seen.ids;
      assert r.Ok? ==> seen.ids == before;
  }

  /** What the loops over a node's children promise while the node is on the path. */
  ghost predicate ConvertsNode(heap: Heap, id: Id, before: set<Id>, after: set<Id>, r: Result<Json, Failure>)
    requires id in heap
  {
    match r
    case Ok(j) => UnfoldsNode(heap, heap[id], j) && after == before
    case Err(Circular) => Cyclic(heap, Ref(id), before - {id})
    case Err(InvalidDate) => ReachesInvalidDate(heap, Ref(id))
  }

  method ConvertItems(heap: Heap, id: Id, items: seq<Value>, seen: PathSet) returns (r: Result<Json, Failure>)
    requires ClosedHeap(heap) && id in heap && heap[id] == ArrayNode(items) && id in seen.ids
    modifies seen
    ensures ConvertsNode(heap, id, old(seen.ids), seen.ids, r)
    decreases heap.Keys - seen.ids, 2
  {
    ghost var onPath := seen.ids;
    var result: seq<Json> := [];
    for i := 0 to |items|
      invariant seen.ids == onPath && |result| == i
      invariant forall k :: 0 <= k < i ==> Unfolds(heap, items[k], result[k])
    {
      var item := ToJsonValue(heap, items[i], seen);
      if item.Err? {
        ChildFails(heap, id, items[i], onPath, item.error);
        return item;
      }
      result := result + [item.value];
    }
    r := Ok(JArray(result));
  }

  lemma ChildFails(heap: Heap, id: Id, v: Value, onPath: set<Id>, failure: Failure)
    requires id in heap && v in Children(heap[id]) && id in onPath
    requires Converts(heap, v, onPath, onPath, Err(failure))
    ensures ConvertsNode(heap, id, onPath, onPath, Err(failure))
  {
    if failure.Circular? {
      assert onPath - {id} + {id} == onPath;
      CycleThroughChild(heap, id, v, onPath - {id});
    } else {
      InvalidDateThroughChild(heap, id, v);
    }
  }

  method ConvertEntries(heap: Heap, id: Id, entries: seq<(string, Value)>, seen: PathSet)
    returns (r: Result<Json, Failure>)
    requires ClosedHeap(heap) && id in heap && heap[id] == RecordNode(entries) && id in seen.ids
    modifies seen
    ensures ConvertsNode(heap, id, old(seen.ids), seen.ids, r)
    decreases heap.Keys - seen.ids, 2
  {
    ghost var onPath := seen.ids;
    var result: seq<(string, Json)> := [];
    for i := 0 to |entries|
      invariant seen.ids == onPath && |result| == |Kept(entries[..i])|
      invariant forall k :: 0 <= k < |result| ==>
                  && result[k].0 == Kept(entries[..i])[k].0
                  && Unfolds(heap, Kept(entries[..i])[k].1, result[k].1)
    {
      assert entries[..i + 1][..i] == entries[..i];
      var (name, value) := entries[i];
      if !Omitted(value) {
        KeptChild(entries, i);
        var item := ToJsonValue(heap, value, seen);
        if item.Err? {
          ChildFails(heap, id, value, onPath, item.error);
          return item;
        }
        result := result + [(name, item.value)];
      }
    }
    assert entries[..|entries|] == entries;
    r := Ok(JObject(result));
  }

  lemma KeptChild(entries: seq<(string, Value)>, i: nat)
    requires i < |entries| && !Omitted(entries[i].1)
    ensures entries[i].1 in Children(RecordNode(entries))
  {
    assert entries[i] in Kept(entries);
    var k :| 0 <= k < |Kept(entries)| && Kept(entries)[k] == entries[i];
    assert Children(RecordNode(entries))[k] == entries[i].1;
  }

  // ------------------------------------------------------------ The boundary

  /** The whole conversion is exact: it succeeds just when neither a cycle nor an invalid date is reachable,
      the result is then the one finite unfolding, and a circularity error is never a false alarm. */
  method ToJson(heap: Heap, v: Value) returns (r: Result<Json, Failure>)
    requires ClosedHeap(heap) && (v.Ref? ==> v.id in heap)
    ensures r.Ok? <==> !Cyclic(heap, v, {}) && !ReachesInvalidDate(heap, v)
    ensures r.Ok? ==> forall j :: Unfolds(heap, v, j) <==> j == r.value
    ensures r == Err(Circular) ==> Cyclic(heap, v, {})
    ensures r == Err(InvalidDate) ==> ReachesInvalidDate(heap, v)
  {
    var seen := new PathSet();
    r := ToJsonValue(heap, v, seen);
    if r.Ok? {
      UnfoldingHasNoCycle(heap, v, r.value);
      UnfoldingHasNoInvalidDate(heap, v, r.value);
      forall j | Unfolds(heap, v, j) ensures j == r.value {
        UnfoldingIsUnique(heap, v, j, r.value);
      }
    }
  }

  /** The value of a property; a record has at most one entry with a name. */
  function Property(entries: seq<(string, Value)>, name: string): (v: Option<Value>)
    ensures v.Some? ==> (name, v.value) in entries
    ensures v.None? ==> forall e <- entries :: e.0 != name
  {
    if entries == [] then None
    else if entries[0].0 == name then Some(entries[0].1)
    else Property(entries[1..], name)
  }

  /** An HTTP response with a numeric status stands for its data, else its body; anything else for itself. */
  function Payload(heap: Heap, v: Value): (payload: Value)
    requires ClosedHeap(heap) && (v.Ref? ==> v.id in heap)
    ensures payload.Ref? ==> payload.id in heap
  {
    if v.Ref? && heap[v.id].RecordNode? then
      var entries := heap[v.id].entries;
      var status := Property(entries, "status");
      var data, body := Property(entries, "data"), Property(entries, "body");
      if status.Some? && status.value.Num? && data.Some? then Member(heap, v.id, "data", data.value)
      else if status.Some? && status.value.Num? && body.Some? then Member(heap, v.id, "body", body.value)
      else v
    else v
  }

  /** The entry at this position is the property of this name. */
  ghost predicate IsProperty(entries: seq<(string, Value)>, name: string, i: nat) {
    i < |entries| && entries[i].0 == name && forall j :: 0 <= j < i ==> entries[j].0 != name
  }

  lemma {:induction false} PropertyIsFirst(entries: seq<(string, Value)>, name: string, i: nat)
    requires IsProperty(entries, name, i)
    ensures Property(entries, name) == Some(entries[i].1)
  {
    if i > 0 {
      PropertyIsFirst(entries[1..], name, i - 1);
    }
  }

  /** Which value an output stands for: a record with a numeric `status` stands for its `data` if it has one, else
      for its `body` if it has one; and it stands for itself if its status is missing or not a number, or if it
      has neither. */
  lemma ResponseStandsFor(heap: Heap, v: Value, status: nat, content: nat)
    requires ClosedHeap(heap) && v.Ref? && v.id in heap && heap[v.id].RecordNode?
    ensures
      var entries := heap[v.id].entries;
      && (IsProperty(entries, "status", status) && entries[status].1.Num? && IsProperty(entries, "data", content) ==>
            Payload(heap, v) == entries[content].1)
      && (IsProperty(entries, "status", status) && entries[status].1.Num? && IsProperty(entries, "body", content)
          && (forall e <- entries :: e.0 != "data") ==>
            Payload(heap, v) == entries[content].1)
      && (IsProperty(entries, "status", status) && !entries[status].1.Num? ==> Payload(heap, v) == v)
      && ((forall e <- entries :: e.0 != "status") ==> Payload(heap, v) == v)
      && ((forall e <- entries :: e.0 != "data" && e.0 != "body") ==> Payload(heap, v) == v)
  {
    var entries := heap[v.id].entries;
    if IsProperty(entries, "status", status) {
      PropertyIsFirst(entries, "status", status);
    }
    if IsProperty(entries, "data", content) {
      PropertyIsFirst(entries, "data", content);
    }
    if IsProperty(entries, "body", content) {
      PropertyIsFirst(entries, "body", content);
    }
    hide Property, IsProperty, ClosedHeap;
  }

  function Member(heap: Heap, id: Id, name: string, v: Value): (member: Value)
    requires ClosedHeap(heap) && id in heap && heap[id].RecordNode? && (name, v) in heap[id].entries
    ensures member == v && (v.Ref? ==> v.id in heap)
  {
    assert v.Ref? ==> v.id in heap by {
      if v.Ref? {
        var i :| 0 <= i < |heap[id].entries| && heap[id].entries[i] == (name, v);
        KeptChild(heap[id].entries, i);
      }
    }
    v
  }

  method NormalizePieceOutput(heap: Heap, v: Value) returns (r: Result<Json, Failure>)
    requires ClosedHeap(heap) && (v.Ref? ==> v.id in heap)
    ensures var payload := Payload(heap, v);
            && (r.Ok? <==> !Cyclic(heap, payload, {}) && !ReachesInvalidDate(heap, payload))
            && (r.Ok? ==> forall j :: Unfolds(heap, payload, j) <==> j == r.value)
            && (r == Err(Circular) ==> Cyclic(heap, payload, {}))
            && (r == Err(InvalidDate) ==> ReachesInvalidDate(heap, payload))
  {
    hide Unfolds, Cyclic, ReachesInvalidDate, ClosedHeap;
    if v.Ref? && heap[v.id].RecordNode? {
      var entries := heap[v.id].entries;
      var status := Property(entries, "status");
      var data, body := Property(entries, "data"), Property(entries, "body");
      if status.Some? && status.value.Num? && data.Some? {
        var payload := Member(heap, v.id, "data", data.value);
        r := ToJson(heap, payload);
        return;
      }
      if status.Some? && status.value.Num? && body.Some? {
        var payload := Member(heap, v.id, "body", body.value);
        r := ToJson(heap, payload);
        return;
      }
    }
    r := ToJson(heap, v);
  }
}
