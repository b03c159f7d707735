// The in-place depth-first freeze. The frozen bit of an object is both the
// result and the visited mark, which is what makes the walk end on cycles and
// what decides how far it gets.
module DeepFreeze {

  datatype Value = Primitive | Ref(obj: Obj)

  /** `children` are the values that `Object.values` lists: freezing never changes them. */
  class Obj {
    var frozen: bool
    var children: seq<Value>

    constructor (children: seq<Value>)
      ensures !frozen && this.children == children
    {
      this.frozen, this.children := false, children;
    }
  }

  /** A part of memory that no reference leaves. */
  ghost predicate ClosedHeap(heap: set<Obj>)
    reads heap`children
  {
    forall o <- heap, v <- o.children :: Within(v, heap)
  }

  predicate Within(v: Value, heap: set<Obj>) {
    v.Ref? ==> v.obj in heap
  }

  ghost function FrozenIn(heap: set<Obj>): set<Obj>
    reads heap`frozen
  {
    set o <- heap | o.frozen
  }

  /** A path from one object to another along references, through objects outside `barrier` only. */
  ghost predicate Path(older p: seq<Obj>, source: Obj, sink: Obj, heap: set<Obj>, barrier: set<Obj>)
    reads heap`children
  {
    && |p| > 0
    && p[0] == source
    && p[|p| - 1] == sink
    && (forall i :: 0 <= i < |p| ==> p[i] in heap && p[i] !in barrier)
    && (forall i :: 0 <= i < |p| - 1 ==> Ref(p[i + 1]) in p[i].children)
  }

  ghost predicate Reaches(v: Value, sink: Obj, heap: set<Obj>, barrier: set<Obj>)
    reads heap`children
  {
    v.Ref? && exists p :: Path(p, v.obj, sink, heap, barrier)
  }

  /** Everything the walk leaves frozen beyond what was frozen already has only frozen children. */
  ghost predicate Finished(heap: set<Obj>, before: set<Obj>, after: set<Obj>)
    reads heap`children
  {
    forall o <- heap, v <- o.children :: o in after && o !in before && v.Ref? ==> v.obj in after
  }

  /** The walk cannot skip an object on an open path: its predecessor is newly frozen, so its children are too. */
  lemma {:induction false} FinishedCovers(
    p: seq<Obj>, source: Obj, sink: Obj, heap: set<Obj>, before: set<Obj>, after: set<Obj>)
    requires Finished(heap, before, after) && source in after
    requires Path(p, source, sink, heap, before)
    ensures sink in after
  {
    if |p| > 1 {
      var q := p[..|p| - 1];
      assert Path(q, source, q[|q| - 1], heap, before);
      FinishedCovers(q, source, q[|q| - 1], heap, before, after);
      assert Ref(sink) in p[|p| - 2].children;
    }
  }

  /** Fewer barriers, more paths; and a path can be prolonged at the front. */
  lemma PathFromChild(o: Obj, v: Value, sink: Obj, heap: set<Obj>, barrier: set<Obj>, more: set<Obj>)
    requires o in heap && o !in barrier && v in o.children && barrier <= more
    requires Reaches(v, sink, heap, more)
    ensures Reaches(Ref(o), sink, heap, barrier)
  {
    var p :| Path(p, v.obj, sink, heap, more);
    assert Path([o] + p, o, sink, heap, barrier);
  }

  /** Returns its argument. What ends up frozen is what was frozen before, and what the argument reaches
      through objects that were not frozen: no more, no less. */
  method DeepFreeze(value: Value, ghost heap: set<Obj>) returns (r: Value)
    requires ClosedHeap(heap) && Within(value, heap)
    modifies heap`frozen
    ensures r == value
    ensures forall o <- heap ::
              o.frozen <==> o in old(FrozenIn(heap)) || Reaches(value, o, heap, old(FrozenIn(heap)))
    ensures value.Ref? ==> value.obj.frozen
    ensures Finished(heap, old(FrozenIn(heap)), FrozenIn(heap))
    decreases heap - FrozenIn(heap)
  {
    r := value;
    if value.Primitive? || value.obj.frozen {
      return;
    }
    ghost var before := FrozenIn(heap);
    var node := value.obj;
    node.frozen := true;
    assert Path([node], node, node, heap, before);
    var i := 0;
    while i < |node.children|
      invariant 0 <= i <= |node.children|
      invariant node.frozen && before <= FrozenIn(heap)
      invariant forall o <- FrozenIn(heap) :: o in before || Reaches(value, o, heap, before)
      invariant forall v <- node.children[..i] :: v.Ref? ==> v.obj.frozen
      invariant Finished(heap, before + {node}, FrozenIn(heap))
    {
      ghost var now := FrozenIn(heap);
      var child := DeepFreeze(node.children[i], heap);
      forall o <- FrozenIn(heap) ensures o in before || Reaches(value, o, heap, before) {
        if o !in now {
          PathFromChild(node, node.children[i], o, heap, before, now);
        }
      }
      i := i + 1;
    }
    assert node.children[..i] == node.children;
    assert Finished(heap, before, FrozenIn(heap)) by {
      forall o <- heap, v <- o.children | o.frozen && o !in before && v.Ref? ensures v.obj in FrozenIn(heap) {
        assert o == node || o !in before + {node};
        assert Within(v, heap);
      }
    }
    forall o <- heap | Reaches(value, o, heap, before) ensures o.frozen {
      var p :| Path(p, node, o, heap, before);
      FinishedCovers(p, node, o, heap, before, FrozenIn(heap));
    }
  }

  // ------------------------------------------------- What "deep" amounts to

  ghost predicate ClosedUnderChildren(objects: set<Obj>)
    reads objects`children
  {
    forall o <- objects, v <- o.children :: v.Ref? ==> v.obj in objects
  }

  lemma {:induction false} PathStaysInside(p: seq<Obj>, source: Obj, sink: Obj, heap: set<Obj>, objects: set<Obj>)
    requires ClosedUnderChildren(objects) && source in objects && Path(p, source, sink, heap, {})
    ensures sink in objects
  {
    if |p| > 1 {
      var q := p[..|p| - 1];
      assert Path(q, source, q[|q| - 1], heap, {});
      PathStaysInside(q, source, q[|q| - 1], heap, objects);
      assert Ref(sink) in p[|p| - 2].children;
    }
  }

  /** If what is frozen is closed under children, as it is when only this walk ever freezes, the walk adds
      exactly what is reachable: barriers make no difference. */
  lemma ClosedBarrierHidesNothing(v: Value, o: Obj, heap: set<Obj>, frozen: set<Obj>)
    requires ClosedUnderChildren(frozen) && frozen <= heap
    ensures o in frozen || Reaches(v, o, heap, frozen) <==> o in frozen || Reaches(v, o, heap, {})
  {
    if Reaches(v, o, heap, frozen) {
      var p :| Path(p, v.obj, o, heap, frozen);
      assert Path(p, v.obj, o, heap, {});
    }
    if Reaches(v, o, heap, {}) && o !in frozen {
      var p :| Path(p, v.obj, o, heap, {});
      forall i | 0 <= i < |p| ensures p[i] !in frozen {
        if p[i] in frozen {
          assert Path(p[i..], p[i], o, heap, {});
          PathStaysInside(p[i..], p[i], o, heap, frozen);
        }
      }
      assert Path(p, v.obj, o, heap, frozen);
    }
  }

  /** No frozen object on the way hides a child the walk would need to visit. */
  ghost predicate NothingHidden(v: Value, heap: set<Obj>, frozen: set<Obj>)
    reads heap`children
  {
    forall f <- heap, c <- f.children ::
      f in frozen && Reaches(v, f, heap, {}) && c.Ref? ==> c.obj in frozen || Reaches(v, c.obj, heap, frozen)
  }

  lemma {:induction false} PathIsCovered(p: seq<Obj>, v: Value, o: Obj, heap: set<Obj>, frozen: set<Obj>)
    requires v.Ref? && ClosedHeap(heap) && NothingHidden(v, heap, frozen) && Path(p, v.obj, o, heap, {})
    ensures o in frozen || Reaches(v, o, heap, frozen)
  {
    var last := |p| - 1;
    if last == 0 {
      assert o in frozen || Path([o], o, o, heap, frozen);
    } else {
      var q := p[..last];
      var previous := p[last - 1];
      assert Path(q, v.obj, previous, heap, {});
      assert Ref(o) in previous.children;
      PathIsCovered(q, v, previous, heap, frozen);
      if previous !in frozen && o !in frozen {
        var open :| Path(open, v.obj, previous, heap, frozen);
        assert Path(open + [o], v.obj, o, heap, frozen);
      }
    }
  }

  /** The walk freezes everything reachable exactly when no object frozen beforehand has a child, neither frozen
      itself nor reachable some other way, that the early return at frozen objects leaves out. */
  lemma FreezesEverythingIff(v: Value, heap: set<Obj>, frozen: set<Obj>)
    requires ClosedHeap(heap) && Within(v, heap)
    ensures (forall o <- heap :: Reaches(v, o, heap, {}) ==> o in frozen || Reaches(v, o, heap, frozen))
       <==> NothingHidden(v, heap, frozen)
  {
    if NothingHidden(v, heap, frozen) {
      forall o <- heap | Reaches(v, o, heap, {}) ensures o in frozen || Reaches(v, o, heap, frozen) {
        var p :| Path(p, v.obj, o, heap, {});
        PathIsCovered(p, v, o, heap, frozen);
      }
    }
    if forall o <- heap :: Reaches(v, o, heap, {}) ==> o in frozen || Reaches(v, o, heap, frozen) {
      forall f <- heap, c <- f.children | f in frozen && Reaches(v, f, heap, {}) && c.Ref?
        ensures c.obj in frozen || Reaches(v, c.obj, heap, frozen)
      {
        var p :| Path(p, v.obj, f, heap, {});
        assert Within(c, heap);
        assert Path(p + [c.obj], v.obj, c.obj, heap, {});
      }
    }
  }

  /** A frozen shell around a child that is not frozen: the walk stops at the shell. */
  method ShallowFrozenShell() returns (inner: Obj, shell: Obj)
    ensures fresh(inner) && fresh(shell) && shell.children == [Ref(inner)]
    ensures shell.frozen && !inner.frozen
  {
    inner := new Obj([]);
    shell := new Obj([Ref(inner)]);
    shell.frozen := true;
    var r := DeepFreeze(Ref(shell), {inner, shell});
    assert !Reaches(Ref(shell), inner, {inner, shell}, {shell});
  }

  /** Two objects that hold each other are both frozen, and the walk ends. */
  method FreezesCycle() returns (a: Obj, b: Obj)
    ensures fresh(a) && fresh(b) && Ref(b) in a.children && Ref(a) in b.children
    ensures a.frozen && b.frozen
  {
    a := new Obj([]);
    b := new Obj([Ref(a)]);
    a.children := [Ref(b)];
    var r := DeepFreeze(Ref(a), {a, b});
    assert Ref(b) in a.children;
  }
}
