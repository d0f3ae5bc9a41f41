/** The ownership discipline a client of a generated class keeps, in C++ or Swift: every live box
    of the struct is held by exactly one live object of the class, and every object's handle is
    live, so nothing is freed twice and nothing leaks. */
module Ownership {
  import opened Common
  import opened Schema
  import opened Runtime

  /** The value of a box of the struct: a record with every field, String fields holding text. */
  predicate Typed(sw: StructWrapper, v: Value)
  {
    && v.Record?
    && forall i :: 0 <= i < |sw.fields| ==>
         sw.fields[i].fieldName in v.fields && (sw.fields[i].wrapperType == String ==> v.fields[sw.fields[i].fieldName].Text?)
  }

  /** The environment's `T::default()` builds a well-typed record. */
  predicate TypedDefault(sw: StructWrapper, env: Env)
  {
    Typed(sw, env.defaultOf(sw.name))
  }

  /** The live objects of the class, by name, each with the handle it holds (`None` for a C++
      object that has been moved from), and the heap. */
  datatype World = World(heap: Heap, objects: map<nat, Option<Handle>>)

  predicate OwnedBy(w: World, o: nat, p: Handle)
  {
    o in w.objects && w.objects[o] == Some(p)
  }

  /** The handles the live objects hold. */
  function OwnedHandles(objects: map<nat, Option<Handle>>): set<Handle>
  {
    set o | o in objects && objects[o].Some? :: objects[o].value
  }

  lemma OwnerOf(w: World, p: Handle) returns (o: nat)
    requires p in OwnedHandles(w.objects)
    ensures OwnedBy(w, o, p)
  {
    o :| o in w.objects && w.objects[o].Some? && w.objects[o].value == p;
  }

  /** Every held handle is live. */
  predicate HandlesLive(objects: map<nat, Option<Handle>>, h: Heap)
  {
    forall o :: o in objects && objects[o].Some? ==> objects[o].value in h.cells
  }

  /** No two objects hold the same handle. */
  predicate HandlesDistinct(objects: map<nat, Option<Handle>>)
  {
    forall o1, o2 :: o1 in objects && o2 in objects && o1 != o2 && objects[o1].Some? ==> objects[o1] != objects[o2]
  }

  /** Every live cell is a well-typed box of the struct. */
  predicate BoxesTyped(sw: StructWrapper, h: Heap)
  {
    forall p :: p in h.cells ==> h.cells[p].Boxed? && Typed(sw, h.cells[p].value)
  }

  /** Every held handle is a live box, no two objects share one, and every live box belongs to
      an object. */
  predicate Owning(sw: StructWrapper, w: World)
  {
    && Valid(w.heap)
    && HandlesLive(w.objects, w.heap)
    && HandlesDistinct(w.objects)
    && BoxesTyped(sw, w.heap)
    && w.heap.cells.Keys <= OwnedHandles(w.objects)
  }

  /** A live object's box has every field of the struct. */
  lemma FieldPresent(sw: StructWrapper, w: World, o: nat, i: nat)
    requires Owning(sw, w) && o in w.objects && w.objects[o].Some? && i < |sw.fields|
    ensures FieldOf(w.heap, w.objects[o].value, sw.fields[i].fieldName).Some?
    ensures sw.fields[i].wrapperType == String ==> FieldOf(w.heap, w.objects[o].value, sw.fields[i].fieldName).value.Text?
  {
    assert w.objects[o].value in w.heap.cells;
  }

  /** A new object that takes a freshly allocated, well-typed box keeps ownership. */
  lemma AdoptKeepsOwning(sw: StructWrapper, w: World, o: nat, q: Handle, v: Value, h': Heap)
    requires Owning(sw, w) && o !in w.objects && q !in w.heap.cells && Typed(sw, v)
    requires Valid(h') && h'.cells == w.heap.cells[q := Boxed(v)]
    ensures Owning(sw, World(h', w.objects[o := Some(q)]))
  {
    var w' := World(h', w.objects[o := Some(q)]);
    forall p | p in h'.cells ensures p in OwnedHandles(w'.objects) {
      if p == q {
        assert OwnedBy(w', o, p);
      } else {
        var o' := OwnerOf(w, p);
        assert OwnedBy(w', o', p);
      }
    }
  }

  /** An object that goes away together with its box (if it holds one) keeps ownership. */
  lemma ReleaseKeepsOwning(sw: StructWrapper, w: World, o: nat, h': Heap)
    requires Owning(sw, w) && o in w.objects
    requires h' == if w.objects[o].Some? then Free(w.heap, w.objects[o].value) else w.heap
    ensures Owning(sw, World(h', w.objects - {o}))
  {
    var w' := World(h', w.objects - {o});
    forall p | p in h'.cells ensures p in OwnedHandles(w'.objects) {
      var o' := OwnerOf(w, p);
      assert o' != o;
      assert OwnedBy(w', o', p);
    }
  }

  /** A new object that takes over another's handle, leaving it empty, keeps ownership. */
  lemma TransferKeepsOwning(sw: StructWrapper, w: World, o: nat, src: nat)
    requires Owning(sw, w) && o !in w.objects && src in w.objects
    ensures Owning(sw, World(w.heap, w.objects[src := None][o := w.objects[src]]))
  {
    var objs := w.objects[src := None][o := w.objects[src]];
    TransferKeepsHandles(w.objects, w.heap, o, src);
    TransferKeepsCover(w.objects, w.heap, o, src);
  }

  lemma TransferKeepsHandles(objects: map<nat, Option<Handle>>, h: Heap, o: nat, src: nat)
    requires HandlesLive(objects, h) && HandlesDistinct(objects) && o !in objects && src in objects
    ensures HandlesLive(objects[src := None][o := objects[src]], h)
    ensures HandlesDistinct(objects[src := None][o := objects[src]])
  {
    var objs := objects[src := None][o := objects[src]];
    forall x1, x2 | x1 in objs && x2 in objs && x1 != x2 && objs[x1].Some? ensures objs[x1] != objs[x2] {
      if x1 == o {
        assert x2 == src || objects[x2] != objects[src];
      } else if x2 == o {
        assert objects[x1] != objects[src];
      }
    }
  }

  lemma TransferKeepsCover(objects: map<nat, Option<Handle>>, h: Heap, o: nat, src: nat)
    requires h.cells.Keys <= OwnedHandles(objects) && o !in objects && src in objects
    ensures h.cells.Keys <= OwnedHandles(objects[src := None][o := objects[src]])
  {
    var objs := objects[src := None][o := objects[src]];
    forall p | p in h.cells ensures p in OwnedHandles(objs) {
      var o' :| o' in objects && objects[o'].Some? && objects[o'].value == p;
      if o' == src {
        assert objs[o] == Some(p);
      } else {
        assert objs[o'] == Some(p);
      }
    }
  }

  /** Writing a field keeps a record well typed: the field set is unchanged, and a String field
      receives text. */
  lemma WriteKeepsTyped(sw: StructWrapper, h: Heap, p: Handle, i: nat, v: Value)
    requires DistinctFieldNames(sw.fields) && i < |sw.fields|
    requires p in h.cells && h.cells[p].Boxed? && Typed(sw, h.cells[p].value)
    requires sw.fields[i].wrapperType == String ==> v.Text?
    ensures Typed(sw, WithField(h, p, sw.fields[i].fieldName, v).cells[p].value)
  {
  }

  /** A step that keeps the set of live boxes and their types keeps ownership. */
  lemma SameBoxesKeepOwning(sw: StructWrapper, w: World, h': Heap)
    requires Owning(sw, w) && Valid(h') && h'.cells.Keys == w.heap.cells.Keys
    requires forall p :: p in h'.cells ==> h'.cells[p].Boxed? && Typed(sw, h'.cells[p].value)
    ensures Owning(sw, World(h', w.objects))
  {
  }

  /** Storing a well-typed value in a field of an object's box keeps ownership. */
  lemma WriteStepKeepsOwning(sw: StructWrapper, w: World, o: nat, i: nat, v: Value, w': World)
    requires Owning(sw, w) && DistinctFieldNames(sw.fields) && i < |sw.fields|
    requires o in w.objects && w.objects[o].Some? && FieldOf(w.heap, w.objects[o].value, sw.fields[i].fieldName).Some?
    requires sw.fields[i].wrapperType == String ==> v.Text?
    requires w' == World(WithField(w.heap, w.objects[o].value, sw.fields[i].fieldName, v), w.objects)
    ensures Owning(sw, w')
  {
    WriteKeepsTyped(sw, w.heap, w.objects[o].value, i, v);
    SameBoxesKeepOwning(sw, w, w'.heap);
  }

  /** The live boxes are exactly the handles the live objects hold. */
  lemma LiveBoxesAreOwned(sw: StructWrapper, w: World)
    requires Owning(sw, w)
    ensures w.heap.cells.Keys == OwnedHandles(w.objects)
  {
    forall p | p in OwnedHandles(w.objects) ensures p in w.heap.cells {
      var o := OwnerOf(w, p);
    }
  }

  /** Once every object has gone away, no box is left. */
  lemma NothingLeaksAtExit(sw: StructWrapper, w: World)
    requires Owning(sw, w) && w.objects == map[]
    ensures w.heap.cells == map[]
  {
    LiveBoxesAreOwned(sw, w);
  }
}
