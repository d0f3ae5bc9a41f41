/** A Swift program that uses the generated class of one struct through `init()`, its
    properties and the release of its last reference. A Swift instance always holds a handle
    (there is no moved-from state), and `deinit` runs once per instance: every box stays owned
    by exactly one live instance. */
module SwiftClient {
  import opened Common
  import opened Schema
  import opened RustIr
  import opened Runtime
  import opened Consumer
  import opened SwiftClass
  import opened SwiftRuntime
  import opened Ownership

  /** What the client does; properties are named by field position. */
  datatype SwiftOp =
    | Init(o: nat)                      // let o = C()
    | Release(o: nat)                   // the last reference to o goes away
    | Read(o: nat, i: nat)              // o.<f>
    | Write(o: nat, i: nat, v: SwiftValue)  // o.<f> = v

  /** Every instance holds a handle, and ownership holds. */
  predicate SwiftOwning(sw: StructWrapper, w: World)
  {
    Owning(sw, w) && forall o :: o in w.objects ==> w.objects[o].Some?
  }

  function Apply(prog: seq<RustItem>, sw: StructWrapper, w: World, op: SwiftOp, env: Env): Option<World>
  {
    match op
    case Init(o) =>
      if o in w.objects then None
      else
        (match RunInit(w.heap, prog, ClassDefinition(sw), env)
         case Some((h', q)) => Some(World(h', w.objects[o := Some(q)]))
         case None => None)
    case Release(o) =>
      if o !in w.objects || w.objects[o].None? then None
      else
        (match RunDeinit(w.heap, prog, ClassDefinition(sw), w.objects[o].value, env)
         case Some(h') => Some(World(h', w.objects - {o}))
         case None => None)
    case Read(o, i) =>
      if o !in w.objects || w.objects[o].None? || i >= |sw.fields| then None
      else
        (match GetProperty(w.heap, prog, ClassDefinition(sw), w.objects[o].value, sw.fields[i].fieldName, env)
         case Some((h', _)) => Some(World(h', w.objects))
         case None => None)
    case Write(o, i, v) =>
      if o !in w.objects || w.objects[o].None? || i >= |sw.fields| then None
      else
        (match SetProperty(w.heap, prog, ClassDefinition(sw), w.objects[o].value, sw.fields[i].fieldName, v, env)
         case Some((h', _)) => Some(World(h', w.objects))
         case None => None)
  }

  /** The steps the Swift compiler accepts on the generated class: `init()` only when it exists,
      a property read or write only when the property has that block, a value of the
      property's type, and a String whose count fits a `UInt32`. The module itself compiles
      only when the header declares every function the class calls (`CallsDeclared`), which
      with the generated header excludes every class with a String getter
      (`SwiftClass.ClassCompilesIffNoStringGetter`). */
  predicate Enabled(sw: StructWrapper, w: World, op: SwiftOp)
  {
    match op
    case Init(o) => o !in w.objects && sw.defaultConstructor.Some?
    case Release(o) => o in w.objects
    case Read(o, i) =>
      o in w.objects && i < |sw.fields| && sw.fields[i].wrapperType != Custom && sw.fields[i].getter.Some?
    case Write(o, i, v) =>
      && o in w.objects && i < |sw.fields| && sw.fields[i].wrapperType != Custom && sw.fields[i].setter.Some?
      && (if sw.fields[i].wrapperType == Primitive then v.Prim? else v.Str? && |v.s| + 1 <= UInt32Max)
  }

  lemma InitKeepsOwning(prog: seq<RustItem>, sw: StructWrapper, w: World, o: nat, env: Env)
    requires Linked(prog, sw) && SwiftOwning(sw, w) && TypedDefault(sw, env)
    requires o !in w.objects && sw.defaultConstructor.Some?
    ensures Apply(prog, sw, w, Init(o), env).Some?
    ensures SwiftOwning(sw, Apply(prog, sw, w, Init(o), env).value)
  {
    InitAllocates(prog, sw, w.heap, env);
    var (h', q) := RunInit(w.heap, prog, ClassDefinition(sw), env).value;
    AdoptKeepsOwning(sw, w, o, q, env.defaultOf(sw.name), h');
  }

  lemma DeinitKeepsOwning(prog: seq<RustItem>, sw: StructWrapper, w: World, o: nat, env: Env)
    requires Linked(prog, sw) && SwiftOwning(sw, w) && o in w.objects
    ensures Apply(prog, sw, w, Release(o), env) == Some(World(Free(w.heap, w.objects[o].value), w.objects - {o}))
    ensures SwiftOwning(sw, Apply(prog, sw, w, Release(o), env).value)
  {
    DeinitFreesBox(prog, sw, w.heap, w.objects[o].value, env);
    ReleaseKeepsOwning(sw, w, o, Free(w.heap, w.objects[o].value));
  }

  /** The module's header declares the C-header code base, the struct's own lines and `extra`
      (for a String getter, the slice functions: see `SwiftClass.StringGetterNeedsSliceNames`). */
  lemma ReadKeepsOwning(prog: seq<RustItem>, sw: StructWrapper, w: World, o: nat, i: nat, env: Env, extra: seq<string>)
    requires CallsDeclared(ClassDefinition(sw), OwnDeclaredNames(sw) + extra)
    requires Linked(prog, sw) && SwiftOwning(sw, w) && DistinctFieldNames(sw.fields) && Enabled(sw, w, Read(o, i))
    ensures Apply(prog, sw, w, Read(o, i), env).Some?
    ensures SwiftOwning(sw, Apply(prog, sw, w, Read(o, i), env).value)
  {
    var p := w.objects[o].value;
    var f := sw.fields[i];
    FieldPresent(sw, w, o, i);
    if f.wrapperType == Primitive {
      PrimitiveGetReads(prog, sw, i, w.heap, p, env);
    } else {
      StringGetReads(prog, sw, i, w.heap, p, w.heap.cells[p].value.fields[f.fieldName].text, env);
      SameBoxesKeepOwning(sw, w, Apply(prog, sw, w, Read(o, i), env).value.heap);
    }
  }

  lemma WriteKeepsOwning(prog: seq<RustItem>, sw: StructWrapper, w: World, o: nat, i: nat, v: SwiftValue, env: Env)
    requires Linked(prog, sw) && SwiftOwning(sw, w) && DistinctFieldNames(sw.fields) && Enabled(sw, w, Write(o, i, v))
    ensures Apply(prog, sw, w, Write(o, i, v), env).Some?
    ensures SwiftOwning(sw, Apply(prog, sw, w, Write(o, i, v), env).value)
  {
    var p := w.objects[o].value;
    var f := sw.fields[i];
    FieldPresent(sw, w, o, i);
    var stored := if f.wrapperType == Primitive then v.v else Text(CStrPrefix(v.s));
    if f.wrapperType == Primitive {
      PrimitiveSetWrites(prog, sw, i, w.heap, p, v.v, env);
    } else {
      StringSetWrites(prog, sw, i, w.heap, p, v.s, env);
    }
    var w' := World(WithField(w.heap, p, f.fieldName, stored), w.objects);
    assert Apply(prog, sw, w, Write(o, i, v), env) == Some(w');
    WriteStepKeepsOwning(sw, w, o, i, stored, w');
  }

  /** Every step the compiler accepts, in a module whose header declares the C-header code base,
      the struct's own lines and `extra`, succeeds and keeps every box owned by exactly one live
      instance. */
  lemma StepKeepsOwning(prog: seq<RustItem>, sw: StructWrapper, w: World, op: SwiftOp, env: Env, extra: seq<string>)
    requires CallsDeclared(ClassDefinition(sw), OwnDeclaredNames(sw) + extra)
    requires Linked(prog, sw) && SwiftOwning(sw, w) && DistinctFieldNames(sw.fields) && TypedDefault(sw, env)
    requires Enabled(sw, w, op)
    ensures Apply(prog, sw, w, op, env).Some?
    ensures SwiftOwning(sw, Apply(prog, sw, w, op, env).value)
  {
    match op
    case Init(o) => InitKeepsOwning(prog, sw, w, o, env);
    case Release(o) => DeinitKeepsOwning(prog, sw, w, o, env);
    case Read(o, i) => ReadKeepsOwning(prog, sw, w, o, i, env, extra);
    case Write(o, i, v) => WriteKeepsOwning(prog, sw, w, o, i, v, env);
  }
}
