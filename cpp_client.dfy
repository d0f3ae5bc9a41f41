/** A C++ program that uses the generated class of one struct only through its constructors,
    copy and move, destructor and Primitive/String accessors: every box is owned by exactly one
    live object, so nothing is freed twice and nothing leaks. */
module CppClient {
  import opened Common
  import opened Schema
  import opened RustIr
  import opened Runtime
  import opened CppClass
  import opened Consumer
  import opened CppRuntime
  import opened Ownership

  /** What the client does. `Get` and `Set` name a field by position. */
  datatype ClientOp =
    | Construct(o: nat)            // C o;
    | CopyFrom(o: nat, src: nat)   // C o(src);
    | MoveFrom(o: nat, src: nat)   // C o(std::move(src));
    | Destroy(o: nat)              // o goes out of scope
    | Get(o: nat, i: nat)          // o.get_<f>()
    | Set(o: nat, i: nat, arg: CppArg)  // o.set_<f>(arg)

  /** The class member the client's accessor call resolves to; Custom fields are left to the
      field type's own class. */
  function GetterMember(f: FieldWrapper): Option<CppMember>
  {
    if f.getter.None? then None
    else match f.wrapperType
      case Primitive => Some(PrimitiveGetterDef(f.getter.value.name, f.fieldType, f.getter.value.externFnName))
      case String => Some(StringGetterDef(f.getter.value.name, f.getter.value.externFnName))
      case Custom => None
  }

  function SetterMember(f: FieldWrapper): Option<CppMember>
  {
    if f.setter.None? then None
    else match f.wrapperType
      case Primitive => Some(PrimitiveSetterDef(f.setter.value.name, f.fieldType, f.setter.value.externFnName))
      case String => Some(StringSetterDef(f.setter.value.name, f.setter.value.externFnName))
      case Custom => None
  }

  function ApplyConstruct(prog: seq<RustItem>, sw: StructWrapper, w: World, o: nat, env: Env): Option<World>
  {
    if o in w.objects || sw.defaultConstructor.None? then None
    else
      var st := RunMember(w.heap, prog, ClassDefinition(sw).members, DefaultConstructorDef(sw.defaultConstructor.value.externFnName), None, NoArg, env);
      if st.Crash? then None else Some(World(st.heap, w.objects[o := st.self]))
  }

  function ApplyCopy(prog: seq<RustItem>, sw: StructWrapper, w: World, o: nat, src: nat, env: Env): Option<World>
  {
    if o in w.objects || src !in w.objects then None
    else
      var st := RunMember(w.heap, prog, ClassDefinition(sw).members, CopyConstructor(sw.cloneExtFnName), None, ObjArg(w.objects[src]), env);
      if st.Crash? then None else Some(World(st.heap, w.objects[o := st.self]))
  }

  function ApplyMove(prog: seq<RustItem>, sw: StructWrapper, w: World, o: nat, src: nat, env: Env): Option<World>
  {
    if o in w.objects || src !in w.objects then None
    else
      var st := RunMember(w.heap, prog, ClassDefinition(sw).members, MoveConstructor, None, ObjArg(w.objects[src]), env);
      if st.Crash? || !st.arg.ObjArg? then None else Some(World(st.heap, w.objects[src := st.arg.other][o := st.self]))
  }

  function ApplyDestroy(prog: seq<RustItem>, sw: StructWrapper, w: World, o: nat, env: Env): Option<World>
  {
    if o !in w.objects then None
    else
      var st := RunMember(w.heap, prog, ClassDefinition(sw).members, Destructor(sw.dropExtFnName), w.objects[o], NoArg, env);
      if st.Crash? then None else Some(World(st.heap, w.objects - {o}))
  }

  function ApplyAccessor(prog: seq<RustItem>, sw: StructWrapper, w: World, o: nat, m: Option<CppMember>, arg: CppArg, env: Env): Option<World>
  {
    if o !in w.objects || m.None? then None
    else
      var st := RunMember(w.heap, prog, ClassDefinition(sw).members, m.value, w.objects[o], arg, env);
      if st.Crash? then None else Some(World(st.heap, w.objects))
  }

  /** One client step; `None` when the step is ill-formed or crashes. */
  function Apply(prog: seq<RustItem>, sw: StructWrapper, w: World, op: ClientOp, env: Env): Option<World>
  {
    match op
    case Construct(o) => ApplyConstruct(prog, sw, w, o, env)
    case CopyFrom(o, src) => ApplyCopy(prog, sw, w, o, src, env)
    case MoveFrom(o, src) => ApplyMove(prog, sw, w, o, src, env)
    case Destroy(o) => ApplyDestroy(prog, sw, w, o, env)
    case Get(o, i) => if i < |sw.fields| then ApplyAccessor(prog, sw, w, o, GetterMember(sw.fields[i]), NoArg, env) else None
    case Set(o, i, arg) => if i < |sw.fields| then ApplyAccessor(prog, sw, w, o, SetterMember(sw.fields[i]), arg, env) else None
  }

  /** The steps a well-behaved client takes: fresh names for new objects, no copy of and no
      access through a moved-from object, and an argument of the field's kind. */
  predicate Enabled(sw: StructWrapper, w: World, op: ClientOp)
  {
    match op
    case Construct(o) => o !in w.objects && sw.defaultConstructor.Some?
    case CopyFrom(o, src) => o !in w.objects && src in w.objects && w.objects[src].Some?
    case MoveFrom(o, src) => o !in w.objects && src in w.objects
    case Destroy(o) => o in w.objects
    case Get(o, i) => o in w.objects && w.objects[o].Some? && i < |sw.fields| && GetterMember(sw.fields[i]).Some?
    case Set(o, i, arg) =>
      && o in w.objects && w.objects[o].Some? && i < |sw.fields| && SetterMember(sw.fields[i]).Some?
      && (if sw.fields[i].wrapperType == Primitive then arg.PrimArg? else arg.StrArg?)
  }

  // Preservation, step by step

  lemma ConstructKeepsOwning(prog: seq<RustItem>, sw: StructWrapper, w: World, o: nat, env: Env)
    requires Linked(prog, sw) && Owning(sw, w) && TypedDefault(sw, env)
    requires o !in w.objects && sw.defaultConstructor.Some?
    ensures ApplyConstruct(prog, sw, w, o, env).Some?
    ensures Owning(sw, ApplyConstruct(prog, sw, w, o, env).value)
  {
    DefaultConstructorAllocates(prog, sw, w.heap, env);
    var st := RunMember(w.heap, prog, ClassDefinition(sw).members, DefaultConstructorDef(sw.defaultConstructor.value.externFnName), None, NoArg, env);
    AdoptKeepsOwning(sw, w, o, st.self.value, env.defaultOf(sw.name), st.heap);
  }

  lemma CopyKeepsOwning(prog: seq<RustItem>, sw: StructWrapper, w: World, o: nat, src: nat, env: Env)
    requires Linked(prog, sw) && Owning(sw, w)
    requires o !in w.objects && src in w.objects && w.objects[src].Some?
    ensures ApplyCopy(prog, sw, w, o, src, env).Some?
    ensures Owning(sw, ApplyCopy(prog, sw, w, o, src, env).value)
  {
    var p := w.objects[src].value;
    CopyConstructorClones(prog, sw, w.heap, p, env);
    var st := RunMember(w.heap, prog, ClassDefinition(sw).members, CopyConstructor(sw.cloneExtFnName), None, ObjArg(Some(p)), env);
    AdoptKeepsOwning(sw, w, o, st.self.value, w.heap.cells[p].value, st.heap);
  }

  lemma MoveKeepsOwning(prog: seq<RustItem>, sw: StructWrapper, w: World, o: nat, src: nat, env: Env)
    requires Owning(sw, w) && o !in w.objects && src in w.objects
    ensures ApplyMove(prog, sw, w, o, src, env).Some?
    ensures ApplyMove(prog, sw, w, o, src, env).value.heap == w.heap
    ensures Owning(sw, ApplyMove(prog, sw, w, o, src, env).value)
  {
    MoveConstructorTransfers(sw, prog, w.heap, w.objects[src], env);
    TransferKeepsOwning(sw, w, o, src);
    assert ApplyMove(prog, sw, w, o, src, env) == Some(World(w.heap, w.objects[src := None][o := w.objects[src]]));
  }

  lemma DestroyKeepsOwning(prog: seq<RustItem>, sw: StructWrapper, w: World, o: nat, env: Env)
    requires Linked(prog, sw) && Owning(sw, w) && o in w.objects
    ensures ApplyDestroy(prog, sw, w, o, env).Some?
    ensures w.objects[o].None? ==> ApplyDestroy(prog, sw, w, o, env).value.heap == w.heap
    ensures w.objects[o].Some? ==> ApplyDestroy(prog, sw, w, o, env).value.heap == Free(w.heap, w.objects[o].value)
    ensures Owning(sw, ApplyDestroy(prog, sw, w, o, env).value)
  {
    DestructorFreesOwnBox(prog, sw, w.heap, w.objects[o], env);
    ReleaseKeepsOwning(sw, w, o, ApplyDestroy(prog, sw, w, o, env).value.heap);
  }

  lemma GetPrimitiveKeepsWorld(prog: seq<RustItem>, sw: StructWrapper, w: World, o: nat, i: nat, env: Env)
    requires Linked(prog, sw) && Owning(sw, w)
    requires o in w.objects && w.objects[o].Some? && i < |sw.fields|
    requires sw.fields[i].wrapperType == Primitive && sw.fields[i].getter.Some?
    ensures ApplyAccessor(prog, sw, w, o, GetterMember(sw.fields[i]), NoArg, env) == Some(w)
  {
    FieldPresent(sw, w, o, i);
    PrimitiveGetterReads(prog, sw, i, w.heap, w.objects[o].value, env);
  }

  lemma GetStringKeepsOwning(prog: seq<RustItem>, sw: StructWrapper, w: World, o: nat, i: nat, env: Env)
    requires Linked(prog, sw) && Owning(sw, w)
    requires o in w.objects && w.objects[o].Some? && i < |sw.fields|
    requires sw.fields[i].wrapperType == String && sw.fields[i].getter.Some?
    ensures ApplyAccessor(prog, sw, w, o, GetterMember(sw.fields[i]), NoArg, env).Some?
    ensures Owning(sw, ApplyAccessor(prog, sw, w, o, GetterMember(sw.fields[i]), NoArg, env).value)
  {
    var p := w.objects[o].value;
    var g := sw.fields[i].getter.value;
    FieldPresent(sw, w, o, i);
    StringGetterReads(prog, sw, i, w.heap, p, FieldOf(w.heap, p, sw.fields[i].fieldName).value.text, env);
    var st := RunMember(w.heap, prog, ClassDefinition(sw).members, StringGetterDef(g.name, g.externFnName), Some(p), NoArg, env);
    assert GetterMember(sw.fields[i]) == Some(StringGetterDef(g.name, g.externFnName));
    assert ApplyAccessor(prog, sw, w, o, GetterMember(sw.fields[i]), NoArg, env) == Some(World(st.heap, w.objects));
    SameBoxesKeepOwning(sw, w, st.heap);
  }

  lemma GetKeepsOwning(prog: seq<RustItem>, sw: StructWrapper, w: World, o: nat, i: nat, env: Env)
    requires Linked(prog, sw) && Owning(sw, w) && Enabled(sw, w, Get(o, i))
    ensures Apply(prog, sw, w, Get(o, i), env).Some?
    ensures Owning(sw, Apply(prog, sw, w, Get(o, i), env).value)
  {
    if sw.fields[i].wrapperType == Primitive {
      GetPrimitiveKeepsWorld(prog, sw, w, o, i, env);
    } else {
      GetStringKeepsOwning(prog, sw, w, o, i, env);
    }
  }

  lemma SetPrimitiveKeepsOwning(prog: seq<RustItem>, sw: StructWrapper, w: World, o: nat, i: nat, v: Value, env: Env)
    requires Linked(prog, sw) && Owning(sw, w) && DistinctFieldNames(sw.fields)
    requires o in w.objects && w.objects[o].Some? && i < |sw.fields|
    requires sw.fields[i].wrapperType == Primitive && sw.fields[i].setter.Some?
    ensures ApplyAccessor(prog, sw, w, o, SetterMember(sw.fields[i]), PrimArg(v), env).Some?
    ensures Owning(sw, ApplyAccessor(prog, sw, w, o, SetterMember(sw.fields[i]), PrimArg(v), env).value)
  {
    var p := w.objects[o].value;
    var f := sw.fields[i];
    FieldPresent(sw, w, o, i);
    PrimitiveSetterWrites(prog, sw, i, w.heap, p, v, env);
    var w' := World(WithField(w.heap, p, f.fieldName, v), w.objects);
    assert ApplyAccessor(prog, sw, w, o, SetterMember(f), PrimArg(v), env) == Some(w');
    WriteStepKeepsOwning(sw, w, o, i, v, w');
  }

  lemma SetStringKeepsOwning(prog: seq<RustItem>, sw: StructWrapper, w: World, o: nat, i: nat, s: string, env: Env)
    requires Linked(prog, sw) && Owning(sw, w) && DistinctFieldNames(sw.fields)
    requires o in w.objects && w.objects[o].Some? && i < |sw.fields|
    requires sw.fields[i].wrapperType == String && sw.fields[i].setter.Some?
    ensures ApplyAccessor(prog, sw, w, o, SetterMember(sw.fields[i]), StrArg(s), env).Some?
    ensures Owning(sw, ApplyAccessor(prog, sw, w, o, SetterMember(sw.fields[i]), StrArg(s), env).value)
  {
    var p := w.objects[o].value;
    var f := sw.fields[i];
    FieldPresent(sw, w, o, i);
    StringSettersWrite(prog, sw, i, w.heap, p, s, env);
    var w' := World(WithField(w.heap, p, f.fieldName, Text(CStrPrefix(s))), w.objects);
    assert ApplyAccessor(prog, sw, w, o, SetterMember(f), StrArg(s), env) == Some(w');
    WriteStepKeepsOwning(sw, w, o, i, Text(CStrPrefix(s)), w');
  }

  lemma SetKeepsOwning(prog: seq<RustItem>, sw: StructWrapper, w: World, o: nat, i: nat, arg: CppArg, env: Env)
    requires Linked(prog, sw) && Owning(sw, w) && DistinctFieldNames(sw.fields) && Enabled(sw, w, Set(o, i, arg))
    ensures Apply(prog, sw, w, Set(o, i, arg), env).Some?
    ensures Owning(sw, Apply(prog, sw, w, Set(o, i, arg), env).value)
  {
    if sw.fields[i].wrapperType == Primitive {
      SetPrimitiveKeepsOwning(prog, sw, w, o, i, arg.v, env);
    } else {
      SetStringKeepsOwning(prog, sw, w, o, i, arg.s, env);
    }
  }

  /** Every enabled step of a well-behaved client succeeds and keeps every box owned by exactly
      one live object. */
  lemma StepKeepsOwning(prog: seq<RustItem>, sw: StructWrapper, w: World, op: ClientOp, env: Env)
    requires Linked(prog, sw) && Owning(sw, w) && DistinctFieldNames(sw.fields) && TypedDefault(sw, env)
    requires Enabled(sw, w, op)
    ensures Apply(prog, sw, w, op, env).Some?
    ensures Owning(sw, Apply(prog, sw, w, op, env).value)
  {
    match op
    case Construct(o) => ConstructKeepsOwning(prog, sw, w, o, env);
    case CopyFrom(o, src) => CopyKeepsOwning(prog, sw, w, o, src, env);
    case MoveFrom(o, src) => MoveKeepsOwning(prog, sw, w, o, src, env);
    case Destroy(o) => DestroyKeepsOwning(prog, sw, w, o, env);
    case Get(o, i) => GetKeepsOwning(prog, sw, w, o, i, env);
    case Set(o, i, arg) => SetKeepsOwning(prog, sw, w, o, i, arg, env);
  }
}
