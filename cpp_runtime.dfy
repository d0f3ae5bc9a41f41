/** What the members of a generated C++ class do when run against a linked program: the object
    holds `void* self` (`nullptr` after it has been moved from) and every member forwards to the
    symbol it names. */
module CppRuntime {
  import opened Common
  import opened Schema
  import opened RustIr
  import opened Runtime
  import opened StructShim
  import opened ShimSemantics
  import opened Consumer
  import opened CppClass

  /** The argument a member is called with. */
  datatype CppArg =
    | NoArg
    | RawArg(ptr: Option<Handle>)      // a `void*`
    | PrimArg(v: Value)                // a primitive by value
    | StrArg(s: string)                // a `std::string`
    | ObjArg(other: Option<Handle>)    // another wrapper, seen through its `self`

  datatype CppResult = Unit | PrimResult(v: Value) | StrResult(s: string) | ObjResult(obj: Option<Handle>)

  /** After a member: the heap, `this->self`, the argument as left behind (a move empties it)
      and the result. */
  datatype CppStep = Step(heap: Heap, self: Option<Handle>, arg: CppArg, result: CppResult) | Crash

  /** The `std::string&&` overload a lvalue setter forwards to. */
  function FindStringSetter(members: seq<CppMember>, name: string): (r: Option<string>)
    ensures r.Some? ==> StringSetterDef(name, r.value) in members
    ensures r.None? ==> forall fn :: StringSetterDef(name, fn) !in members
  {
    if members == [] then None
    else if members[0].StringSetterDef? && members[0].name == name then Some(members[0].externFn)
    else FindStringSetter(members[1..], name)
  }

  /** `ext(this->self, value.data(), value.size())`. */
  function StringSetterCall(h: Heap, prog: seq<RustItem>, fn: string, self: Option<Handle>, arg: CppArg, env: Env): CppStep
  {
    if !arg.StrArg? then Crash
    else
      match CallOn(h, prog, fn, self, [CStr(CBuffer(arg.s)), Size(|arg.s|)], env)
      case Returned(h', _) => Step(h', self, arg, Unit)
      case Aborted => Crash
  }

  /** Running member `m` of a class whose members are `members` on an object holding `self`. A
      constructor runs on a fresh object, whose `self` starts as `nullptr`. */
  function RunMember(h: Heap, prog: seq<RustItem>, members: seq<CppMember>, m: CppMember, self: Option<Handle>, arg: CppArg, env: Env): CppStep
  {
    match m
    case PointerConstructor =>
      if arg.RawArg? then Step(h, arg.ptr, arg, Unit) else Crash
    case CopyConstructor(cloneFn) =>
      if !arg.ObjArg? then Crash
      else
        (match CallOn(h, prog, cloneFn, arg.other, [], env)
         case Returned(h', Some(Ptr(q))) => Step(h', Some(q), arg, Unit)
         case _ => Crash)
    case MoveConstructor =>
      if arg.ObjArg? then Step(h, arg.other, ObjArg(None), Unit) else Crash
    case DefaultConstructorDef(fn) =>
      (match Call(h, prog, fn, [], env)
       case Returned(h', Some(Ptr(q))) => Step(h', Some(q), arg, Unit)
       case _ => Crash)
    case Destructor(dropFn) =>
      if self.None? then Step(h, self, arg, Unit)
      else
        (match CallOn(h, prog, dropFn, self, [], env)
         case Returned(h', _) => Step(h', self, arg, Unit)
         case Aborted => Crash)
    case PrimitiveGetterDef(_, _, fn) =>
      (match CallOn(h, prog, fn, self, [], env)
       case Returned(h', Some(Val(v))) => Step(h', self, arg, PrimResult(v))
       case _ => Crash)
    case PrimitiveSetterDef(_, _, fn) =>
      if !arg.PrimArg? then Crash
      else
        (match CallOn(h, prog, fn, self, [Val(arg.v)], env)
         case Returned(h', _) => Step(h', self, arg, Unit)
         case Aborted => Crash)
    case StringGetterDef(_, fn) =>
      (match ReadStringField(h, prog, fn, self, env)
       case Some((h', s)) => Step(h', self, arg, StrResult(s))
       case None => Crash)
    case StringSetterDef(_, fn) =>
      StringSetterCall(h, prog, fn, self, arg, env)
    case StringSetterForward(name) =>
      (match FindStringSetter(members, name)
       case Some(fn) => StringSetterCall(h, prog, fn, self, arg, env)
       case None => Crash)
    case CustomGetterDef(_, _, fn) =>
      (match CallOn(h, prog, fn, self, [], env)
       case Returned(h', Some(Ptr(q))) => Step(h', self, arg, ObjResult(Some(q)))
       case _ => Crash)
    case CustomSetterDef(_, _, fn) =>
      if !arg.ObjArg? || arg.other.None? then Crash
      else
        (match CallOn(h, prog, fn, self, [Ptr(arg.other.value)], env)
         case Returned(h', _) => Step(h', self, arg, Unit)
         case Aborted => Crash)
    case SelfPtr => Step(h, self, arg, ObjResult(self))
    case SetSelfPtr =>
      if arg.RawArg? then Step(h, arg.ptr, arg, Unit) else Crash
  }

  // Construction, copy, move and destruction

  /** The copy constructor boxes a clone: the new object owns a fresh handle holding the same
      value, so the two objects never share a box. */
  lemma CopyConstructorClones(prog: seq<RustItem>, sw: StructWrapper, h: Heap, p: Handle, env: Env)
    requires Linked(prog, sw) && Valid(h) && p in h.cells && h.cells[p].Boxed?
    ensures CopyConstructor(sw.cloneExtFnName) in ClassDefinition(sw).members
    ensures var st := RunMember(h, prog, ClassDefinition(sw).members, CopyConstructor(sw.cloneExtFnName), None, ObjArg(Some(p)), env);
      && st.Step? && st.self.Some? && st.self.value != p && st.self.value !in h.cells
      && st.heap.cells == h.cells[st.self.value := h.cells[p]] && Valid(st.heap)
  {
    CloneCallCopies(prog, sw, h, p, env);
    assert [Ptr(p)] + [] == [Ptr(p)];
  }

  /** Copying an object that has been moved from hands `nullptr` to the clone shim. */
  lemma CopyOfMovedFromCrashes(prog: seq<RustItem>, sw: StructWrapper, h: Heap, env: Env)
    ensures RunMember(h, prog, ClassDefinition(sw).members, CopyConstructor(sw.cloneExtFnName), None, ObjArg(None), env) == Crash
  {
  }

  /** The move constructor takes the handle over and leaves the source empty; nothing is
      allocated or freed. */
  lemma MoveConstructorTransfers(sw: StructWrapper, prog: seq<RustItem>, h: Heap, o: Option<Handle>, env: Env)
    ensures MoveConstructor in ClassDefinition(sw).members
    ensures RunMember(h, prog, ClassDefinition(sw).members, MoveConstructor, None, ObjArg(o), env) == Step(h, o, ObjArg(None), Unit)
  {
  }

  /** The default constructor exists iff the schema has one, and boxes `T::default()`. */
  lemma DefaultConstructorAllocates(prog: seq<RustItem>, sw: StructWrapper, h: Heap, env: Env)
    requires Linked(prog, sw) && Valid(h) && sw.defaultConstructor.Some?
    ensures var m := DefaultConstructorDef(sw.defaultConstructor.value.externFnName);
      var st := RunMember(h, prog, ClassDefinition(sw).members, m, None, NoArg, env);
      && m in ClassDefinition(sw).members
      && st.Step? && st.self.Some? && st.self.value !in h.cells
      && st.heap.cells == h.cells[st.self.value := Boxed(env.defaultOf(sw.name))] && Valid(st.heap)
  {
    DefaultCallAllocates(prog, sw, h, env);
  }

  lemma NoDefaultConstructorWithoutSchema(sw: StructWrapper, fn: string)
    requires sw.defaultConstructor.None?
    ensures DefaultConstructorDef(fn) !in ClassDefinition(sw).members
  {
    FieldMembersAreAccessors(sw.fields);
    var ms := ClassDefinition(sw).members;
    assert ms == [PointerConstructor, CopyConstructor(sw.cloneExtFnName), MoveConstructor, Destructor(sw.dropExtFnName)]
                 + FieldMembers(sw.fields) + [SelfPtr, SetSelfPtr];
  }

  /** The destructor frees the object's box, and does nothing for a moved-from object. */
  lemma DestructorFreesOwnBox(prog: seq<RustItem>, sw: StructWrapper, h: Heap, self: Option<Handle>, env: Env)
    requires Linked(prog, sw)
    requires self.Some? ==> self.value in h.cells && h.cells[self.value].Boxed?
    ensures Destructor(sw.dropExtFnName) in ClassDefinition(sw).members
    ensures var st := RunMember(h, prog, ClassDefinition(sw).members, Destructor(sw.dropExtFnName), self, NoArg, env);
      && st.Step?
      && (self.None? ==> st.heap == h)
      && (self.Some? ==> st.heap == Free(h, self.value))
  {
    if self.Some? {
      DropCallFrees(prog, sw, h, self.value, env);
      assert [Ptr(self.value)] + [] == [Ptr(self.value)];
    }
  }

  // Field accessors

  /** The members `map_fields` emits are accessors; no lifecycle member comes from a field. */
  predicate IsAccessorMember(m: CppMember)
  {
    || m.PrimitiveGetterDef? || m.PrimitiveSetterDef? || m.StringGetterDef? || m.StringSetterDef?
    || m.StringSetterForward? || m.CustomGetterDef? || m.CustomSetterDef?
  }

  lemma {:induction false} FieldMembersAreAccessors(fields: seq<FieldWrapper>)
    ensures forall m :: m in FieldMembers(fields) ==> IsAccessorMember(m)
  {
    if fields != [] {
      var init := fields[..|fields| - 1];
      var last := MapFields(fields[|fields| - 1]);
      FieldMembersAreAccessors(init);
      AccessorMembersOfField(fields[|fields| - 1]);
      assert FieldMembers(fields) == FieldMembers(init) + MethodDefs(last.getter) + MethodDefs(last.setter);
    }
  }

  lemma AccessorMembersOfField(f: FieldWrapper)
    ensures forall m :: m in MethodDefs(MapFields(f).getter) ==> IsAccessorMember(m)
    ensures forall m :: m in MethodDefs(MapFields(f).setter) ==> IsAccessorMember(m)
  {
  }

  /** The definitions of field `i`'s accessors are members of the class. */
  lemma {:induction false} AccessorMembersListed(fields: seq<FieldWrapper>, i: nat)
    requires i < |fields|
    ensures forall m :: m in MethodDefs(MapFields(fields[i]).getter) ==> m in FieldMembers(fields)
    ensures forall m :: m in MethodDefs(MapFields(fields[i]).setter) ==> m in FieldMembers(fields)
  {
    if i < |fields| - 1 {
      AccessorMembersListed(fields[..|fields| - 1], i);
    }
  }

  lemma AccessorInClass(sw: StructWrapper, i: nat)
    requires i < |sw.fields|
    ensures forall m :: m in MethodDefs(MapFields(sw.fields[i]).getter) ==> m in ClassDefinition(sw).members
    ensures forall m :: m in MethodDefs(MapFields(sw.fields[i]).setter) ==> m in ClassDefinition(sw).members
  {
    AccessorMembersListed(sw.fields, i);
  }

  lemma AccessorDefsInClass(sw: StructWrapper, i: nat)
    requires i < |sw.fields|
    ensures var f := sw.fields[i];
      && (f.getter.Some? ==> forall m :: m in GetterMethod(f, f.getter.value).definition ==> m in ClassDefinition(sw).members)
      && (f.setter.Some? ==> forall m :: m in SetterMethod(f, f.setter.value).definition ==> m in ClassDefinition(sw).members)
  {
    AccessorInClass(sw, i);
  }

  // The accessor members on their own: what each does once its symbol resolves.

  lemma RunPrimitiveGetter(prog: seq<RustItem>, members: seq<CppMember>, c: string, f: FieldWrapper, g: Getter, h: Heap, p: Handle, env: Env)
    requires f.wrapperType == Primitive && Provides(prog, GetterShim(c, f, g)) && FieldOf(h, p, f.fieldName).Some?
    ensures RunMember(h, prog, members, PrimitiveGetterDef(g.name, f.fieldType, g.externFnName), Some(p), NoArg, env)
         == Step(h, Some(p), NoArg, PrimResult(FieldOf(h, p, f.fieldName).value))
  {
  }

  lemma RunPrimitiveSetter(prog: seq<RustItem>, members: seq<CppMember>, c: string, f: FieldWrapper, s: Setter, h: Heap, p: Handle, v: Value, env: Env)
    requires f.wrapperType == Primitive && Provides(prog, SetterShim(c, f, s)) && FieldOf(h, p, f.fieldName).Some?
    ensures RunMember(h, prog, members, PrimitiveSetterDef(s.name, f.fieldType, s.externFnName), Some(p), PrimArg(v), env)
         == Step(WithField(h, p, f.fieldName, v), Some(p), PrimArg(v), Unit)
  {
  }

  lemma RunStringGetter(prog: seq<RustItem>, members: seq<CppMember>, c: string, f: FieldWrapper, g: Getter, h: Heap, p: Handle, t: string, env: Env)
    requires Valid(h) && Links(prog, Base.RustCodeBase()) && Provides(prog, GetterShim(c, f, g))
    requires f.wrapperType == String && FieldOf(h, p, f.fieldName) == Some(Text(t))
    ensures var st := RunMember(h, prog, members, StringGetterDef(g.name, g.externFnName), Some(p), NoArg, env);
      st.Step? && st.result == StrResult(t) && st.self == Some(p) && st.heap.cells == h.cells && Valid(st.heap)
  {
    ReadStringFieldReturnsField(h, prog, c, f, g, p, t, env);
  }

  lemma RunStringSetter(prog: seq<RustItem>, members: seq<CppMember>, c: string, f: FieldWrapper, s: Setter, h: Heap, p: Handle, text: string, env: Env)
    requires f.wrapperType == String && Provides(prog, SetterShim(c, f, s)) && FieldOf(h, p, f.fieldName).Some?
    ensures RunMember(h, prog, members, StringSetterDef(s.name, s.externFnName), Some(p), StrArg(text), env)
         == Step(WithField(h, p, f.fieldName, Text(CStrPrefix(text))), Some(p), StrArg(text), Unit)
  {
    SetterCallWrites(prog, c, f, s, h, p, CBuffer(text), |text|, env);
    CBufferReadBack(text);
    StringSetterDefCalls(prog, members, s.name, s.externFnName, h, p, text, env, WithField(h, p, f.fieldName, Text(CStrPrefix(text))));
  }

  /** A `std::string&&` setter passes the buffer and its size behind the handle. */
  lemma StringSetterDefCalls(prog: seq<RustItem>, members: seq<CppMember>, name: string, fn: string, h: Heap, p: Handle, text: string, env: Env, h1: Heap)
    requires Call(h, prog, fn, [Ptr(p), CStr(CBuffer(text)), Size(|text|)], env) == Returned(h1, None)
    ensures RunMember(h, prog, members, StringSetterDef(name, fn), Some(p), StrArg(text), env) == Step(h1, Some(p), StrArg(text), Unit)
  {
    assert [Ptr(p)] + [CStr(CBuffer(text)), Size(|text|)] == [Ptr(p), CStr(CBuffer(text)), Size(|text|)];
  }

  /** The `std::string&` overload runs the first `&&` overload of its name. */
  lemma RunStringSetterForward(prog: seq<RustItem>, members: seq<CppMember>, name: string, fn: string, h: Heap, self: Option<Handle>, arg: CppArg, env: Env)
    requires StringSetterDef(name, fn) in members
    ensures FindStringSetter(members, name).Some?
    ensures RunMember(h, prog, members, StringSetterForward(name), self, arg, env)
         == RunMember(h, prog, members, StringSetterDef(name, FindStringSetter(members, name).value), self, arg, env)
  {
  }

  lemma RunCustomGetter(prog: seq<RustItem>, members: seq<CppMember>, c: string, f: FieldWrapper, g: Getter, h: Heap, p: Handle, env: Env)
    requires Valid(h) && f.wrapperType == Custom && Provides(prog, GetterShim(c, f, g)) && FieldOf(h, p, f.fieldName).Some?
    ensures var st := RunMember(h, prog, members, CustomGetterDef(g.name, f.fieldType, g.externFnName), Some(p), NoArg, env);
      && st.Step? && st.result.ObjResult? && st.result.obj.Some?
      && st.result.obj.value !in h.cells && st.result.obj.value != p
      && st.heap.cells == h.cells[st.result.obj.value := Boxed(FieldOf(h, p, f.fieldName).value)]
  {
  }

  lemma RunCustomSetter(prog: seq<RustItem>, members: seq<CppMember>, c: string, f: FieldWrapper, s: Setter, h: Heap, p: Handle, q: Handle, env: Env)
    requires f.wrapperType == Custom && Provides(prog, SetterShim(c, f, s)) && FieldOf(h, p, f.fieldName).Some?
    requires q in h.cells && h.cells[q].Boxed? && q != p
    ensures var st := RunMember(h, prog, members, CustomSetterDef(s.name, f.fieldType, s.externFnName), Some(p), ObjArg(Some(q)), env);
      && st == Step(WithField(h, p, f.fieldName, h.cells[q].value), Some(p), ObjArg(Some(q)), Unit)
      && st.heap.cells[q] == h.cells[q]
  {
  }

  // The accessors of a generated class

  /** A Primitive getter returns the field's value and changes nothing. */
  lemma PrimitiveGetterReads(prog: seq<RustItem>, sw: StructWrapper, i: nat, h: Heap, p: Handle, env: Env)
    requires Linked(prog, sw) && i < |sw.fields|
    requires sw.fields[i].wrapperType == Primitive && sw.fields[i].getter.Some?
    requires FieldOf(h, p, sw.fields[i].fieldName).Some?
    ensures var f := sw.fields[i]; var g := f.getter.value;
      var m := PrimitiveGetterDef(g.name, f.fieldType, g.externFnName);
      && m in ClassDefinition(sw).members
      && RunMember(h, prog, ClassDefinition(sw).members, m, Some(p), NoArg, env)
           == Step(h, Some(p), NoArg, PrimResult(FieldOf(h, p, f.fieldName).value))
  {
    var f := sw.fields[i];
    AccessorsProvided(prog, sw, i);
    AccessorDefsInClass(sw, i);
    RunPrimitiveGetter(prog, ClassDefinition(sw).members, sw.name, f, f.getter.value, h, p, env);
  }

  /** A Primitive setter overwrites that field and nothing else. */
  lemma PrimitiveSetterWrites(prog: seq<RustItem>, sw: StructWrapper, i: nat, h: Heap, p: Handle, v: Value, env: Env)
    requires Linked(prog, sw) && i < |sw.fields|
    requires sw.fields[i].wrapperType == Primitive && sw.fields[i].setter.Some?
    requires FieldOf(h, p, sw.fields[i].fieldName).Some?
    ensures var f := sw.fields[i]; var s := f.setter.value;
      var m := PrimitiveSetterDef(s.name, f.fieldType, s.externFnName);
      && m in ClassDefinition(sw).members
      && RunMember(h, prog, ClassDefinition(sw).members, m, Some(p), PrimArg(v), env)
           == Step(WithField(h, p, f.fieldName, v), Some(p), PrimArg(v), Unit)
  {
    var f := sw.fields[i];
    AccessorsProvided(prog, sw, i);
    AccessorDefsInClass(sw, i);
    RunPrimitiveSetter(prog, ClassDefinition(sw).members, sw.name, f, f.setter.value, h, p, v, env);
  }

  /** A String getter returns the field's text; the descriptor it goes through is freed, so
      every live cell is as before. */
  lemma StringGetterReads(prog: seq<RustItem>, sw: StructWrapper, i: nat, h: Heap, p: Handle, t: string, env: Env)
    requires Linked(prog, sw) && Valid(h) && i < |sw.fields|
    requires sw.fields[i].wrapperType == String && sw.fields[i].getter.Some?
    requires FieldOf(h, p, sw.fields[i].fieldName) == Some(Text(t))
    ensures var f := sw.fields[i]; var g := f.getter.value;
      var m := StringGetterDef(g.name, g.externFnName);
      var st := RunMember(h, prog, ClassDefinition(sw).members, m, Some(p), NoArg, env);
      && m in ClassDefinition(sw).members
      && st.Step? && st.result == StrResult(t) && st.self == Some(p) && st.heap.cells == h.cells && Valid(st.heap)
  {
    var f := sw.fields[i];
    AccessorsProvided(prog, sw, i);
    AccessorDefsInClass(sw, i);
    RunStringGetter(prog, ClassDefinition(sw).members, sw.name, f, f.getter.value, h, p, t, env);
  }

  /** The `std::string&&` setter stores the text up to its first NUL: `data()` is
      NUL-terminated and the Rust side reads to the NUL, never consulting `size()`. The
      `std::string&` overload runs the `&&` overload of the same name. */
  lemma StringSettersWrite(prog: seq<RustItem>, sw: StructWrapper, i: nat, h: Heap, p: Handle, s: string, env: Env)
    requires Linked(prog, sw) && i < |sw.fields|
    requires sw.fields[i].wrapperType == String && sw.fields[i].setter.Some?
    requires FieldOf(h, p, sw.fields[i].fieldName).Some?
    ensures var f := sw.fields[i]; var st := f.setter.value; var ms := ClassDefinition(sw).members;
      && StringSetterDef(st.name, st.externFnName) in ms && StringSetterForward(st.name) in ms
      && RunMember(h, prog, ms, StringSetterDef(st.name, st.externFnName), Some(p), StrArg(s), env)
           == Step(WithField(h, p, f.fieldName, Text(CStrPrefix(s))), Some(p), StrArg(s), Unit)
      && FindStringSetter(ms, st.name).Some?
      && RunMember(h, prog, ms, StringSetterForward(st.name), Some(p), StrArg(s), env)
           == RunMember(h, prog, ms, StringSetterDef(st.name, FindStringSetter(ms, st.name).value), Some(p), StrArg(s), env)
  {
    var f := sw.fields[i];
    AccessorsProvided(prog, sw, i);
    AccessorDefsInClass(sw, i);
    var ms := ClassDefinition(sw).members;
    assert SetterMethod(f, f.setter.value).definition == [StringSetterDef(f.setter.value.name, f.setter.value.externFnName), StringSetterForward(f.setter.value.name)];
    RunStringSetter(prog, ms, sw.name, f, f.setter.value, h, p, s, env);
    RunStringSetterForward(prog, ms, f.setter.value.name, f.setter.value.externFnName, h, Some(p), StrArg(s), env);
  }

  /** A Custom getter returns a new wrapper owning a fresh box with a copy of the field. */
  lemma CustomGetterCopies(prog: seq<RustItem>, sw: StructWrapper, i: nat, h: Heap, p: Handle, env: Env)
    requires Linked(prog, sw) && Valid(h) && i < |sw.fields|
    requires sw.fields[i].wrapperType == Custom && sw.fields[i].getter.Some?
    requires FieldOf(h, p, sw.fields[i].fieldName).Some?
    ensures var f := sw.fields[i]; var g := f.getter.value;
      var m := CustomGetterDef(g.name, f.fieldType, g.externFnName);
      var st := RunMember(h, prog, ClassDefinition(sw).members, m, Some(p), NoArg, env);
      && m in ClassDefinition(sw).members
      && st.Step? && st.result.ObjResult? && st.result.obj.Some?
      && st.result.obj.value !in h.cells && st.result.obj.value != p
      && st.heap.cells == h.cells[st.result.obj.value := Boxed(FieldOf(h, p, f.fieldName).value)]
  {
    var f := sw.fields[i];
    AccessorsProvided(prog, sw, i);
    AccessorDefsInClass(sw, i);
    RunCustomGetter(prog, ClassDefinition(sw).members, sw.name, f, f.getter.value, h, p, env);
  }

  /** A Custom setter stores a copy of the argument's value; the argument keeps its own box. */
  lemma CustomSetterCopies(prog: seq<RustItem>, sw: StructWrapper, i: nat, h: Heap, p: Handle, q: Handle, env: Env)
    requires Linked(prog, sw) && i < |sw.fields|
    requires sw.fields[i].wrapperType == Custom && sw.fields[i].setter.Some?
    requires FieldOf(h, p, sw.fields[i].fieldName).Some? && q in h.cells && h.cells[q].Boxed? && q != p
    ensures var f := sw.fields[i]; var s := f.setter.value;
      var m := CustomSetterDef(s.name, f.fieldType, s.externFnName);
      var st := RunMember(h, prog, ClassDefinition(sw).members, m, Some(p), ObjArg(Some(q)), env);
      && m in ClassDefinition(sw).members
      && st == Step(WithField(h, p, f.fieldName, h.cells[q].value), Some(p), ObjArg(Some(q)), Unit)
      && st.heap.cells[q] == h.cells[q]
  {
    var f := sw.fields[i];
    AccessorsProvided(prog, sw, i);
    AccessorDefsInClass(sw, i);
    RunCustomSetter(prog, ClassDefinition(sw).members, sw.name, f, f.setter.value, h, p, q, env);
  }

  /** Passing a moved-from wrapper to a Custom setter hands the Rust shim the null pointer it
      then dereferences; the model renders that undefined behaviour as a crash. */
  lemma CustomSetterOfMovedFromCrashes(prog: seq<RustItem>, members: seq<CppMember>, name: string, t: string, fn: string, h: Heap, self: Option<Handle>, env: Env)
    ensures RunMember(h, prog, members, CustomSetterDef(name, t, fn), self, ObjArg(None), env) == Crash
  {
  }

  // Round trips

  /** Setting a Primitive field and reading it back yields the value set. */
  lemma PrimitiveRoundTrip(prog: seq<RustItem>, members: seq<CppMember>, c: string, f: FieldWrapper, g: Getter, s: Setter, h: Heap, p: Handle, v: Value, env: Env)
    requires f.wrapperType == Primitive && Provides(prog, GetterShim(c, f, g)) && Provides(prog, SetterShim(c, f, s))
    requires FieldOf(h, p, f.fieldName).Some?
    ensures var put := RunMember(h, prog, members, PrimitiveSetterDef(s.name, f.fieldType, s.externFnName), Some(p), PrimArg(v), env);
      && put.Step?
      && RunMember(put.heap, prog, members, PrimitiveGetterDef(g.name, f.fieldType, g.externFnName), Some(p), NoArg, env).result == PrimResult(v)
  {
    RunPrimitiveSetter(prog, members, c, f, s, h, p, v, env);
    RunPrimitiveGetter(prog, members, c, f, g, WithField(h, p, f.fieldName, v), p, env);
  }

  /** Setting a String field and reading it back yields the text up to its first NUL, which is
      the whole text when it has none. */
  lemma StringRoundTrip(prog: seq<RustItem>, members: seq<CppMember>, c: string, f: FieldWrapper, g: Getter, s: Setter, h: Heap, p: Handle, text: string, env: Env)
    requires Valid(h) && Links(prog, Base.RustCodeBase())
    requires f.wrapperType == String && Provides(prog, GetterShim(c, f, g)) && Provides(prog, SetterShim(c, f, s))
    requires FieldOf(h, p, f.fieldName).Some?
    ensures var put := RunMember(h, prog, members, StringSetterDef(s.name, s.externFnName), Some(p), StrArg(text), env);
      && put.Step?
      && var read := RunMember(put.heap, prog, members, StringGetterDef(g.name, g.externFnName), Some(p), NoArg, env);
      && read.Step? && read.result == StrResult(CStrPrefix(text))
      && ('\0' !in text ==> read.result == StrResult(text))
  {
    RunStringSetter(prog, members, c, f, s, h, p, text, env);
    var h1 := WithField(h, p, f.fieldName, Text(CStrPrefix(text)));
    assert Valid(h1);
    RunStringGetter(prog, members, c, f, g, h1, p, CStrPrefix(text), env);
  }
}
