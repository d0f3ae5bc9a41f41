/** What the generated Swift code does against the linked Rust library: a class instance holds
    the handle of its box in `_self` (never null), `deinit` drops it, `convenience init()` boxes
    `T::default()`, and each property's `get`/`set` block calls its shim. A free function converts
    its String arguments to NUL-terminated buffers and reads a returned String through
    `RustString`. */
module SwiftRuntime {
  import opened Common
  import opened Schema
  import opened RustIr
  import opened Runtime
  import opened Base
  import opened StructShim
  import opened FunctionShim
  import opened ShimSemantics
  import opened Consumer
  import opened SwiftClass
  import opened SwiftFunction

  /** A Swift value crossing the boundary: nothing, a primitive, or a `String`. */
  datatype SwiftValue = Void | Prim(v: Value) | Str(s: string)

  const UInt32Max: nat := 0xFFFF_FFFF

  /** `UInt32(newValue.utf8CString.count)`: the count includes the terminator, and the
      conversion traps when it does not fit in 32 bits. */
  function CStringCount(s: string): (r: Option<nat>)
    ensures r.Some? <==> |CBuffer(s)| <= UInt32Max
    ensures r.Some? ==> r.value == |s| + 1
  {
    if |s| + 1 <= UInt32Max then Some(|s| + 1) else None
  }

  /** One `get` or `set` block run on the instance holding `p`; `None` is a trap or an abort. */
  function RunAccessor(h: Heap, prog: seq<RustItem>, a: SwiftAccessor, p: Handle, newValue: SwiftValue, env: Env): Option<(Heap, SwiftValue)>
  {
    match a
    case PrimitiveGet(fn) => PrimitiveGetBlock(h, prog, fn, p, env)
    case PrimitiveSet(fn) => PrimitiveSetBlock(h, prog, fn, p, newValue, env)
    case StringGet(fn) => StringGetBlock(h, prog, fn, p, env)
    case StringSet(fn) => StringSetBlock(h, prog, fn, p, newValue, env)
  }

  /** `return <ext>(self.rawPtr())`. */
  function PrimitiveGetBlock(h: Heap, prog: seq<RustItem>, fn: string, p: Handle, env: Env): Option<(Heap, SwiftValue)>
  {
    match Call(h, prog, fn, [Ptr(p)], env)
    case Returned(h1, Some(Val(v))) => Some((h1, Prim(v)))
    case _ => None
  }

  /** `<ext>(self.rawPtr(), newValue)`. */
  function PrimitiveSetBlock(h: Heap, prog: seq<RustItem>, fn: string, p: Handle, newValue: SwiftValue, env: Env): Option<(Heap, SwiftValue)>
  {
    if !newValue.Prim? then None
    else
      match Call(h, prog, fn, [Ptr(p), Val(newValue.v)], env)
      case Returned(h1, _) => Some((h1, Void))
      case Aborted => None
  }

  /** The descriptor read: getter, `slice_ptr`, `slice_len`, copy, `slice_drop`. */
  function StringGetBlock(h: Heap, prog: seq<RustItem>, fn: string, p: Handle, env: Env): Option<(Heap, SwiftValue)>
  {
    match ReadStringField(h, prog, fn, Some(p), env)
    case Some((h1, s)) => Some((h1, Str(s)))
    case None => None
  }

  /** `<ext>(self.rawPtr(), <utf8CString buffer>, UInt32(newValue.utf8CString.count))`. The
      buffer pointer is taken out of a `withUnsafeBufferPointer` closure; the model treats it
      as still pointing at the text when the extern reads it. */
  function StringSetBlock(h: Heap, prog: seq<RustItem>, fn: string, p: Handle, newValue: SwiftValue, env: Env): (r: Option<(Heap, SwiftValue)>)
    ensures r.Some? <==>
      && newValue.Str? && |newValue.s| + 1 <= UInt32Max
      && Call(h, prog, fn, [Ptr(p), CStr(CBuffer(newValue.s)), Size(|newValue.s| + 1)], env).Returned?
    ensures r.Some? ==> r.value == (Call(h, prog, fn, [Ptr(p), CStr(CBuffer(newValue.s)), Size(|newValue.s| + 1)], env).heap, Void)
  {
    if !newValue.Str? then None
    else
      match CStringCount(newValue.s)
      case None => None
      case Some(n) =>
        match Call(h, prog, fn, [Ptr(p), CStr(CBuffer(newValue.s)), Size(n)], env)
        case Returned(h1, _) => Some((h1, Void))
        case Aborted => None
  }

  lemma AccessorBlocks(h: Heap, prog: seq<RustItem>, a: SwiftAccessor, p: Handle, v: SwiftValue, env: Env)
    ensures a.PrimitiveGet? ==> RunAccessor(h, prog, a, p, v, env) == PrimitiveGetBlock(h, prog, a.externFn, p, env)
    ensures a.PrimitiveSet? ==> RunAccessor(h, prog, a, p, v, env) == PrimitiveSetBlock(h, prog, a.externFn, p, v, env)
    ensures a.StringGet? ==> RunAccessor(h, prog, a, p, v, env) == StringGetBlock(h, prog, a.externFn, p, env)
    ensures a.StringSet? ==> RunAccessor(h, prog, a, p, v, env) == StringSetBlock(h, prog, a.externFn, p, v, env)
  {
  }

  /** The property a member access `obj.<name>` resolves to. */
  function FindProperty(props: seq<SwiftProperty>, name: string): (r: Option<SwiftProperty>)
    ensures r.Some? ==> r.value in props && r.value.name == name
    ensures r.None? ==> forall q :: q in props ==> q.name != name
  {
    if props == [] then None
    else if props[0].name == name then Some(props[0])
    else FindProperty(props[1..], name)
  }

  /** Reading `obj.<name>`; `None` when the class has no such property or it has no `get`. */
  function GetProperty(h: Heap, prog: seq<RustItem>, c: SwiftClassDefinition, p: Handle, name: string, env: Env): Option<(Heap, SwiftValue)>
  {
    match FindProperty(c.properties, name)
    case Some(SwiftProperty(_, _, Some(g), _)) => RunAccessor(h, prog, g, p, Void, env)
    case _ => None
  }

  /** Assigning `obj.<name> = newValue`; `None` when there is no such property or no `set`. */
  function SetProperty(h: Heap, prog: seq<RustItem>, c: SwiftClassDefinition, p: Handle, name: string, newValue: SwiftValue, env: Env): Option<(Heap, SwiftValue)>
  {
    match FindProperty(c.properties, name)
    case Some(SwiftProperty(_, _, _, Some(s))) => RunAccessor(h, prog, s, p, newValue, env)
    case _ => None
  }

  /** `convenience init()`: `self.init(<default>())`. */
  function RunInit(h: Heap, prog: seq<RustItem>, c: SwiftClassDefinition, env: Env): Option<(Heap, Handle)>
  {
    match c.convenienceInit
    case None => None
    case Some(fn) =>
      match Call(h, prog, fn, [], env)
      case Returned(h1, Some(Ptr(q))) => Some((h1, q))
      case _ => None
  }

  /** `deinit`: drop on `self.rawPtr()`, with no check, since the handle is never null. */
  function RunDeinit(h: Heap, prog: seq<RustItem>, c: SwiftClassDefinition, p: Handle, env: Env): Option<Heap>
  {
    match Call(h, prog, c.deinitDrop, [Ptr(p)], env)
    case Returned(h1, _) => Some(h1)
    case Aborted => None
  }

  // Construction and destruction

  /** With a default constructor in the schema, `init()` boxes `T::default()` in a fresh handle. */
  lemma InitAllocates(prog: seq<RustItem>, sw: StructWrapper, h: Heap, env: Env)
    requires Linked(prog, sw) && Valid(h) && sw.defaultConstructor.Some?
    ensures var r := RunInit(h, prog, ClassDefinition(sw), env);
      && r.Some? && r.value.1 !in h.cells && Valid(r.value.0)
      && r.value.0.cells == h.cells[r.value.1 := Boxed(env.defaultOf(sw.name))]
  {
    DefaultCallAllocates(prog, sw, h, env);
  }

  /** Without one there is no `init()`. */
  lemma NoInitWithoutDefault(prog: seq<RustItem>, sw: StructWrapper, h: Heap, env: Env)
    requires sw.defaultConstructor.None?
    ensures RunInit(h, prog, ClassDefinition(sw), env).None?
  {
  }

  /** `deinit` frees exactly the instance's box. */
  lemma DeinitFreesBox(prog: seq<RustItem>, sw: StructWrapper, h: Heap, p: Handle, env: Env)
    requires Linked(prog, sw) && p in h.cells && h.cells[p].Boxed?
    ensures RunDeinit(h, prog, ClassDefinition(sw), p, env) == Some(Free(h, p))
  {
    DropCallFrees(prog, sw, h, p, env);
  }

  /** A second `deinit` on the same handle, as after two instances were made from one raw
      pointer, aborts. */
  lemma DeinitOfFreedAborts(prog: seq<RustItem>, sw: StructWrapper, h: Heap, p: Handle, env: Env)
    requires Linked(prog, sw) && p !in h.cells
    ensures RunDeinit(h, prog, ClassDefinition(sw), p, env).None?
  {
    LifecycleProvided(prog, sw);
  }

  // Properties

  /** The property of a field is found under the field's name. */
  lemma PropertyOfField(sw: StructWrapper, i: nat)
    requires DistinctFieldNames(sw.fields) && i < |sw.fields|
    ensures FindProperty(ClassDefinition(sw).properties, sw.fields[i].fieldName) == GenProperty(sw.fields[i])
  {
    var props := ClassDefinition(sw).properties;
    var r := FindProperty(props, sw.fields[i].fieldName);
    if GenProperty(sw.fields[i]).Some? {
      GenPropsExactly(sw.fields, GenProperty(sw.fields[i]).value);
    }
    if r.Some? {
      GenPropsExactly(sw.fields, r.value);
      var j :| 0 <= j < |sw.fields| && GenProperty(sw.fields[j]) == Some(r.value);
      assert j == i;
    }
  }

  /** Reading a Primitive property returns the field and changes nothing. */
  lemma PrimitiveGetReads(prog: seq<RustItem>, sw: StructWrapper, i: nat, h: Heap, p: Handle, env: Env)
    requires Linked(prog, sw) && DistinctFieldNames(sw.fields) && i < |sw.fields|
    requires sw.fields[i].wrapperType == Primitive && sw.fields[i].getter.Some?
    requires FieldOf(h, p, sw.fields[i].fieldName).Some?
    ensures GetProperty(h, prog, ClassDefinition(sw), p, sw.fields[i].fieldName, env)
         == Some((h, Prim(FieldOf(h, p, sw.fields[i].fieldName).value)))
  {
    var f := sw.fields[i];
    PropertyOfField(sw, i);
    AccessorsProvided(prog, sw, i);
    PrimitiveGetterReturnsField(sw.name, f, f.getter.value, h, p, env);
  }

  /** Assigning a Primitive property stores the new value in the field. */
  lemma PrimitiveSetWrites(prog: seq<RustItem>, sw: StructWrapper, i: nat, h: Heap, p: Handle, v: Value, env: Env)
    requires Linked(prog, sw) && DistinctFieldNames(sw.fields) && i < |sw.fields|
    requires sw.fields[i].wrapperType == Primitive && sw.fields[i].setter.Some?
    requires FieldOf(h, p, sw.fields[i].fieldName).Some?
    ensures SetProperty(h, prog, ClassDefinition(sw), p, sw.fields[i].fieldName, Prim(v), env)
         == Some((WithField(h, p, sw.fields[i].fieldName, v), Void))
  {
    var f := sw.fields[i];
    PropertyOfField(sw, i);
    AccessorsProvided(prog, sw, i);
    PrimitiveSetterOverwritesField(sw.name, f, f.setter.value, h, p, v, env);
  }

  /** Reading a String property returns the field's text; the descriptor it goes through is
      freed again. */
  lemma StringGetReads(prog: seq<RustItem>, sw: StructWrapper, i: nat, h: Heap, p: Handle, t: string, env: Env)
    requires Linked(prog, sw) && DistinctFieldNames(sw.fields) && Valid(h) && i < |sw.fields|
    requires sw.fields[i].wrapperType == String && sw.fields[i].getter.Some?
    requires FieldOf(h, p, sw.fields[i].fieldName) == Some(Text(t))
    ensures var r := GetProperty(h, prog, ClassDefinition(sw), p, sw.fields[i].fieldName, env);
      r.Some? && r.value.1 == Str(t) && r.value.0.cells == h.cells && Valid(r.value.0)
  {
    var f := sw.fields[i];
    PropertyOfField(sw, i);
    var prop := GenProperty(f).value;
    assert prop.getBlock == Some(StringGet(f.getter.value.externFnName));
    GetPropertyRuns(h, prog, ClassDefinition(sw), p, f.fieldName, env, prop);
    AccessorsProvided(prog, sw, i);
    ReadStringFieldReturnsField(h, prog, sw.name, f, f.getter.value, p, t, env);
  }

  /** A read of a property found by name runs its `get` block. */
  lemma GetPropertyRuns(h: Heap, prog: seq<RustItem>, c: SwiftClassDefinition, p: Handle, name: string, env: Env, prop: SwiftProperty)
    requires FindProperty(c.properties, name) == Some(prop) && prop.getBlock.Some?
    ensures GetProperty(h, prog, c, p, name, env) == RunAccessor(h, prog, prop.getBlock.value, p, Void, env)
  {
  }

  /** The `set` block of a String property hands over the NUL-terminated buffer, which the
      shim reads up to the first NUL; the length passed along is never read. */
  lemma RunStringSet(prog: seq<RustItem>, fn: string, h: Heap, p: Handle, s: string, env: Env, h1: Heap)
    requires |s| + 1 <= UInt32Max
    requires Call(h, prog, fn, [Ptr(p), CStr(CBuffer(s)), Size(|s| + 1)], env) == Returned(h1, None)
    ensures StringSetBlock(h, prog, fn, p, Str(s), env) == Some((h1, Void))
  {
    assert CStringCount(s) == Some(|s| + 1);
  }

  /** Assigning a String property stores its text up to the first NUL. */
  lemma StringSetWrites(prog: seq<RustItem>, sw: StructWrapper, i: nat, h: Heap, p: Handle, s: string, env: Env)
    requires Linked(prog, sw) && DistinctFieldNames(sw.fields) && i < |sw.fields|
    requires sw.fields[i].wrapperType == String && sw.fields[i].setter.Some?
    requires FieldOf(h, p, sw.fields[i].fieldName).Some? && |s| + 1 <= UInt32Max
    ensures SetProperty(h, prog, ClassDefinition(sw), p, sw.fields[i].fieldName, Str(s), env)
         == Some((WithField(h, p, sw.fields[i].fieldName, Text(CStrPrefix(s))), Void))
  {
    var f := sw.fields[i];
    PropertyOfField(sw, i);
    AccessorsProvided(prog, sw, i);
    SetterCallWrites(prog, sw.name, f, f.setter.value, h, p, CBuffer(s), |s| + 1, env);
    var h1 := WithField(h, p, f.fieldName, Text(CStrPrefix(CBuffer(s))));
    RunStringSet(prog, f.setter.value.externFnName, h, p, s, env, h1);
    CBufferReadBack(s);
    assert h1 == WithField(h, p, f.fieldName, Text(CStrPrefix(s)));
    AccessorBlocks(h, prog, StringSet(f.setter.value.externFnName), p, Str(s), env);
  }

  /** A string whose count with the terminator does not fit in a `UInt32` traps before the
      shim is called. */
  lemma StringSetTrapsOnHugeString(prog: seq<RustItem>, sw: StructWrapper, i: nat, h: Heap, p: Handle, s: string, env: Env)
    requires DistinctFieldNames(sw.fields) && i < |sw.fields|
    requires sw.fields[i].wrapperType == String && sw.fields[i].setter.Some?
    requires |s| + 1 > UInt32Max
    ensures SetProperty(h, prog, ClassDefinition(sw), p, sw.fields[i].fieldName, Str(s), env).None?
  {
    PropertyOfField(sw, i);
  }

  /** A field without a setter gives a read-only property, and a Custom field no property. */
  lemma MissingAccessorsRejected(prog: seq<RustItem>, sw: StructWrapper, i: nat, h: Heap, p: Handle, v: SwiftValue, env: Env)
    requires DistinctFieldNames(sw.fields) && i < |sw.fields|
    ensures sw.fields[i].setter.None? || sw.fields[i].wrapperType == Custom ==>
      SetProperty(h, prog, ClassDefinition(sw), p, sw.fields[i].fieldName, v, env).None?
    ensures sw.fields[i].getter.None? || sw.fields[i].wrapperType == Custom ==>
      GetProperty(h, prog, ClassDefinition(sw), p, sw.fields[i].fieldName, env).None?
  {
    PropertyOfField(sw, i);
  }

  /** Assigning a String property and reading it back yields the text up to its first NUL,
      which is the whole text when it has none. */
  lemma StringRoundTrip(prog: seq<RustItem>, sw: StructWrapper, i: nat, h: Heap, p: Handle, s: string, env: Env)
    requires Linked(prog, sw) && DistinctFieldNames(sw.fields) && Valid(h) && i < |sw.fields|
    requires sw.fields[i].wrapperType == String && sw.fields[i].getter.Some? && sw.fields[i].setter.Some?
    requires FieldOf(h, p, sw.fields[i].fieldName).Some? && |s| + 1 <= UInt32Max
    ensures var put := SetProperty(h, prog, ClassDefinition(sw), p, sw.fields[i].fieldName, Str(s), env);
      && put.Some?
      && var read := GetProperty(put.value.0, prog, ClassDefinition(sw), p, sw.fields[i].fieldName, env);
      && read.Some? && read.value.1 == Str(CStrPrefix(s))
      && ('\0' !in s ==> read.value.1 == Str(s))
  {
    var f := sw.fields[i];
    StringSetWrites(prog, sw, i, h, p, s, env);
    var h1 := WithField(h, p, f.fieldName, Text(CStrPrefix(s)));
    StringGetReads(prog, sw, i, h1, p, CStrPrefix(s), env);
  }

  /** Assigning a Primitive property and reading it back yields the value assigned. */
  lemma PrimitiveRoundTrip(prog: seq<RustItem>, sw: StructWrapper, i: nat, h: Heap, p: Handle, v: Value, env: Env)
    requires Linked(prog, sw) && DistinctFieldNames(sw.fields) && i < |sw.fields|
    requires sw.fields[i].wrapperType == Primitive && sw.fields[i].getter.Some? && sw.fields[i].setter.Some?
    requires FieldOf(h, p, sw.fields[i].fieldName).Some?
    ensures var put := SetProperty(h, prog, ClassDefinition(sw), p, sw.fields[i].fieldName, Prim(v), env);
      && put.Some?
      && GetProperty(put.value.0, prog, ClassDefinition(sw), p, sw.fields[i].fieldName, env) == Some((put.value.0, Prim(v)))
  {
    var f := sw.fields[i];
    PrimitiveSetWrites(prog, sw, i, h, p, v, env);
    PrimitiveGetReads(prog, sw, i, WithField(h, p, f.fieldName, v), p, env);
  }

  // Free functions

  /** A Swift argument has the type its parameter declares. */
  predicate Fits(p: SwiftParam, a: SwiftValue)
  {
    if p.ty == "String" then a.Str? else a.Prim?
  }

  /** The word passed for one argument: `casted_<a>`, the buffer of `utf8CString`, or the value.
      As for a String `set`, the buffer pointer escaped from `withUnsafeBufferPointer` is
      treated as still pointing at the text. */
  function CallWord(p: SwiftParam, a: SwiftValue): (r: Option<Word>)
    ensures r.Some? <==> Fits(p, a)
    ensures r.Some? && p.ty == "String" ==> r.value == CStr(CBuffer(a.s))
    ensures r.Some? && p.ty != "String" ==> r.value == Val(a.v)
  {
    if p.ty == "String" then (if a.Str? then Some(CStr(CBuffer(a.s))) else None)
    else if a.Prim? then Some(Val(a.v)) else None
  }

  function CallWords(params: seq<SwiftParam>, args: seq<SwiftValue>): (r: Option<seq<Word>>)
    ensures r.Some? <==> |params| == |args| && forall i :: 0 <= i < |params| ==> Fits(params[i], args[i])
    ensures r.Some? ==> |r.value| == |params| && forall i :: 0 <= i < |params| ==> Some(r.value[i]) == CallWord(params[i], args[i])
  {
    if params == [] || args == [] then (if |params| == |args| then Some([]) else None)
    else
      match (CallWord(params[0], args[0]), CallWords(params[1..], args[1..]))
      case (Some(w), Some(ws)) => Some([w] + ws)
      case _ => None
  }

  /** Running `Definition(fw)`: the call, then return the value, convert `RustString(result!)`
      (whose `deinit` drops the box), or nothing. */
  function RunFunction(h: Heap, prog: seq<RustItem>, d: SwiftFunctionDefinition, args: seq<SwiftValue>, env: Env): Option<(Heap, SwiftValue)>
  {
    match CallWords(d.params, args)
    case None => None
    case Some(words) =>
      match Call(h, prog, d.externName, words, env)
      case Aborted => None
      case Returned(h1, ret) =>
        match d.body
        case BareCall => Some((h1, Void))
        case ReturnCall(_) => if ret.Some? && ret.value.Val? then Some((h1, Prim(ret.value.value))) else None
        case CastThenReturn(_) =>
          if ret.Some? && ret.value.Ptr? then
            match ReadRustString(h1, prog, ret.value.handle, env)
            case Some((h2, s)) => Some((h2, Str(s)))
            case None => None
          else None
  }

  /** The value the original function receives for a Swift argument. */
  function ArgValue(a: SwiftValue): (r: Value)
    ensures a.Str? ==> r == Text(CStrPrefix(a.s))
    ensures a.Prim? ==> r == a.v
  {
    if a.Str? then Text(CStrPrefix(a.s)) else if a.Prim? then a.v else Scalar(0)
  }

  function ArgValues(args: seq<SwiftValue>): (r: seq<Value>)
    ensures |r| == |args| && forall i :: 0 <= i < |args| ==> r[i] == ArgValue(args[i])
  {
    seq(|args|, i requires 0 <= i < |args| => ArgValue(args[i]))
  }

  /** The Swift parameter types tell the two kinds apart: no Primitive argument is declared
      `String`, which the translator guarantees. */
  predicate SwiftKindsDistinct(args: seq<FunctionArgWrapper>)
  {
    forall i :: 0 <= i < |args| && args[i].wrapperType == ArgPrimitive ==> args[i].argType != "String"
  }

  /** The words a well-typed Swift call passes to the shim carry the original function's
      arguments, and the shim's outcome on them is the original function's. */
  lemma SwiftShimOutcome(fw: FunctionWrapper, h: Heap, args: seq<SwiftValue>, env: Env) returns (words: seq<Word>)
    requires Valid(h) && DistinctArgNames(fw.argsWrappers) && SwiftKindsDistinct(fw.argsWrappers)
    requires |args| == |fw.argsWrappers| && forall i :: 0 <= i < |args| ==> Fits(SwiftParamOf(fw.argsWrappers[i]), args[i])
    ensures CallWords(Definition(fw).params, args) == Some(words)
    ensures var o := RunItem(h, FunctionShimOf(fw), words, env);
      var result := env.call(fw.name, ArgValues(args));
      && (fw.returnWrapper.None? ==> o == Returned(h, None))
      && (fw.returnWrapper.Some? && fw.returnWrapper.value.wrapperType == ReturnPrimitive ==> o == Returned(h, Some(Val(result))))
      && (fw.returnWrapper.Some? && fw.returnWrapper.value.wrapperType == ReturnString && result.Text? ==>
            && o.Returned? && o.ret.Some? && o.ret.value.Ptr? && o.ret.value.handle !in h.cells
            && o.heap.cells == h.cells[o.ret.value.handle := BoxedString(result.text)])
  {
    words := CallWords(Definition(fw).params, args).value;
    var values := ArgValues(args);
    forall i | 0 <= i < |args| ensures ArgumentWord(fw.argsWrappers[i], words[i], values[i]) {
      if fw.argsWrappers[i].wrapperType == ArgString {
        CBufferReadBack(args[i].s);
      }
    }
    FunctionShimCallsOriginal(fw, h, words, values, env);
  }

  /** A wrapper whose body returns the extern's String box copies the text out and drops the
      box. */
  lemma RunCastThenReturn(h: Heap, prog: seq<RustItem>, d: SwiftFunctionDefinition, args: seq<SwiftValue>, words: seq<Word>,
                          env: Env, h1: Heap, q: Handle, t: string)
    requires Links(prog, RustCodeBase()) && d.body.CastThenReturn?
    requires CallWords(d.params, args) == Some(words)
    requires Call(h, prog, d.externName, words, env) == Returned(h1, Some(Ptr(q)))
    requires q in h1.cells && h1.cells[q] == BoxedString(t)
    ensures RunFunction(h, prog, d, args, env) == Some((Free(h1, q), Str(t)))
  {
    ReadRustStringReturnsText(h1, prog, q, t, env);
  }

  /** A call of the Swift wrapper of `fw` with arguments of the declared types calls the
      original function with those arguments, in order, and returns its result; a returned
      String is copied out and its box dropped, so the heap ends as it started. */
  lemma SwiftFunctionCallsOriginal(fw: FunctionWrapper, prog: seq<RustItem>, h: Heap, args: seq<SwiftValue>, env: Env)
    requires Valid(h) && DistinctArgNames(fw.argsWrappers) && SwiftKindsDistinct(fw.argsWrappers)
    requires Links(prog, RustCodeBase()) && Provides(prog, FunctionShimOf(fw))
    requires |args| == |fw.argsWrappers| && forall i :: 0 <= i < |args| ==> Fits(SwiftParamOf(fw.argsWrappers[i]), args[i])
    ensures var r := RunFunction(h, prog, Definition(fw), args, env);
      var result := env.call(fw.name, ArgValues(args));
      && (fw.returnWrapper.None? ==> r == Some((h, Void)))
      && (fw.returnWrapper.Some? && fw.returnWrapper.value.wrapperType == ReturnPrimitive ==> r == Some((h, Prim(result))))
      && (fw.returnWrapper.Some? && fw.returnWrapper.value.wrapperType == ReturnString && result.Text? ==>
            r.Some? && r.value.1 == Str(result.text) && r.value.0.cells == h.cells)
  {
    var words := SwiftShimOutcome(fw, h, args, env);
    var d := Definition(fw);
    var o := RunItem(h, FunctionShimOf(fw), words, env);
    assert Call(h, prog, d.externName, words, env) == o;
    var result := env.call(fw.name, ArgValues(args));
    if fw.returnWrapper.Some? && fw.returnWrapper.value.wrapperType == ReturnString && result.Text? {
      var q := o.ret.value.handle;
      RunCastThenReturn(h, prog, d, args, words, env, o.heap, q, result.text);
      FreeUndoesAlloc(h, o.heap, q, BoxedString(result.text));
    } else if o.Returned? {
      RunReturned(h, prog, d, args, words, env, o.heap, o.ret);
    }
  }

  /** A wrapper whose body returns nothing or the extern's value passes on what the extern
      returned. */
  lemma RunReturned(h: Heap, prog: seq<RustItem>, d: SwiftFunctionDefinition, args: seq<SwiftValue>, words: seq<Word>,
                    env: Env, h1: Heap, ret: Option<Word>)
    requires CallWords(d.params, args) == Some(words)
    requires Call(h, prog, d.externName, words, env) == Returned(h1, ret)
    ensures d.body.BareCall? ==> RunFunction(h, prog, d, args, env) == Some((h1, Void))
    ensures d.body.ReturnCall? && ret.Some? && ret.value.Val? ==> RunFunction(h, prog, d, args, env) == Some((h1, Prim(ret.value.value)))
  {
  }
}
