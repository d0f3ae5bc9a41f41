/** What the generated C++ and Swift code does with the runtime functions: calls through an
    object's handle, the String field read (descriptor, pointer, length, copy, free) and the
    `RustString` read of a returned String (data, length, copy, drop). Both bindings follow the
    same call order. */
module Consumer {
  import opened Common
  import opened Naming
  import opened Schema
  import opened RustIr
  import opened Runtime
  import opened Base
  import opened StructShim
  import opened ShimSemantics

  /** `prog` exports `item` under its own symbol. */
  predicate Provides(prog: seq<RustItem>, item: RustItem)
  {
    item.ExternFn? && FindExport(prog, item.exportName) == Some(item)
  }

  /** A program in which a struct's generated class can run: the runtime code base and the
      struct's shim resolve. */
  predicate Linked(prog: seq<RustItem>, sw: StructWrapper)
  {
    Links(prog, RustCodeBase()) && Links(prog, StructShimOf(sw))
  }

  /** The accessor items of field `i` are among those of all fields. */
  lemma {:induction false} FieldShimsListed(c: string, fields: seq<FieldWrapper>, i: nat, item: RustItem)
    requires i < |fields| && item in FieldShims(c, fields[i])
    ensures item in AllFieldShims(c, fields)
  {
    if i > 0 {
      FieldShimsListed(c, fields[1..], i - 1, item);
    }
  }

  lemma ProvidedByShim(prog: seq<RustItem>, sw: StructWrapper, item: RustItem)
    requires Links(prog, StructShimOf(sw)) && item in StructShimOf(sw) && item.ExternFn?
    ensures Provides(prog, item)
  {
    var k :| 0 <= k < |StructShimOf(sw)| && StructShimOf(sw)[k] == item;
  }

  /** A program that links a struct's shim provides its lifecycle functions. */
  lemma LifecycleProvided(prog: seq<RustItem>, sw: StructWrapper)
    requires Links(prog, StructShimOf(sw))
    ensures Provides(prog, GenDrop(sw.dropExtFnName, sw.name))
    ensures Provides(prog, GenClone(sw.cloneExtFnName, sw.name))
    ensures sw.defaultConstructor.Some? ==> Provides(prog, GenDefaultConstructor(sw.defaultConstructor, sw.name)[0])
  {
    var shim := StructShimOf(sw);
    ProvidedByShim(prog, sw, GenDrop(sw.dropExtFnName, sw.name));
    ProvidedByShim(prog, sw, GenClone(sw.cloneExtFnName, sw.name));
    if sw.defaultConstructor.Some? {
      ProvidedByShim(prog, sw, GenDefaultConstructor(sw.defaultConstructor, sw.name)[0]);
    }
  }

  // The lifecycle calls through their symbols.

  lemma DefaultCallAllocates(prog: seq<RustItem>, sw: StructWrapper, h: Heap, env: Env)
    requires Links(prog, StructShimOf(sw)) && Valid(h) && sw.defaultConstructor.Some?
    ensures var o := Call(h, prog, sw.defaultConstructor.value.externFnName, [], env);
      && o.Returned? && o.ret.Some? && o.ret.value.Ptr? && o.ret.value.handle !in h.cells
      && o.heap.cells == h.cells[o.ret.value.handle := Boxed(env.defaultOf(sw.name))] && Valid(o.heap)
  {
    LifecycleProvided(prog, sw);
    DefaultAllocates(sw.defaultConstructor.value, sw.name, h, env);
  }

  lemma DropCallFrees(prog: seq<RustItem>, sw: StructWrapper, h: Heap, p: Handle, env: Env)
    requires Links(prog, StructShimOf(sw)) && p in h.cells && h.cells[p].Boxed?
    ensures Call(h, prog, sw.dropExtFnName, [Ptr(p)], env) == Returned(Free(h, p), None)
  {
    LifecycleProvided(prog, sw);
    DropFreesBox(sw.dropExtFnName, sw.name, h, p, env);
  }

  lemma CloneCallCopies(prog: seq<RustItem>, sw: StructWrapper, h: Heap, p: Handle, env: Env)
    requires Links(prog, StructShimOf(sw)) && Valid(h) && p in h.cells && h.cells[p].Boxed?
    ensures var o := Call(h, prog, sw.cloneExtFnName, [Ptr(p)], env);
      && o.Returned? && o.ret.Some? && o.ret.value.Ptr? && o.ret.value.handle !in h.cells
      && o.heap.cells == h.cells[o.ret.value.handle := h.cells[p]] && Valid(o.heap)
  {
    LifecycleProvided(prog, sw);
    CloneCopiesBox(sw.cloneExtFnName, sw.name, h, p, env);
  }

  /** ... and the accessors of each of its fields. */
  lemma AccessorsProvided(prog: seq<RustItem>, sw: StructWrapper, i: nat)
    requires Links(prog, StructShimOf(sw)) && i < |sw.fields|
    ensures sw.fields[i].getter.Some? ==> Provides(prog, GetterShim(sw.name, sw.fields[i], sw.fields[i].getter.value))
    ensures sw.fields[i].setter.Some? ==> Provides(prog, SetterShim(sw.name, sw.fields[i], sw.fields[i].setter.value))
  {
    var f := sw.fields[i];
    if f.getter.Some? {
      FieldShimsListed(sw.name, sw.fields, i, GetterShim(sw.name, f, f.getter.value));
      ProvidedByShim(prog, sw, GetterShim(sw.name, f, f.getter.value));
    }
    if f.setter.Some? {
      FieldShimsListed(sw.name, sw.fields, i, SetterShim(sw.name, f, f.setter.value));
      ProvidedByShim(prog, sw, SetterShim(sw.name, f, f.setter.value));
    }
  }

  /** A call through `this->self` (C++) or `self.rawPtr()` (Swift). The shims dereference the
      handle, so a null one is undefined behaviour. */
  function CallOn(h: Heap, prog: seq<RustItem>, fn: string, self: Option<Handle>, rest: seq<Word>, env: Env): (r: Outcome)
    ensures self.None? ==> r == Aborted
    ensures self.Some? ==> r == Call(h, prog, fn, [Ptr(self.value)] + rest, env)
  {
    if self.None? then Aborted else Call(h, prog, fn, [Ptr(self.value)] + rest, env)
  }

  /** `slice_ptr`, `slice_len`, copy `len` bytes from the pointer, `slice_drop`. */
  function ReadSlice(h: Heap, prog: seq<RustItem>, d: Handle, env: Env): Option<(Heap, string)>
  {
    match Call(h, prog, SliceGetPtrFnName, [Ptr(d)], env)
    case Returned(h1, Some(ptr)) =>
      (match Call(h1, prog, SliceGetLenFnName, [Ptr(d)], env)
       case Returned(h2, Some(Size(n))) =>
         (match ReadBytes(h2, ptr, n)
          case Some(s) =>
            (match Call(h2, prog, SliceDropFnName, [Ptr(d)], env)
             case Returned(h3, _) => Some((h3, s))
             case Aborted => None)
          case None => None)
       case _ => None)
    case _ => None
  }

  /** A String getter on the consumer side: the getter shim boxes a descriptor, which is read
      and freed. */
  function ReadStringField(h: Heap, prog: seq<RustItem>, getterFn: string, self: Option<Handle>, env: Env): Option<(Heap, string)>
  {
    match CallOn(h, prog, getterFn, self, [], env)
    case Returned(h1, Some(Ptr(d))) => ReadSlice(h1, prog, d, env)
    case _ => None
  }

  /** `RustString(result).to_string()` and the wrapper's destructor (C++) or `deinit` (Swift):
      `rust_string_data`, `rust_string_len`, copy, `rust_string_drop`. */
  function ReadRustString(h: Heap, prog: seq<RustItem>, q: Handle, env: Env): Option<(Heap, string)>
  {
    match Call(h, prog, RustStringDataFnName, [Ptr(q)], env)
    case Returned(h1, Some(ptr)) =>
      (match Call(h1, prog, RustStringLenFnName, [Ptr(q)], env)
       case Returned(h2, Some(Size(n))) =>
         (match ReadBytes(h2, ptr, n)
          case Some(s) =>
            (match Call(h2, prog, RustStringDropFnName, [Ptr(q)], env)
             case Returned(h3, _) => Some((h3, s))
             case Aborted => None)
          case None => None)
       case _ => None)
    case _ => None
  }

  /** The NUL-terminated buffer behind `std::string::data()` and Swift's `utf8CString`. */
  function CBuffer(s: string): string
  {
    s + ['\0']
  }

  /** What the Rust side reads back from such a buffer is what it reads from the text alone:
      the terminator adds nothing. */
  lemma {:induction false} CBufferReadBack(s: string)
    ensures CStrPrefix(CBuffer(s)) == CStrPrefix(s)
  {
    if s != [] && s[0] != '\0' {
      assert CBuffer(s)[1..] == CBuffer(s[1..]);
      CBufferReadBack(s[1..]);
    }
  }

  /** Text with an embedded NUL is cut at the first one. */
  lemma {:induction false} CStrPrefixAtFirstNul(s: string, k: nat)
    requires k < |s| && s[k] == '\0' && '\0' !in s[..k]
    ensures CStrPrefix(s) == s[..k]
  {
    if k > 0 {
      assert s[0] == s[..k][0];
      assert s[1..][..k - 1] == s[1..k] && s[1..k] == s[..k][1..];
      CStrPrefixAtFirstNul(s[1..], k - 1);
      assert s[..k] == [s[0]] + s[1..][..k - 1];
    }
  }

  // One runtime call each: the code base resolves the symbol to its body.

  lemma SlicePtrCall(h: Heap, prog: seq<RustItem>, d: Handle, env: Env)
    requires Links(prog, RustCodeBase())
    requires d in h.cells && h.cells[d].Descriptor?
    ensures Call(h, prog, SliceGetPtrFnName, [Ptr(d)], env) == Returned(h, Some(Bytes(h.cells[d].owner, Some(h.cells[d].field))))
  {
    assert RustCodeBase()[2].exportName == SliceGetPtrFnName;
  }

  lemma SliceLenCall(h: Heap, prog: seq<RustItem>, d: Handle, env: Env)
    requires Links(prog, RustCodeBase())
    requires d in h.cells && h.cells[d].Descriptor?
    ensures Call(h, prog, SliceGetLenFnName, [Ptr(d)], env) == Returned(h, Some(Size(h.cells[d].len)))
  {
    assert RustCodeBase()[1].exportName == SliceGetLenFnName;
  }

  lemma SliceDropCall(h: Heap, prog: seq<RustItem>, d: Handle, env: Env)
    requires Links(prog, RustCodeBase())
    requires d in h.cells && h.cells[d].Descriptor?
    ensures Call(h, prog, SliceDropFnName, [Ptr(d)], env) == Returned(Free(h, d), None)
  {
    assert RustCodeBase()[3].exportName == SliceDropFnName;
  }

  /** Reading a descriptor returns the borrowed field text and frees only the descriptor. */
  lemma ReadSliceOfDescriptor(h: Heap, prog: seq<RustItem>, d: Handle, p: Handle, f: string, t: string, env: Env)
    requires Links(prog, RustCodeBase())
    requires d in h.cells && h.cells[d] == Descriptor(p, f, |t|) && FieldOf(h, p, f) == Some(Text(t))
    ensures ReadSlice(h, prog, d, env) == Some((Free(h, d), t))
  {
    SlicePtrCall(h, prog, d, env);
    SliceLenCall(h, prog, d, env);
    SliceDropCall(h, prog, d, env);
    assert t[..|t|] == t;
    assert ReadBytes(h, Bytes(p, Some(f)), |t|) == Some(t);
  }

  /** A call of a String setter through its symbol stores the text up to the first NUL. */
  lemma SetterCallWrites(prog: seq<RustItem>, c: string, f: FieldWrapper, st: Setter, h: Heap, p: Handle, b: string, n: nat, env: Env)
    requires f.wrapperType == String && Provides(prog, SetterShim(c, f, st)) && FieldOf(h, p, f.fieldName).Some?
    ensures Call(h, prog, st.externFnName, [Ptr(p), CStr(b), Size(n)], env)
         == Returned(WithField(h, p, f.fieldName, Text(CStrPrefix(b))), None)
  {
    StringSetterReadsToNul(c, f, st, h, p, b, n, env);
  }

  /** A String field read through the generated getter returns the field's text and leaves
      every live cell as it was: the descriptor it allocates is freed again. */
  lemma ReadStringFieldReturnsField(h: Heap, prog: seq<RustItem>, c: string, f: FieldWrapper, g: Getter, p: Handle, t: string, env: Env)
    requires Valid(h) && Links(prog, RustCodeBase()) && Provides(prog, GetterShim(c, f, g))
    requires f.wrapperType == String && FieldOf(h, p, f.fieldName) == Some(Text(t))
    ensures ReadStringField(h, prog, g.externFnName, Some(p), env).Some?
    ensures var (h', s) := ReadStringField(h, prog, g.externFnName, Some(p), env).value;
      s == t && h'.cells == h.cells && Valid(h')
  {
    var (h1, d) := Alloc(h, Descriptor(p, f.fieldName, |t|));
    assert CallOn(h, prog, g.externFnName, Some(p), [], env) == Returned(h1, Some(Ptr(d)));
    assert FieldOf(h1, p, f.fieldName) == Some(Text(t));
    ReadSliceOfDescriptor(h1, prog, d, p, f.fieldName, t, env);
    assert Free(h1, d).cells == h.cells;
  }

  lemma RustStringDataCall(h: Heap, prog: seq<RustItem>, q: Handle, env: Env)
    requires Links(prog, RustCodeBase())
    requires q in h.cells && h.cells[q].BoxedString?
    ensures Call(h, prog, RustStringDataFnName, [Ptr(q)], env) == Returned(h, Some(Bytes(q, None)))
  {
    assert RustCodeBase()[5].exportName == RustStringDataFnName;
  }

  lemma RustStringLenCall(h: Heap, prog: seq<RustItem>, q: Handle, env: Env)
    requires Links(prog, RustCodeBase())
    requires q in h.cells && h.cells[q].BoxedString?
    ensures Call(h, prog, RustStringLenFnName, [Ptr(q)], env) == Returned(h, Some(Size(|h.cells[q].text|)))
  {
    assert RustCodeBase()[6].exportName == RustStringLenFnName;
  }

  lemma RustStringDropCall(h: Heap, prog: seq<RustItem>, q: Handle, env: Env)
    requires Links(prog, RustCodeBase())
    requires q in h.cells && h.cells[q].BoxedString?
    ensures Call(h, prog, RustStringDropFnName, [Ptr(q)], env) == Returned(Free(h, q), None)
  {
    assert RustCodeBase()[4].exportName == RustStringDropFnName;
  }

  /** Converting a returned Rust String copies its text and drops it. */
  lemma ReadRustStringReturnsText(h: Heap, prog: seq<RustItem>, q: Handle, t: string, env: Env)
    requires Links(prog, RustCodeBase())
    requires q in h.cells && h.cells[q] == BoxedString(t)
    ensures ReadRustString(h, prog, q, env) == Some((Free(h, q), t))
  {
    RustStringDataCall(h, prog, q, env);
    RustStringLenCall(h, prog, q, env);
    RustStringDropCall(h, prog, q, env);
    assert t[..|t|] == t;
    assert ReadBytes(h, Bytes(q, None), |t|) == Some(t);
  }
}
