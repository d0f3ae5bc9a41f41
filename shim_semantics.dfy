/** What the generated Rust shims do on the abstract heap, and how a linked program resolves
    each symbol to the shim exported under it. */
module ShimSemantics {
  import opened Common
  import opened Naming
  import opened Schema
  import opened RustIr
  import opened Runtime
  import opened StructShim
  import opened FunctionShim
  import opened Base

  /** `prog` resolves the export of every extern item of `items` to that very item. */
  predicate Links(prog: seq<RustItem>, items: seq<RustItem>)
  {
    forall i :: 0 <= i < |items| && items[i].ExternFn? ==> FindExport(prog, items[i].exportName) == Some(items[i])
  }

  lemma {:induction false} ExportListed(items: seq<RustItem>, i: nat)
    requires i < |items| && items[i].ExternFn?
    ensures items[i].exportName in ExportNames(items)
  {
    if i == 0 {
      ExportNamesConcat([items[0]], items[1..]);
      assert items == [items[0]] + items[1..];
    } else {
      ExportListed(items[1..], i - 1);
    }
  }

  lemma HeadNotInTail(s: seq<string>)
    requires NoDuplicates(s) && |s| > 0
    ensures s[0] !in s[1..] && NoDuplicates(s[1..])
  {
    assert forall k :: 0 <= k < |s[1..]| ==> s[1..][k] == s[k + 1];
  }

  /** With distinct export names, lookup finds the one item exported under each name. */
  lemma {:induction false} FindExportUnique(items: seq<RustItem>, i: nat)
    requires i < |items| && items[i].ExternFn?
    requires NoDuplicates(ExportNames(items))
    ensures FindExport(items, items[i].exportName) == Some(items[i])
  {
    if i > 0 {
      var tail := ExportNames(items[1..]);
      ExportListed(items[1..], i - 1);
      if items[0].ExternFn? {
        assert ExportNames(items) == [items[0].exportName] + tail;
        HeadNotInTail(ExportNames(items));
        assert ExportNames(items)[1..] == tail;
      } else {
        assert ExportNames(items) == tail;
      }
      FindExportUnique(items[1..], i - 1);
    }
  }

  lemma LinksItself(prog: seq<RustItem>)
    requires NoDuplicates(ExportNames(prog))
    ensures Links(prog, prog)
  {
    forall i | 0 <= i < |prog| && prog[i].ExternFn? ensures FindExport(prog, prog[i].exportName) == Some(prog[i]) {
      FindExportUnique(prog, i);
    }
  }

  lemma LinksSplit(prog: seq<RustItem>, a: seq<RustItem>, b: seq<RustItem>)
    requires Links(prog, a + b)
    ensures Links(prog, a) && Links(prog, b)
  {
    forall i | 0 <= i < |a| && a[i].ExternFn? ensures FindExport(prog, a[i].exportName) == Some(a[i]) {
      assert (a + b)[i] == a[i];
    }
    forall i | 0 <= i < |b| && b[i].ExternFn? ensures FindExport(prog, b[i].exportName) == Some(b[i]) {
      assert (a + b)[|a| + i] == b[i];
    }
  }

  /** The symbols of the runtime code base and of one well-named struct's shim are pairwise distinct. */
  lemma StructProgramExportsDistinct(sw: StructWrapper)
    requires WellNamedStruct(sw) && DistinctFieldNames(sw.fields)
    ensures NoDuplicates(ExportNames(RustCodeBase() + StructShimOf(sw)))
  {
    ExportNamesConcat(RustCodeBase(), StructShimOf(sw));
    RustCodeBaseExportsReserved();
    StructShimExportsSchemaNames(sw);
    SchemaExternNamesDistinct(sw);
    ReservedNamesWellFormed();
    NoDuplicatesConcat(ReservedNames, SchemaExternNames(sw));
  }

  /** The crate of one struct: the runtime code base and the struct's shim resolve every
      symbol to the right item. */
  lemma StructProgramLinks(sw: StructWrapper)
    requires WellNamedStruct(sw) && DistinctFieldNames(sw.fields)
    ensures Links(RustCodeBase() + StructShimOf(sw), RustCodeBase())
    ensures Links(RustCodeBase() + StructShimOf(sw), StructShimOf(sw))
  {
    StructProgramExportsDistinct(sw);
    LinksItself(RustCodeBase() + StructShimOf(sw));
    LinksSplit(RustCodeBase() + StructShimOf(sw), RustCodeBase(), StructShimOf(sw));
  }

  function RunItem(h: Heap, item: RustItem, args: seq<Word>, env: Env): Outcome
    requires item.ExternFn?
  {
    Exec(h, item.body, item.ret, args, env)
  }

  // Field accessors

  /** A Primitive getter returns the field by value and changes nothing. */
  lemma PrimitiveGetterReturnsField(c: string, f: FieldWrapper, g: Getter, h: Heap, p: Handle, env: Env)
    requires f.wrapperType == Primitive && FieldOf(h, p, f.fieldName).Some?
    ensures RunItem(h, GetterShim(c, f, g), [Ptr(p)], env) == Returned(h, Some(Val(FieldOf(h, p, f.fieldName).value)))
  {
  }

  /** A Primitive setter overwrites that field only. */
  lemma PrimitiveSetterOverwritesField(c: string, f: FieldWrapper, s: Setter, h: Heap, p: Handle, v: Value, env: Env)
    requires f.wrapperType == Primitive && FieldOf(h, p, f.fieldName).Some?
    ensures RunItem(h, SetterShim(c, f, s), [Ptr(p), Val(v)], env) == Returned(WithField(h, p, f.fieldName, v), None)
  {
  }

  /** The String getter boxes a fresh descriptor that borrows the field's bytes; nothing else
      changes. */
  lemma StringGetterBoxesDescriptor(c: string, f: FieldWrapper, g: Getter, h: Heap, p: Handle, env: Env)
    requires Valid(h) && f.wrapperType == String
    requires FieldOf(h, p, f.fieldName).Some? && FieldOf(h, p, f.fieldName).value.Text?
    ensures var o := RunItem(h, GetterShim(c, f, g), [Ptr(p)], env);
      && o.Returned? && o.ret.Some? && o.ret.value.Ptr?
      && o.ret.value.handle !in h.cells
      && o.heap.cells == h.cells[o.ret.value.handle := Descriptor(p, f.fieldName, |FieldOf(h, p, f.fieldName).value.text|)]
  {
  }

  /** The String setter reads up to the NUL and ignores the length it is passed. */
  lemma StringSetterReadsToNul(c: string, f: FieldWrapper, s: Setter, h: Heap, p: Handle, bytes: string, n: nat, env: Env)
    requires f.wrapperType == String && FieldOf(h, p, f.fieldName).Some?
    ensures RunItem(h, SetterShim(c, f, s), [Ptr(p), CStr(bytes), Size(n)], env)
         == Returned(WithField(h, p, f.fieldName, Text(CStrPrefix(bytes))), None)
  {
  }

  /** The Custom getter hands out a fresh box holding a copy of the field, never the field. */
  lemma CustomGetterClones(c: string, f: FieldWrapper, g: Getter, h: Heap, p: Handle, env: Env)
    requires Valid(h) && f.wrapperType == Custom && FieldOf(h, p, f.fieldName).Some?
    ensures var o := RunItem(h, GetterShim(c, f, g), [Ptr(p)], env);
      && o.Returned? && o.ret.Some? && o.ret.value.Ptr?
      && o.ret.value.handle !in h.cells && o.ret.value.handle != p
      && o.heap.cells == h.cells[o.ret.value.handle := Boxed(FieldOf(h, p, f.fieldName).value)]
  {
  }

  /** The Custom setter stores a copy of the argument's value; the argument's box is untouched. */
  lemma CustomSetterClones(c: string, f: FieldWrapper, s: Setter, h: Heap, p: Handle, q: Handle, env: Env)
    requires f.wrapperType == Custom && FieldOf(h, p, f.fieldName).Some?
    requires q in h.cells && h.cells[q].Boxed? && q != p
    ensures var o := RunItem(h, SetterShim(c, f, s), [Ptr(p), Ptr(q)], env);
      && o == Returned(WithField(h, p, f.fieldName, h.cells[q].value), None)
      && o.heap.cells[q] == h.cells[q]
  {
  }

  // Lifecycle

  lemma DropFreesBox(dropFn: string, c: string, h: Heap, p: Handle, env: Env)
    requires p in h.cells && h.cells[p].Boxed?
    ensures RunItem(h, GenDrop(dropFn, c), [Ptr(p)], env) == Returned(Free(h, p), None)
  {
  }

  lemma CloneCopiesBox(cloneFn: string, c: string, h: Heap, p: Handle, env: Env)
    requires Valid(h) && p in h.cells && h.cells[p].Boxed?
    ensures var o := RunItem(h, GenClone(cloneFn, c), [Ptr(p)], env);
      && o.Returned? && o.ret.Some? && o.ret.value.Ptr?
      && o.ret.value.handle !in h.cells
      && o.heap.cells == h.cells[o.ret.value.handle := h.cells[p]]
  {
  }

  lemma DefaultAllocates(d: DefaultConstructor, c: string, h: Heap, env: Env)
    requires Valid(h)
    ensures var o := RunItem(h, GenDefaultConstructor(Some(d), c)[0], [], env);
      && o.Returned? && o.ret.Some? && o.ret.value.Ptr?
      && o.ret.value.handle !in h.cells
      && o.heap.cells == h.cells[o.ret.value.handle := Boxed(env.defaultOf(c))]
  {
  }

  // The runtime code base

  /** `slice_len` and `slice_ptr` read the descriptor and free nothing. */
  lemma SliceReadsLeaveHeap(h: Heap, d: Handle, env: Env)
    requires d in h.cells && h.cells[d].Descriptor?
    ensures RunItem(h, RustCodeBase()[1], [Ptr(d)], env) == Returned(h, Some(Size(h.cells[d].len)))
    ensures RunItem(h, RustCodeBase()[2], [Ptr(d)], env) == Returned(h, Some(Bytes(h.cells[d].owner, Some(h.cells[d].field))))
  {
  }

  /** `slice_drop` frees the descriptor box only; the bytes it borrowed stay with their owner. */
  lemma SliceDropFreesOnlyDescriptor(h: Heap, d: Handle, env: Env)
    requires d in h.cells && h.cells[d].Descriptor?
    ensures var o := RunItem(h, RustCodeBase()[3], [Ptr(d)], env);
      && o == Returned(Free(h, d), None)
      && forall q :: q in h.cells && q != d ==> q in o.heap.cells && o.heap.cells[q] == h.cells[q]
  {
  }

  /** `rust_string_data` and `rust_string_len` read the boxed String; `rust_string_drop` frees it. */
  lemma RustStringAccessors(h: Heap, q: Handle, env: Env)
    requires q in h.cells && h.cells[q].BoxedString?
    ensures RunItem(h, RustCodeBase()[4], [Ptr(q)], env) == Returned(Free(h, q), None)
    ensures RunItem(h, RustCodeBase()[5], [Ptr(q)], env) == Returned(h, Some(Bytes(q, None)))
    ensures RunItem(h, RustCodeBase()[6], [Ptr(q)], env) == Returned(h, Some(Size(|h.cells[q].text|)))
  {
  }

  // Free functions

  /** The word a caller passes for argument `a` carrying `v`: a C string for a String, the
      value itself otherwise. */
  predicate ArgumentWord(a: FunctionArgWrapper, w: Word, v: Value)
  {
    if a.wrapperType == ArgString then w.CStr? && v == Text(CStrPrefix(w.bytes)) else w == Val(v)
  }

  /** Distinct parameter names, as Rust requires of a function signature. */
  predicate DistinctArgNames(args: seq<FunctionArgWrapper>)
  {
    forall i, j :: 0 <= i < j < |args| ==> args[i].argName != args[j].argName
  }

  lemma {:induction false} StringArgNamesComplete(args: seq<FunctionArgWrapper>, i: nat)
    requires i < |args| && args[i].wrapperType == ArgString
    ensures args[i].argName in StringArgNames(args)
  {
    if i > 0 {
      StringArgNamesComplete(args[1..], i - 1);
    }
  }

  /** One more converted argument in front. */
  lemma ConvertArgsCons(names: seq<string>, casts: seq<string>, ws: seq<Word>, v: Value, vs: seq<Value>)
    requires |names| == |ws| > 0
    requires names[0] in casts ==> ws[0].CStr? && v == Text(CStrPrefix(ws[0].bytes))
    requires names[0] !in casts ==> ws[0] == Val(v)
    requires ConvertArgs(names[1..], casts, ws[1..]) == Some(vs)
    ensures ConvertArgs(names, casts, ws) == Some([v] + vs)
  {
  }

  lemma {:induction false} ConvertArgsInOrder(args: seq<FunctionArgWrapper>, words: seq<Word>, values: seq<Value>, k: nat)
    requires DistinctArgNames(args)
    requires |words| == |values| == |args| && k <= |args|
    requires forall i :: 0 <= i < |args| ==> ArgumentWord(args[i], words[i], values[i])
    ensures ConvertArgs(ArgNames(args)[k..], StringArgNames(args), words[k..]) == Some(values[k..])
    decreases |args| - k
  {
    if k < |args| {
      var names := ArgNames(args)[k..];
      var casts := StringArgNames(args);
      ConvertArgsInOrder(args, words, values, k + 1);
      assert names[0] == args[k].argName && names[1..] == ArgNames(args)[k + 1..];
      assert words[k..][0] == words[k] && words[k..][1..] == words[k + 1..];
      assert values[k..] == [values[k]] + values[k + 1..];
      assert ArgumentWord(args[k], words[k], values[k]);
      if args[k].wrapperType == ArgString {
        StringArgNamesComplete(args, k);
      } else {
        assert forall j :: 0 <= j < |args| && args[j].wrapperType == ArgString ==> args[j].argName != args[k].argName;
        assert args[k].argName !in casts;
      }
      ConvertArgsCons(names, casts, words[k..], values[k], values[k + 1..]);
    }
  }

  /** The function shim passes every argument, converted, in source order, to the original
      function, and returns its result: unchanged for a Primitive, as a fresh boxed String for a
      String, not at all without a result. */
  lemma FunctionShimCallsOriginal(fw: FunctionWrapper, h: Heap, words: seq<Word>, values: seq<Value>, env: Env)
    requires Valid(h) && DistinctArgNames(fw.argsWrappers)
    requires |words| == |values| == |fw.argsWrappers|
    requires forall i :: 0 <= i < |fw.argsWrappers| ==> ArgumentWord(fw.argsWrappers[i], words[i], values[i])
    ensures var o := RunItem(h, FunctionShimOf(fw), words, env);
      var result := env.call(fw.name, values);
      && (fw.returnWrapper.None? ==> o == Returned(h, None))
      && (fw.returnWrapper.Some? && fw.returnWrapper.value.wrapperType == ReturnPrimitive ==> o == Returned(h, Some(Val(result))))
      && (fw.returnWrapper.Some? && fw.returnWrapper.value.wrapperType == ReturnString && result.Text? ==>
            && o.Returned? && o.ret.Some? && o.ret.value.Ptr? && o.ret.value.handle !in h.cells
            && o.heap.cells == h.cells[o.ret.value.handle := BoxedString(result.text)])
  {
    ConvertArgsInOrder(fw.argsWrappers, words, values, 0);
    assert ArgNames(fw.argsWrappers)[0..] == ArgNames(fw.argsWrappers);
    assert words[0..] == words && values[0..] == values;
  }
}
