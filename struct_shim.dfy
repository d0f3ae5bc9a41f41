/** The Rust `extern "C"` shim of a struct schema (`From<&StructWrapper>`): the struct
    definition without its `ffi` attributes, the accessors of every field, the optional default
    constructor, drop and clone. */
module StructShim {
  import opened Common
  import opened Syntax
  import opened Naming
  import opened Schema
  import opened RustIr

  function SelfParam(className: string): RustParam
  {
    RustParam("_self", MutPtr(className))
  }

  /** `gen_drop`: `<C>_drop(_self: *mut C)` frees the box. */
  function GenDrop(dropExtFnName: string, className: string): (r: RustItem)
    ensures r.ExternFn? && r.exportName == dropExtFnName && r.name == DropShimName(className)
    ensures r.params == [SelfParam(className)] && r.ret == None && r.body == DropBox
  {
    ExternFn(dropExtFnName, DropShimName(className), [SelfParam(className)], None, DropBox)
  }

  /** `gen_clone`: `<C>_clone(_self: *mut C) -> *mut C` boxes a clone. */
  function GenClone(cloneExtFnName: string, className: string): (r: RustItem)
    ensures r.ExternFn? && r.exportName == cloneExtFnName && r.name == CloneShimName(className)
    ensures r.params == [SelfParam(className)] && r.ret == Some(MutPtr(className)) && r.body == CloneBox
  {
    ExternFn(cloneExtFnName, CloneShimName(className), [SelfParam(className)], Some(MutPtr(className)), CloneBox)
  }

  /** `gen_default_constructor`: nothing when the schema records no default constructor. */
  function GenDefaultConstructor(dc: Option<DefaultConstructor>, className: string): (r: seq<RustItem>)
    ensures dc.None? <==> r == []
    ensures dc.Some? ==> r == [ExternFn(dc.value.externFnName, dc.value.constructorName, [], Some(MutPtr(className)), DefaultBox(className))]
  {
    match dc
    case None => []
    case Some(d) => [ExternFn(d.externFnName, d.constructorName, [], Some(MutPtr(className)), DefaultBox(className))]
  }

  /** The getter shim of one field: by value for Primitive, a boxed `FfiSlice` for String,
      a leaked fresh clone for Custom. */
  function GetterShim(className: string, f: FieldWrapper, g: Getter): (r: RustItem)
    ensures r.ExternFn? && r.exportName == g.externFnName && r.name == ShimFnName(className, g.name)
    ensures r.params == [SelfParam(className)]
    ensures f.wrapperType == Primitive ==> r.ret == Some(Named(f.fieldType)) && r.body == ReadField(f.fieldName)
    ensures f.wrapperType == String ==> r.ret == Some(MutPtr("FfiSlice")) && r.body == BoxSlice(f.fieldName)
    ensures f.wrapperType == Custom ==> r.ret == Some(MutPtr(f.fieldType)) && r.body == LeakClone(f.fieldName)
  {
    var name := ShimFnName(className, g.name);
    match f.wrapperType
    case Primitive => ExternFn(g.externFnName, name, [SelfParam(className)], Some(Named(f.fieldType)), ReadField(f.fieldName))
    case String => ExternFn(g.externFnName, name, [SelfParam(className)], Some(MutPtr("FfiSlice")), BoxSlice(f.fieldName))
    case Custom => ExternFn(g.externFnName, name, [SelfParam(className)], Some(MutPtr(f.fieldType)), LeakClone(f.fieldName))
  }

  /** The setter shim of one field: overwrite for Primitive, a NUL-terminated copy for String
      (the `_len` argument is unused), a clone of the pointee for Custom. */
  function SetterShim(className: string, f: FieldWrapper, s: Setter): (r: RustItem)
    ensures r.ExternFn? && r.exportName == s.externFnName && r.name == ShimFnName(className, s.name)
    ensures r.ret == None && |r.params| >= 2 && r.params[0] == SelfParam(className)
    ensures f.wrapperType == Primitive ==> r.params[1..] == [RustParam("value", Named(f.fieldType))] && r.body == WriteField(f.fieldName)
    ensures f.wrapperType == String ==>
      r.params[1..] == [RustParam("ptr", ConstPtr("i8")), RustParam("_len", Named("usize"))] && r.body == WriteFromCStr(f.fieldName)
    ensures f.wrapperType == Custom ==> r.params[1..] == [RustParam("value", MutPtr(f.fieldType))] && r.body == WriteClone(f.fieldName)
  {
    var name := ShimFnName(className, s.name);
    match f.wrapperType
    case Primitive =>
      ExternFn(s.externFnName, name, [SelfParam(className), RustParam("value", Named(f.fieldType))], None, WriteField(f.fieldName))
    case String =>
      ExternFn(s.externFnName, name, [SelfParam(className), RustParam("ptr", ConstPtr("i8")), RustParam("_len", Named("usize"))],
               None, WriteFromCStr(f.fieldName))
    case Custom =>
      ExternFn(s.externFnName, name, [SelfParam(className), RustParam("value", MutPtr(f.fieldType))], None, WriteClone(f.fieldName))
  }

  /** The accessor items of one field: the getter, if any, then the setter, if any. */
  function FieldShims(className: string, f: FieldWrapper): seq<RustItem>
  {
    (if f.getter.Some? then [GetterShim(className, f, f.getter.value)] else [])
    + (if f.setter.Some? then [SetterShim(className, f, f.setter.value)] else [])
  }

  /** `map_primitive_field` / `map_string_field` / `map_custom_field`: grow the token list with
      the getter, then the setter. */
  method MapField(f: FieldWrapper, className: string) returns (tokens: seq<RustItem>)
    ensures tokens == FieldShims(className, f)
    ensures ExportNames(tokens) == FieldExternNames(f)
  {
    tokens := [];
    if f.getter.Some? {
      tokens := tokens + [GetterShim(className, f, f.getter.value)];
    }
    if f.setter.Some? {
      tokens := tokens + [SetterShim(className, f, f.setter.value)];
    }
    FieldShimsExports(className, f);
  }

  lemma FieldShimsExports(className: string, f: FieldWrapper)
    ensures ExportNames(FieldShims(className, f)) == FieldExternNames(f)
  {
    var g := if f.getter.Some? then [GetterShim(className, f, f.getter.value)] else [];
    var s := if f.setter.Some? then [SetterShim(className, f, f.setter.value)] else [];
    ExportNamesConcat(g, s);
  }

  /** The accessor items of all fields, in declaration order. */
  function AllFieldShims(className: string, fields: seq<FieldWrapper>): seq<RustItem>
  {
    if fields == [] then [] else FieldShims(className, fields[0]) + AllFieldShims(className, fields[1..])
  }

  lemma {:induction false} AllFieldShimsExports(className: string, fields: seq<FieldWrapper>)
    ensures ExportNames(AllFieldShims(className, fields)) == AccessorExternNames(fields)
  {
    if fields != [] {
      FieldShimsExports(className, fields[0]);
      AllFieldShimsExports(className, fields[1..]);
      ExportNamesConcat(FieldShims(className, fields[0]), AllFieldShims(className, fields[1..]));
    }
  }

  lemma {:induction false} AllFieldShimsSnoc(className: string, fields: seq<FieldWrapper>, f: FieldWrapper)
    ensures AllFieldShims(className, fields + [f]) == AllFieldShims(className, fields) + FieldShims(className, f)
  {
    if fields == [] {
      assert [] + [f] == [f] && [f][1..] == [];
    } else {
      var head := FieldShims(className, fields[0]);
      assert (fields + [f])[0] == fields[0] && (fields + [f])[1..] == fields[1..] + [f];
      AllFieldShimsSnoc(className, fields[1..], f);
      assert AllFieldShims(className, fields + [f]) == head + (AllFieldShims(className, fields[1..]) + FieldShims(className, f));
      assert head + (AllFieldShims(className, fields[1..]) + FieldShims(className, f))
          == (head + AllFieldShims(className, fields[1..])) + FieldShims(className, f);
    }
  }

  // Removing the `ffi` attributes from the re-emitted definition

  /** `attrs.retain(|a| !a.path().is_ident("ffi"))`. */
  function RetainNonFfi(attrs: seq<Attribute>): (r: seq<Attribute>)
    ensures |r| <= |attrs|
  {
    if attrs == [] then []
    else (if attrs[0].path == "ffi" then [] else [attrs[0]]) + RetainNonFfi(attrs[1..])
  }

  /** Only `ffi` attributes are removed: every other attribute survives. */
  lemma {:induction false} RetainNonFfiKeepsOthers(attrs: seq<Attribute>, a: Attribute)
    ensures a in RetainNonFfi(attrs) <==> a in attrs && a.path != "ffi"
  {
    if attrs != [] {
      RetainNonFfiKeepsOthers(attrs[1..], a);
      assert a in attrs <==> a == attrs[0] || a in attrs[1..];
    }
  }

  /** Order is kept, and a list without `ffi` attributes is left as it is. */
  lemma {:induction false} RetainNonFfiIdentity(attrs: seq<Attribute>)
    requires forall i :: 0 <= i < |attrs| ==> attrs[i].path != "ffi"
    ensures RetainNonFfi(attrs) == attrs
  {
    if attrs != [] {
      assert forall i :: 0 <= i < |attrs[1..]| ==> attrs[1..][i] == attrs[i + 1];
      RetainNonFfiIdentity(attrs[1..]);
    }
  }

  function StrippedField(f: Field): Field
  {
    f.(attrs := RetainNonFfi(f.attrs))
  }

  /** The definition the shim re-emits: the original struct without field-level `ffi` attributes. */
  function StrippedStruct(item: ItemStruct): (r: ItemStruct)
    ensures r.attrs == item.attrs && r.vis == item.vis && r.ident == item.ident
    ensures |r.fields| == |item.fields|
    ensures forall i :: 0 <= i < |item.fields| ==> r.fields[i] == StrippedField(item.fields[i])
  {
    item.(fields := seq(|item.fields|, i requires 0 <= i < |item.fields| => StrippedField(item.fields[i])))
  }

  /** `item_struct.fields.iter_mut().for_each(|field| field.attrs.retain(..))`. */
  method StripFfiAttributes(item: ItemStruct) returns (stripped: ItemStruct)
    ensures stripped == StrippedStruct(item)
  {
    var fields := item.fields;
    for i := 0 to |fields|
      invariant |fields| == |item.fields|
      invariant forall k :: 0 <= k < i ==> fields[k] == StrippedField(item.fields[k])
      invariant forall k :: i <= k < |fields| ==> fields[k] == item.fields[k]
    {
      fields := fields[i := fields[i].(attrs := RetainNonFfi(fields[i].attrs))];
    }
    stripped := item.(fields := fields);
  }

  /** The whole struct shim, in emission order. */
  function StructShimOf(sw: StructWrapper): seq<RustItem>
  {
    [StructDefinition(StrippedStruct(sw.originalItemStruct))]
    + AllFieldShims(sw.name, sw.fields)
    + GenDefaultConstructor(sw.defaultConstructor, sw.name)
    + [GenDrop(sw.dropExtFnName, sw.name), GenClone(sw.cloneExtFnName, sw.name)]
  }

  /** `From<&StructWrapper> for TokenStream2`. */
  method GenStructShim(sw: StructWrapper) returns (items: seq<RustItem>)
    ensures items == StructShimOf(sw)
  {
    var definition := StripFfiAttributes(sw.originalItemStruct);
    var fields: seq<RustItem> := [];
    for i := 0 to |sw.fields|
      invariant fields == AllFieldShims(sw.name, sw.fields[..i])
    {
      var tokens := MapField(sw.fields[i], sw.name);
      AllFieldShimsSnoc(sw.name, sw.fields[..i], sw.fields[i]);
      assert sw.fields[..i + 1] == sw.fields[..i] + [sw.fields[i]];
      fields := fields + tokens;
    }
    assert sw.fields[..|sw.fields|] == sw.fields;
    items := [StructDefinition(definition)] + fields
      + GenDefaultConstructor(sw.defaultConstructor, sw.name)
      + [GenDrop(sw.dropExtFnName, sw.name), GenClone(sw.cloneExtFnName, sw.name)];
  }

  /** Cross-item agreement on the Rust side: the shim exports exactly the schema's symbols,
      accessors in field order with getter before setter, then default, drop and clone. */
  lemma StructShimExportsSchemaNames(sw: StructWrapper)
    ensures ExportNames(StructShimOf(sw)) == SchemaExternNames(sw)
  {
    var def := [StructDefinition(StrippedStruct(sw.originalItemStruct))];
    var acc := AllFieldShims(sw.name, sw.fields);
    var dc := GenDefaultConstructor(sw.defaultConstructor, sw.name);
    var life := [GenDrop(sw.dropExtFnName, sw.name), GenClone(sw.cloneExtFnName, sw.name)];
    AllFieldShimsExports(sw.name, sw.fields);
    ExportNamesConcat(def, acc);
    ExportNamesConcat(def + acc, dc);
    ExportNamesConcat(def + acc + dc, life);
    assert ExportNames(def) == [] by { assert def[1..] == []; }
    assert ExportNames(dc) == DefaultExternNames(sw) by {
      if dc != [] { assert dc[1..] == []; }
    }
    assert ExportNames(life) == [sw.dropExtFnName, sw.cloneExtFnName] by {
      assert life[1..][1..] == [];
    }
    assert ExportNames(def + acc) == AccessorExternNames(sw.fields);
    assert StructShimOf(sw) == def + acc + dc + life;
  }

  /** The shim keeps the struct first and ends with drop then clone. */
  lemma StructShimFrame(sw: StructWrapper)
    ensures StructShimOf(sw)[0] == StructDefinition(StrippedStruct(sw.originalItemStruct))
    ensures |StructShimOf(sw)| >= 3
    ensures StructShimOf(sw)[|StructShimOf(sw)| - 2].body == DropBox
    ensures StructShimOf(sw)[|StructShimOf(sw)| - 1].body == CloneBox
  {
  }
}
