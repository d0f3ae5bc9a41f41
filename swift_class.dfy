/** `gen_class_header` / `gen_class_definition`: the C-header lines and the Swift class of a
    struct schema. Custom fields are not supported on this side and produce nothing. */
module SwiftClass {
  import opened Common
  import opened Naming
  import opened Schema
  import opened CDecl

  /** A `get` or `set` block of a property. */
  datatype SwiftAccessor =
    | PrimitiveGet(externFn: string)   // return ext(self.rawPtr())
    | PrimitiveSet(externFn: string)   // ext(self.rawPtr(), newValue)
    | StringGet(externFn: string)      // descriptor read, then slice_drop
    | StringSet(externFn: string)      // ext(self.rawPtr(), utf8CString pointer, UInt32(count))

  datatype SwiftProperty = SwiftProperty(name: string, ty: string, getBlock: Option<SwiftAccessor>, setBlock: Option<SwiftAccessor>)

  /** `public class <C>: Opaque`: `deinit` calls drop on `rawPtr()`; `convenience init()` calls
      the default constructor when there is one. */
  datatype SwiftClassDefinition = SwiftClassDefinition(
    className: string,
    superclass: string,
    deinitDrop: string,
    convenienceInit: Option<string>,
    properties: seq<SwiftProperty>)

  /** `map_primitive_getter_as_extern_fn`: `<T> <getter>(void*)`, which needs the field's
      type name declared. */
  function PrimitiveGetterExtern(g: Getter, fieldType: string): (r: CExtern)
    ensures r.name == g.externFnName && r.params == [CVoidPtr]
    ensures forall names :: ExternTypesDeclared(r, names) <==> fieldType in names
  {
    CExtern(CNamed(fieldType), g.externFnName, [CVoidPtr])
  }

  /** `map_primitive_setter_as_extern_fn`: `void <setter>(void*, <T>)`, which needs the field's
      type name declared. */
  function PrimitiveSetterExtern(s: Setter, fieldType: string): (r: CExtern)
    ensures r.name == s.externFnName && r.ret == CVoid && |r.params| == 2 && r.params[0] == CVoidPtr
    ensures forall names :: ExternTypesDeclared(r, names) <==> fieldType in names
  {
    var r := CExtern(CVoid, s.externFnName, [CVoidPtr, CNamed(fieldType)]);
    assert forall names :: ExternTypesDeclared(r, names) ==> TypeDeclared(r.params[1], names);
    r
  }

  /** `map_string_getter_as_extern_fn`: `void* <getter>(void*)`, returning the descriptor; it
      names no primitive type. */
  function StringGetterExtern(g: Getter): (r: CExtern)
    ensures r.name == g.externFnName && r.ret == CVoidPtr && r.params == [CVoidPtr]
    ensures forall names :: ExternTypesDeclared(r, names)
  {
    CExtern(CVoidPtr, g.externFnName, [CVoidPtr])
  }

  /** `map_string_setter_as_extern_fn`: `void <setter>(void*, const char*, unsigned int)`; the
      length parameter is declared `unsigned int`, where the Rust shim takes a `usize`. It names
      no primitive type. */
  function StringSetterExtern(s: Setter): (r: CExtern)
    ensures r.name == s.externFnName && r.ret == CVoid && r.params == [CVoidPtr, CConstCharPtr, CUnsignedInt]
    ensures forall names :: ExternTypesDeclared(r, names)
  {
    CExtern(CVoid, s.externFnName, [CVoidPtr, CConstCharPtr, CUnsignedInt])
  }

  /** `gen_getter_and_setter_externs`: getter line, then setter line; nothing for Custom. */
  function FieldExterns(f: FieldWrapper): (r: seq<CExtern>)
    ensures ExternNames(r) == if f.wrapperType == Custom then [] else FieldExternNames(f)
  {
    match f.wrapperType
    case Custom => []
    case Primitive =>
      (if f.getter.Some? then [PrimitiveGetterExtern(f.getter.value, f.fieldType)] else [])
      + (if f.setter.Some? then [PrimitiveSetterExtern(f.setter.value, f.fieldType)] else [])
    case String =>
      (if f.getter.Some? then [StringGetterExtern(f.getter.value)] else [])
      + (if f.setter.Some? then [StringSetterExtern(f.setter.value)] else [])
  }

  /** `gen_getters_and_setters_externs`: the field lines in declaration order. */
  function GettersAndSettersExterns(fields: seq<FieldWrapper>): (r: seq<CExtern>)
    ensures ExternNames(r) == NonCustomAccessorExternNames(fields)
  {
    if fields == [] then []
    else
      var r := FieldExterns(fields[0]) + GettersAndSettersExterns(fields[1..]);
      ExternNamesConcat(FieldExterns(fields[0]), GettersAndSettersExterns(fields[1..]));
      r
  }

  function DefaultConstructorExtern(sw: StructWrapper): (r: seq<CExtern>)
    ensures ExternNames(r) == DefaultExternNames(sw)
    ensures sw.defaultConstructor.Some? ==> r == [CExtern(CVoidPtr, sw.defaultConstructor.value.externFnName, [])]
  {
    if sw.defaultConstructor.Some? then [CExtern(CVoidPtr, sw.defaultConstructor.value.externFnName, [])] else []
  }

  /** `gen_class_header`: drop, then the accessor lines, then the default constructor. */
  function ClassHeader(sw: StructWrapper): (r: seq<CExtern>)
    ensures ExternNames(r) == [sw.dropExtFnName] + NonCustomAccessorExternNames(sw.fields) + DefaultExternNames(sw)
  {
    var r := [CExtern(CVoid, sw.dropExtFnName, [CVoidPtr])] + GettersAndSettersExterns(sw.fields) + DefaultConstructorExtern(sw);
    ExternNamesConcat([CExtern(CVoid, sw.dropExtFnName, [CVoidPtr])], GettersAndSettersExterns(sw.fields));
    ExternNamesConcat([CExtern(CVoid, sw.dropExtFnName, [CVoidPtr])] + GettersAndSettersExterns(sw.fields), DefaultConstructorExtern(sw));
    r
  }

  /** `gen_property`: a property iff the field is not Custom and has an accessor, with a `get`
      block iff it has a getter and a `set` block iff it has a setter. */
  function GenProperty(f: FieldWrapper): (r: Option<SwiftProperty>)
    ensures r.Some? <==> f.wrapperType != Custom && (f.getter.Some? || f.setter.Some?)
    ensures r.Some? ==> r.value.name == f.fieldName && r.value.ty == f.fieldType
    ensures r.Some? ==> (r.value.getBlock.Some? <==> f.getter.Some?) && (r.value.setBlock.Some? <==> f.setter.Some?)
    ensures r.Some? && f.getter.Some? ==>
      r.value.getBlock == Some(if f.wrapperType == Primitive then PrimitiveGet(f.getter.value.externFnName) else StringGet(f.getter.value.externFnName))
    ensures r.Some? && f.setter.Some? ==>
      r.value.setBlock == Some(if f.wrapperType == Primitive then PrimitiveSet(f.setter.value.externFnName) else StringSet(f.setter.value.externFnName))
  {
    var (getBlock, setBlock) :=
      match f.wrapperType
      case Primitive =>
        (if f.getter.Some? then Some(PrimitiveGet(f.getter.value.externFnName)) else None,
         if f.setter.Some? then Some(PrimitiveSet(f.setter.value.externFnName)) else None)
      case Custom => (None, None)
      case String =>
        (if f.getter.Some? then Some(StringGet(f.getter.value.externFnName)) else None,
         if f.setter.Some? then Some(StringSet(f.setter.value.externFnName)) else None);
    if getBlock.None? && setBlock.None? then None else Some(SwiftProperty(f.fieldName, f.fieldType, getBlock, setBlock))
  }

  /** `gen_props`: the properties of the fields that have one, in declaration order. */
  function GenProps(fields: seq<FieldWrapper>): (r: seq<SwiftProperty>)
    ensures |r| <= |fields|
    ensures r == [] <==> forall i :: 0 <= i < |fields| ==> GenProperty(fields[i]).None?
    ensures forall p :: p in r ==> p.getBlock.Some? || p.setBlock.Some?
  {
    if fields == [] then []
    else (if GenProperty(fields[0]).Some? then [GenProperty(fields[0]).value] else []) + GenProps(fields[1..])
  }

  /** A field has a property exactly when `gen_property` emits one for it. */
  lemma {:induction false} GenPropsExactly(fields: seq<FieldWrapper>, p: SwiftProperty)
    ensures p in GenProps(fields) <==> exists i :: 0 <= i < |fields| && GenProperty(fields[i]) == Some(p)
  {
    if fields != [] {
      GenPropsExactly(fields[1..], p);
      assert forall i :: 0 <= i < |fields[1..]| ==> fields[1..][i] == fields[i + 1];
      if exists i :: 0 <= i < |fields| && GenProperty(fields[i]) == Some(p) {
        var i :| 0 <= i < |fields| && GenProperty(fields[i]) == Some(p);
        if i > 0 {
          assert GenProperty(fields[1..][i - 1]) == Some(p);
        }
      }
    }
  }

  /** `gen_class_definition`. */
  function ClassDefinition(sw: StructWrapper): (r: SwiftClassDefinition)
    ensures r.className == sw.name && r.superclass == "Opaque" && r.deinitDrop == sw.dropExtFnName
    ensures r.convenienceInit.Some? <==> sw.defaultConstructor.Some?
    ensures r.convenienceInit.Some? ==> r.convenienceInit.value == sw.defaultConstructor.value.externFnName
  {
    SwiftClassDefinition(
      sw.name, "Opaque", sw.dropExtFnName,
      if sw.defaultConstructor.Some? then Some(sw.defaultConstructor.value.externFnName) else None,
      GenProps(sw.fields))
  }

  /** `swift_c_header_code_base`: the C declarations every `ffi_swift.h` starts with, the three
      `RustString` functions (the `typedef` lines are left out). The slice functions are not
      among them. */
  function CHeaderCodeBase(): (r: seq<CExtern>)
    ensures ExternNames(r) == [RustStringDataFnName, RustStringLenFnName, RustStringDropFnName]
  {
    [ CExtern(CVoidPtr, RustStringDataFnName, [CVoidPtr]),
      CExtern(CNamed("int"), RustStringLenFnName, [CVoidPtr]),
      CExtern(CVoid, RustStringDropFnName, [CVoidPtr]) ]
  }

  /** The C functions a `get` or `set` block calls: its own extern, and for a String `get` the
      three slice functions on the returned descriptor as well. */
  function AccessorCallees(a: SwiftAccessor): (r: seq<string>)
    ensures |r| >= 1 && r[0] == a.externFn
    ensures a.StringGet? <==> SliceGetPtrFnName in r[1..]
  {
    match a
    case StringGet(fn) => [fn, SliceGetPtrFnName, SliceGetLenFnName, SliceDropFnName]
    case _ => [a.externFn]
  }

  function PropertyCallees(p: SwiftProperty): seq<string>
  {
    (if p.getBlock.Some? then AccessorCallees(p.getBlock.value) else [])
    + (if p.setBlock.Some? then AccessorCallees(p.setBlock.value) else [])
  }

  /** Every C function the class calls — in `deinit`, `init()` and the property blocks — is
      among `declared`: the condition for the Swift module to compile against a header that
      declares exactly `declared`. */
  predicate CallsDeclared(c: SwiftClassDefinition, declared: seq<string>)
  {
    && c.deinitDrop in declared
    && (c.convenienceInit.Some? ==> c.convenienceInit.value in declared)
    && forall p, n :: p in c.properties && n in PropertyCallees(p) ==> n in declared
  }

  /** The names a struct's own header lines and the C-header code base declare. */
  function OwnDeclaredNames(sw: StructWrapper): (r: seq<string>)
    ensures r == [RustStringDataFnName, RustStringLenFnName, RustStringDropFnName]
                 + ([sw.dropExtFnName] + NonCustomAccessorExternNames(sw.fields) + DefaultExternNames(sw))
  {
    ExternNamesConcat(CHeaderCodeBase(), ClassHeader(sw));
    ExternNames(CHeaderCodeBase() + ClassHeader(sw))
  }

  lemma {:induction false} NonCustomFieldNamesListed(fields: seq<FieldWrapper>, i: nat)
    requires i < |fields| && fields[i].wrapperType != Custom
    ensures forall x :: x in FieldExternNames(fields[i]) ==> x in NonCustomAccessorExternNames(fields)
  {
    if i > 0 {
      NonCustomFieldNamesListed(fields[1..], i - 1);
      assert fields[1..][i - 1] == fields[i];
    }
  }

  lemma {:induction false} NonCustomNamesAreAccessorNames(fields: seq<FieldWrapper>)
    ensures forall x :: x in NonCustomAccessorExternNames(fields) ==> x in AccessorExternNames(fields)
  {
    if fields != [] {
      NonCustomNamesAreAccessorNames(fields[1..]);
    }
  }

  /** A String field with a getter makes the class call `slice_ptr`, which neither the
      C-header code base nor the struct's own lines declare. */
  lemma StringGetterCallsUndeclared(sw: StructWrapper, i: nat)
    requires WellNamedStruct(sw) && DistinctFieldNames(sw.fields)
    requires i < |sw.fields| && sw.fields[i].wrapperType == String && sw.fields[i].getter.Some?
    ensures SliceGetPtrFnName !in OwnDeclaredNames(sw)
    ensures exists p :: p in ClassDefinition(sw).properties && SliceGetPtrFnName in PropertyCallees(p)
  {
    var p := GenProperty(sw.fields[i]).value;
    GenPropsExactly(sw.fields, p);
    assert SliceGetPtrFnName in PropertyCallees(p) by {
      assert AccessorCallees(p.getBlock.value)[1] == SliceGetPtrFnName;
    }
    SchemaExternNamesDistinct(sw);
    NonCustomNamesAreAccessorNames(sw.fields);
    assert SliceGetPtrFnName in ReservedNames;
  }

  /** A header that adds `extra` to the struct's own lines covers a class with a String getter
      only when `extra` declares `slice_ptr`. */
  lemma StringGetterNeedsSliceNames(sw: StructWrapper, i: nat, extra: seq<string>)
    requires WellNamedStruct(sw) && DistinctFieldNames(sw.fields)
    requires i < |sw.fields| && sw.fields[i].wrapperType == String && sw.fields[i].getter.Some?
    requires CallsDeclared(ClassDefinition(sw), OwnDeclaredNames(sw) + extra)
    ensures SliceGetPtrFnName in extra
  {
    StringGetterCallsUndeclared(sw, i);
    var p :| p in ClassDefinition(sw).properties && SliceGetPtrFnName in PropertyCallees(p);
    assert SliceGetPtrFnName in OwnDeclaredNames(sw) + extra;
  }

  lemma PropertyCalleesOfField(f: FieldWrapper)
    requires GenProperty(f).Some? && !(f.wrapperType == String && f.getter.Some?)
    ensures forall n :: n in PropertyCallees(GenProperty(f).value) ==> n in FieldExternNames(f)
  {
    var p := GenProperty(f).value;
    assert p.getBlock.Some? ==> AccessorCallees(p.getBlock.value) == [f.getter.value.externFnName];
    assert p.setBlock.Some? ==> AccessorCallees(p.setBlock.value) == [f.setter.value.externFnName];
  }

  /** Without String getters every function the class calls is one of its own header lines. */
  lemma NoStringGetterCallsDeclared(sw: StructWrapper)
    requires forall i :: 0 <= i < |sw.fields| ==> !(sw.fields[i].wrapperType == String && sw.fields[i].getter.Some?)
    ensures CallsDeclared(ClassDefinition(sw), OwnDeclaredNames(sw))
  {
    var c := ClassDefinition(sw);
    var declared := OwnDeclaredNames(sw);
    forall p, n | p in c.properties && n in PropertyCallees(p) ensures n in declared {
      GenPropsExactly(sw.fields, p);
      var i :| 0 <= i < |sw.fields| && GenProperty(sw.fields[i]) == Some(p);
      PropertyCalleesOfField(sw.fields[i]);
      NonCustomFieldNamesListed(sw.fields, i);
      assert n in NonCustomAccessorExternNames(sw.fields);
    }
  }

  /** With the header lines the generator writes for it, the class compiles exactly when no
      String field has a getter. */
  lemma ClassCompilesIffNoStringGetter(sw: StructWrapper)
    requires WellNamedStruct(sw) && DistinctFieldNames(sw.fields)
    ensures CallsDeclared(ClassDefinition(sw), OwnDeclaredNames(sw)) <==>
      forall i :: 0 <= i < |sw.fields| ==> !(sw.fields[i].wrapperType == String && sw.fields[i].getter.Some?)
  {
    if exists i :: 0 <= i < |sw.fields| && sw.fields[i].wrapperType == String && sw.fields[i].getter.Some? {
      var i :| 0 <= i < |sw.fields| && sw.fields[i].wrapperType == String && sw.fields[i].getter.Some?;
      StringGetterCallsUndeclared(sw, i);
    } else {
      NoStringGetterCallsDeclared(sw);
    }
  }
}
