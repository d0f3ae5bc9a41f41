/** `gen_class_definition`: the C++ header of a struct schema. An `extern "C"` block declares
    the shim symbols; a class owning a `void* self` handle wraps them. */
module CppClass {
  import opened Common
  import opened Naming
  import opened Schema
  import opened CDecl

  /** The members of the generated C++ class. */
  datatype CppMember =
    | PointerConstructor                                        // C(void* self) : self(self) {}
    | CopyConstructor(cloneFn: string)                          // self = clone(other.self)
    | MoveConstructor                                           // self = other.self; other.self = nullptr
    | DefaultConstructorDef(externFn: string)                   // self = default()
    | Destructor(dropFn: string)                                // if (self != nullptr) drop(self)
    | PrimitiveGetterDef(name: string, fieldType: string, externFn: string)
    | PrimitiveSetterDef(name: string, fieldType: string, externFn: string)
    | StringGetterDef(name: string, externFn: string)           // descriptor read, then slice_drop
    | StringSetterDef(name: string, externFn: string)           // (std::string&&): ext(self, data(), size())
    | StringSetterForward(name: string)                         // (std::string&): forwards to the && overload
    | CustomGetterDef(name: string, fieldType: string, externFn: string)  // T(ext(self))
    | CustomSetterDef(name: string, fieldType: string, externFn: string)  // ext(self, value.self_ptr())
    | SelfPtr
    | SetSelfPtr

  /** One generated accessor: its member definitions, its extern declarations and the include
      line it needs (empty for Primitive and String fields). */
  datatype Method = Method(definition: seq<CppMember>, externFn: seq<CExtern>, includeLine: string)

  datatype Methods = Methods(getter: Option<Method>, setter: Option<Method>)

  /** The header: the `#include` lines after `base.h`, the `extern "C"` block and the class. */
  datatype CppClassHeader = CppClassHeader(className: string, includes: set<string>, externs: seq<CExtern>, members: seq<CppMember>)

  function CustomTypeInclude(fieldType: string): string
  {
    "#include \"" + fieldType + ".h\"\n"
  }

  function MapPrimitiveGetter(g: Getter, fieldType: string): (r: Method)
    ensures r.externFn == [CExtern(CNamed(fieldType), g.externFnName, [CVoidPtr])] && r.includeLine == ""
    ensures r.definition == [PrimitiveGetterDef(g.name, fieldType, g.externFnName)]
  {
    Method([PrimitiveGetterDef(g.name, fieldType, g.externFnName)], [CExtern(CNamed(fieldType), g.externFnName, [CVoidPtr])], "")
  }

  function MapPrimitiveSetter(s: Setter, fieldType: string): (r: Method)
    ensures r.externFn == [CExtern(CVoid, s.externFnName, [CVoidPtr, CNamed(fieldType)])] && r.includeLine == ""
    ensures r.definition == [PrimitiveSetterDef(s.name, fieldType, s.externFnName)]
  {
    Method([PrimitiveSetterDef(s.name, fieldType, s.externFnName)], [CExtern(CVoid, s.externFnName, [CVoidPtr, CNamed(fieldType)])], "")
  }

  function MapStringGetter(g: Getter): (r: Method)
    ensures r.externFn == [CExtern(CVoidPtr, g.externFnName, [CVoidPtr])] && r.includeLine == ""
    ensures r.definition == [StringGetterDef(g.name, g.externFnName)]
  {
    Method([StringGetterDef(g.name, g.externFnName)], [CExtern(CVoidPtr, g.externFnName, [CVoidPtr])], "")
  }

  /** Both overloads of the setter: the rvalue one calls the extern, the lvalue one forwards. */
  function MapStringSetter(s: Setter): (r: Method)
    ensures r.externFn == [CExtern(CVoid, s.externFnName, [CVoidPtr, CCharPtr, CSizeT])] && r.includeLine == ""
    ensures r.definition == [StringSetterDef(s.name, s.externFnName), StringSetterForward(s.name)]
  {
    Method([StringSetterDef(s.name, s.externFnName), StringSetterForward(s.name)],
           [CExtern(CVoid, s.externFnName, [CVoidPtr, CCharPtr, CSizeT])], "")
  }

  function MapCustomGetter(g: Getter, fieldType: string): (r: Method)
    ensures r.externFn == [CExtern(CVoidPtr, g.externFnName, [CVoidPtr])] && r.includeLine == CustomTypeInclude(fieldType)
    ensures r.definition == [CustomGetterDef(g.name, fieldType, g.externFnName)]
  {
    Method([CustomGetterDef(g.name, fieldType, g.externFnName)], [CExtern(CVoidPtr, g.externFnName, [CVoidPtr])], CustomTypeInclude(fieldType))
  }

  function MapCustomSetter(s: Setter, fieldType: string): (r: Method)
    ensures r.externFn == [CExtern(CVoid, s.externFnName, [CVoidPtr, CVoidPtr])] && r.includeLine == CustomTypeInclude(fieldType)
    ensures r.definition == [CustomSetterDef(s.name, fieldType, s.externFnName)]
  {
    Method([CustomSetterDef(s.name, fieldType, s.externFnName)], [CExtern(CVoid, s.externFnName, [CVoidPtr, CVoidPtr])], CustomTypeInclude(fieldType))
  }

  function GetterMethod(f: FieldWrapper, g: Getter): (r: Method)
    ensures ExternNames(r.externFn) == [g.externFnName]
  {
    match f.wrapperType
    case Primitive => MapPrimitiveGetter(g, f.fieldType)
    case String => MapStringGetter(g)
    case Custom => MapCustomGetter(g, f.fieldType)
  }

  function SetterMethod(f: FieldWrapper, s: Setter): (r: Method)
    ensures ExternNames(r.externFn) == [s.externFnName]
  {
    match f.wrapperType
    case Primitive => MapPrimitiveSetter(s, f.fieldType)
    case String => MapStringSetter(s)
    case Custom => MapCustomSetter(s, f.fieldType)
  }

  /** `map_fields`: a method for each accessor the schema has, and only for those. */
  function MapFields(f: FieldWrapper): (r: Methods)
    ensures r.getter.Some? <==> f.getter.Some?
    ensures r.setter.Some? <==> f.setter.Some?
    ensures r.getter.Some? ==> r.getter.value == GetterMethod(f, f.getter.value)
    ensures r.setter.Some? ==> r.setter.value == SetterMethod(f, f.setter.value)
  {
    Methods(
      if f.getter.Some? then Some(GetterMethod(f, f.getter.value)) else None,
      if f.setter.Some? then Some(SetterMethod(f, f.setter.value)) else None)
  }

  /** The include line a Custom field's accessor method needs; empty for the other kinds. */
  function IncludeOf(f: FieldWrapper): string
  {
    if f.wrapperType == Custom then CustomTypeInclude(f.fieldType) else ""
  }

  /** `default_constructor`: a constructor and its extern iff the schema has one. */
  function DefaultConstructorMethod(sw: StructWrapper): (r: Method)
    ensures sw.defaultConstructor.None? ==> r == Method([], [], "")
    ensures sw.defaultConstructor.Some? ==>
      r == Method([DefaultConstructorDef(sw.defaultConstructor.value.externFnName)],
                  [CExtern(CVoidPtr, sw.defaultConstructor.value.externFnName, [])], "")
  {
    match sw.defaultConstructor
    case None => Method([], [], "")
    case Some(d) => Method([DefaultConstructorDef(d.externFnName)], [CExtern(CVoidPtr, d.externFnName, [])], "")
  }

  function DestructorMethod(sw: StructWrapper): (r: Method)
    ensures r == Method([Destructor(sw.dropExtFnName)], [CExtern(CVoid, sw.dropExtFnName, [CVoidPtr])], "")
  {
    Method([Destructor(sw.dropExtFnName)], [CExtern(CVoid, sw.dropExtFnName, [CVoidPtr])], "")
  }

  function CloneExtFn(sw: StructWrapper): (r: CExtern)
    ensures r == CExtern(CVoidPtr, sw.cloneExtFnName, [CVoidPtr])
  {
    CExtern(CVoidPtr, sw.cloneExtFnName, [CVoidPtr])
  }

  // The fold over the fields, stated field by field from the front of the list.

  function MethodDefs(m: Option<Method>): seq<CppMember>
  {
    if m.Some? then m.value.definition else []
  }

  function MethodExterns(m: Option<Method>): seq<CExtern>
  {
    if m.Some? then m.value.externFn else []
  }

  function MethodIncludes(m: Option<Method>): set<string>
  {
    if m.Some? then {m.value.includeLine} else {}
  }

  function FieldMembers(fields: seq<FieldWrapper>): seq<CppMember>
  {
    if fields == [] then []
    else
      var last := MapFields(fields[|fields| - 1]);
      FieldMembers(fields[..|fields| - 1]) + MethodDefs(last.getter) + MethodDefs(last.setter)
  }

  function FieldExterns(fields: seq<FieldWrapper>): seq<CExtern>
  {
    if fields == [] then []
    else
      var last := MapFields(fields[|fields| - 1]);
      FieldExterns(fields[..|fields| - 1]) + MethodExterns(last.getter) + MethodExterns(last.setter)
  }

  function FieldIncludes(fields: seq<FieldWrapper>): set<string>
  {
    if fields == [] then {}
    else
      var last := MapFields(fields[|fields| - 1]);
      FieldIncludes(fields[..|fields| - 1]) + MethodIncludes(last.getter) + MethodIncludes(last.setter)
  }

  /** The header `gen_class_definition` prints. */
  function ClassDefinition(sw: StructWrapper): CppClassHeader
  {
    var dc := DefaultConstructorMethod(sw);
    var dtor := DestructorMethod(sw);
    CppClassHeader(
      sw.name,
      FieldIncludes(sw.fields),
      FieldExterns(sw.fields) + dc.externFn + dtor.externFn + [CloneExtFn(sw)],
      [PointerConstructor, CopyConstructor(sw.cloneExtFnName), MoveConstructor]
        + dc.definition + dtor.definition + FieldMembers(sw.fields) + [SelfPtr, SetSelfPtr])
  }

  /** `gen_class_definition`: the fold pushes method definitions and extern lines into two
      strings and the include lines into a set. */
  method GenClassDefinition(sw: StructWrapper) returns (header: CppClassHeader)
    ensures header == ClassDefinition(sw)
  {
    var methods, externs, includes := FoldFields(sw.fields);
    var dc := DefaultConstructorMethod(sw);
    var dtor := DestructorMethod(sw);
    header := CppClassHeader(
      sw.name,
      includes,
      externs + dc.externFn + dtor.externFn + [CloneExtFn(sw)],
      [PointerConstructor, CopyConstructor(sw.cloneExtFnName), MoveConstructor]
        + dc.definition + dtor.definition + methods + [SelfPtr, SetSelfPtr]);
  }

  lemma FoldStep(fields: seq<FieldWrapper>, i: nat)
    requires i < |fields|
    ensures var m := MapFields(fields[i]);
      && FieldMembers(fields[..i + 1]) == FieldMembers(fields[..i]) + MethodDefs(m.getter) + MethodDefs(m.setter)
      && FieldExterns(fields[..i + 1]) == FieldExterns(fields[..i]) + MethodExterns(m.getter) + MethodExterns(m.setter)
      && FieldIncludes(fields[..i + 1]) == FieldIncludes(fields[..i]) + MethodIncludes(m.getter) + MethodIncludes(m.setter)
  {
    assert fields[..i + 1][..i] == fields[..i];
  }

  /** The fold itself, over the fields in declaration order. */
  method FoldFields(fields: seq<FieldWrapper>) returns (methods: seq<CppMember>, externs: seq<CExtern>, includes: set<string>)
    ensures methods == FieldMembers(fields)
    ensures externs == FieldExterns(fields)
    ensures includes == FieldIncludes(fields)
  {
    methods, externs, includes := [], [], {};
    for i := 0 to |fields|
      invariant methods == FieldMembers(fields[..i])
      invariant externs == FieldExterns(fields[..i])
      invariant includes == FieldIncludes(fields[..i])
    {
      FoldStep(fields, i);
      var m := MapFields(fields[i]);
      ghost var methods0, externs0, includes0 := methods, externs, includes;
      if m.getter.Some? {
        methods := methods + m.getter.value.definition;
        externs := externs + m.getter.value.externFn;
        includes := includes + {m.getter.value.includeLine};
      }
      assert methods == methods0 + MethodDefs(m.getter);
      assert externs == externs0 + MethodExterns(m.getter);
      assert includes == includes0 + MethodIncludes(m.getter);
      ghost var methods1, externs1, includes1 := methods, externs, includes;
      if m.setter.Some? {
        methods := methods + m.setter.value.definition;
        externs := externs + m.setter.value.externFn;
        includes := includes + {m.setter.value.includeLine};
      }
      assert methods == methods1 + MethodDefs(m.setter);
      assert externs == externs1 + MethodExterns(m.setter);
      assert includes == includes1 + MethodIncludes(m.setter);
    }
    assert fields[..|fields|] == fields;
  }

  // Properties of the header

  lemma {:induction false} FieldExternNamesAgree(fields: seq<FieldWrapper>)
    ensures ExternNames(FieldExterns(fields)) == AccessorExternNames(fields)
  {
    if fields != [] {
      var init := fields[..|fields| - 1];
      var f := fields[|fields| - 1];
      var m := MapFields(f);
      FieldExternNamesAgree(init);
      assert fields == init + [f];
      AccessorExternNamesSnoc(init, f);
      ExternNamesConcat(FieldExterns(init) + MethodExterns(m.getter), MethodExterns(m.setter));
      ExternNamesConcat(FieldExterns(init), MethodExterns(m.getter));
    }
  }

  /** The `extern "C"` block declares the schema's symbols in the shim's order: every present
      getter and setter in field order, then default (if any), drop and clone. */
  lemma ClassDefinitionDeclaresSchemaNames(sw: StructWrapper)
    ensures ExternNames(ClassDefinition(sw).externs) == SchemaExternNames(sw)
  {
    var dc := DefaultConstructorMethod(sw);
    var dtor := DestructorMethod(sw);
    FieldExternNamesAgree(sw.fields);
    ExternNamesConcat(FieldExterns(sw.fields), dc.externFn);
    ExternNamesConcat(FieldExterns(sw.fields) + dc.externFn, dtor.externFn);
    ExternNamesConcat(FieldExterns(sw.fields) + dc.externFn + dtor.externFn, [CloneExtFn(sw)]);
  }

  predicate HasAccessor(f: FieldWrapper)
  {
    f.getter.Some? || f.setter.Some?
  }

  /** The include set holds the include line of exactly the fields that have an accessor. */
  lemma {:induction false} FieldIncludesExactly(fields: seq<FieldWrapper>, x: string)
    ensures x in FieldIncludes(fields) <==> exists i :: 0 <= i < |fields| && HasAccessor(fields[i]) && x == IncludeOf(fields[i])
  {
    if fields != [] {
      var init := fields[..|fields| - 1];
      var f := fields[|fields| - 1];
      FieldIncludesExactly(init, x);
      assert forall i :: 0 <= i < |init| ==> init[i] == fields[i];
      if x in FieldIncludes(fields) && x !in FieldIncludes(init) {
        assert HasAccessor(f) && x == IncludeOf(f);
      }
      if x in FieldIncludes(init) {
        var i :| 0 <= i < |init| && HasAccessor(init[i]) && x == IncludeOf(init[i]);
        assert HasAccessor(fields[i]) && x == IncludeOf(fields[i]);
      }
    }
  }

  /** One `#include "<T>.h"` per distinct Custom field type that has an accessor; Primitive and
      String fields contribute only the empty line. */
  lemma CustomIncludes(sw: StructWrapper, t: string)
    ensures CustomTypeInclude(t) in ClassDefinition(sw).includes
        <==> exists i :: 0 <= i < |sw.fields| && HasAccessor(sw.fields[i]) && sw.fields[i].wrapperType == Custom && sw.fields[i].fieldType == t
  {
    var x := CustomTypeInclude(t);
    FieldIncludesExactly(sw.fields, x);
    forall i | 0 <= i < |sw.fields| && x == IncludeOf(sw.fields[i])
      ensures sw.fields[i].wrapperType == Custom && sw.fields[i].fieldType == t
    {
      assert x != "";
      CustomTypeIncludeInjective(sw.fields[i].fieldType, t);
    }
  }

  lemma CustomTypeIncludeInjective(a: string, b: string)
    requires CustomTypeInclude(a) == CustomTypeInclude(b)
    ensures a == b
  {
    var x := CustomTypeInclude(a);
    assert x[10..|x| - 4] == a;
    assert CustomTypeInclude(b)[10..|x| - 4] == b;
  }
}
