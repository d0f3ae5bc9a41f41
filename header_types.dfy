/** The primitive type names the generated extern lines use, against the names the two code
    bases declare. Both headers write a Primitive field or argument under its Rust name
    (`CNamed`); `base.h` and `ffi_swift.h` alias only some of those names, so a line naming
    any other one does not compile. */
module HeaderTypes {
  import opened Common
  import opened Schema
  import opened CDecl
  import StructTranslator
  import CppClass
  import CppFunction
  import SwiftClass
  import SwiftFunction

  /** `cpp_code_base`: the `using` aliases `u8` .. `u64`, `i8` .. `i64`, `f32`, `f64` and
      `usize`, and the built-in `bool`. */
  const CppCodeBaseTypeNames: set<string> :=
    {"u8", "u16", "u32", "u64", "i8", "i16", "i32", "i64", "f32", "f64", "usize", "bool"}

  /** `swift_c_header_code_base`: the `typedef`s `u8` .. `u64`, `i8` .. `i64`, `f32` and `f64`,
      and `bool` from `stdbool.h`. */
  const SwiftCHeaderTypeNames: set<string> :=
    {"u8", "u16", "u32", "u64", "i8", "i16", "i32", "i64", "f32", "f64", "bool"}

  /** Of the thirteen primitive names the translators accept, exactly the two 128-bit ones are
      declared by neither code base. */
  lemma Undeclared128BitPrimitives()
    ensures StructTranslator.PrimitiveTypeNames - CppCodeBaseTypeNames == {"i128", "u128"}
    ensures StructTranslator.PrimitiveTypeNames - SwiftCHeaderTypeNames == {"i128", "u128"}
  {
  }

  /** A field's lines name its type exactly when it is Primitive and has an accessor. */
  predicate FieldTypeDeclared(f: FieldWrapper, names: set<string>)
  {
    f.wrapperType == Primitive && (f.getter.Some? || f.setter.Some?) ==> f.fieldType in names
  }

  predicate FieldTypesDeclared(fields: seq<FieldWrapper>, names: set<string>)
  {
    forall i :: 0 <= i < |fields| ==> FieldTypeDeclared(fields[i], names)
  }

  lemma AllTypesDeclaredConcat(a: seq<CExtern>, b: seq<CExtern>, names: set<string>)
    ensures AllTypesDeclared(a + b, names) <==> AllTypesDeclared(a, names) && AllTypesDeclared(b, names)
  {
    if AllTypesDeclared(a, names) && AllTypesDeclared(b, names) {
      forall e | e in a + b ensures ExternTypesDeclared(e, names) {
        assert e in a || e in b;
      }
    }
  }

  // C++

  lemma CppFieldTypes(f: FieldWrapper, names: set<string>)
    ensures var m := CppClass.MapFields(f);
      AllTypesDeclared(CppClass.MethodExterns(m.getter) + CppClass.MethodExterns(m.setter), names) <==> FieldTypeDeclared(f, names)
  {
    var m := CppClass.MapFields(f);
    var gs := CppClass.MethodExterns(m.getter);
    var ss := CppClass.MethodExterns(m.setter);
    AllTypesDeclaredConcat(gs, ss, names);
    if f.wrapperType == Primitive {
      if f.getter.Some? {
        assert gs == [CExtern(CNamed(f.fieldType), f.getter.value.externFnName, [CVoidPtr])] && gs[0] in gs;
      }
      if f.setter.Some? {
        var e := CExtern(CVoid, f.setter.value.externFnName, [CVoidPtr, CNamed(f.fieldType)]);
        assert ss == [e] && e in ss;
        assert ExternTypesDeclared(e, names) <==> f.fieldType in names by {
          assert ExternTypesDeclared(e, names) ==> TypeDeclared(e.params[1], names);
        }
      }
    }
  }

  /** The C++ extern lines of the fields name only declared types exactly when every Primitive
      field with an accessor has a declared type. */
  lemma {:induction false} CppFieldsTypes(fields: seq<FieldWrapper>, names: set<string>)
    ensures AllTypesDeclared(CppClass.FieldExterns(fields), names) <==> FieldTypesDeclared(fields, names)
  {
    if fields != [] {
      var init := fields[..|fields| - 1];
      var last := fields[|fields| - 1];
      var m := CppClass.MapFields(last);
      CppFieldsTypes(init, names);
      CppFieldTypes(last, names);
      AllTypesDeclaredConcat(CppClass.FieldExterns(init), CppClass.MethodExterns(m.getter) + CppClass.MethodExterns(m.setter), names);
      assert CppClass.FieldExterns(fields)
          == CppClass.FieldExterns(init) + (CppClass.MethodExterns(m.getter) + CppClass.MethodExterns(m.setter));
      assert forall i :: 0 <= i < |init| ==> init[i] == fields[i];
      if FieldTypesDeclared(init, names) && FieldTypeDeclared(last, names) {
        forall i | 0 <= i < |fields| ensures FieldTypeDeclared(fields[i], names) {
          if i < |init| { assert FieldTypeDeclared(init[i], names); }
        }
      }
    }
  }

  /** The C++ class header compiles against `base.h` exactly when no Primitive field with an
      accessor has a type name `base.h` does not alias. */
  lemma CppClassTypesDeclared(sw: StructWrapper)
    ensures AllTypesDeclared(CppClass.ClassDefinition(sw).externs, CppCodeBaseTypeNames) <==> FieldTypesDeclared(sw.fields, CppCodeBaseTypeNames)
  {
    var dc := CppClass.DefaultConstructorMethod(sw);
    var dtor := CppClass.DestructorMethod(sw);
    CppFieldsTypes(sw.fields, CppCodeBaseTypeNames);
    AllTypesDeclaredConcat(CppClass.FieldExterns(sw.fields), dc.externFn, CppCodeBaseTypeNames);
    AllTypesDeclaredConcat(CppClass.FieldExterns(sw.fields) + dc.externFn, dtor.externFn, CppCodeBaseTypeNames);
    AllTypesDeclaredConcat(CppClass.FieldExterns(sw.fields) + dc.externFn + dtor.externFn, [CppClass.CloneExtFn(sw)], CppCodeBaseTypeNames);
  }

  // Swift

  lemma SwiftFieldTypes(f: FieldWrapper, names: set<string>)
    ensures AllTypesDeclared(SwiftClass.FieldExterns(f), names) <==> FieldTypeDeclared(f, names)
  {
    if f.wrapperType == Primitive {
      var gs := if f.getter.Some? then [SwiftClass.PrimitiveGetterExtern(f.getter.value, f.fieldType)] else [];
      var ss := if f.setter.Some? then [SwiftClass.PrimitiveSetterExtern(f.setter.value, f.fieldType)] else [];
      AllTypesDeclaredConcat(gs, ss, names);
    } else if f.wrapperType == String {
      var gs := if f.getter.Some? then [SwiftClass.StringGetterExtern(f.getter.value)] else [];
      var ss := if f.setter.Some? then [SwiftClass.StringSetterExtern(f.setter.value)] else [];
      AllTypesDeclaredConcat(gs, ss, names);
    }
  }

  lemma {:induction false} SwiftFieldsTypes(fields: seq<FieldWrapper>, names: set<string>)
    ensures AllTypesDeclared(SwiftClass.GettersAndSettersExterns(fields), names) <==> FieldTypesDeclared(fields, names)
  {
    if fields != [] {
      SwiftFieldTypes(fields[0], names);
      SwiftFieldsTypes(fields[1..], names);
      AllTypesDeclaredConcat(SwiftClass.FieldExterns(fields[0]), SwiftClass.GettersAndSettersExterns(fields[1..]), names);
      assert forall i :: 0 <= i < |fields[1..]| ==> fields[1..][i] == fields[i + 1];
      if FieldTypeDeclared(fields[0], names) && FieldTypesDeclared(fields[1..], names) {
        forall i | 0 <= i < |fields| ensures FieldTypeDeclared(fields[i], names) {
          if i > 0 { assert FieldTypeDeclared(fields[1..][i - 1], names); }
        }
      }
    }
  }

  /** The struct's lines in `ffi_swift.h` compile against the C-header code base exactly when no
      Primitive field with an accessor has a type name that code base does not declare. */
  lemma SwiftClassTypesDeclared(sw: StructWrapper)
    ensures AllTypesDeclared(SwiftClass.ClassHeader(sw), SwiftCHeaderTypeNames) <==> FieldTypesDeclared(sw.fields, SwiftCHeaderTypeNames)
  {
    var drop := [CExtern(CVoid, sw.dropExtFnName, [CVoidPtr])];
    var acc := SwiftClass.GettersAndSettersExterns(sw.fields);
    SwiftFieldsTypes(sw.fields, SwiftCHeaderTypeNames);
    AllTypesDeclaredConcat(drop, acc, SwiftCHeaderTypeNames);
    AllTypesDeclaredConcat(drop + acc, SwiftClass.DefaultConstructorExtern(sw), SwiftCHeaderTypeNames);
  }

  /** A struct with a 128-bit Primitive field that has an accessor gets a C++ header and Swift
      header lines that name a type neither code base declares. */
  lemma Wide128FieldUndeclared(sw: StructWrapper, i: nat)
    requires i < |sw.fields| && sw.fields[i].wrapperType == Primitive && sw.fields[i].fieldType in {"i128", "u128"}
    requires sw.fields[i].getter.Some? || sw.fields[i].setter.Some?
    ensures !AllTypesDeclared(CppClass.ClassDefinition(sw).externs, CppCodeBaseTypeNames)
    ensures !AllTypesDeclared(SwiftClass.ClassHeader(sw), SwiftCHeaderTypeNames)
  {
    assert !FieldTypeDeclared(sw.fields[i], CppCodeBaseTypeNames);
    assert !FieldTypeDeclared(sw.fields[i], SwiftCHeaderTypeNames);
    CppClassTypesDeclared(sw);
    SwiftClassTypesDeclared(sw);
  }

  // Free functions

  /** Every Primitive argument and a Primitive result have a declared type name. */
  predicate FunctionTypesDeclared(fw: FunctionWrapper, names: set<string>)
  {
    && (forall i :: 0 <= i < |fw.argsWrappers| && fw.argsWrappers[i].wrapperType == ArgPrimitive ==> fw.argsWrappers[i].argType in names)
    && (fw.returnWrapper.Some? && fw.returnWrapper.value.wrapperType == ReturnPrimitive ==> fw.returnWrapper.value.returnType in names)
  }

  /** The C++ extern line of a free function compiles against `base.h` exactly when its
      Primitive arguments and result have aliased type names. */
  lemma CppFunctionTypesDeclared(fw: FunctionWrapper)
    ensures ExternTypesDeclared(CppFunction.Declaration(fw).ext, CppCodeBaseTypeNames) <==> FunctionTypesDeclared(fw, CppCodeBaseTypeNames)
  {
    var e := CppFunction.Declaration(fw).ext;
    assert forall i :: 0 <= i < |fw.argsWrappers| ==> e.params[i] == CppFunction.WrapperParamOf(fw.argsWrappers[i]);
  }

  /** The Swift header line of a free function compiles against the C-header code base exactly
      when its Primitive arguments and result have declared type names. */
  lemma SwiftFunctionTypesDeclared(fw: FunctionWrapper)
    ensures ExternTypesDeclared(SwiftFunction.FunctionHeader(fw), SwiftCHeaderTypeNames) <==> FunctionTypesDeclared(fw, SwiftCHeaderTypeNames)
  {
    var e := SwiftFunction.FunctionHeader(fw);
    assert forall i :: 0 <= i < |fw.argsWrappers| ==> e.params[i] == SwiftFunction.HeaderParamOf(fw.argsWrappers[i]);
  }

  /** A free function with a 128-bit Primitive argument gets C++ and Swift extern lines that
      name a type neither code base declares. */
  lemma Wide128ArgUndeclared(fw: FunctionWrapper, i: nat)
    requires i < |fw.argsWrappers| && fw.argsWrappers[i].wrapperType == ArgPrimitive
    requires fw.argsWrappers[i].argType in {"i128", "u128"}
    ensures !ExternTypesDeclared(CppFunction.Declaration(fw).ext, CppCodeBaseTypeNames)
    ensures !ExternTypesDeclared(SwiftFunction.FunctionHeader(fw), SwiftCHeaderTypeNames)
  {
    CppFunctionTypesDeclared(fw);
    SwiftFunctionTypesDeclared(fw);
  }
}
