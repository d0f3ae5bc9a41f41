/** The schema a declaration is translated into (`StructWrapper`, `FunctionWrapper` and the
    `Wrapper` that pairs a schema with the original definition), plus the list of extern
    symbols a struct schema asks every backend to agree on. */
module Schema {
  import opened Common
  import opened Syntax
  import opened Naming

  /** How a field crosses the boundary. */
  datatype FieldWrapperType = Primitive | String | Custom

  datatype Getter = Getter(name: string, externFnName: string)
  datatype Setter = Setter(name: string, externFnName: string)
  datatype DefaultConstructor = DefaultConstructor(constructorName: string, externFnName: string)

  /** One field of the struct; `fieldType` is the single identifier the field's type is written as. */
  datatype FieldWrapper = FieldWrapper(
    fieldName: string,
    fieldType: string,
    wrapperType: FieldWrapperType,
    setter: Option<Setter>,
    getter: Option<Getter>)

  datatype StructWrapper = StructWrapper(
    name: string,
    fields: seq<FieldWrapper>,
    defaultConstructor: Option<DefaultConstructor>,
    dropExtFnName: string,
    cloneExtFnName: string,
    originalItemStruct: ItemStruct)

  /** Parameters and results of free functions are Primitive or String only. */
  datatype FunctionArgWrapperType = ArgPrimitive | ArgString
  datatype FunctionReturnWrapperType = ReturnPrimitive | ReturnString

  datatype FunctionArgWrapper = FunctionArgWrapper(wrapperType: FunctionArgWrapperType, argName: string, argType: string)
  datatype FunctionReturnWrapper = FunctionReturnWrapper(wrapperType: FunctionReturnWrapperType, returnType: string)

  datatype FunctionWrapper = FunctionWrapper(
    name: string,
    externFunctionName: string,
    argsWrappers: seq<FunctionArgWrapper>,
    returnWrapper: Option<FunctionReturnWrapper>)

  datatype ParsedWrapper = Struct(structWrapper: StructWrapper) | Function(functionWrapper: FunctionWrapper)

  /** A translated declaration: the original item and its schema. */
  datatype Wrapper = Wrapper(originalDefinition: Item, parsed: ParsedWrapper)

  /** `Wrapper::name`: the struct name or the function name. */
  function Name(w: Wrapper): (r: string)
    ensures w.parsed.Struct? ==> r == w.parsed.structWrapper.name
    ensures w.parsed.Function? ==> r == w.parsed.functionWrapper.name
  {
    match w.parsed
    case Struct(sw) => sw.name
    case Function(fw) => fw.name
  }

  /** The extern symbols of one field's accessors: the getter's, then the setter's. */
  function FieldExternNames(f: FieldWrapper): seq<string>
  {
    (if f.getter.Some? then [f.getter.value.externFnName] else [])
    + (if f.setter.Some? then [f.setter.value.externFnName] else [])
  }

  /** The accessor symbols of all fields, in declaration order. */
  function AccessorExternNames(fields: seq<FieldWrapper>): seq<string>
  {
    if fields == [] then [] else FieldExternNames(fields[0]) + AccessorExternNames(fields[1..])
  }

  /** The accessor symbols of the Primitive and String fields only. */
  function NonCustomAccessorExternNames(fields: seq<FieldWrapper>): seq<string>
  {
    if fields == [] then []
    else (if fields[0].wrapperType == Custom then [] else FieldExternNames(fields[0]))
         + NonCustomAccessorExternNames(fields[1..])
  }

  function DefaultExternNames(sw: StructWrapper): seq<string>
  {
    if sw.defaultConstructor.Some? then [sw.defaultConstructor.value.externFnName] else []
  }

  /** Every symbol the struct's native side must export: accessors in field order, getter before
      setter, then the default constructor if any, then drop and clone. */
  function SchemaExternNames(sw: StructWrapper): seq<string>
  {
    AccessorExternNames(sw.fields) + DefaultExternNames(sw) + [sw.dropExtFnName, sw.cloneExtFnName]
  }

  /** The naming scheme of a translated field: member `get_<f>` / `set_<f>` exported as
      `__hiFfi__$<Class>__get_<f>` / `__hiFfi__$<Class>__set_<f>`. */
  predicate WellNamedField(className: string, f: FieldWrapper)
  {
    && (f.getter.Some? ==> f.getter.value == Getter(GetterName(f.fieldName), GetterSymbol(className, f.fieldName)))
    && (f.setter.Some? ==> f.setter.value == Setter(SetterName(f.fieldName), SetterSymbol(className, f.fieldName)))
  }

  /** The naming scheme of a translated struct schema. */
  predicate WellNamedStruct(sw: StructWrapper)
  {
    && (forall i :: 0 <= i < |sw.fields| ==> WellNamedField(sw.name, sw.fields[i]))
    && (sw.defaultConstructor.Some? ==>
          sw.defaultConstructor.value == DefaultConstructor(DefaultConstructorName(sw.name), DefaultSymbol(sw.name)))
    && sw.dropExtFnName == DropSymbol(sw.name)
    && sw.cloneExtFnName == CloneSymbol(sw.name)
  }

  predicate DistinctFieldNames(fields: seq<FieldWrapper>)
  {
    forall i, j :: 0 <= i < j < |fields| ==> fields[i].fieldName != fields[j].fieldName
  }

  predicate NoDuplicates(s: seq<string>)
  {
    forall i, j :: 0 <= i < j < |s| ==> s[i] != s[j]
  }

  lemma NoDuplicatesConcat(a: seq<string>, b: seq<string>)
    requires NoDuplicates(a) && NoDuplicates(b)
    requires forall x :: x in a ==> x !in b
    ensures NoDuplicates(a + b)
  {
    forall i, j | 0 <= i < j < |a + b| ensures (a + b)[i] != (a + b)[j] {
      if j >= |a| && i < |a| {
        assert (a + b)[i] in a && (a + b)[j] == b[j - |a|];
      }
    }
  }

  predicate IsAccessorSymbolOf(className: string, f: FieldWrapper, x: string)
  {
    x == GetterSymbol(className, f.fieldName) || x == SetterSymbol(className, f.fieldName)
  }

  /** Every accessor symbol of well-named fields is the getter or setter symbol of one of them. */
  lemma {:induction false} AccessorNameShape(className: string, fields: seq<FieldWrapper>, x: string)
    requires forall i :: 0 <= i < |fields| ==> WellNamedField(className, fields[i])
    requires x in AccessorExternNames(fields)
    ensures exists i :: 0 <= i < |fields| && IsAccessorSymbolOf(className, fields[i], x)
  {
    if x in FieldExternNames(fields[0]) {
      assert WellNamedField(className, fields[0]);
    } else {
      AccessorNameShape(className, fields[1..], x);
      var i :| 0 <= i < |fields[1..]| && IsAccessorSymbolOf(className, fields[1..][i], x);
      assert fields[1..][i] == fields[i + 1];
    }
  }

  /** Accessor symbols of one field never equal those of a differently named field. */
  lemma AccessorSymbolsApart(className: string, f: string, g: string)
    requires f != g
    ensures GetterSymbol(className, f) != GetterSymbol(className, g)
    ensures GetterSymbol(className, f) != SetterSymbol(className, g)
    ensures SetterSymbol(className, f) != GetterSymbol(className, g)
    ensures SetterSymbol(className, f) != SetterSymbol(className, g)
  {
    AccessorMembersDistinct(f, g);
    AccessorMembersDistinct(g, f);
    if GetterSymbol(className, f) == GetterSymbol(className, g) {
      StructMemberSymbolInjective(className, "get_" + f, "get_" + g);
    }
    if GetterSymbol(className, f) == SetterSymbol(className, g) {
      StructMemberSymbolInjective(className, "get_" + f, "set_" + g);
    }
    if SetterSymbol(className, f) == GetterSymbol(className, g) {
      StructMemberSymbolInjective(className, "set_" + f, "get_" + g);
    }
    if SetterSymbol(className, f) == SetterSymbol(className, g) {
      StructMemberSymbolInjective(className, "set_" + f, "set_" + g);
    }
  }

  /** Accessor symbols are never the lifecycle symbols of the same class. */
  lemma AccessorSymbolNotLifecycle(className: string, f: string)
    ensures GetterSymbol(className, f) !in [DefaultSymbol(className), DropSymbol(className), CloneSymbol(className)]
    ensures SetterSymbol(className, f) !in [DefaultSymbol(className), DropSymbol(className), CloneSymbol(className)]
  {
    AccessorMembersDistinct(f, f);
    if GetterSymbol(className, f) == DefaultSymbol(className) { StructMemberSymbolInjective(className, "get_" + f, "default"); }
    if GetterSymbol(className, f) == DropSymbol(className) { StructMemberSymbolInjective(className, "get_" + f, "drop"); }
    if GetterSymbol(className, f) == CloneSymbol(className) { StructMemberSymbolInjective(className, "get_" + f, "clone"); }
    if SetterSymbol(className, f) == DefaultSymbol(className) { StructMemberSymbolInjective(className, "set_" + f, "default"); }
    if SetterSymbol(className, f) == DropSymbol(className) { StructMemberSymbolInjective(className, "set_" + f, "drop"); }
    if SetterSymbol(className, f) == CloneSymbol(className) { StructMemberSymbolInjective(className, "set_" + f, "clone"); }
  }

  lemma {:induction false} AccessorNamesDistinct(className: string, fields: seq<FieldWrapper>)
    requires forall i :: 0 <= i < |fields| ==> WellNamedField(className, fields[i])
    requires DistinctFieldNames(fields)
    ensures NoDuplicates(AccessorExternNames(fields))
  {
    if fields != [] {
      var f := fields[0];
      var rest := fields[1..];
      assert WellNamedField(className, f);
      AccessorMembersDistinct(f.fieldName, f.fieldName);
      if GetterSymbol(className, f.fieldName) == SetterSymbol(className, f.fieldName) {
        StructMemberSymbolInjective(className, "get_" + f.fieldName, "set_" + f.fieldName);
      }
      assert NoDuplicates(FieldExternNames(f));
      assert forall i :: 0 <= i < |rest| ==> rest[i] == fields[i + 1];
      AccessorNamesDistinct(className, rest);
      forall x | x in FieldExternNames(f) ensures x !in AccessorExternNames(rest) {
        if x in AccessorExternNames(rest) {
          AccessorNameShape(className, rest, x);
          var i :| 0 <= i < |rest| && IsAccessorSymbolOf(className, rest[i], x);
          assert rest[i].fieldName != f.fieldName by { assert rest[i] == fields[i + 1]; }
          AccessorSymbolsApart(className, f.fieldName, rest[i].fieldName);
        }
      }
      NoDuplicatesConcat(FieldExternNames(f), AccessorExternNames(rest));
    }
  }

  /** Naming-table guarantee: in a well-named struct schema with distinct field names, all
      extern symbols are pairwise distinct, and none is a reserved runtime symbol. */
  lemma SchemaExternNamesDistinct(sw: StructWrapper)
    requires WellNamedStruct(sw) && DistinctFieldNames(sw.fields)
    ensures NoDuplicates(SchemaExternNames(sw))
    ensures forall x :: x in SchemaExternNames(sw) ==> x !in ReservedNames
  {
    var c := sw.name;
    var acc := AccessorExternNames(sw.fields);
    var life := DefaultExternNames(sw) + [sw.dropExtFnName, sw.cloneExtFnName];
    AccessorNamesDistinct(c, sw.fields);
    assert "drop" != "clone" && "default" != "drop" && "default" != "clone";
    if DropSymbol(c) == CloneSymbol(c) { StructMemberSymbolInjective(c, "drop", "clone"); }
    if DefaultSymbol(c) == DropSymbol(c) { StructMemberSymbolInjective(c, "default", "drop"); }
    if DefaultSymbol(c) == CloneSymbol(c) { StructMemberSymbolInjective(c, "default", "clone"); }
    assert NoDuplicates(life);
    forall x | x in acc ensures x !in life && x !in ReservedNames {
      AccessorNameShape(c, sw.fields, x);
      var i :| 0 <= i < |sw.fields| && IsAccessorSymbolOf(c, sw.fields[i], x);
      AccessorSymbolNotLifecycle(c, sw.fields[i].fieldName);
      StructMemberSymbolNotReserved(c, "get_" + sw.fields[i].fieldName);
      StructMemberSymbolNotReserved(c, "set_" + sw.fields[i].fieldName);
    }
    NoDuplicatesConcat(acc, life);
    assert SchemaExternNames(sw) == acc + life;
    StructMemberSymbolNotReserved(c, "default");
    StructMemberSymbolNotReserved(c, "drop");
    StructMemberSymbolNotReserved(c, "clone");
  }

  lemma {:induction false} AccessorExternNamesSnoc(fields: seq<FieldWrapper>, f: FieldWrapper)
    ensures AccessorExternNames(fields + [f]) == AccessorExternNames(fields) + FieldExternNames(f)
  {
    if fields == [] {
      assert [] + [f] == [f] && [f][1..] == [];
    } else {
      var head := FieldExternNames(fields[0]);
      assert (fields + [f])[0] == fields[0] && (fields + [f])[1..] == fields[1..] + [f];
      AccessorExternNamesSnoc(fields[1..], f);
      assert AccessorExternNames(fields + [f]) == head + (AccessorExternNames(fields[1..]) + FieldExternNames(f));
      assert head + (AccessorExternNames(fields[1..]) + FieldExternNames(f)) == (head + AccessorExternNames(fields[1..])) + FieldExternNames(f);
    }
  }

  lemma {:induction false} NonCustomAccessorExternNamesSnoc(fields: seq<FieldWrapper>, f: FieldWrapper)
    ensures NonCustomAccessorExternNames(fields + [f])
         == NonCustomAccessorExternNames(fields) + (if f.wrapperType == Custom then [] else FieldExternNames(f))
  {
    if fields == [] {
      assert [] + [f] == [f] && [f][1..] == [];
    } else {
      var head := if fields[0].wrapperType == Custom then [] else FieldExternNames(fields[0]);
      var last := if f.wrapperType == Custom then [] else FieldExternNames(f);
      assert (fields + [f])[0] == fields[0] && (fields + [f])[1..] == fields[1..] + [f];
      NonCustomAccessorExternNamesSnoc(fields[1..], f);
      assert NonCustomAccessorExternNames(fields + [f]) == head + (NonCustomAccessorExternNames(fields[1..]) + last);
      assert head + (NonCustomAccessorExternNames(fields[1..]) + last) == (head + NonCustomAccessorExternNames(fields[1..])) + last;
    }
  }

  /** The name both generated definitions pass for an argument to the extern: the argument
      itself, or the converted `casted_<a>` for a String. */
  function CallArgOf(a: FunctionArgWrapper): string
  {
    match a.wrapperType
    case ArgPrimitive => a.argName
    case ArgString => "casted_" + a.argName
  }

  function CallArgs(args: seq<FunctionArgWrapper>): (r: seq<string>)
    ensures |r| == |args| && forall i :: 0 <= i < |args| ==> r[i] == CallArgOf(args[i])
  {
    seq(|args|, i requires 0 <= i < |args| => CallArgOf(args[i]))
  }

  /** The names of the String arguments, in source order: the arguments every backend converts before the call. */
  function StringArgNames(args: seq<FunctionArgWrapper>): (r: seq<string>)
    ensures |r| <= |args|
    ensures forall x :: x in r ==> exists i :: 0 <= i < |args| && args[i].wrapperType == ArgString && args[i].argName == x
  {
    if args == [] then []
    else
      var rest := StringArgNames(args[1..]);
      assert forall x :: x in rest ==> exists i :: 0 <= i < |args[1..]| && args[1..][i].wrapperType == ArgString && args[1..][i].argName == x;
      assert forall i :: 0 <= i < |args[1..]| ==> args[1..][i] == args[i + 1];
      (if args[0].wrapperType == ArgString then [args[0].argName] else []) + rest
  }

  lemma {:induction false} StringArgNamesSnoc(args: seq<FunctionArgWrapper>, a: FunctionArgWrapper)
    ensures StringArgNames(args + [a]) == StringArgNames(args) + (if a.wrapperType == ArgString then [a.argName] else [])
  {
    if args == [] {
      assert [] + [a] == [a] && [a][1..] == [];
    } else {
      var head := if args[0].wrapperType == ArgString then [args[0].argName] else [];
      var last := if a.wrapperType == ArgString then [a.argName] else [];
      assert (args + [a])[0] == args[0] && (args + [a])[1..] == args[1..] + [a];
      StringArgNamesSnoc(args[1..], a);
      assert StringArgNames(args + [a]) == head + (StringArgNames(args[1..]) + last);
      assert head + (StringArgNames(args[1..]) + last) == (head + StringArgNames(args[1..])) + last;
    }
  }
}
