/** Agreement between the three outputs of one declaration: the C declarations the C++ and Swift
    headers write and the Rust shims they link against name the same symbols with
    ABI-compatible signatures (with two exceptions the generators have), the three function
    wrappers pass the arguments in the same order, and the two bindings of a free function
    return the same result for the same arguments. */
module Agreement {
  import opened Common
  import opened Schema
  import opened RustIr
  import opened CDecl
  import opened Runtime
  import opened StructShim
  import opened FunctionShim
  import opened ShimSemantics
  import opened Consumer
  import CppClass
  import CppFunction
  import CppRuntime
  import CppCall
  import SwiftClass
  import SwiftFunction
  import SwiftRuntime

  /** A C parameter or result type and a Rust one are passed alike: the same primitive, any
      pointer for any raw pointer, `size_t` for `usize`. A named type is compared by name only;
      whether the C side declares that name is `HeaderTypes`. */
  predicate Abi(c: CType, r: RustTy)
  {
    match c
    case CNamed(n) => r == Named(n)
    case CVoidPtr => r.MutPtr? || r.ConstPtr?
    case CCharPtr => r.MutPtr? || r.ConstPtr?
    case CConstCharPtr => r.MutPtr? || r.ConstPtr?
    case CSizeT => r == Named("usize")
    case CUnsignedInt => r == Named("u32")
    case CVoid => false
  }

  predicate RetAbi(c: CType, r: Option<RustTy>)
  {
    if c == CVoid then r.None? else r.Some? && Abi(c, r.value)
  }

  /** The C declaration `e` is a correct prototype of the Rust shim `item`. */
  predicate ExternMatches(e: CExtern, item: RustItem)
  {
    && item.ExternFn? && e.name == item.exportName
    && |e.params| == |item.params|
    && (forall i :: 0 <= i < |e.params| ==> Abi(e.params[i], item.params[i].ty))
    && RetAbi(e.ret, item.ret)
  }

  /** ... except that the third parameter is declared `unsigned int` where the shim takes a
      `usize`. */
  predicate LengthWidthOnly(e: CExtern, item: RustItem)
  {
    && item.ExternFn? && e.name == item.exportName
    && |e.params| == |item.params| == 3
    && Abi(e.params[0], item.params[0].ty) && Abi(e.params[1], item.params[1].ty)
    && e.params[2] == CUnsignedInt && item.params[2].ty == Named("usize")
    && RetAbi(e.ret, item.ret)
  }

  // C++ class

  lemma CppFieldExternsMatch(c: string, f: FieldWrapper)
    ensures var m := CppClass.MapFields(f);
      forall e :: e in CppClass.MethodExterns(m.getter) + CppClass.MethodExterns(m.setter) ==>
        exists item :: item in FieldShims(c, f) && ExternMatches(e, item)
  {
    var m := CppClass.MapFields(f);
    if f.getter.Some? {
      assert ExternMatches(CppClass.MethodExterns(m.getter)[0], GetterShim(c, f, f.getter.value));
    }
    if f.setter.Some? {
      assert ExternMatches(CppClass.MethodExterns(m.setter)[0], SetterShim(c, f, f.setter.value));
    }
  }

  lemma {:induction false} CppFieldsExternsMatch(c: string, fields: seq<FieldWrapper>)
    ensures forall e :: e in CppClass.FieldExterns(fields) ==> exists item :: item in AllFieldShims(c, fields) && ExternMatches(e, item)
  {
    if fields != [] {
      var init := fields[..|fields| - 1];
      var last := fields[|fields| - 1];
      CppFieldsExternsMatch(c, init);
      CppFieldExternsMatch(c, last);
      AllFieldShimsSnoc(c, init, last);
      assert init + [last] == fields;
      var m := CppClass.MapFields(last);
      forall e | e in CppClass.FieldExterns(fields) ensures exists item :: item in AllFieldShims(c, fields) && ExternMatches(e, item) {
        if e in CppClass.FieldExterns(init) {
          var item :| item in AllFieldShims(c, init) && ExternMatches(e, item);
          assert item in AllFieldShims(c, fields);
        } else {
          assert e in CppClass.MethodExterns(m.getter) + CppClass.MethodExterns(m.setter);
          var item :| item in FieldShims(c, last) && ExternMatches(e, item);
          assert item in AllFieldShims(c, fields);
        }
      }
    }
  }

  /** Every extern the C++ class header declares is a correct prototype of a shim of the
      struct. */
  lemma CppClassExternsMatch(sw: StructWrapper)
    ensures forall e :: e in CppClass.ClassDefinition(sw).externs ==> exists item :: item in StructShimOf(sw) && ExternMatches(e, item)
  {
    CppFieldsExternsMatch(sw.name, sw.fields);
    var shim := StructShimOf(sw);
    var dc := CppClass.DefaultConstructorMethod(sw);
    forall e | e in CppClass.ClassDefinition(sw).externs
      ensures exists item :: item in shim && ExternMatches(e, item)
    {
      if e in CppClass.FieldExterns(sw.fields) {
        var item :| item in AllFieldShims(sw.name, sw.fields) && ExternMatches(e, item);
        assert item in shim;
      } else if e in dc.externFn {
        assert ExternMatches(e, GenDefaultConstructor(sw.defaultConstructor, sw.name)[0]);
        assert GenDefaultConstructor(sw.defaultConstructor, sw.name)[0] in shim;
      } else if e == CppClass.CloneExtFn(sw) {
        assert ExternMatches(e, GenClone(sw.cloneExtFnName, sw.name));
        assert GenClone(sw.cloneExtFnName, sw.name) in shim;
      } else {
        assert ExternMatches(e, GenDrop(sw.dropExtFnName, sw.name));
        assert GenDrop(sw.dropExtFnName, sw.name) in shim;
      }
    }
  }

  // Swift class

  lemma SwiftFieldExternsMatch(c: string, f: FieldWrapper)
    ensures forall e :: e in SwiftClass.FieldExterns(f) ==>
      exists item :: item in FieldShims(c, f) && (ExternMatches(e, item) || LengthWidthOnly(e, item))
  {
    if f.wrapperType != Custom {
      if f.getter.Some? {
        var g := f.getter.value;
        var e := if f.wrapperType == Primitive then SwiftClass.PrimitiveGetterExtern(g, f.fieldType) else SwiftClass.StringGetterExtern(g);
        assert ExternMatches(e, GetterShim(c, f, g));
      }
      if f.setter.Some? {
        var s := f.setter.value;
        if f.wrapperType == Primitive {
          assert ExternMatches(SwiftClass.PrimitiveSetterExtern(s, f.fieldType), SetterShim(c, f, s));
        } else {
          assert LengthWidthOnly(SwiftClass.StringSetterExtern(s), SetterShim(c, f, s));
        }
      }
    }
  }

  lemma {:induction false} SwiftFieldsExternsMatch(c: string, fields: seq<FieldWrapper>)
    ensures forall e :: e in SwiftClass.GettersAndSettersExterns(fields) ==>
      exists item :: item in AllFieldShims(c, fields) && (ExternMatches(e, item) || LengthWidthOnly(e, item))
  {
    if fields != [] {
      SwiftFieldExternsMatch(c, fields[0]);
      SwiftFieldsExternsMatch(c, fields[1..]);
    }
  }

  /** Every line of the Swift C header of a struct is a prototype of a shim of the struct; only
      the length of a String setter is declared narrower than the shim's `usize`. */
  lemma SwiftClassExternsMatch(sw: StructWrapper)
    ensures forall e :: e in SwiftClass.ClassHeader(sw) ==>
      exists item :: item in StructShimOf(sw) && (ExternMatches(e, item) || LengthWidthOnly(e, item))
  {
    SwiftFieldsExternsMatch(sw.name, sw.fields);
    var shim := StructShimOf(sw);
    forall e | e in SwiftClass.ClassHeader(sw)
      ensures exists item :: item in shim && (ExternMatches(e, item) || LengthWidthOnly(e, item))
    {
      if e in SwiftClass.GettersAndSettersExterns(sw.fields) {
        var item :| item in AllFieldShims(sw.name, sw.fields) && (ExternMatches(e, item) || LengthWidthOnly(e, item));
        assert item in shim;
      } else if e in SwiftClass.DefaultConstructorExtern(sw) {
        assert ExternMatches(e, GenDefaultConstructor(sw.defaultConstructor, sw.name)[0]);
        assert GenDefaultConstructor(sw.defaultConstructor, sw.name)[0] in shim;
      } else {
        assert ExternMatches(e, GenDrop(sw.dropExtFnName, sw.name));
        assert GenDrop(sw.dropExtFnName, sw.name) in shim;
      }
    }
  }

  /** The narrower length is harmless: the String setter shim reads up to the NUL and never
      looks at the length it is given. */
  lemma SwiftLengthNeverRead(c: string, f: FieldWrapper, s: Setter, h: Heap, p: Handle, b: string, n1: nat, n2: nat, env: Env)
    requires f.wrapperType == String && FieldOf(h, p, f.fieldName).Some?
    ensures LengthWidthOnly(SwiftClass.StringSetterExtern(s), SetterShim(c, f, s))
    ensures !ExternMatches(SwiftClass.StringSetterExtern(s), SetterShim(c, f, s))
    ensures RunItem(h, SetterShim(c, f, s), [Ptr(p), CStr(b), Size(n1)], env)
         == RunItem(h, SetterShim(c, f, s), [Ptr(p), CStr(b), Size(n2)], env)
  {
    assert !Abi(SwiftClass.StringSetterExtern(s).params[2], SetterShim(c, f, s).params[2].ty);
    StringSetterReadsToNul(c, f, s, h, p, b, n1, env);
    StringSetterReadsToNul(c, f, s, h, p, b, n2, env);
  }

  /** Every Swift header symbol of a struct is exported by its Rust shim. */
  lemma SwiftNamesExported(sw: StructWrapper)
    ensures forall x :: x in CDecl.ExternNames(SwiftClass.ClassHeader(sw)) ==> x in ExportNames(StructShimOf(sw))
  {
    SwiftClass.NonCustomNamesAreAccessorNames(sw.fields);
    StructShimExportsSchemaNames(sw);
  }

  // Free functions

  /** The C++ prototype of a free function matches its shim exactly when the function returns
      something: without a result it is declared `void*` while the shim returns nothing. */
  lemma CppFunctionExternMatches(fw: FunctionWrapper)
    ensures ExternMatches(CppFunction.Declaration(fw).ext, FunctionShimOf(fw)) <==> fw.returnWrapper.Some?
    ensures fw.returnWrapper.None? ==> CppFunction.Declaration(fw).ext.ret == CVoidPtr && FunctionShimOf(fw).ret.None?
  {
    var e := CppFunction.Declaration(fw).ext;
    var item := FunctionShimOf(fw);
    forall i | 0 <= i < |e.params| ensures Abi(e.params[i], item.params[i].ty) {
    }
  }

  /** The Swift prototype of a free function always matches its shim. */
  lemma SwiftFunctionExternMatches(fw: FunctionWrapper)
    ensures ExternMatches(SwiftFunction.FunctionHeader(fw), FunctionShimOf(fw))
  {
    var e := SwiftFunction.FunctionHeader(fw);
    var item := FunctionShimOf(fw);
    forall i | 0 <= i < |e.params| ensures Abi(e.params[i], item.params[i].ty) {
    }
  }

  /** The shim, the C++ definition and the Swift definition take one parameter per argument in
      source order and pass them on in that order, under the same names. */
  lemma ArgumentOrderAgrees(fw: FunctionWrapper)
    ensures var rust := FunctionShimOf(fw); var cpp := CppFunction.Definition(fw); var swift := SwiftFunction.Definition(fw);
      && |rust.params| == |cpp.params| == |swift.params| == |cpp.callArgs| == |swift.callArgs| == |fw.argsWrappers|
      && forall i :: 0 <= i < |fw.argsWrappers| ==>
           && rust.params[i].name == cpp.params[i].name == swift.params[i].name == fw.argsWrappers[i].argName
           && cpp.callArgs[i] == swift.callArgs[i]
           && rust.body.args[i] == fw.argsWrappers[i].argName
  {
    FunctionShimPreservesArgumentOrder(fw);
  }

  /** A C++ argument and a Swift argument that carry the same value. */
  predicate SameArg(c: CppRuntime.CppArg, s: SwiftRuntime.SwiftValue)
  {
    || (c.PrimArg? && s.Prim? && c.v == s.v)
    || (c.StrArg? && s.Str? && c.s == s.s)
  }

  predicate SameResult(c: CppRuntime.CppResult, s: SwiftRuntime.SwiftValue)
  {
    || (c.Unit? && s.Void?)
    || (c.PrimResult? && s.Prim? && c.v == s.v)
    || (c.StrResult? && s.Str? && c.s == s.s)
  }

  /** Called with the same arguments, the C++ and the Swift wrapper of a free function return
      the same result and leave the same live cells. */
  lemma BindingsAgree(fw: FunctionWrapper, prog: seq<RustItem>, h: Heap, cargs: seq<CppRuntime.CppArg>, sargs: seq<SwiftRuntime.SwiftValue>, env: Env)
    requires Valid(h) && DistinctArgNames(fw.argsWrappers) && SwiftRuntime.SwiftKindsDistinct(fw.argsWrappers)
    requires Links(prog, Base.RustCodeBase()) && Provides(prog, FunctionShimOf(fw))
    requires |cargs| == |sargs| == |fw.argsWrappers|
    requires forall i :: 0 <= i < |cargs| ==> CppCall.Fits(CppFunction.CppParamOf(fw.argsWrappers[i]), cargs[i]) && SameArg(cargs[i], sargs[i])
    requires fw.returnWrapper.Some? && fw.returnWrapper.value.wrapperType == ReturnString ==> env.call(fw.name, CppCall.ArgValues(cargs)).Text?
    ensures var rc := CppCall.RunFunction(h, prog, CppFunction.Definition(fw), cargs, env);
      var rs := SwiftRuntime.RunFunction(h, prog, SwiftFunction.Definition(fw), sargs, env);
      && rc.Some? && rs.Some? && SameResult(rc.value.1, rs.value.1) && rc.value.0.cells == rs.value.0.cells
  {
    assert CppCall.ArgValues(cargs) == SwiftRuntime.ArgValues(sargs);
    forall i | 0 <= i < |sargs| ensures SwiftRuntime.Fits(SwiftFunction.SwiftParamOf(fw.argsWrappers[i]), sargs[i]) {
    }
    CppCall.CppFunctionCallsOriginal(fw, prog, h, cargs, env);
    SwiftRuntime.SwiftFunctionCallsOriginal(fw, prog, h, sargs, env);
  }
}
