/** `gen_function_declaration` / `gen_function_definition`: the C++ header and source of a free
    function. The C++ signature takes `std::string&&` for String arguments; the extern
    declaration takes `char*`. */
module CppFunction {
  import opened Common
  import opened Schema
  import opened CDecl

  /** A C++ parameter: `T name` or `std::string&& name`. */
  datatype CppParam = ValueParam(ty: string, name: string) | StringRvalueParam(name: string)

  /** What follows `result = <extern>(...)` in the definition. */
  datatype ReturnCast = ReturnResult | ReturnRustString | NoReturnStatement

  datatype ReturnTypes = ReturnTypes(extReturnType: CType, returnType: string, returnCast: ReturnCast)

  /** The header: `#include "base.h"`, the extern declaration and the C++ prototype. */
  datatype FunctionDeclaration = FunctionDeclaration(baseHeader: string, ext: CExtern, returnType: string, name: string, params: seq<CppParam>)

  /** The source: `#include "<fn>.h"`, the C++ signature, one `auto casted_<a> = <a>.data();`
      per String argument, the extern call and the return statement. */
  datatype FunctionDefinition = FunctionDefinition(
    ownHeader: string,
    returnType: string,
    name: string,
    params: seq<CppParam>,
    casts: seq<string>,
    extReturnType: CType,
    externName: string,
    callArgs: seq<string>,
    returnCast: ReturnCast)

  /** `map_return_type`. With no result the extern is still declared as returning `void*`,
      while the Rust shim returns nothing. */
  function MapReturnType(rw: Option<FunctionReturnWrapper>): (r: ReturnTypes)
    ensures rw.None? ==> r == ReturnTypes(CVoidPtr, "void", NoReturnStatement)
    ensures rw.Some? && rw.value.wrapperType == ReturnPrimitive ==>
      r == ReturnTypes(CNamed(rw.value.returnType), rw.value.returnType, ReturnResult)
    ensures rw.Some? && rw.value.wrapperType == ReturnString ==> r == ReturnTypes(CVoidPtr, "std::string", ReturnRustString)
  {
    match rw
    case Some(FunctionReturnWrapper(ReturnPrimitive, t)) => ReturnTypes(CNamed(t), t, ReturnResult)
    case Some(FunctionReturnWrapper(ReturnString, _)) => ReturnTypes(CVoidPtr, "std::string", ReturnRustString)
    case None => ReturnTypes(CVoidPtr, "void", NoReturnStatement)
  }

  function CppParamOf(a: FunctionArgWrapper): CppParam
  {
    match a.wrapperType
    case ArgPrimitive => ValueParam(a.argType, a.argName)
    case ArgString => StringRvalueParam(a.argName)
  }

  function WrapperParamOf(a: FunctionArgWrapper): CType
  {
    match a.wrapperType
    case ArgPrimitive => CNamed(a.argType)
    case ArgString => CCharPtr
  }

  function CppParams(args: seq<FunctionArgWrapper>): (r: seq<CppParam>)
    ensures |r| == |args| && forall i :: 0 <= i < |args| ==> r[i] == CppParamOf(args[i])
  {
    seq(|args|, i requires 0 <= i < |args| => CppParamOf(args[i]))
  }

  function WrapperParams(args: seq<FunctionArgWrapper>): (r: seq<CType>)
    ensures |r| == |args| && forall i :: 0 <= i < |args| ==> r[i] == WrapperParamOf(args[i])
  {
    seq(|args|, i requires 0 <= i < |args| => WrapperParamOf(args[i]))
  }

  function Declaration(fw: FunctionWrapper): FunctionDeclaration
  {
    var rt := MapReturnType(fw.returnWrapper);
    FunctionDeclaration("base.h", CExtern(rt.extReturnType, fw.externFunctionName, WrapperParams(fw.argsWrappers)),
                        rt.returnType, fw.name, CppParams(fw.argsWrappers))
  }

  function Definition(fw: FunctionWrapper): FunctionDefinition
  {
    var rt := MapReturnType(fw.returnWrapper);
    FunctionDefinition(fw.name + ".h", rt.returnType, fw.name, CppParams(fw.argsWrappers), StringArgNames(fw.argsWrappers),
                       rt.extReturnType, fw.externFunctionName, CallArgs(fw.argsWrappers), rt.returnCast)
  }

  /** `gen_function_declaration`: pushes the C++ and the extern parameter of every argument. */
  method GenFunctionDeclaration(fw: FunctionWrapper) returns (d: FunctionDeclaration)
    ensures d == Declaration(fw)
  {
    var args := fw.argsWrappers;
    var cppArgs: seq<CppParam> := [];
    var wrapperArgs: seq<CType> := [];
    for i := 0 to |args|
      invariant cppArgs == CppParams(args[..i])
      invariant wrapperArgs == WrapperParams(args[..i])
    {
      match args[i].wrapperType {
        case ArgPrimitive =>
          cppArgs := cppArgs + [ValueParam(args[i].argType, args[i].argName)];
          wrapperArgs := wrapperArgs + [CNamed(args[i].argType)];
        case ArgString =>
          cppArgs := cppArgs + [StringRvalueParam(args[i].argName)];
          wrapperArgs := wrapperArgs + [CCharPtr];
      }
    }
    assert args[..|args|] == args;
    var rt := MapReturnType(fw.returnWrapper);
    d := FunctionDeclaration("base.h", CExtern(rt.extReturnType, fw.externFunctionName, wrapperArgs), rt.returnType, fw.name, cppArgs);
  }

  /** `gen_function_definition`: pushes signatures, call arguments and casts. */
  method GenFunctionDefinition(fw: FunctionWrapper) returns (d: FunctionDefinition)
    ensures d == Definition(fw)
  {
    var args := fw.argsWrappers;
    var signatures: seq<CppParam> := [];
    var names: seq<string> := [];
    var casts: seq<string> := [];
    for i := 0 to |args|
      invariant signatures == CppParams(args[..i])
      invariant names == CallArgs(args[..i])
      invariant casts == StringArgNames(args[..i])
    {
      assert args[..i + 1] == args[..i] + [args[i]];
      StringArgNamesSnoc(args[..i], args[i]);
      match args[i].wrapperType {
        case ArgPrimitive =>
          signatures := signatures + [ValueParam(args[i].argType, args[i].argName)];
          names := names + [args[i].argName];
        case ArgString =>
          signatures := signatures + [StringRvalueParam(args[i].argName)];
          names := names + ["casted_" + args[i].argName];
          casts := casts + [args[i].argName];
      }
    }
    assert args[..|args|] == args;
    var rt := MapReturnType(fw.returnWrapper);
    d := FunctionDefinition(fw.name + ".h", rt.returnType, fw.name, signatures, casts, rt.extReturnType,
                            fw.externFunctionName, names, rt.returnCast);
  }

  /** Prototype and definition agree; the extern and the call use the schema's symbol; all
      three parameter lists and the call follow the source order. */
  lemma DeclarationMatchesDefinition(fw: FunctionWrapper)
    ensures Declaration(fw).params == Definition(fw).params
    ensures Declaration(fw).returnType == Definition(fw).returnType
    ensures Declaration(fw).ext.name == Definition(fw).externName == fw.externFunctionName
    ensures Declaration(fw).ext.ret == Definition(fw).extReturnType
    ensures |Declaration(fw).ext.params| == |Definition(fw).callArgs| == |fw.argsWrappers|
    ensures forall i :: 0 <= i < |fw.argsWrappers| ==>
      (fw.argsWrappers[i].wrapperType == ArgString <==> Declaration(fw).ext.params[i] == CCharPtr && Definition(fw).params[i] == StringRvalueParam(fw.argsWrappers[i].argName))
  {
  }
}
