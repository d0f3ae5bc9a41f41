/** `gen_function_header` / `gen_function_definition`: the C-header line and the Swift function
    of a free function. */
module SwiftFunction {
  import opened Common
  import opened Naming
  import opened Schema
  import opened CDecl

  /** `map_return_type`: the `-> T` signature, the C return type and whether the result needs
      the `RustString` conversion. */
  datatype ReturnTypes = ReturnTypes(returnTypeSig: Option<string>, cppReturnType: CType, resultCast: bool)

  /** A Swift parameter `_ name: T`; String arguments are `_ name: String`. */
  datatype SwiftParam = SwiftParam(name: string, ty: string)

  /** The three shapes of the function body. */
  datatype SwiftBody =
    | CastThenReturn(returnTypeSig: string)   // let result = ext(...); let casted_result = RustString(result!).to_string(); return casted_result
    | ReturnCall(returnTypeSig: string)       // return ext(...)
    | BareCall                                // ext(...)

  /** `@_exported import CFfiModule`, then `public func <fn>(...)`. */
  datatype SwiftFunctionDefinition = SwiftFunctionDefinition(
    importedModule: string,
    name: string,
    params: seq<SwiftParam>,
    casts: seq<string>,
    externName: string,
    callArgs: seq<string>,
    body: SwiftBody)

  function MapReturnType(rw: Option<FunctionReturnWrapper>): (r: ReturnTypes)
    ensures rw.None? ==> r == ReturnTypes(None, CVoid, false)
    ensures rw.Some? && rw.value.wrapperType == ReturnPrimitive ==>
      r == ReturnTypes(Some("-> " + rw.value.returnType + " "), CNamed(rw.value.returnType), false)
    ensures rw.Some? && rw.value.wrapperType == ReturnString ==> r == ReturnTypes(Some("-> String "), CVoidPtr, true)
  {
    match rw
    case Some(FunctionReturnWrapper(ReturnPrimitive, t)) => ReturnTypes(Some("-> " + t + " "), CNamed(t), false)
    case Some(FunctionReturnWrapper(ReturnString, _)) => ReturnTypes(Some("-> String "), CVoidPtr, true)
    case None => ReturnTypes(None, CVoid, false)
  }

  function HeaderParamOf(a: FunctionArgWrapper): CType
  {
    match a.wrapperType
    case ArgPrimitive => CNamed(a.argType)
    case ArgString => CVoidPtr
  }

  /** `gen_function_header`: `<ret> <extern>(<T name> | <void* name>, ...)`. */
  function FunctionHeader(fw: FunctionWrapper): (r: CExtern)
    ensures r.name == fw.externFunctionName && r.ret == MapReturnType(fw.returnWrapper).cppReturnType
    ensures |r.params| == |fw.argsWrappers|
    ensures forall i :: 0 <= i < |fw.argsWrappers| ==> r.params[i] == HeaderParamOf(fw.argsWrappers[i])
  {
    CExtern(MapReturnType(fw.returnWrapper).cppReturnType, fw.externFunctionName,
            seq(|fw.argsWrappers|, i requires 0 <= i < |fw.argsWrappers| => HeaderParamOf(fw.argsWrappers[i])))
  }

  function SwiftParamOf(a: FunctionArgWrapper): SwiftParam
  {
    match a.wrapperType
    case ArgPrimitive => SwiftParam(a.argName, a.argType)
    case ArgString => SwiftParam(a.argName, "String")
  }

  function SwiftParams(args: seq<FunctionArgWrapper>): (r: seq<SwiftParam>)
    ensures |r| == |args| && forall i :: 0 <= i < |args| ==> r[i] == SwiftParamOf(args[i])
  {
    seq(|args|, i requires 0 <= i < |args| => SwiftParamOf(args[i]))
  }

  /** The body shape follows the return: a String result is converted and returned, a
      Primitive result is returned directly, and no result gives a bare call. */
  function BodyOf(rt: ReturnTypes): (r: SwiftBody)
    ensures rt.returnTypeSig.None? <==> r == BareCall
    ensures rt.returnTypeSig.Some? && rt.resultCast ==> r == CastThenReturn(rt.returnTypeSig.value)
    ensures rt.returnTypeSig.Some? && !rt.resultCast ==> r == ReturnCall(rt.returnTypeSig.value)
  {
    match rt.returnTypeSig
    case Some(sig) => if rt.resultCast then CastThenReturn(sig) else ReturnCall(sig)
    case None => BareCall
  }

  function Definition(fw: FunctionWrapper): SwiftFunctionDefinition
  {
    SwiftFunctionDefinition("CFfiModule", fw.name, SwiftParams(fw.argsWrappers), StringArgNames(fw.argsWrappers),
                            fw.externFunctionName, CallArgs(fw.argsWrappers), BodyOf(MapReturnType(fw.returnWrapper)))
  }

  /** The C functions the Swift function calls: its extern, and for a String result the
      `RustString` functions `to_string` and `deinit` call. */
  function DefinitionCallees(d: SwiftFunctionDefinition): (r: seq<string>)
    ensures |r| >= 1 && r[0] == d.externName
    ensures |r| > 1 <==> d.body.CastThenReturn?
  {
    [d.externName] + (if d.body.CastThenReturn? then [RustStringDataFnName, RustStringLenFnName, RustStringDropFnName] else [])
  }

  /** `gen_function_definition`: pushes signatures, call arguments and casts in one pass. */
  method GenFunctionDefinition(fw: FunctionWrapper) returns (d: SwiftFunctionDefinition)
    ensures d == Definition(fw)
  {
    var args := fw.argsWrappers;
    var signatures: seq<SwiftParam> := [];
    var names: seq<string> := [];
    var casts: seq<string> := [];
    for i := 0 to |args|
      invariant signatures == SwiftParams(args[..i])
      invariant names == CallArgs(args[..i])
      invariant casts == StringArgNames(args[..i])
    {
      assert args[..i + 1] == args[..i] + [args[i]];
      StringArgNamesSnoc(args[..i], args[i]);
      match args[i].wrapperType {
        case ArgPrimitive =>
          signatures := signatures + [SwiftParam(args[i].argName, args[i].argType)];
          names := names + [args[i].argName];
        case ArgString =>
          signatures := signatures + [SwiftParam(args[i].argName, "String")];
          names := names + ["casted_" + args[i].argName];
          casts := casts + [args[i].argName];
      }
    }
    assert args[..|args|] == args;
    var rt := MapReturnType(fw.returnWrapper);
    var body: SwiftBody;
    match (rt.returnTypeSig, rt.resultCast) {
      case (Some(sig), true) => body := CastThenReturn(sig);
      case (Some(sig), false) => body := ReturnCall(sig);
      case (None, _) => body := BareCall;
    }
    d := SwiftFunctionDefinition("CFfiModule", fw.name, signatures, casts, fw.externFunctionName, names, body);
  }
}
