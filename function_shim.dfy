/** The Rust `extern "C"` shim of a free function (`From<&FunctionWrapper>`):
    `ffi_wrapper_<fn>` converts C strings to owned `String`s, calls the original function with
    the arguments in source order and boxes a `String` result. */
module FunctionShim {
  import opened Common
  import opened Naming
  import opened Schema
  import opened RustIr

  /** The shim's parameter for one argument: by value, or `*const i8` for a String. */
  function ShimParam(a: FunctionArgWrapper): RustParam
  {
    match a.wrapperType
    case ArgPrimitive => RustParam(a.argName, Named(a.argType))
    case ArgString => RustParam(a.argName, ConstPtr("i8"))
  }

  function ShimParams(args: seq<FunctionArgWrapper>): (r: seq<RustParam>)
    ensures |r| == |args|
    ensures forall i :: 0 <= i < |args| ==> r[i] == ShimParam(args[i])
  {
    seq(|args|, i requires 0 <= i < |args| => ShimParam(args[i]))
  }

  function ArgNames(args: seq<FunctionArgWrapper>): (r: seq<string>)
    ensures |r| == |args|
    ensures forall i :: 0 <= i < |args| ==> r[i] == args[i].argName
  {
    seq(|args|, i requires 0 <= i < |args| => args[i].argName)
  }

  /** The `for_each` that pushes into `arg_signatures`, `arg_names` and `arg_casts`. */
  method CollectShimArgs(args: seq<FunctionArgWrapper>) returns (signatures: seq<RustParam>, names: seq<string>, casts: seq<string>)
    ensures signatures == ShimParams(args)
    ensures names == ArgNames(args)
    ensures casts == StringArgNames(args)
  {
    signatures, names, casts := [], [], [];
    for i := 0 to |args|
      invariant signatures == ShimParams(args[..i])
      invariant names == ArgNames(args[..i])
      invariant casts == StringArgNames(args[..i])
    {
      var a := args[i];
      assert args[..i + 1] == args[..i] + [a];
      StringArgNamesSnoc(args[..i], a);
      match a.wrapperType {
        case ArgPrimitive =>
          signatures := signatures + [RustParam(a.argName, Named(a.argType))];
          names := names + [a.argName];
        case ArgString =>
          signatures := signatures + [RustParam(a.argName, ConstPtr("i8"))];
          names := names + [a.argName];
          casts := casts + [a.argName];
      }
    }
    assert args[..|args|] == args;
  }

  /** The shim's return type and what it does with `result`. */
  function ReturnSig(rw: Option<FunctionReturnWrapper>): (r: (Option<RustTy>, ResultCast))
    ensures rw.None? ==> r == (None, PassResult)
    ensures rw.Some? && rw.value.wrapperType == ReturnPrimitive ==> r == (Some(Named(rw.value.returnType)), PassResult)
    ensures rw.Some? && rw.value.wrapperType == ReturnString ==> r == (Some(MutPtr("String")), BoxResult)
  {
    match rw
    case Some(FunctionReturnWrapper(ReturnPrimitive, t)) => (Some(Named(t)), PassResult)
    case Some(FunctionReturnWrapper(ReturnString, _)) => (Some(MutPtr("String")), BoxResult)
    case None => (None, PassResult)
  }

  function FunctionShimOf(fw: FunctionWrapper): RustItem
  {
    var (ret, cast) := ReturnSig(fw.returnWrapper);
    ExternFn(fw.externFunctionName, FunctionShimName(fw.name), ShimParams(fw.argsWrappers), ret,
             CallOriginal(fw.name, StringArgNames(fw.argsWrappers), ArgNames(fw.argsWrappers), cast))
  }

  /** `From<&FunctionWrapper> for TokenStream2`. */
  method GenFunctionShim(fw: FunctionWrapper) returns (item: RustItem)
    ensures item == FunctionShimOf(fw)
  {
    var signatures, names, casts := CollectShimArgs(fw.argsWrappers);
    var (ret, cast) := ReturnSig(fw.returnWrapper);
    item := ExternFn(fw.externFunctionName, FunctionShimName(fw.name), signatures, ret, CallOriginal(fw.name, casts, names, cast));
  }

  /** The shim is exported under the schema's symbol, takes one parameter per argument in
      source order, and calls the original function with exactly those parameters, in order. */
  lemma FunctionShimPreservesArgumentOrder(fw: FunctionWrapper)
    ensures var item := FunctionShimOf(fw);
      && item.exportName == fw.externFunctionName
      && item.name == FunctionShimName(fw.name)
      && |item.params| == |fw.argsWrappers|
      && item.body.CallOriginal? && item.body.callee == fw.name
      && |item.body.args| == |item.params|
      && forall i :: 0 <= i < |item.params| ==> item.body.args[i] == item.params[i].name == fw.argsWrappers[i].argName
  {
  }
}
