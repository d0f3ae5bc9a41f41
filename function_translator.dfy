/** `translate_function`: validates a free function into a `FunctionWrapper` schema.
    Parameters and the result may only be Primitive or String; there are no Custom parameters. */
module FunctionTranslator {
  import opened Common
  import opened Syntax
  import opened Naming
  import opened Schema
  import StructTranslator

  /** The parameter (or result) kind of a type name, or the panic for an unsupported one. */
  function ClassifyArgType(name: string): (r: Result<FunctionArgWrapperType>)
    ensures r == Ok(ArgPrimitive) <==> name in StructTranslator.PrimitiveTypeNames
    ensures r == Ok(ArgString) <==> name == "String"
    ensures r.Panic? <==> name !in StructTranslator.PrimitiveTypeNames && name != "String"
    ensures r.Panic? ==> r.reason == UnsupportedType(name)
  {
    match name
    case "i8" | "i16" | "i32" | "i64" | "i128" | "u8" | "u16" | "u32" | "u64" | "u128" | "f32" | "f64" | "bool" =>
      Ok(ArgPrimitive)
    case "String" => Ok(ArgString)
    case _ => Panic(UnsupportedType(name))
  }

  /** `map_arg`: the schema of one parameter. The receiver is checked first, then the pattern,
      then the type's shape, then its name. */
  function MapArg(arg: FnArg): (r: Result<FunctionArgWrapper>)
    ensures arg.Receiver? ==> r == Panic(ReceiverArgument)
    ensures arg.Typed? && !arg.pat.IdentPat? ==> r == Panic(NonIdentPattern)
    ensures arg.Typed? && arg.pat.IdentPat? && arg.ty.OtherType? ==> r == Panic(NoPath)
    ensures arg.Typed? && arg.pat.IdentPat? && arg.ty.PathType? && !StructTranslator.SingleIdentType(arg.ty) ==>
      r == Panic(NoIdent)
    ensures arg.Typed? && arg.pat.IdentPat? && StructTranslator.SingleIdentType(arg.ty) ==>
      var name := arg.ty.segments[0].ident;
      match ClassifyArgType(name)
      case Ok(kind) => r == Ok(FunctionArgWrapper(kind, arg.pat.name, name))
      case Panic(e) => r == Panic(e)
  {
    match arg
    case Receiver => Panic(ReceiverArgument)
    case Typed(pat, ty) =>
      if !pat.IdentPat? then Panic(NonIdentPattern)
      else
        match ty
        case OtherType(_) => Panic(NoPath)
        case PathType(colon, segments) =>
          match GetIdent(colon, segments)
          case None => Panic(NoIdent)
          case Some(ident) =>
            match ClassifyArgType(ident)
            case Panic(e) => Panic(e)
            case Ok(kind) => Ok(FunctionArgWrapper(kind, pat.name, ident))
  }

  /** Parameter `i` is the first invalid one and panics with `reason`. */
  predicate FirstArgPanic(inputs: seq<FnArg>, i: int, reason: Failure)
  {
    && 0 <= i < |inputs|
    && MapArg(inputs[i]) == Panic(reason)
    && forall k :: 0 <= k < i ==> MapArg(inputs[k]).Ok?
  }

  /** The `map(map_arg).collect()` over the parameters: one schema per parameter, in order;
      the first invalid parameter aborts with its panic. */
  function MapArgs(inputs: seq<FnArg>): (r: Result<seq<FunctionArgWrapper>>)
    ensures r.Ok? <==> forall i :: 0 <= i < |inputs| ==> MapArg(inputs[i]).Ok?
    ensures r.Ok? ==> |r.value| == |inputs|
    ensures r.Ok? ==> forall i :: 0 <= i < |inputs| ==> MapArg(inputs[i]) == Ok(r.value[i])
    ensures r.Panic? ==> exists i :: FirstArgPanic(inputs, i, r.reason)
  {
    if inputs == [] then Ok([])
    else
      match MapArg(inputs[0])
      case Panic(e) =>
        assert FirstArgPanic(inputs, 0, e);
        Panic(e)
      case Ok(a) =>
        assert forall k :: 0 <= k < |inputs[1..]| ==> inputs[1..][k] == inputs[k + 1];
        match MapArgs(inputs[1..])
        case Panic(e) =>
          ghost var i :| FirstArgPanic(inputs[1..], i, e);
          assert FirstArgPanic(inputs, i + 1, e);
          Panic(e)
        case Ok(rest) => Ok([a] + rest)
  }

  /** `return_wrapper`: no `->` gives no result schema; a result type is classified like a
      parameter, with its own panics for a non-path or non-identifier type. */
  function ReturnWrapperOf(output: ReturnType): (r: Result<Option<FunctionReturnWrapper>>)
    ensures output.DefaultReturn? ==> r == Ok(None)
    ensures output.ReturnTy? && output.ty.OtherType? ==> r == Panic(NoPathInReturn)
    ensures output.ReturnTy? && output.ty.PathType? && !StructTranslator.SingleIdentType(output.ty) ==>
      r == Panic(NoIdentInReturn)
    ensures output.ReturnTy? && StructTranslator.SingleIdentType(output.ty) ==>
      var name := output.ty.segments[0].ident;
      && (name in StructTranslator.PrimitiveTypeNames ==> r == Ok(Some(FunctionReturnWrapper(ReturnPrimitive, name))))
      && (name == "String" ==> r == Ok(Some(FunctionReturnWrapper(ReturnString, name))))
      && (name !in StructTranslator.PrimitiveTypeNames && name != "String" ==> r == Panic(UnsupportedType(name)))
  {
    match output
    case DefaultReturn => Ok(None)
    case ReturnTy(ty) =>
      match ty
      case OtherType(_) => Panic(NoPathInReturn)
      case PathType(colon, segments) =>
        match GetIdent(colon, segments)
        case None => Panic(NoIdentInReturn)
        case Some(ident) =>
          match ClassifyArgType(ident)
          case Panic(e) => Panic(e)
          case Ok(ArgPrimitive) => Ok(Some(FunctionReturnWrapper(ReturnPrimitive, ident)))
          case Ok(ArgString) => Ok(Some(FunctionReturnWrapper(ReturnString, ident)))
  }

  /** `translate_function`: parameters are mapped before the result, so an invalid parameter
      is reported even when the result is invalid too. */
  function TranslateFunction(item: ItemFn): (r: Result<Wrapper>)
    ensures r.Ok? <==> MapArgs(item.inputs).Ok? && ReturnWrapperOf(item.output).Ok?
    ensures MapArgs(item.inputs).Panic? ==> r == Panic(MapArgs(item.inputs).reason)
    ensures r.Ok? ==>
      && r.value.originalDefinition == FnItem(item)
      && r.value.parsed.Function?
      && var fw := r.value.parsed.functionWrapper;
      && fw.name == item.ident
      && fw.externFunctionName == FunctionSymbol(item.ident)
      && |fw.argsWrappers| == |item.inputs|
      && (forall i :: 0 <= i < |item.inputs| ==> MapArg(item.inputs[i]) == Ok(fw.argsWrappers[i]))
      && ReturnWrapperOf(item.output) == Ok(fw.returnWrapper)
  {
    match MapArgs(item.inputs)
    case Panic(e) => Panic(e)
    case Ok(args) =>
      match ReturnWrapperOf(item.output)
      case Panic(e) => Panic(e)
      case Ok(ret) =>
        Ok(Wrapper(FnItem(item), Function(FunctionWrapper(item.ident, FunctionSymbol(item.ident), args, ret))))
  }

  /** Custom (opaque) types, accepted as struct fields, are refused as parameters. */
  lemma CustomParameterRefused(name: string, typeName: string)
    requires typeName !in StructTranslator.PrimitiveTypeNames && typeName != "String"
    ensures MapArg(Typed(IdentPat(name), Named(typeName))) == Panic(UnsupportedType(typeName))
  {
  }
}
