/** What a call of a generated C++ free function does: each `std::string&&` argument is handed
    over as `casted_<a> = <a>.data()`, the extern is called with the arguments in order, and the
    result is returned as is, read back through `RustString`, or dropped. */
module CppCall {
  import opened Common
  import opened Schema
  import opened RustIr
  import opened Runtime
  import opened Base
  import opened FunctionShim
  import opened ShimSemantics
  import opened Consumer
  import opened CppFunction
  import opened CppRuntime

  /** A C++ argument has the kind its parameter declares. */
  predicate Fits(p: CppParam, a: CppArg)
  {
    match p
    case ValueParam(_, _) => a.PrimArg?
    case StringRvalueParam(_) => a.StrArg?
  }

  /** The word the definition passes for one argument: the string's NUL-terminated buffer, or
      the value itself. */
  function CallWord(p: CppParam, a: CppArg): (r: Option<Word>)
    ensures r.Some? <==> Fits(p, a)
    ensures r.Some? && p.StringRvalueParam? ==> r.value == CStr(CBuffer(a.s))
    ensures r.Some? && p.ValueParam? ==> r.value == Val(a.v)
  {
    match p
    case ValueParam(_, _) => if a.PrimArg? then Some(Val(a.v)) else None
    case StringRvalueParam(_) => if a.StrArg? then Some(CStr(CBuffer(a.s))) else None
  }

  /** The extern's arguments, in the order of the C++ parameters; `None` for a call that does
      not type-check. */
  function CallWords(params: seq<CppParam>, args: seq<CppArg>): (r: Option<seq<Word>>)
    ensures r.Some? <==> |params| == |args| && forall i :: 0 <= i < |params| ==> Fits(params[i], args[i])
    ensures r.Some? ==> |r.value| == |params| && forall i :: 0 <= i < |params| ==> Some(r.value[i]) == CallWord(params[i], args[i])
  {
    if params == [] || args == [] then (if |params| == |args| then Some([]) else None)
    else
      match (CallWord(params[0], args[0]), CallWords(params[1..], args[1..]))
      case (Some(w), Some(ws)) => Some([w] + ws)
      case _ => None
  }

  /** Running `Definition(fw)` against the linked program. */
  function RunFunction(h: Heap, prog: seq<RustItem>, d: FunctionDefinition, args: seq<CppArg>, env: Env): Option<(Heap, CppResult)>
  {
    match CallWords(d.params, args)
    case None => None
    case Some(words) =>
      match Call(h, prog, d.externName, words, env)
      case Aborted => None
      case Returned(h1, ret) =>
        match d.returnCast
        case NoReturnStatement => Some((h1, Unit))
        case ReturnResult => if ret.Some? && ret.value.Val? then Some((h1, PrimResult(ret.value.value))) else None
        case ReturnRustString =>
          if ret.Some? && ret.value.Ptr? then
            match ReadRustString(h1, prog, ret.value.handle, env)
            case Some((h2, s)) => Some((h2, StrResult(s)))
            case None => None
          else None
  }

  /** The value the original function receives for a C++ argument: a string is read up to its
      first NUL. */
  function ArgValue(a: CppArg): (r: Value)
    ensures a.StrArg? ==> r == Text(CStrPrefix(a.s))
    ensures a.PrimArg? ==> r == a.v
  {
    if a.StrArg? then Text(CStrPrefix(a.s)) else if a.PrimArg? then a.v else Scalar(0)
  }

  function ArgValues(args: seq<CppArg>): (r: seq<Value>)
    ensures |r| == |args| && forall i :: 0 <= i < |args| ==> r[i] == ArgValue(args[i])
  {
    seq(|args|, i requires 0 <= i < |args| => ArgValue(args[i]))
  }

  /** What the extern of `fw` does when called with the words of well-kinded C++ arguments. */
  lemma CppShimOutcome(fw: FunctionWrapper, h: Heap, args: seq<CppArg>, env: Env) returns (words: seq<Word>)
    requires Valid(h) && DistinctArgNames(fw.argsWrappers)
    requires |args| == |fw.argsWrappers| && forall i :: 0 <= i < |args| ==> Fits(CppParamOf(fw.argsWrappers[i]), args[i])
    ensures CallWords(Definition(fw).params, args) == Some(words)
    ensures var o := RunItem(h, FunctionShimOf(fw), words, env);
      var result := env.call(fw.name, ArgValues(args));
      && (fw.returnWrapper.None? ==> o == Returned(h, None))
      && (fw.returnWrapper.Some? && fw.returnWrapper.value.wrapperType == ReturnPrimitive ==> o == Returned(h, Some(Val(result))))
      && (fw.returnWrapper.Some? && fw.returnWrapper.value.wrapperType == ReturnString && result.Text? ==>
            && o.Returned? && o.ret.Some? && o.ret.value.Ptr? && o.ret.value.handle !in h.cells
            && o.heap.cells == h.cells[o.ret.value.handle := BoxedString(result.text)])
  {
    words := CallWords(Definition(fw).params, args).value;
    var values := ArgValues(args);
    forall i | 0 <= i < |args| ensures ArgumentWord(fw.argsWrappers[i], words[i], values[i]) {
      if fw.argsWrappers[i].wrapperType == ArgString {
        CBufferReadBack(args[i].s);
      }
    }
    FunctionShimCallsOriginal(fw, h, words, values, env);
  }

  /** A definition that returns the extern's String box through `RustString` copies the text
      out and drops the box. */
  lemma RunReturnRustString(h: Heap, prog: seq<RustItem>, d: FunctionDefinition, args: seq<CppArg>, words: seq<Word>,
                            env: Env, h1: Heap, q: Handle, t: string)
    requires Links(prog, RustCodeBase()) && d.returnCast == ReturnRustString
    requires CallWords(d.params, args) == Some(words)
    requires Call(h, prog, d.externName, words, env) == Returned(h1, Some(Ptr(q)))
    requires q in h1.cells && h1.cells[q] == BoxedString(t)
    ensures RunFunction(h, prog, d, args, env) == Some((Free(h1, q), StrResult(t)))
  {
    ReadRustStringReturnsText(h1, prog, q, t, env);
  }

  /** A call of the C++ wrapper of `fw` with arguments of the declared kinds calls the original
      Rust function with those arguments, in order, and returns its result; a returned String
      is copied out and its box dropped, so the heap ends as it started. */
  lemma CppFunctionCallsOriginal(fw: FunctionWrapper, prog: seq<RustItem>, h: Heap, args: seq<CppArg>, env: Env)
    requires Valid(h) && DistinctArgNames(fw.argsWrappers)
    requires Links(prog, RustCodeBase()) && Provides(prog, FunctionShimOf(fw))
    requires |args| == |fw.argsWrappers| && forall i :: 0 <= i < |args| ==> Fits(CppParamOf(fw.argsWrappers[i]), args[i])
    ensures var r := RunFunction(h, prog, Definition(fw), args, env);
      var result := env.call(fw.name, ArgValues(args));
      && (fw.returnWrapper.None? ==> r == Some((h, Unit)))
      && (fw.returnWrapper.Some? && fw.returnWrapper.value.wrapperType == ReturnPrimitive ==> r == Some((h, PrimResult(result))))
      && (fw.returnWrapper.Some? && fw.returnWrapper.value.wrapperType == ReturnString && result.Text? ==>
            r.Some? && r.value.1 == StrResult(result.text) && r.value.0.cells == h.cells)
  {
    var words := CppShimOutcome(fw, h, args, env);
    var d := Definition(fw);
    var o := RunItem(h, FunctionShimOf(fw), words, env);
    assert Call(h, prog, d.externName, words, env) == o;
    var result := env.call(fw.name, ArgValues(args));
    if fw.returnWrapper.Some? && fw.returnWrapper.value.wrapperType == ReturnString && result.Text? {
      var q := o.ret.value.handle;
      RunReturnRustString(h, prog, d, args, words, env, o.heap, q, result.text);
      FreeUndoesAlloc(h, o.heap, q, BoxedString(result.text));
    } else if o.Returned? {
      RunReturned(h, prog, d, args, words, env, o.heap, o.ret);
    }
  }

  /** A definition that returns nothing or the extern's value passes on what the extern
      returned. */
  lemma RunReturned(h: Heap, prog: seq<RustItem>, d: FunctionDefinition, args: seq<CppArg>, words: seq<Word>,
                    env: Env, h1: Heap, ret: Option<Word>)
    requires CallWords(d.params, args) == Some(words)
    requires Call(h, prog, d.externName, words, env) == Returned(h1, ret)
    ensures d.returnCast == NoReturnStatement ==> RunFunction(h, prog, d, args, env) == Some((h1, Unit))
    ensures d.returnCast == ReturnResult && ret.Some? && ret.value.Val? ==> RunFunction(h, prog, d, args, env) == Some((h1, PrimResult(ret.value.value)))
  {
  }

  /** A call whose arguments do not have the declared kinds does not compile. */
  lemma IllTypedCallRejected(fw: FunctionWrapper, prog: seq<RustItem>, h: Heap, args: seq<CppArg>, env: Env, i: nat)
    requires i < |args| == |fw.argsWrappers| && !Fits(CppParamOf(fw.argsWrappers[i]), args[i])
    ensures RunFunction(h, prog, Definition(fw), args, env).None?
  {
  }
}
