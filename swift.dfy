/** `Wrapper::swift`: the Swift files of one declaration. */
module Swift {
  import opened Schema
  import opened CDecl
  import SwiftClass
  import SwiftFunction

  datatype SwiftSource = ClassSource(classDefinition: SwiftClass.SwiftClassDefinition) | FunctionSource(functionDefinition: SwiftFunction.SwiftFunctionDefinition)

  /** The lines appended to the shared C header, and the `.swift` file. */
  datatype SwiftFiles = SwiftFiles(header: seq<CExtern>, source: SwiftSource)

  /** A struct gets its class header lines and its class; a function gets one header line and
      its function. */
  function SwiftOf(w: Wrapper): (r: SwiftFiles)
    ensures w.parsed.Struct? <==> r.source.ClassSource?
    ensures w.parsed.Struct? ==>
      ExternNames(r.header) == [w.parsed.structWrapper.dropExtFnName] + NonCustomAccessorExternNames(w.parsed.structWrapper.fields)
                               + DefaultExternNames(w.parsed.structWrapper)
    ensures w.parsed.Struct? ==> r.source.classDefinition == SwiftClass.ClassDefinition(w.parsed.structWrapper)
    ensures w.parsed.Function? ==> ExternNames(r.header) == [w.parsed.functionWrapper.externFunctionName]
    ensures w.parsed.Function? ==> r.source.functionDefinition.externName == w.parsed.functionWrapper.externFunctionName
  {
    match w.parsed
    case Struct(sw) => SwiftFiles(SwiftClass.ClassHeader(sw), ClassSource(SwiftClass.ClassDefinition(sw)))
    case Function(fw) => SwiftFiles([SwiftFunction.FunctionHeader(fw)], FunctionSource(SwiftFunction.Definition(fw)))
  }

  /** What the generated Swift calls against what `ffi_swift.h` declares for it (the C-header
      code base and the declaration's own lines): a function calls only declared functions; a
      class does so exactly when it has no String getter, whose block calls the undeclared
      slice functions. */
  lemma SwiftOfCallsDeclared(w: Wrapper)
    requires w.parsed.Struct? ==> WellNamedStruct(w.parsed.structWrapper) && DistinctFieldNames(w.parsed.structWrapper.fields)
    ensures w.parsed.Function? ==>
      forall n :: n in SwiftFunction.DefinitionCallees(SwiftOf(w).source.functionDefinition) ==>
        n in ExternNames(SwiftClass.CHeaderCodeBase() + SwiftOf(w).header)
    ensures w.parsed.Struct? ==>
      (SwiftClass.CallsDeclared(SwiftOf(w).source.classDefinition, ExternNames(SwiftClass.CHeaderCodeBase() + SwiftOf(w).header))
       <==> forall i :: 0 <= i < |w.parsed.structWrapper.fields| ==>
              !(w.parsed.structWrapper.fields[i].wrapperType == String && w.parsed.structWrapper.fields[i].getter.Some?))
  {
    match w.parsed
    case Struct(sw) => SwiftClass.ClassCompilesIffNoStringGetter(sw);
    case Function(fw) => ExternNamesConcat(SwiftClass.CHeaderCodeBase(), [SwiftFunction.FunctionHeader(fw)]);
  }
}
