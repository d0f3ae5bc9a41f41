/** `From<&Wrapper> for TokenStream2`: what the macro puts in place of the annotated item. */
module WrapperOutput {
  import opened Common
  import opened Syntax
  import opened Schema
  import opened RustIr
  import StructShim
  import FunctionShim

  /** A struct is replaced by its shim alone, which re-emits the definition itself; a function
      is kept as written and followed by its shim. */
  function Output(w: Wrapper): (r: seq<RustItem>)
    ensures |r| >= 2
    ensures w.parsed.Struct? ==> ExportNames(r) == SchemaExternNames(w.parsed.structWrapper)
    ensures w.parsed.Struct? ==> r[0] == StructDefinition(StructShim.StrippedStruct(w.parsed.structWrapper.originalItemStruct))
    ensures w.parsed.Function? ==> r[0] == OriginalDefinition(w.originalDefinition)
    ensures w.parsed.Function? ==> ExportNames(r) == [w.parsed.functionWrapper.externFunctionName]
  {
    match w.parsed
    case Struct(sw) =>
      StructShim.StructShimExportsSchemaNames(sw);
      StructShim.StructShimOf(sw)
    case Function(fw) =>
      var r := [OriginalDefinition(w.originalDefinition), FunctionShim.FunctionShimOf(fw)];
      assert r[1..][1..] == [];
      r
  }
}
