/** `Wrapper::cpp`: the C++ files of one declaration. */
module Cpp {
  import opened Common
  import opened Schema
  import opened CDecl
  import CppClass
  import CppFunction

  datatype CppHeader = ClassHeader(classHeader: CppClass.CppClassHeader) | FunctionHeader(declaration: CppFunction.FunctionDeclaration)

  datatype CppFiles = CppFiles(header: CppHeader, source: Option<CppFunction.FunctionDefinition>)

  /** A struct gets its class header and no source; a function gets its declaration and its
      definition, both calling the schema's symbol. */
  function CppOf(w: Wrapper): (r: CppFiles)
    ensures w.parsed.Struct? <==> r.source.None?
    ensures w.parsed.Struct? ==> r.header.ClassHeader? && r.header.classHeader == CppClass.ClassDefinition(w.parsed.structWrapper)
    ensures w.parsed.Struct? ==> ExternNames(r.header.classHeader.externs) == SchemaExternNames(w.parsed.structWrapper)
    ensures w.parsed.Function? ==> r.header.FunctionHeader? && r.header.declaration.ext.name == w.parsed.functionWrapper.externFunctionName
    ensures w.parsed.Function? ==> r.source.value.externName == w.parsed.functionWrapper.externFunctionName
    ensures w.parsed.Function? ==> r.source.value.ownHeader == w.parsed.functionWrapper.name + ".h"
  {
    match w.parsed
    case Struct(sw) =>
      CppClass.ClassDefinitionDeclaresSchemaNames(sw);
      CppFiles(ClassHeader(CppClass.ClassDefinition(sw)), None)
    case Function(fw) => CppFiles(FunctionHeader(CppFunction.Declaration(fw)), Some(CppFunction.Definition(fw)))
  }
}
