/** `translate`: dispatch on the kind of the annotated item. */
module Translator {
  import opened Common
  import opened Syntax
  import opened Schema
  import StructTranslator
  import FunctionTranslator

  function Translate(item: Item): (r: Result<Wrapper>)
    ensures item.OtherItem? ==> r == Panic(UnsupportedItem)
    ensures item.StructItem? ==> r == StructTranslator.TranslateStruct(item.itemStruct)
    ensures item.FnItem? ==> r == FunctionTranslator.TranslateFunction(item.itemFn)
    ensures r.Ok? ==> r.value.originalDefinition == item
    ensures r.Ok? ==> (r.value.parsed.Struct? <==> item.StructItem?)
    ensures r.Ok? && item.StructItem? ==> Name(r.value) == item.itemStruct.ident
    ensures r.Ok? && item.FnItem? ==> Name(r.value) == item.itemFn.ident
  {
    match item
    case StructItem(s) => StructTranslator.TranslateStruct(s)
    case FnItem(f) => FunctionTranslator.TranslateFunction(f)
    case OtherItem(_) => Panic(UnsupportedItem)
  }
}
