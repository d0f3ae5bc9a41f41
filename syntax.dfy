/** The slice of Rust syntax the macro inspects, as plain values (in place of the `syn` tree).
    Only what the translators look at is kept: names, visibility, attribute paths with the
    paths of their nested items, and the shape of every type. */
module Syntax {
  import opened Common

  /** One segment of a type path; `generic` is true when it carries `<...>` arguments. */
  datatype PathSegment = PathSegment(ident: string, generic: bool)

  /** A written type: a (possibly `::`-rooted, possibly multi-segment) path, or any other
      type form such as a reference, a tuple or a slice. */
  datatype Ty =
    | PathType(leadingColon: bool, segments: seq<PathSegment>)
    | OtherType(text: string)

  /** `Path::get_ident`: the identifier of a path made of exactly one plain segment. */
  function GetIdent(leadingColon: bool, segments: seq<PathSegment>): Option<string>
  {
    if !leadingColon && |segments| == 1 && !segments[0].generic then Some(segments[0].ident) else None
  }

  /** A type written as one identifier, `T`. */
  function Named(name: string): Ty
  {
    PathType(false, [PathSegment(name, false)])
  }

  /** `pub`, `pub(crate)`/`pub(super)`/`pub(in ..)`, or nothing. */
  datatype Visibility = Public | Restricted | Inherited

  /** `#[path(item, item, ...)]`: the attribute's path and the paths of its nested items.
      An attribute without a parenthesised list has no items. */
  datatype Attribute = Attribute(path: string, items: seq<string>)

  datatype Field = Field(attrs: seq<Attribute>, vis: Visibility, ident: Option<string>, ty: Ty)

  datatype ItemStruct = ItemStruct(attrs: seq<Attribute>, vis: Visibility, ident: string, fields: seq<Field>)

  datatype Pat = IdentPat(name: string) | OtherPat

  datatype FnArg = Receiver | Typed(pat: Pat, ty: Ty)

  datatype ReturnType = DefaultReturn | ReturnTy(ty: Ty)

  /** A function item; its body is opaque to the macro and is kept as an uninterpreted tag. */
  datatype ItemFn = ItemFn(ident: string, inputs: seq<FnArg>, output: ReturnType, body: string)

  datatype Item = StructItem(itemStruct: ItemStruct) | FnItem(itemFn: ItemFn) | OtherItem(kind: string)
}
