/** C declarations, as the C++ and Swift headers write them inside `extern "C"`. */
module CDecl {
  datatype CType =
    | CNamed(name: string)   // a primitive written with its Rust name (`i32`, `bool`, ...)
    | CVoid
    | CVoidPtr
    | CCharPtr
    | CConstCharPtr
    | CSizeT
    | CUnsignedInt

  datatype CExtern = CExtern(ret: CType, name: string, params: seq<CType>)

  function ExternNames(es: seq<CExtern>): (r: seq<string>)
    ensures |r| == |es|
    ensures forall i :: 0 <= i < |es| ==> r[i] == es[i].name
  {
    seq(|es|, i requires 0 <= i < |es| => es[i].name)
  }

  lemma ExternNamesConcat(a: seq<CExtern>, b: seq<CExtern>)
    ensures ExternNames(a + b) == ExternNames(a) + ExternNames(b)
  {
  }

  /** A type is declared by a header providing `names` when it is a pointer, `size_t`,
      `unsigned int` or `void`, or a primitive whose name is among `names`. */
  predicate TypeDeclared(t: CType, names: set<string>)
  {
    t.CNamed? ==> t.name in names
  }

  /** Every type an extern line uses is declared. */
  predicate ExternTypesDeclared(e: CExtern, names: set<string>)
  {
    TypeDeclared(e.ret, names) && forall i :: 0 <= i < |e.params| ==> TypeDeclared(e.params[i], names)
  }

  predicate AllTypesDeclared(es: seq<CExtern>, names: set<string>)
  {
    forall e :: e in es ==> ExternTypesDeclared(e, names)
  }
}
