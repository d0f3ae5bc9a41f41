/** Exported-symbol naming: the shared prefix, the six reserved runtime symbols of the
    base runtime, and the formats the translators use for struct members, lifecycle
    operations and functions, together with the Rust identifiers of the shim functions. */
module Naming {

  /** The exported-symbol prefix (`src/lib.rs`); every symbol is `__hiFfi__$<rest>`. */
  const ExportedSymbolsPrefix: string := "__hiFfi__"

  function Exported(rest: string): string
  {
    ExportedSymbolsPrefix + "$" + rest
  }

  // The reserved runtime symbols of the text descriptor and of the boxed Rust String.
  const SliceGetLenFnName: string := "__hiFfi__$slice_len"
  const SliceGetPtrFnName: string := "__hiFfi__$slice_ptr"
  const SliceDropFnName: string := "__hiFfi__$slice_drop"
  const RustStringDropFnName: string := "__hiFfi__$rust_string_drop"
  const RustStringDataFnName: string := "__hiFfi__$rust_string_data"
  const RustStringLenFnName: string := "__hiFfi__$rust_string_len"

  const ReservedNames: seq<string> :=
    [SliceGetLenFnName, SliceGetPtrFnName, SliceDropFnName,
     RustStringDropFnName, RustStringDataFnName, RustStringLenFnName]

  /** `__hiFfi__$<Class>__<member>`: the symbol of a member of a struct. */
  function StructMemberSymbol(className: string, member: string): string
  {
    Exported(className + "__" + member)
  }

  function GetterSymbol(className: string, fieldName: string): string
  {
    StructMemberSymbol(className, "get_" + fieldName)
  }

  function SetterSymbol(className: string, fieldName: string): string
  {
    StructMemberSymbol(className, "set_" + fieldName)
  }

  function DropSymbol(className: string): string
  {
    StructMemberSymbol(className, "drop")
  }

  function CloneSymbol(className: string): string
  {
    StructMemberSymbol(className, "clone")
  }

  function DefaultSymbol(className: string): string
  {
    StructMemberSymbol(className, "default")
  }

  /** `__hiFfi__$<fn>`: the symbol of a free function. */
  function FunctionSymbol(fnName: string): string
  {
    Exported(fnName)
  }

  // Member names recorded in the schema and the Rust identifiers of the shim functions.
  function GetterName(fieldName: string): string { "get_" + fieldName }
  function SetterName(fieldName: string): string { "set_" + fieldName }
  function DefaultConstructorName(className: string): string { className + "__default" }
  /** `wrapper_fn_name`: the Rust name of an accessor shim, `<Class>_<member>`; the class name
      and the member name can be read back from it. */
  function ShimFnName(className: string, memberName: string): (r: string)
    ensures |r| == |className| + 1 + |memberName|
    ensures r[..|className|] == className && r[|className|] == '_' && r[|className| + 1..] == memberName
  {
    className + "_" + memberName
  }

  /** Two members of one class get shims with distinct Rust names. */
  lemma ShimFnNamesApart(className: string, m1: string, m2: string)
    requires m1 != m2
    ensures ShimFnName(className, m1) != ShimFnName(className, m2)
  {
    assert ShimFnName(className, m1)[|className| + 1..] == m1;
  }

  function DropShimName(className: string): string { className + "_drop" }
  function CloneShimName(className: string): string { className + "_clone" }
  function FunctionShimName(fnName: string): string { "ffi_wrapper_" + fnName }

  /** True when `s` has two consecutive underscores at some index `from` or later. */
  predicate HasDoubleUnderscoreFrom(s: string, from: nat)
    decreases |s| - from
  {
    from + 1 < |s| && ((s[from] == '_' && s[from + 1] == '_') || HasDoubleUnderscoreFrom(s, from + 1))
  }

  lemma {:induction false} DoubleUnderscoreAt(s: string, from: nat, i: nat)
    requires from <= i && i + 1 < |s| && s[i] == '_' && s[i + 1] == '_'
    ensures HasDoubleUnderscoreFrom(s, from)
    decreases i - from
  {
    if from < i {
      DoubleUnderscoreAt(s, from + 1, i);
    }
  }

  /** The six reserved names are pairwise distinct, all lie under the exported prefix, and
      none has `__` after that prefix. */
  lemma ReservedNamesWellFormed()
    ensures forall i, j :: 0 <= i < j < |ReservedNames| ==> ReservedNames[i] != ReservedNames[j]
    ensures forall i :: 0 <= i < |ReservedNames| ==>
      |ReservedNames[i]| > 10 && ReservedNames[i][..10] == ExportedSymbolsPrefix + "$"
    ensures forall i :: 0 <= i < |ReservedNames| ==> !HasDoubleUnderscoreFrom(ReservedNames[i], 10)
  {
  }

  /** A name under the exported prefix with no `__` after it is never a struct-member symbol. */
  lemma MemberSymbolDiffers(r: string, className: string, member: string)
    requires |r| >= 10 && r[..10] == ExportedSymbolsPrefix + "$" && !HasDoubleUnderscoreFrom(r, 10)
    ensures StructMemberSymbol(className, member) != r
  {
    var s := StructMemberSymbol(className, member);
    if s == r {
      var i := 10 + |className|;
      assert s == ExportedSymbolsPrefix + "$" + className + "__" + member;
      assert s[i] == '_' && s[i + 1] == '_';
      DoubleUnderscoreAt(r, 10, i);
    }
  }

  /** No struct-member symbol, whatever the class and member, is a reserved runtime name:
      after the prefix a member symbol has `__` where no reserved name has one. */
  lemma StructMemberSymbolNotReserved(className: string, member: string)
    ensures StructMemberSymbol(className, member) !in ReservedNames
  {
    ReservedNamesWellFormed();
    forall k | 0 <= k < |ReservedNames|
      ensures StructMemberSymbol(className, member) != ReservedNames[k]
    {
      MemberSymbolDiffers(ReservedNames[k], className, member);
    }
  }

  /** Within one class, distinct members get distinct symbols. */
  lemma StructMemberSymbolInjective(className: string, m1: string, m2: string)
    requires StructMemberSymbol(className, m1) == StructMemberSymbol(className, m2)
    ensures m1 == m2
  {
    var n := |ExportedSymbolsPrefix + "$" + className + "__"|;
    assert StructMemberSymbol(className, m1)[n..] == m1;
    assert StructMemberSymbol(className, m2)[n..] == m2;
  }

  /** The member strings used for one struct never coincide unless they name the same
      accessor of the same field: `get_f`, `set_g`, `drop`, `clone`, `default`. */
  lemma AccessorMembersDistinct(f: string, g: string)
    ensures "get_" + f != "set_" + g
    ensures "get_" + f != "drop" && "get_" + f != "clone" && "get_" + f != "default"
    ensures "set_" + f != "drop" && "set_" + f != "clone" && "set_" + f != "default"
    ensures ("get_" + f == "get_" + g || "set_" + f == "set_" + g) ==> f == g
  {
    assert ("get_" + f)[0] == 'g' && ("set_" + g)[0] == 's';
    assert ("set_" + f)[0] == 's';
    if "get_" + f == "get_" + g {
      assert ("get_" + f)[4..] == f && ("get_" + g)[4..] == g;
    }
    if "set_" + f == "set_" + g {
      assert ("set_" + f)[4..] == f && ("set_" + g)[4..] == g;
    }
  }

  /** A free function is exported as `__hiFfi__$<fn>` with no collision check, so
      `fn slice_len()` takes the runtime's reserved name. */
  lemma FunctionSymbolCanBeReserved()
    ensures FunctionSymbol("slice_len") == SliceGetLenFnName
    ensures FunctionSymbol("slice_len") in ReservedNames
  {
  }

  /** Across declarations the member format is ambiguous: the getter of field `x__drop` of
      struct `A` and the destructor of struct `A__get_x` share one symbol. */
  lemma CrossStructSymbolsCanCollide()
    ensures GetterSymbol("A", "x__drop") == DropSymbol("A__get_x")
  {
  }
}
