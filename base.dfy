/** `rust_code_base`: the descriptor type and the six runtime functions every generated
    module links against. */
module Base {
  import opened Common
  import opened Naming
  import opened RustIr

  function RustCodeBase(): (r: seq<RustItem>)
    ensures |r| == 7 && r[0] == FfiSliceDefinition
    ensures forall i :: 1 <= i < 7 ==> r[i].ExternFn? && |r[i].params| == 1 && r[i].params[0].name == "_self"
    ensures forall i :: 1 <= i < 7 ==> r[i].exportName == ReservedNames[i - 1]
  {
    [ FfiSliceDefinition,
      ExternFn(SliceGetLenFnName, "slice_len", [RustParam("_self", ConstPtr("FfiSlice"))], Some(Named("usize")), SliceLen),
      ExternFn(SliceGetPtrFnName, "slice_ptr", [RustParam("_self", ConstPtr("FfiSlice"))], Some(ConstPtr("c_char")), SlicePtr),
      ExternFn(SliceDropFnName, "slice_drop", [RustParam("_self", MutPtr("FfiSlice"))], None, SliceDrop),
      ExternFn(RustStringDropFnName, "rust_string_drop", [RustParam("_self", MutPtr("c_void"))], None, RustStringDrop),
      ExternFn(RustStringDataFnName, "rust_string_data", [RustParam("_self", ConstPtr("c_void"))], Some(ConstPtr("u8")), RustStringData),
      ExternFn(RustStringLenFnName, "rust_string_len", [RustParam("_self", ConstPtr("c_void"))], Some(Named("usize")), RustStringLen) ]
  }

  /** The code base exports exactly the six reserved runtime symbols, in declaration order:
      the slice length, pointer and drop, then the `RustString` drop, data and length. */
  lemma RustCodeBaseExportsReserved()
    ensures ExportNames(RustCodeBase()) == ReservedNames
    ensures RustCodeBase()[1].body == SliceLen && RustCodeBase()[2].body == SlicePtr && RustCodeBase()[3].body == SliceDrop
    ensures RustCodeBase()[4].body == RustStringDrop && RustCodeBase()[5].body == RustStringData
    ensures RustCodeBase()[6].body == RustStringLen
  {
    var r := RustCodeBase();
    assert r[7..] == [];
    assert ExportNames(r[6..]) == [RustStringLenFnName] by { assert r[6..][1..] == r[7..]; }
    assert ExportNames(r[5..]) == [RustStringDataFnName, RustStringLenFnName] by { assert r[5..][1..] == r[6..]; }
    assert ExportNames(r[4..]) == ReservedNames[3..] by { assert r[4..][1..] == r[5..]; }
    assert ExportNames(r[3..]) == ReservedNames[2..] by { assert r[3..][1..] == r[4..]; }
    assert ExportNames(r[2..]) == ReservedNames[1..] by { assert r[2..][1..] == r[3..]; }
    assert ExportNames(r[1..]) == ReservedNames by { assert r[1..][1..] == r[2..]; }
    assert ExportNames(r) == ExportNames(r[1..]);
  }
}
