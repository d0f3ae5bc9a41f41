/** The Rust items a declaration expands into, as structured data in place of token streams. */
module RustIr {
  import opened Common
  import opened Syntax

  /** Rust types that appear in shim signatures. */
  datatype RustTy = Named(name: string) | MutPtr(target: string) | ConstPtr(target: string)

  datatype RustParam = RustParam(name: string, ty: RustTy)

  /** What a shim does with the original function's `result`. */
  datatype ResultCast = PassResult | BoxResult

  /** The body of an `extern "C"` shim; field bodies name the struct field they touch. */
  datatype ShimBody =
    | ReadField(field: string)          // (&*_self).f
    | WriteField(field: string)         // (&mut *_self).f = value
    | BoxSlice(field: string)           // Box::into_raw(Box::new(FfiSlice { ptr, len }))
    | WriteFromCStr(field: string)      // f = CStr::from_ptr(ptr).to_str().unwrap().to_owned()
    | LeakClone(field: string)          // Box::leak(Box::new(f.clone()))
    | WriteClone(field: string)         // f = (*value).clone()
    | DropBox                           // let _ = Box::from_raw(_self)
    | CloneBox                          // Box::into_raw(Box::new((*_self).clone()))
    | DefaultBox(className: string)     // Box::into_raw(Box::new(C::default()))
    | CallOriginal(callee: string, casts: seq<string>, args: seq<string>, resultCast: ResultCast)
    | SliceLen | SlicePtr | SliceDrop
    | RustStringDrop | RustStringData | RustStringLen

  datatype RustItem =
    | StructDefinition(itemStruct: ItemStruct)
    | OriginalDefinition(original: Item)
    | FfiSliceDefinition
    | ExternFn(exportName: string, name: string, params: seq<RustParam>, ret: Option<RustTy>, body: ShimBody)

  /** The `export_name` of every extern shim, in emission order. */
  function ExportNames(items: seq<RustItem>): (r: seq<string>)
    ensures |r| <= |items|
  {
    if items == [] then []
    else (if items[0].ExternFn? then [items[0].exportName] else []) + ExportNames(items[1..])
  }

  lemma {:induction false} ExportNamesConcat(a: seq<RustItem>, b: seq<RustItem>)
    ensures ExportNames(a + b) == ExportNames(a) + ExportNames(b)
  {
    if a == [] {
      assert a + b == b;
    } else {
      var head := if a[0].ExternFn? then [a[0].exportName] else [];
      assert (a + b)[0] == a[0] && (a + b)[1..] == a[1..] + b;
      ExportNamesConcat(a[1..], b);
      assert ExportNames(a + b) == head + (ExportNames(a[1..]) + ExportNames(b));
      assert head + (ExportNames(a[1..]) + ExportNames(b)) == (head + ExportNames(a[1..])) + ExportNames(b);
    }
  }

  /** The shim exported under `name`, if any: the first one in emission order. */
  function FindExport(items: seq<RustItem>, name: string): (r: Option<RustItem>)
    ensures r.Some? <==> name in ExportNames(items)
    ensures r.Some? ==> r.value in items && r.value.ExternFn? && r.value.exportName == name
  {
    if items == [] then None
    else if items[0].ExternFn? && items[0].exportName == name then Some(items[0])
    else FindExport(items[1..], name)
  }
}
