/** An abstract heap on which the generated shims run. Boxes handed across the boundary are
    handles; a handle is live while the heap maps it. Undefined behaviour of the unsafe code
    (a dangling or wrongly typed handle) is an abort. */
module Runtime {
  import opened Common
  import opened Naming
  import opened RustIr

  type Handle = nat

  /** Rust values: primitives are opaque scalars, structs are records of named fields. */
  datatype Value = Scalar(bits: int) | Text(text: string) | Record(fields: map<string, Value>)

  datatype Cell =
    | Boxed(value: Value)                                  // Box<T>
    | Descriptor(owner: Handle, field: string, len: nat)   // Box<FfiSlice> borrowing a String field
    | BoxedString(text: string)                            // Box<String>

  datatype Heap = Heap(cells: map<Handle, Cell>, next: Handle)

  /** Every live handle is below the allocation counter. */
  predicate Valid(h: Heap)
  {
    forall p :: p in h.cells ==> p < h.next
  }

  /** A fresh box: the handle was never live before. */
  function Alloc(h: Heap, c: Cell): (r: (Heap, Handle))
    ensures Valid(h) ==> r.1 !in h.cells && Valid(r.0)
    ensures r.0.cells == h.cells[r.1 := c]
  {
    (Heap(h.cells[h.next := c], h.next + 1), h.next)
  }

  function Free(h: Heap, p: Handle): (r: Heap)
    ensures r.cells == h.cells - {p} && r.next == h.next
    ensures Valid(h) ==> Valid(r)
  {
    h.(cells := h.cells - {p})
  }

  /** Freeing a cell just allocated gives back the cells from before. */
  lemma FreeUndoesAlloc(h: Heap, h1: Heap, q: Handle, c: Cell)
    requires q !in h.cells && h1.cells == h.cells[q := c]
    ensures Free(h1, q).cells == h.cells
  {
  }

  /** Words passed across the C boundary. `Bytes(owner, Some(f))` points at the bytes of field
      `f` of the box `owner`; `Bytes(owner, None)` at those of a boxed `String`. */
  datatype Word =
    | Val(value: Value)
    | Ptr(handle: Handle)
    | Bytes(owner: Handle, field: Option<string>)
    | CStr(bytes: string)
    | Size(n: nat)

  datatype Outcome = Returned(heap: Heap, ret: Option<Word>) | Aborted

  /** What the shims call but cannot see: `T::default()` per type and the original functions. */
  datatype Env = Env(defaultOf: string -> Value, call: (string, seq<Value>) -> Value)

  /** `CStr::from_ptr`: the bytes up to the first NUL; the caller's length is never consulted. */
  function CStrPrefix(b: string): (r: string)
    ensures '\0' !in r
    ensures r <= b
    ensures |r| < |b| ==> b[|r|] == '\0'
    ensures '\0' !in b ==> r == b
  {
    if b == [] || b[0] == '\0' then []
    else [b[0]] + CStrPrefix(b[1..])
  }

  /** The value of field `f` of the struct boxed at `p`. */
  function FieldOf(h: Heap, p: Handle, f: string): (r: Option<Value>)
    ensures r.Some? <==> p in h.cells && h.cells[p].Boxed? && h.cells[p].value.Record? && f in h.cells[p].value.fields
    ensures r.Some? ==> r.value == h.cells[p].value.fields[f]
  {
    if p in h.cells && h.cells[p].Boxed? && h.cells[p].value.Record? && f in h.cells[p].value.fields
    then Some(h.cells[p].value.fields[f]) else None
  }

  /** The heap after `(&mut *p).f = v`. */
  function WithField(h: Heap, p: Handle, f: string, v: Value): (r: Heap)
    requires FieldOf(h, p, f).Some?
    ensures r.next == h.next && r.cells.Keys == h.cells.Keys
    ensures forall q :: q in h.cells && q != p ==> r.cells[q] == h.cells[q]
    ensures FieldOf(r, p, f) == Some(v)
    ensures forall g :: g != f ==> FieldOf(r, p, g) == FieldOf(h, p, g)
  {
    h.(cells := h.cells[p := Boxed(Record(h.cells[p].value.fields[f := v]))])
  }

  /** The text a `Bytes` pointer reads when `len` bytes are copied from it. */
  function ReadBytes(h: Heap, w: Word, len: nat): (r: Option<string>)
    ensures r.Some? ==> |r.value| == len
  {
    match w
    case Bytes(owner, Some(f)) =>
      (match FieldOf(h, owner, f)
       case Some(Text(s)) => if len <= |s| then Some(s[..len]) else None
       case _ => None)
    case Bytes(owner, None) =>
      if owner in h.cells && h.cells[owner].BoxedString? && len <= |h.cells[owner].text|
      then Some(h.cells[owner].text[..len]) else None
    case _ => None
  }

  /** The argument values the original function receives: String parameters (those named in
      `casts`) come in as C strings and are read up to the NUL; the others are passed through. */
  function ConvertArgs(names: seq<string>, casts: seq<string>, args: seq<Word>): (r: Option<seq<Value>>)
    requires |names| == |args|
    ensures r.Some? ==> |r.value| == |args|
  {
    if args == [] then Some([])
    else
      var head: Option<Value> :=
        if names[0] in casts then (if args[0].CStr? then Some(Text(CStrPrefix(args[0].bytes))) else None)
        else (if args[0].Val? then Some(args[0].value) else None);
      match (head, ConvertArgs(names[1..], casts, args[1..]))
      case (Some(v), Some(vs)) => Some([v] + vs)
      case _ => None
  }

  // The effect of each kind of shim body

  function ExecReadField(h: Heap, f: string, args: seq<Word>): Outcome
  {
    if |args| == 1 && args[0].Ptr? && FieldOf(h, args[0].handle, f).Some?
    then Returned(h, Some(Val(FieldOf(h, args[0].handle, f).value))) else Aborted
  }

  function ExecWriteField(h: Heap, f: string, args: seq<Word>): Outcome
  {
    if |args| == 2 && args[0].Ptr? && args[1].Val? && FieldOf(h, args[0].handle, f).Some?
    then Returned(WithField(h, args[0].handle, f, args[1].value), None) else Aborted
  }

  function ExecBoxSlice(h: Heap, f: string, args: seq<Word>): Outcome
  {
    if |args| == 1 && args[0].Ptr? && FieldOf(h, args[0].handle, f).Some? && FieldOf(h, args[0].handle, f).value.Text?
    then
      var (h', d) := Alloc(h, Descriptor(args[0].handle, f, |FieldOf(h, args[0].handle, f).value.text|));
      Returned(h', Some(Ptr(d)))
    else Aborted
  }

  function ExecWriteFromCStr(h: Heap, f: string, args: seq<Word>): Outcome
  {
    if |args| == 3 && args[0].Ptr? && args[1].CStr? && args[2].Size? && FieldOf(h, args[0].handle, f).Some?
    then Returned(WithField(h, args[0].handle, f, Text(CStrPrefix(args[1].bytes))), None) else Aborted
  }

  function ExecLeakClone(h: Heap, f: string, args: seq<Word>): Outcome
  {
    if |args| == 1 && args[0].Ptr? && FieldOf(h, args[0].handle, f).Some?
    then
      var (h', q) := Alloc(h, Boxed(FieldOf(h, args[0].handle, f).value));
      Returned(h', Some(Ptr(q)))
    else Aborted
  }

  function ExecWriteClone(h: Heap, f: string, args: seq<Word>): Outcome
  {
    if |args| == 2 && args[0].Ptr? && args[1].Ptr? && FieldOf(h, args[0].handle, f).Some?
       && args[1].handle in h.cells && h.cells[args[1].handle].Boxed?
    then Returned(WithField(h, args[0].handle, f, h.cells[args[1].handle].value), None) else Aborted
  }

  function ExecDropBox(h: Heap, args: seq<Word>): Outcome
  {
    if |args| == 1 && args[0].Ptr? && args[0].handle in h.cells && h.cells[args[0].handle].Boxed?
    then Returned(Free(h, args[0].handle), None) else Aborted
  }

  function ExecCloneBox(h: Heap, args: seq<Word>): Outcome
  {
    if |args| == 1 && args[0].Ptr? && args[0].handle in h.cells && h.cells[args[0].handle].Boxed?
    then
      var (h', q) := Alloc(h, Boxed(h.cells[args[0].handle].value));
      Returned(h', Some(Ptr(q)))
    else Aborted
  }

  function ExecDefaultBox(h: Heap, c: string, args: seq<Word>, env: Env): Outcome
  {
    if args == [] then
      var (h', q) := Alloc(h, Boxed(env.defaultOf(c)));
      Returned(h', Some(Ptr(q)))
    else Aborted
  }

  function ExecCallOriginal(h: Heap, callee: string, casts: seq<string>, names: seq<string>, cast: ResultCast, ret: Option<RustTy>, args: seq<Word>, env: Env): Outcome
  {
    if |names| == |args| && ConvertArgs(names, casts, args).Some? then
      var result := env.call(callee, ConvertArgs(names, casts, args).value);
      if ret.None? then Returned(h, None)
      else if cast.PassResult? then Returned(h, Some(Val(result)))
      else if result.Text? then
        var (h', q) := Alloc(h, BoxedString(result.text));
        Returned(h', Some(Ptr(q)))
      else Aborted
    else Aborted
  }

  function ExecSliceLen(h: Heap, args: seq<Word>): Outcome
  {
    if |args| == 1 && args[0].Ptr? && args[0].handle in h.cells && h.cells[args[0].handle].Descriptor?
    then Returned(h, Some(Size(h.cells[args[0].handle].len))) else Aborted
  }

  function ExecSlicePtr(h: Heap, args: seq<Word>): Outcome
  {
    if |args| == 1 && args[0].Ptr? && args[0].handle in h.cells && h.cells[args[0].handle].Descriptor?
    then Returned(h, Some(Bytes(h.cells[args[0].handle].owner, Some(h.cells[args[0].handle].field)))) else Aborted
  }

  function ExecSliceDrop(h: Heap, args: seq<Word>): Outcome
  {
    if |args| == 1 && args[0].Ptr? && args[0].handle in h.cells && h.cells[args[0].handle].Descriptor?
    then Returned(Free(h, args[0].handle), None) else Aborted
  }

  function ExecRustStringDrop(h: Heap, args: seq<Word>): Outcome
  {
    if |args| == 1 && args[0].Ptr? && args[0].handle in h.cells && h.cells[args[0].handle].BoxedString?
    then Returned(Free(h, args[0].handle), None) else Aborted
  }

  function ExecRustStringData(h: Heap, args: seq<Word>): Outcome
  {
    if |args| == 1 && args[0].Ptr? && args[0].handle in h.cells && h.cells[args[0].handle].BoxedString?
    then Returned(h, Some(Bytes(args[0].handle, None))) else Aborted
  }

  function ExecRustStringLen(h: Heap, args: seq<Word>): Outcome
  {
    if |args| == 1 && args[0].Ptr? && args[0].handle in h.cells && h.cells[args[0].handle].BoxedString?
    then Returned(h, Some(Size(|h.cells[args[0].handle].text|))) else Aborted
  }

  /** The effect of one shim body on the heap, given its declared return type. */
  function Exec(h: Heap, body: ShimBody, ret: Option<RustTy>, args: seq<Word>, env: Env): Outcome
  {
    match body
    case ReadField(f) => ExecReadField(h, f, args)
    case WriteField(f) => ExecWriteField(h, f, args)
    case BoxSlice(f) => ExecBoxSlice(h, f, args)
    case WriteFromCStr(f) => ExecWriteFromCStr(h, f, args)
    case LeakClone(f) => ExecLeakClone(h, f, args)
    case WriteClone(f) => ExecWriteClone(h, f, args)
    case DropBox => ExecDropBox(h, args)
    case CloneBox => ExecCloneBox(h, args)
    case DefaultBox(c) => ExecDefaultBox(h, c, args, env)
    case CallOriginal(callee, casts, names, cast) => ExecCallOriginal(h, callee, casts, names, cast, ret, args, env)
    case SliceLen => ExecSliceLen(h, args)
    case SlicePtr => ExecSlicePtr(h, args)
    case SliceDrop => ExecSliceDrop(h, args)
    case RustStringDrop => ExecRustStringDrop(h, args)
    case RustStringData => ExecRustStringData(h, args)
    case RustStringLen => ExecRustStringLen(h, args)
  }

  /** Calling the symbol `name` of the linked program `prog`. */
  function Call(h: Heap, prog: seq<RustItem>, name: string, args: seq<Word>, env: Env): Outcome
  {
    match FindExport(prog, name)
    case None => Aborted
    case Some(item) => Exec(h, item.body, item.ret, args, env)
  }

  /** Every shim allocates only fresh handles and keeps the heap well formed. */
  lemma ExecKeepsValid(h: Heap, body: ShimBody, ret: Option<RustTy>, args: seq<Word>, env: Env)
    requires Valid(h)
    ensures Exec(h, body, ret, args, env).Returned? ==> Valid(Exec(h, body, ret, args, env).heap)
  {
  }
}
