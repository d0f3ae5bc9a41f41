# hi-ffi in Dafny

hi-ffi is a Rust attribute macro, `#[ffi]`, for structs and free functions. On each annotated
declaration it:

1. validates the declaration into a schema: a `StructWrapper` with its fields, accessors and
   lifecycle symbols, or a `FunctionWrapper` with its arguments and result;
2. puts a Rust `extern "C"` shim next to the declaration;
3. writes three kinds of files under `./generated_code/`:
   - a Rust copy of the shim, plus the runtime code base `base.rs`;
   - a C++ header (and, for a function, a source file);
   - Swift code, whose C declarations are appended to one shared C header.

The first expansion also adds the runtime code base itself to the token stream. On the Swift
side it recreates the Swift packages.

This project models that core on values.

**Syntax and schema.** The syntax the macro inspects is a small datatype (`Syntax`). The
translators become total functions that return `Ok(schema)` or `Panic(reason)`
(`StructTranslator`, `FunctionTranslator`, `Translator`). The loops the translators run over
attributes become methods with loop invariants, proved equal to the declarative functions.

**Generators.** The Rust, C++ and Swift generators build structured items in place of token
streams and text (`StructShim`, `FunctionShim`, `CppClass`, `CppFunction`, `SwiftClass`,
`SwiftFunction`, `Cpp`, `Swift`).

**Runtime semantics.** An abstract heap gives the generated code a meaning (`Runtime`,
`ShimSemantics`, `Consumer`, `CppRuntime`, `CppCall`, `SwiftRuntime`):
- boxes are handles into a map;
- a dangling or wrongly typed handle is an abort;
- a program links by looking up each symbol among the exported shims.

On that semantics the model proves:
- every symbol a C++ or Swift declaration declares is exported by the Rust side with a matching
  signature (`Agreement`); the converse fails on the Swift side, where a String getter calls
  slice functions that the Swift C header never declares (`SwiftClass.ClassCompilesIffNoStringGetter`);
- the signatures are compared by type name: the extern lines of a field or argument of type
  `i128` or `u128` name a type that neither `base.h` nor the Swift C header declares, so those
  lines do not compile (`HeaderTypes`);
- each generated member does what its name promises (getter round trips, copy, move, drop);
- a client that uses the generated classes keeps every box owned by exactly one live object, so
  nothing is freed twice and nothing leaks (`Ownership`, `CppClient`, `SwiftClient`).

**The entry point.** The `ffi` entry point is a class, `Accumulator.Session`. Its fields are the
generated-code directory, as a map from path to the writes made to it, and the two once-flags.
Its methods mirror `write_rust_code`, `write_cpp_code`, `write_swift_code`, `write_to_file` and
`append_to_file`.

## Model

| member | source | states |
|---|---|---|
| Translator.Translate | src/translator.rs:13-19 | a struct goes to the struct translator and a function to the function translator; any other item panics; a translated item keeps the original definition, and its name is the declaration's name |
| Schema.Name | src/wrapper.rs:29-34 | the name of a struct schema is the struct's name, and that of a function schema the function's |
| StructTranslator.ClassifyFieldType | src/translator/struct_translator.rs:41-46 | exactly the thirteen primitive names are Primitive, `String` is String, and every other identifier is Custom (all three directions) |
| StructTranslator.ReadFfiList | src/translator/struct_translator.rs:110-124 | the `getter`/`setter`/`skip` flags are set iff the flag occurs among the items read before the first unrecognised one |
| StructTranslator.ExtractFieldAttributes | src/translator/struct_translator.rs:103-133 | each of the three flags is set iff some `ffi` attribute of the field reads it |
| StructTranslator.FlagsAccumulate | src/translator/struct_translator.rs:108-126 | the flags of two attribute lists together are the disjunction of their flags |
| StructTranslator.NonFfiAttributeIgnored | src/translator/struct_translator.rs:108-109 | inserting an attribute other than `ffi` anywhere never changes a flag |
| StructTranslator.ReadingStopsAtUnrecognised | src/translator/struct_translator.rs:110-123 | after the first unrecognised item, nothing more of the list is read |
| StructTranslator.FieldTypeIdent | src/translator/struct_translator.rs:39-60 | a field type yields its name iff it is a path of exactly one identifier; otherwise the `No ident found` / `No path found` panic |
| StructTranslator.FieldWrapperOf | src/translator/struct_translator.rs:30-61 | a field is accepted iff it is named and its type is one identifier, with each panic for the other cases; an accepted field keeps its name and type and is classified by its type name; it has a getter iff not `skip` and (public or `getter`), and a setter likewise; both follow the `__hiFfi__$<C>__get_<f>` / `set_<f>` scheme |
| StructTranslator.FieldsWrappers | src/translator/struct_translator.rs:25-63 | one schema per field, in declaration order, when every field is valid; otherwise the panic of the first invalid field |
| StructTranslator.FindDefaultConstructor | src/translator/struct_translator.rs:135-159 | records `<C>__default` with symbol `__hiFfi__$<C>__default` exactly when some `derive` list names `Default` before any other name |
| StructTranslator.DefaultAfterOtherDeriveIsMissed | src/translator/struct_translator.rs:142-154 | `#[derive(Clone, Default)]` yields no default constructor |
| StructTranslator.TranslateStruct | src/translator/struct_translator.rs:9-23 | succeeds iff every field is valid; the schema keeps the name and the original struct, has one field schema per field, a default constructor iff `Default` is derived as above, and drop/clone symbols `__hiFfi__$<C>__drop` / `__clone` |
| StructTranslator.TranslatedStructSymbolsDistinct | src/translator/struct_translator.rs:9-23 | when field names are distinct, every extern symbol of the translated schema is distinct from the others and none is a reserved runtime symbol |
| FunctionTranslator.ClassifyArgType | src/translator/function_translator.rs:69-74 | the thirteen primitive names are Primitive and `String` is String; every other name is the `Unsupported type` panic |
| FunctionTranslator.MapArg | src/translator/function_translator.rs:57-89 | a receiver, a non-identifier pattern, a non-path type and a multi-segment path each panic, checked in that order; otherwise name and type are kept and the kind is classified |
| FunctionTranslator.MapArgs | src/translator/function_translator.rs:10-15 | one schema per parameter, in order, when all are valid; otherwise the panic of the first invalid one |
| FunctionTranslator.ReturnWrapperOf | src/translator/function_translator.rs:30-55 | no `->` gives no result schema; a result type is Primitive or String, else it panics (with its own messages for a non-path or non-identifier type) |
| FunctionTranslator.TranslateFunction | src/translator/function_translator.rs:8-28 | succeeds iff all parameters and the result are valid, reporting a parameter panic first; the schema keeps the name, has symbol `__hiFfi__$<fn>`, and has the parameters in order |
| FunctionTranslator.CustomParameterRefused | src/translator/function_translator.rs:69-74 | a Custom type name, accepted for a struct field, is refused as a parameter |
| Schema.StringArgNames | src/wrapper/function_wrapper.rs:34-44 | every name listed is that of a String argument (completeness: `ShimSemantics.StringArgNamesComplete`) |
| Schema.AccessorSymbolsApart | src/translator/struct_translator.rs:65-95 | the getter and setter symbols of two differently named fields of one class never coincide |
| Schema.AccessorSymbolNotLifecycle | src/translator/struct_translator.rs:9-23 | no accessor symbol is the default, drop or clone symbol of the same class |
| Schema.SchemaExternNamesDistinct | src/translator/struct_translator.rs:9-23 | in a well-named schema with distinct field names, all extern symbols are pairwise distinct and none is a reserved runtime symbol |
| Naming.ReservedNamesWellFormed | src/wrapper/base.rs:4-10 | the six runtime symbols are pairwise distinct, all start with `__hiFfi__$`, and none has `__` after that prefix |
| Naming.ShimFnName | src/wrapper/struct_wrapper.rs:258-260 | the Rust name of an accessor shim is the class name, `_`, then the member name, each part recoverable from the name |
| Naming.ShimFnNamesApart | src/wrapper/struct_wrapper.rs:258-260 | two different members of one class get different shim names |
| Naming.StructMemberSymbolNotReserved | src/translator/struct_translator.rs:18-19 | no `__hiFfi__$<C>__<member>` symbol, whatever the class and member, is a reserved runtime symbol |
| Naming.StructMemberSymbolInjective | src/translator/struct_translator.rs:65-95 | within one class, equal member symbols come from equal member names |
| Naming.AccessorMembersDistinct | src/translator/struct_translator.rs:65-95 | `get_<f>`, `set_<g>`, `drop`, `clone` and `default` never coincide, and equal accessor names come from equal fields |
| Naming.FunctionSymbolCanBeReserved | src/translator/function_translator.rs:23 | a free function `slice_len` is exported as a reserved runtime symbol: there is no collision check |
| Naming.CrossStructSymbolsCanCollide | src/translator/struct_translator.rs:18-19 | the getter of field `x__drop` of struct `A` and the drop of struct `A__get_x` have the same symbol |
| Base.RustCodeBase | src/wrapper/base.rs:12-70 | seven items: the `FfiSlice` struct, then six extern functions, each taking one `_self` pointer |
| Base.RustCodeBaseExportsReserved | src/wrapper/base.rs:4-70 | the code base exports exactly the six reserved symbols, in declaration order, each with its runtime body: slice length, pointer and drop, then `RustString` drop, data and length |
| StructShim.GenDrop | src/wrapper/struct_wrapper.rs:63-74 | `<C>_drop(_self: *mut C)` exported under the drop symbol, freeing the box |
| StructShim.GenClone | src/wrapper/struct_wrapper.rs:76-91 | `<C>_clone(_self: *mut C) -> *mut C` exported under the clone symbol, boxing a clone |
| StructShim.GenDefaultConstructor | src/wrapper/struct_wrapper.rs:93-113 | nothing iff the schema has no default constructor; otherwise one parameterless extern that boxes `C::default()` |
| StructShim.GetterShim | src/wrapper/struct_wrapper.rs:115-236 | exported under the getter's symbol as `<C>_get_<f>(_self)`: a Primitive field by value, a String field as a boxed `FfiSlice`, a Custom field as a leaked boxed clone |
| StructShim.SetterShim | src/wrapper/struct_wrapper.rs:142-253 | exported under the setter's symbol: a Primitive field overwritten by `value`, a String field from `(ptr: *const i8, _len: usize)`, a Custom field by a clone of `*value` |
| StructShim.MapField | src/wrapper/struct_wrapper.rs:115-256 | the items of one field are its getter, if any, then its setter, if any; they export the field's accessor symbols in that order |
| StructShim.AllFieldShimsExports | src/wrapper/struct_wrapper.rs:33-40 | the field items together export the accessor symbols of all fields, in declaration order |
| StructShim.RetainNonFfiKeepsOthers | src/wrapper/struct_wrapper.rs:48-50 | an attribute survives the strip iff it was there and is not `ffi` |
| StructShim.RetainNonFfiIdentity | src/wrapper/struct_wrapper.rs:48-50 | a list without `ffi` attributes is left unchanged |
| StructShim.StrippedStruct | src/wrapper/struct_wrapper.rs:47-51 | the re-emitted struct keeps its attributes, visibility, name and fields, and only the fields' `ffi` attributes are removed |
| StructShim.StripFfiAttributes | src/wrapper/struct_wrapper.rs:47-50 | the in-place strip over every field gives the stripped struct |
| StructShim.GenStructShim | src/wrapper/struct_wrapper.rs:29-61 | emits the stripped struct, the field items, the default constructor, drop and clone, in that order |
| StructShim.StructShimExportsSchemaNames | src/wrapper/struct_wrapper.rs:29-61 | the shim exports exactly the schema's extern symbols, in the schema's order |
| StructShim.StructShimFrame | src/wrapper/struct_wrapper.rs:53-59 | the shim starts with the struct definition and ends with drop, then clone |
| FunctionShim.CollectShimArgs | src/wrapper/function_wrapper.rs:20-45 | the three lists it pushes are the parameters (by value, or `*const i8` for a String), all argument names, and the String argument names, each in source order |
| FunctionShim.ReturnSig | src/wrapper/function_wrapper.rs:47-62 | no result returns nothing extra, a Primitive is returned as is, a String is returned as `*mut String` through `Box::into_raw` |
| FunctionShim.GenFunctionShim | src/wrapper/function_wrapper.rs:14-73 | builds the `ffi_wrapper_<fn>` shim of the schema |
| FunctionShim.FunctionShimPreservesArgumentOrder | src/wrapper/function_wrapper.rs:64-72 | the shim is exported under the schema's symbol, named `ffi_wrapper_<fn>`, and calls the original function with its parameters, one per argument, in source order |
| WrapperOutput.Output | src/wrapper.rs:37-56 | a struct becomes its shim, which starts with the stripped definition and exports exactly the schema's symbols; a function keeps its original definition first and exports only its own symbol |
| Runtime.CStrPrefix | src/wrapper/struct_wrapper.rs:201 | `CStr::from_ptr` reads the bytes before the first NUL: a prefix with no NUL, followed by a NUL when shorter, and the whole buffer when it holds no NUL |
| ShimSemantics.StructProgramExportsDistinct | src/wrapper/struct_wrapper.rs:29-61 | the runtime code base and one well-named struct's shim export pairwise distinct symbols |
| ShimSemantics.StructProgramLinks | src/lib.rs:43-45 | the crate made of the code base and a struct's shim resolves every symbol of both to the item exporting it |
| ShimSemantics.PrimitiveGetterReturnsField | src/wrapper/struct_wrapper.rs:126-141 | a Primitive getter returns the field's value and changes nothing |
| ShimSemantics.PrimitiveSetterOverwritesField | src/wrapper/struct_wrapper.rs:142-157 | a Primitive setter overwrites that field and nothing else |
| ShimSemantics.StringGetterBoxesDescriptor | src/wrapper/struct_wrapper.rs:171-189 | a String getter boxes a fresh `FfiSlice` that borrows the field's bytes and records its length; nothing else changes |
| ShimSemantics.StringSetterReadsToNul | src/wrapper/struct_wrapper.rs:190-206 | a String setter stores the text up to the first NUL and ignores the length it is passed |
| ShimSemantics.CustomGetterClones | src/wrapper/struct_wrapper.rs:221-236 | a Custom getter returns a fresh box, distinct from the object's, holding a copy of the field |
| ShimSemantics.CustomSetterClones | src/wrapper/struct_wrapper.rs:238-253 | a Custom setter stores a copy of the argument's value and leaves the argument's box as it was |
| ShimSemantics.DropFreesBox | src/wrapper/struct_wrapper.rs:63-74 | drop frees exactly the object's box |
| ShimSemantics.CloneCopiesBox | src/wrapper/struct_wrapper.rs:76-91 | clone returns a fresh box holding the same value |
| ShimSemantics.DefaultAllocates | src/wrapper/struct_wrapper.rs:93-109 | the default constructor returns a fresh box holding `C::default()` |
| ShimSemantics.SliceReadsLeaveHeap | src/wrapper/base.rs:20-34 | `slice_len` returns the recorded length and `slice_ptr` the borrowed bytes; neither changes the heap |
| ShimSemantics.SliceDropFreesOnlyDescriptor | src/wrapper/base.rs:36-42 | `slice_drop` frees the descriptor and no other cell |
| ShimSemantics.RustStringAccessors | src/wrapper/base.rs:44-68 | `rust_string_drop` frees the boxed String; `rust_string_data` and `rust_string_len` return its bytes and length without changing the heap |
| ShimSemantics.StringArgNamesComplete | src/wrapper/function_wrapper.rs:34-44 | every String argument gets a conversion |
| ShimSemantics.ConvertArgsInOrder | src/wrapper/function_wrapper.rs:22-45 | with distinct argument names, the shim hands the original function each argument's value in order, with C strings read up to the NUL |
| ShimSemantics.FunctionShimCallsOriginal | src/wrapper/function_wrapper.rs:64-72 | the function shim calls the original function with the converted arguments in source order; with no result the heap is unchanged, a Primitive result is passed through, and a String result comes back as a fresh `String` box |
| CppClass.MapPrimitiveGetter | src/wrapper/cpp/class_definition.rs:264-281 | a by-value getter member, declared `<T> <sym>(void*)`, with no include |
| CppClass.MapPrimitiveSetter | src/wrapper/cpp/class_definition.rs:283-300 | a by-value setter member, declared `void <sym>(void*, <T>)`, with no include |
| CppClass.MapStringGetter | src/wrapper/cpp/class_definition.rs:217-238 | the descriptor-reading getter member, declared `void* <sym>(void*)`, with no include |
| CppClass.MapStringSetter | src/wrapper/cpp/class_definition.rs:240-262 | the `std::string&&` setter and the `std::string&` overload that forwards to it, declared `void <sym>(void*, char*, size_t)` |
| CppClass.MapCustomGetter | src/wrapper/cpp/class_definition.rs:175-192 | a getter member that wraps the returned handle, declared `void* <sym>(void*)`, with the `#include "<T>.h"` line |
| CppClass.MapCustomSetter | src/wrapper/cpp/class_definition.rs:194-211 | a setter member passing `value.self_ptr()`, declared `void <sym>(void*, void*)`, with the `#include "<T>.h"` line |
| CppClass.GetterMethod | src/wrapper/cpp/class_definition.rs:125-173 | the getter of any kind declares exactly the getter's symbol |
| CppClass.SetterMethod | src/wrapper/cpp/class_definition.rs:125-173 | the setter of any kind declares exactly the setter's symbol |
| CppClass.MapFields | src/wrapper/cpp/class_definition.rs:125-173 | a getter method iff the field has a getter and a setter method iff it has a setter, each of the field's kind |
| CppClass.DefaultConstructorMethod | src/wrapper/cpp/class_definition.rs:302-329 | a constructor `C()` storing the result of `void* <sym>()` iff the schema has a default constructor; otherwise nothing |
| CppClass.DestructorMethod | src/wrapper/cpp/class_definition.rs:331-350 | a destructor that calls drop when `self` is not null, and the `void <drop>(void*)` declaration |
| CppClass.CloneExtFn | src/wrapper/cpp/class_definition.rs:94-97 | the declaration `void* <clone>(void*)` |
| CppClass.GenClassDefinition | src/wrapper/cpp/class_definition.rs:7-92 | the fold over the fields, then the constructors, destructor and extern block, give the class header |
| CppClass.FoldFields | src/wrapper/cpp/class_definition.rs:9-37 | the fold gives the method definitions, extern lines and includes of every present accessor in field order (getter before setter) |
| CppClass.FieldExternNamesAgree | src/wrapper/cpp/class_definition.rs:9-37 | the accessor declarations name the schema's accessor symbols in field order |
| CppClass.ClassDefinitionDeclaresSchemaNames | src/wrapper/cpp/class_definition.rs:64-69 | the `extern "C"` block declares exactly the schema's symbols in the shim's order: accessors, then default if any, drop and clone |
| CppClass.FieldIncludesExactly | src/wrapper/cpp/class_definition.rs:21-32 | a line is in the include set iff it is the include line of a field with an accessor |
| CppClass.CustomIncludes | src/wrapper/cpp/class_definition.rs:46-49 | `#include "<T>.h"` is in the header iff some Custom field of type `T` has an accessor |
| CppClass.CustomTypeIncludeInjective | src/wrapper/cpp/class_definition.rs:213-215 | different type names give different include lines |
| CDecl.ExternNamesConcat | src/wrapper/cpp/class_definition.rs:64-69 | the names declared by two extern blocks together are those of the first, then those of the second |
| CppFunction.MapReturnType | src/wrapper/cpp/function_definition.rs:111-138 | no result: extern `void*`, C++ `void`, no return statement; Primitive: `T` both sides and `return result`; String: extern `void*`, C++ `std::string`, read back through `RustString` |
| CppFunction.GenFunctionDeclaration | src/wrapper/cpp/function_definition.rs:4-50 | the loop pushes, per argument in order, the C++ parameter (`T a` or `std::string&& a`) and the extern parameter (`T` or `char*`); the result is the header of the function |
| CppFunction.GenFunctionDefinition | src/wrapper/cpp/function_definition.rs:52-103 | the loop pushes, per argument in order, the signature, the call argument (`casted_<a>` for a String) and one `casted_<a> = <a>.data()` per String; the result is the source of the function |
| CppFunction.DeclarationMatchesDefinition | src/wrapper/cpp/function_definition.rs:4-103 | prototype and definition have the same parameters and return type; the extern and the call use the schema's symbol; the extern has one parameter per argument, `char*` exactly for String arguments |
| Cpp.CppOf | src/wrapper/cpp.rs:16-27 | a struct gets its class header, whose extern block declares exactly the schema's symbols, and no source; a function gets a header declaring its symbol and a source that includes `<fn>.h` and calls that symbol |
| Consumer.LifecycleProvided | src/wrapper/struct_wrapper.rs:53-59 | a program linking a struct's shim resolves its drop and clone symbols, and the default-constructor symbol when the schema has one, to the generated functions |
| Consumer.DefaultCallAllocates | src/wrapper/struct_wrapper.rs:93-113 | calling the default-constructor symbol returns a pointer to a fresh box holding `T::default()`; nothing else changes |
| Consumer.DropCallFrees | src/wrapper/struct_wrapper.rs:63-74 | calling the drop symbol on a live box frees exactly that box and returns nothing |
| Consumer.CloneCallCopies | src/wrapper/struct_wrapper.rs:76-91 | calling the clone symbol returns a fresh box holding a copy of the original; the original is unchanged |
| Consumer.AccessorsProvided | src/wrapper/struct_wrapper.rs:33-40 | every getter and setter the schema names for a field is resolved by the linked shim to the generated accessor |
| Consumer.CallOn | src/wrapper/cpp/class_definition.rs:264-281 | a call through the object's handle aborts when there is none (moved from) and otherwise passes the handle first, before the other arguments |
| Consumer.CBufferReadBack | src/wrapper/cpp/class_definition.rs:240-262 | the NUL terminator a `std::string`'s `data()` carries adds nothing to what `CStr::from_ptr` reads |
| Consumer.CStrPrefixAtFirstNul | src/wrapper/struct_wrapper.rs:201 | text with an embedded NUL is read up to its first NUL and no further |
| Consumer.ReadSliceOfDescriptor | src/wrapper/base.rs:20-42 | pointer, length, copy and `slice_drop` on a field descriptor yield exactly the field's text and free only the descriptor |
| Consumer.SetterCallWrites | src/wrapper/struct_wrapper.rs:190-206 | a String setter called through its symbol stores the buffer's text up to its first NUL in that field and nothing else |
| Consumer.ReadStringFieldReturnsField | src/wrapper/cpp/class_definition.rs:217-238 | reading a String field through its getter symbol yields the field's text and leaves every live cell as it was |
| Consumer.ReadRustStringReturnsText | src/cpp.rs:38-50 | `RustString` turns a returned boxed String into its text (data, length, copy) and then drops the box, freeing exactly it |
| CppRuntime.FindStringSetter | src/wrapper/cpp/class_definition.rs:255-257 | the `std::string&` overload of a setter finds a `std::string&&` overload of the same name when the class has one, and reports none only when no such overload exists |
| CppRuntime.CopyConstructorClones | src/wrapper/cpp/class_definition.rs:99-108 | the copy constructor is a member of every class; it gives the new object a fresh handle whose box holds the same value as the original, and nothing else changes |
| CppRuntime.CopyOfMovedFromCrashes | src/wrapper/cpp/class_definition.rs:99-108 | copying a moved-from object passes `nullptr` to the clone shim, which is undefined behaviour (a crash) |
| CppRuntime.MoveConstructorTransfers | src/wrapper/cpp/class_definition.rs:110-119 | the move constructor is a member of every class; it takes the other object's handle, leaves the other empty and touches no cell |
| CppRuntime.DefaultConstructorAllocates | src/wrapper/cpp/class_definition.rs:302-321 | when the schema has a default constructor the class declares `T()`, which boxes `T::default()` under a fresh handle the new object owns |
| CppRuntime.NoDefaultConstructorWithoutSchema | src/wrapper/cpp/class_definition.rs:322-328 | without a default constructor in the schema the class has no `T()` member |
| CppRuntime.DestructorFreesOwnBox | src/wrapper/cpp/class_definition.rs:331-350 | the destructor is a member of every class; it frees exactly the object's box, and does nothing for a moved-from object |
| CppRuntime.FieldMembersAreAccessors | src/wrapper/cpp/class_definition.rs:125-173 | every member emitted for the fields is a getter or setter; no constructor, destructor or `self` member comes from a field |
| CppRuntime.AccessorInClass | src/wrapper/cpp/class_definition.rs:9-37 | the getter and setter definitions of every field are members of the class |
| CppRuntime.RunStringSetterForward | src/wrapper/cpp/class_definition.rs:255-257 | the `std::string&` overload runs exactly what the `std::string&&` overload of the same name runs |
| CppRuntime.PrimitiveGetterReads | src/wrapper/cpp/class_definition.rs:264-281 | a Primitive field's getter is a member of the class, returns the field's value and changes nothing |
| CppRuntime.PrimitiveSetterWrites | src/wrapper/cpp/class_definition.rs:283-300 | a Primitive field's setter is a member of the class and overwrites that field of the object's box and nothing else |
| CppRuntime.StringGetterReads | src/wrapper/cpp/class_definition.rs:217-238 | a String field's getter is a member of the class and returns the field's text; the descriptor it goes through is freed, so every cell is as before |
| CppRuntime.StringSettersWrite | src/wrapper/cpp/class_definition.rs:240-262 | both overloads of a String field's setter are members of the class and store the text up to its first NUL in that field and nothing else |
| CppRuntime.CustomGetterCopies | src/wrapper/cpp/class_definition.rs:175-192 | a Custom field's getter is a member of the class and returns a new wrapper owning a fresh box that holds a copy of the field; the object's box is unchanged |
| CppRuntime.CustomSetterCopies | src/wrapper/cpp/class_definition.rs:194-211 | a Custom field's setter is a member of the class and stores a copy of the argument's value in the field (the Rust side clones); the argument keeps its own box |
| CppRuntime.CustomSetterOfMovedFromCrashes | src/wrapper/cpp/class_definition.rs:204-205 | passing a moved-from wrapper to a Custom setter hands the shim a null pointer to dereference, modelled as a crash |
| CppRuntime.PrimitiveRoundTrip | src/wrapper/cpp/class_definition.rs:264-300 | setting a Primitive field and then reading it yields the value set |
| CppRuntime.StringRoundTrip | src/wrapper/cpp/class_definition.rs:217-262 | setting a String field and then reading it yields the text up to its first NUL, which is the whole text when it has none |
| CppCall.CallWord | src/wrapper/cpp/function_definition.rs:52-103 | an argument is accepted exactly when it has its parameter's kind; a `std::string&&` argument is passed as its NUL-terminated `data()` buffer, a primitive by value |
| CppCall.CallWords | src/wrapper/cpp/function_definition.rs:52-103 | the call supplies one word per parameter, in order, and is accepted exactly when every argument fits its parameter |
| CppCall.ArgValue | src/wrapper/function_wrapper.rs:34-44 | the value the original function receives: a string argument's text up to its first NUL, a primitive unchanged |
| CppCall.ArgValues | src/wrapper/function_wrapper.rs:20-45 | one value per argument, in order |
| CppCall.CppShimOutcome | src/wrapper/function_wrapper.rs:14-73 | the extern called with the words of well-kinded arguments calls the original on the argument values; no result leaves the heap alone, a primitive result is passed back, a String result is boxed under a fresh handle |
| CppCall.RunReturnRustString | src/wrapper/cpp/function_definition.rs:111-138 | a definition returning `std::string` copies the boxed text out and drops the box |
| CppCall.RunReturned | src/wrapper/cpp/function_definition.rs:111-138 | a definition with no result returns nothing after the call; one with a primitive result returns the extern's value |
| CppCall.CppFunctionCallsOriginal | src/wrapper/cpp/function_definition.rs:52-138 | calling the generated C++ function with well-kinded arguments calls the original with the argument values in order and returns its result (nothing, the primitive, or the text); every cell is as before the call |
| CppCall.IllTypedCallRejected | src/wrapper/cpp/function_definition.rs:4-50 | an argument that does not have its declared parameter's kind is refused |
| CppClient.ConstructKeepsOwning | src/wrapper/cpp/class_definition.rs:302-321 | `C o;` succeeds when the class has a default constructor and keeps every box owned by exactly one live object |
| CppClient.CopyKeepsOwning | src/wrapper/cpp/class_definition.rs:99-108 | copying a live object succeeds and keeps every box owned by exactly one live object |
| CppClient.MoveKeepsOwning | src/wrapper/cpp/class_definition.rs:110-119 | a move succeeds, changes no cell and keeps ownership: the handle passes to the new object |
| CppClient.DestroyKeepsOwning | src/wrapper/cpp/class_definition.rs:331-350 | destroying an object frees exactly its box (nothing for a moved-from one) and keeps ownership |
| CppClient.GetPrimitiveKeepsWorld | src/wrapper/cpp/class_definition.rs:264-281 | a Primitive getter leaves the world exactly as it was |
| CppClient.GetStringKeepsOwning | src/wrapper/cpp/class_definition.rs:217-238 | a String getter succeeds and keeps ownership: its descriptor is freed again |
| CppClient.GetKeepsOwning | src/wrapper/cpp/class_definition.rs:125-173 | every getter the class has succeeds on a live object and keeps ownership |
| CppClient.SetPrimitiveKeepsOwning | src/wrapper/cpp/class_definition.rs:283-300 | a Primitive setter succeeds and keeps ownership |
| CppClient.SetStringKeepsOwning | src/wrapper/cpp/class_definition.rs:240-262 | a String setter succeeds and keeps ownership |
| CppClient.SetKeepsOwning | src/wrapper/cpp/class_definition.rs:125-173 | every setter the class has, given an argument of the field's kind, succeeds on a live object and keeps ownership |
| CppClient.StepKeepsOwning | src/wrapper/cpp/class_definition.rs:7-92 | every step of a well-behaved client of the generated class succeeds and keeps every box owned by exactly one live object, so nothing is freed twice |
| Ownership.FieldPresent | src/wrapper/struct_wrapper.rs:115-256 | a live object's box has every field of the struct, and a String field holds text |
| Ownership.AdoptKeepsOwning | src/wrapper/struct_wrapper.rs:93-113 | a new object that takes a freshly allocated, well-typed box keeps ownership |
| Ownership.ReleaseKeepsOwning | src/wrapper/struct_wrapper.rs:63-74 | an object that goes away together with its box keeps ownership |
| Ownership.TransferKeepsOwning | src/wrapper/cpp/class_definition.rs:110-119 | a new object that takes over another's handle, leaving that one empty, keeps ownership |
| Ownership.WriteKeepsTyped | src/wrapper/struct_wrapper.rs:142-157 | storing a value of the field's kind keeps the record well typed |
| Ownership.SameBoxesKeepOwning | src/wrapper/struct_wrapper.rs:171-189 | a step that keeps the set of live boxes and their types keeps ownership |
| Ownership.WriteStepKeepsOwning | src/wrapper/struct_wrapper.rs:142-206 | storing a well-typed value in a field of an object's box keeps ownership |
| Ownership.LiveBoxesAreOwned | src/wrapper/struct_wrapper.rs:63-113 | under ownership the live boxes are exactly the handles the live objects hold |
| Ownership.NothingLeaksAtExit | src/wrapper/struct_wrapper.rs:63-74 | once every object has gone away, no box is left |
| SwiftClass.FieldExterns | src/wrapper/swift/class_definition.rs:43-104 | the C-header lines of a field declare exactly its getter and setter symbols, and none for a Custom field |
| SwiftClass.GettersAndSettersExterns | src/wrapper/swift/class_definition.rs:35-41 | the accessor lines of all fields declare, field by field in order, the accessor symbols of the non-Custom fields |
| SwiftClass.DefaultConstructorExtern | src/wrapper/swift/class_definition.rs:21-33 | a `void* <default>()` line exactly when the schema has a default constructor |
| SwiftClass.StringGetterExtern | src/wrapper/swift/class_definition.rs:84-86 | `void* <getter>(void*)`: the getter's symbol, one `void*` parameter, and no type name to declare |
| SwiftClass.StringSetterExtern | src/wrapper/swift/class_definition.rs:88-90 | `void <setter>(void*, const char*, unsigned int)`: the setter's symbol, those three parameters, and no type name to declare |
| SwiftClass.PrimitiveGetterExtern | src/wrapper/swift/class_definition.rs:92-97 | `<T> <getter>(void*)`: the getter's symbol and one `void*` parameter; the line's types are declared exactly when the field's type name is |
| SwiftClass.PrimitiveSetterExtern | src/wrapper/swift/class_definition.rs:99-104 | `void <setter>(void*, <T>)`: the setter's symbol, no result, a `void*` and the value; the line's types are declared exactly when the field's type name is |
| SwiftClass.ClassHeader | src/wrapper/swift/class_definition.rs:7-19 | the class header declares the drop symbol, then the non-Custom accessor symbols, then the default-constructor symbol if any |
| SwiftClass.GenProperty | src/wrapper/swift/class_definition.rs:145-250 | a field gets a property exactly when it is not Custom and has a getter or a setter; the property has the field's name and type, a `get` block exactly when there is a getter and a `set` block exactly when there is a setter, each calling that accessor's symbol in the field kind's way |
| SwiftClass.GenProps | src/wrapper/swift/class_definition.rs:141-143 | no property at all exactly when no field gets one; every property emitted has a `get` or a `set` block |
| SwiftClass.GenPropsExactly | src/wrapper/swift/class_definition.rs:141-143 | the class's properties are exactly those `gen_property` emits for its fields |
| SwiftClass.ClassDefinition | src/wrapper/swift/class_definition.rs:106-139 | the class is named after the struct, derives from `Opaque`, drops through the schema's drop symbol in `deinit`, and has `convenience init()` exactly when the schema has a default constructor, calling that symbol |
| SwiftClass.CHeaderCodeBase | src/swift.rs:41-65 | the C-header code base declares only the `RustString` data, length and drop functions |
| SwiftClass.AccessorCallees | src/wrapper/swift/class_definition.rs:208-250 | each block calls its own extern first; a String `get` block, and only it, then calls `slice_ptr`, `slice_len` and `slice_drop` |
| SwiftClass.OwnDeclaredNames | src/wrapper/swift/class_definition.rs:7-19 | a struct's part of the Swift header declares the three `RustString` functions of the code base, then the drop, non-Custom accessor and default symbols |
| SwiftClass.StringGetterCallsUndeclared | src/wrapper/swift/class_definition.rs:226-240 | a String field with a getter makes the class call `slice_ptr`, which neither the C-header code base nor the struct's lines declare |
| SwiftClass.StringGetterNeedsSliceNames | src/wrapper/swift/class_definition.rs:226-240 | a header made of the code base, the struct's own lines and some `extra` lines covers a class with a String getter only when `extra` declares `slice_ptr` |
| SwiftClass.NoStringGetterCallsDeclared | src/wrapper/swift/class_definition.rs:106-224 | without a String getter, every function the class calls in `deinit`, `init()` and its blocks is declared by its own header lines |
| SwiftClass.ClassCompilesIffNoStringGetter | src/wrapper/swift/class_definition.rs:106-250 | against the header the generator writes for it, the class calls only declared functions exactly when no String field has a getter |
| SwiftFunction.MapReturnType | src/wrapper/swift/function_definition.rs:120-146 | no result: no `->`, C `void`, no conversion; Primitive: `-> T`, C `T`, no conversion; String: `-> String`, C `void*`, converted through `RustString` |
| SwiftFunction.FunctionHeader | src/wrapper/swift/function_definition.rs:4-34 | the header line declares the schema's symbol with the mapped C return type and one parameter per argument, in order (`T` for a primitive, `void*` for a String) |
| SwiftFunction.BodyOf | src/wrapper/swift/function_definition.rs:76-106 | no result gives a bare call; a result with a conversion is converted and returned; one without is returned directly |
| SwiftFunction.GenFunctionDefinition | src/wrapper/swift/function_definition.rs:36-112 | the loop pushes, per argument in order, the signature (`_ a: String` for a String), the call argument (`casted_<a>` for a String) and one cast per String argument; the result is the function's definition |
| Swift.SwiftOf | src/wrapper/swift.rs:14-27 | a struct gets its class header lines, which declare the drop, non-Custom accessor and default symbols, and its class; a function gets one header line declaring its symbol and a function that calls that symbol |
| SwiftFunction.DefinitionCallees | src/wrapper/swift/function_definition.rs:76-106 | the Swift function calls its extern first, and the `RustString` functions after it exactly when its result is converted |
| Swift.SwiftOfCallsDeclared | src/wrapper/swift.rs:14-27 | a Swift function calls only what the C-header code base and its own line declare; a Swift class does so exactly when it has no String getter |
| SwiftRuntime.CStringCount | src/wrapper/swift/class_definition.rs:247 | `UInt32(newValue.utf8CString.count)` is the text's length plus the terminator, and traps exactly when that does not fit in 32 bits |
| SwiftRuntime.AccessorBlocks | src/wrapper/swift/class_definition.rs:208-250 | each kind of `get`/`set` block runs its own call sequence |
| SwiftRuntime.FindProperty | src/wrapper/swift/class_definition.rs:179-201 | a member access finds a property of that name when the class has one, and reports none only when no property has that name |
| SwiftRuntime.InitAllocates | src/wrapper/swift/class_definition.rs:125-139 | with a default constructor `init()` succeeds and boxes `T::default()` under a fresh handle; nothing else changes |
| SwiftRuntime.NoInitWithoutDefault | src/wrapper/swift/class_definition.rs:136-138 | without a default constructor there is no `init()` |
| SwiftRuntime.DeinitFreesBox | src/wrapper/swift/class_definition.rs:114-117 | `deinit` frees exactly the instance's box |
| SwiftRuntime.DeinitOfFreedAborts | src/wrapper/swift/class_definition.rs:114-117 | `deinit` on a handle already freed (two instances made from one raw pointer) is a double free, modelled as an abort |
| SwiftRuntime.PropertyOfField | src/wrapper/swift/class_definition.rs:141-206 | with distinct field names, the property found under a field's name is the one `gen_property` emits for that field |
| SwiftRuntime.PrimitiveGetReads | src/wrapper/swift/class_definition.rs:208-215 | reading a Primitive property returns the field's value and changes nothing |
| SwiftRuntime.PrimitiveSetWrites | src/wrapper/swift/class_definition.rs:217-224 | assigning a Primitive property stores the value in that field and changes nothing else |
| SwiftRuntime.StringGetReads | src/wrapper/swift/class_definition.rs:226-240 | reading a String property returns the field's text and leaves every cell as it was |
| SwiftRuntime.GetPropertyRuns | src/wrapper/swift/class_definition.rs:179-193 | reading a property found by name runs its `get` block |
| SwiftRuntime.RunStringSet | src/wrapper/swift/class_definition.rs:242-250 | a String `set` block passes the NUL-terminated buffer and its count, terminator included |
| SwiftRuntime.StringSetBlock | src/wrapper/swift/class_definition.rs:242-250 | a String `set` block succeeds exactly when the new value is a String whose count with the terminator fits in a `UInt32` and the setter called with the handle, the NUL-terminated buffer and that count returns; it then yields the heap that call leaves and no value |
| SwiftRuntime.StringSetWrites | src/wrapper/swift/class_definition.rs:242-250 | assigning a String property whose count fits stores its text up to the first NUL in that field and changes nothing else |
| SwiftRuntime.StringSetTrapsOnHugeString | src/wrapper/swift/class_definition.rs:247 | a String whose count with the terminator does not fit in a `UInt32` traps before any call |
| SwiftRuntime.MissingAccessorsRejected | src/wrapper/swift/class_definition.rs:156-161 | a field without a setter, or a Custom field, cannot be assigned; one without a getter, or a Custom field, cannot be read |
| SwiftRuntime.StringRoundTrip | src/wrapper/swift/class_definition.rs:226-250 | assigning a String property and reading it back yields the text up to its first NUL, the whole text when it has none |
| SwiftRuntime.PrimitiveRoundTrip | src/wrapper/swift/class_definition.rs:208-224 | assigning a Primitive property and reading it back yields the value assigned |
| SwiftRuntime.CallWord | src/wrapper/swift/function_definition.rs:44-65 | an argument is accepted exactly when it has its parameter's type; a `String` is passed as its `utf8CString` buffer, a primitive by value |
| SwiftRuntime.CallWords | src/wrapper/swift/function_definition.rs:41-67 | one word per parameter, in order, accepted exactly when every argument fits |
| SwiftRuntime.ArgValue | src/wrapper/function_wrapper.rs:34-44 | the value the original function receives: a string's text up to its first NUL, a primitive unchanged |
| SwiftRuntime.ArgValues | src/wrapper/function_wrapper.rs:20-45 | one value per argument, in order |
| SwiftRuntime.SwiftShimOutcome | src/wrapper/function_wrapper.rs:14-73 | the extern called with the words of well-typed Swift arguments calls the original on the argument values; no result leaves the heap alone, a primitive result is passed back, a String result is boxed under a fresh handle |
| SwiftRuntime.RunCastThenReturn | src/swift.rs:23-35 | `RustString(result!).to_string()` copies the boxed text out and `deinit` drops the box |
| SwiftRuntime.RunReturned | src/wrapper/swift/function_definition.rs:88-105 | a bare call returns nothing after the call; `return ext(...)` returns the extern's value |
| SwiftRuntime.SwiftFunctionCallsOriginal | src/wrapper/swift/function_definition.rs:36-112 | calling the generated Swift function with well-typed arguments calls the original with the argument values in order and returns its result (nothing, the primitive, or the text); every cell is as before the call |
| SwiftClient.InitKeepsOwning | src/wrapper/swift/class_definition.rs:125-139 | `let o = C()` succeeds when the class has `init()` and keeps every box owned by exactly one live instance |
| SwiftClient.DeinitKeepsOwning | src/wrapper/swift/class_definition.rs:114-117 | releasing the last reference frees exactly the instance's box and keeps ownership |
| SwiftClient.ReadKeepsOwning | src/wrapper/swift/class_definition.rs:208-240 | in a module whose header is the generated one plus some `extra` lines and declares every function the class calls, reading a property that has a `get` succeeds and keeps ownership |
| SwiftClient.WriteKeepsOwning | src/wrapper/swift/class_definition.rs:217-250 | assigning a value of the property's type succeeds and keeps ownership |
| SwiftClient.StepKeepsOwning | src/wrapper/swift/class_definition.rs:106-250 | in a module whose header is the generated one plus some `extra` lines and declares every function the class calls, every step the Swift compiler accepts on the generated class succeeds and keeps every box owned by exactly one live instance |
| Agreement.CppFieldExternsMatch | src/wrapper/cpp/class_definition.rs:175-300 | every extern line a field's C++ accessors declare is a correct prototype (name, arity, parameter and result types) of one of that field's Rust shims |
| Agreement.CppFieldsExternsMatch | src/wrapper/cpp/class_definition.rs:9-37 | every field extern of the C++ class is a correct prototype of an accessor shim of the struct |
| Agreement.CppClassExternsMatch | src/wrapper/cpp/class_definition.rs:64-69 | every extern the C++ class header declares is a correct prototype of an item of the struct's Rust shim |
| Agreement.SwiftFieldExternsMatch | src/wrapper/swift/class_definition.rs:43-104 | every C-header line of a field is a prototype of one of its shims, exact except for the `unsigned int` length of a String setter |
| Agreement.SwiftFieldsExternsMatch | src/wrapper/swift/class_definition.rs:35-41 | the same for the accessor lines of all fields |
| Agreement.SwiftClassExternsMatch | src/wrapper/swift/class_definition.rs:7-33 | every line of a struct's Swift C header is a prototype of an item of its Rust shim; only a String setter's length is declared narrower than `usize` |
| Agreement.SwiftLengthNeverRead | src/wrapper/swift/class_definition.rs:88-90 | the String setter line differs from the shim only in its `unsigned int` length, which is not an ABI match, and the shim's result does not depend on that length |
| Agreement.SwiftNamesExported | src/wrapper/swift/class_definition.rs:7-19 | every symbol the Swift header of a struct declares is exported by the struct's shim |
| SwiftClass.NonCustomNamesAreAccessorNames | src/wrapper/swift/class_definition.rs:43-82 | the accessor symbols the Swift header declares are among those of the schema |
| Agreement.CppFunctionExternMatches | src/wrapper/cpp/function_definition.rs:111-138 | the C++ prototype of a free function matches its shim exactly when the function has a result; with none it declares `void*` where the shim returns nothing |
| Agreement.SwiftFunctionExternMatches | src/wrapper/swift/function_definition.rs:4-34 | the Swift C-header line of a free function is a correct prototype of its shim |
| Agreement.ArgumentOrderAgrees | src/wrapper/function_wrapper.rs:20-45 | shim, C++ definition and Swift definition take one parameter per argument in source order under the same names, and pass them on in that order |
| Agreement.BindingsAgree | src/wrapper/cpp/function_definition.rs:52-103 | called with the same arguments, the C++ and the Swift wrapper of a free function both succeed, return the same result and leave the same live cells |
| HeaderTypes.Undeclared128BitPrimitives | src/translator/struct_translator.rs:42-43 | of the thirteen primitive names the translators accept, exactly `i128` and `u128` are declared by neither `base.h` nor the Swift C-header code base |
| HeaderTypes.CppClassTypesDeclared | src/wrapper/cpp/class_definition.rs:264-297 | the C++ class's extern lines name only types `base.h` declares exactly when every Primitive field with an accessor has such a type |
| HeaderTypes.SwiftClassTypesDeclared | src/wrapper/swift/class_definition.rs:7-104 | a struct's Swift C-header lines name only types the C-header code base declares exactly when every Primitive field with an accessor has such a type |
| HeaderTypes.Wide128FieldUndeclared | src/translator/struct_translator.rs:42-43 | a struct with an `i128` or `u128` field that has an accessor gets C++ and Swift extern lines naming an undeclared type |
| HeaderTypes.CppFunctionTypesDeclared | src/wrapper/cpp/function_definition.rs:4-50 | a free function's C++ extern line names only types `base.h` declares exactly when its Primitive arguments and result do |
| HeaderTypes.SwiftFunctionTypesDeclared | src/wrapper/swift/function_definition.rs:4-34 | a free function's Swift C-header line names only declared types exactly when its Primitive arguments and result do |
| HeaderTypes.Wide128ArgUndeclared | src/translator/function_translator.rs:70-71 | a free function with an `i128` or `u128` argument gets C++ and Swift extern lines naming an undeclared type |
| Accumulator.WriteFile | src/lib.rs:127-135 | after `write_to_file` the file holds exactly the one write, whatever it held before; every other file is unchanged |
| Accumulator.AppendFile | src/lib.rs:137-145 | after `append_to_file` the file holds what it held (nothing if it was missing) followed by the write; every other file is unchanged |
| Accumulator.RemoveDir | src/lib.rs:64 | `remove_dir_all` removes exactly the files under the directory and keeps the others as they were |
| Accumulator.WriteIdempotent | src/lib.rs:127-135 | writing the same content twice leaves the files as one write does |
| Accumulator.WriteForgetsAppends | src/lib.rs:127-145 | a truncating write forgets whatever was appended before |
| Accumulator.HeaderBlocks | src/lib.rs:85-87 | one header block per declaration, in order, each the lines that declaration's Swift header holds |
| Accumulator.SameNameSamePath | src/lib.rs:89-119 | two files of one directory with one extension are the same file exactly when the declarations have the same name |
| Accumulator.OtherBackendsOutsideSwift | src/lib.rs:21-26 | no Rust or C++ file lies under the Swift directory, so the Swift bootstrap never removes one |
| Accumulator.SwiftPathsDistinct | src/lib.rs:52-91 | every file the Swift backend writes lies under the Swift directory; the declaration's source collides with no bootstrap file except `base.swift`, which it is exactly when the declaration is named `base` |
| Accumulator.RustWritten | src/lib.rs:94-106 | `base.rs` holds the Rust code base and `<name>.rs` the expansion without it (for a declaration named `base` the second write wins); no other file changes |
| Accumulator.CppSourceIsNotBase | src/lib.rs:113-119 | a declaration's `.cpp` is never the code base header |
| Accumulator.CppWritten | src/lib.rs:108-125 | `base.h` holds the C++ code base (unless the declaration is named `base`), `<name>.h` the header and, for a function only, `<name>.cpp` the source; a struct leaves any earlier `<name>.cpp` as it was; no other file changes |
| Accumulator.SwiftBootstrap | src/lib.rs:62-83 | the first Swift expansion removes the Swift directory and then holds exactly the two package manifests, the module map with the package name, the C-header code base and the Swift code base; files outside it stay |
| Accumulator.SwiftWritten | src/lib.rs:50-92 | the shared C header gets the declaration's lines appended (after the fresh code base on the first expansion), `<name>.swift` holds the source; after the first expansion nothing else changes, and never anything outside the Swift directory |
| Accumulator.Expanded | src/lib.rs:37-41 | with the Swift backend, one expansion leaves the shared C header holding what it held (the fresh code base on the first expansion) followed by the declaration's lines |
| Accumulator.MacroOutput | src/lib.rs:43-47 | the macro returns the expansion, followed by the seven code-base items exactly on the first call |
| Accumulator.HeaderAccumulates | src/lib.rs:62-87 | the shared C header holds its code base followed by the lines of every declaration expanded so far, in expansion order |
| Accumulator.ExpansionKeepsHeaderAside | src/lib.rs:94-125 | writing the Rust and C++ files of a declaration leaves every file under the Swift directory as it was |
| Accumulator.RustWriteIdempotent | src/lib.rs:94-106 | expanding the same declaration twice leaves the Rust files as one expansion does |
| Accumulator.DeclarationNamedBaseOverwritesCodeBase | src/lib.rs:98-105 | a declaration named `base` overwrites the Rust, C++ and Swift code-base files with its own output |
| Accumulator.ExpansionKeepsInvariant | src/lib.rs:28-48 | one expansion keeps the session invariant: both flags set after the first expansion (the Swift one only with that backend), the code base only in the first output, the C header holding its code base and every declaration's lines in order |
| Accumulator.Session.constructor | src/lib.rs:28-30 | a session starts with both once-flags clear, no expansion, and the files already on disk |
| Accumulator.Session.WriteToFile | src/lib.rs:127-135 | the files become `WriteFile` of the old ones; flags and history are unchanged |
| Accumulator.Session.AppendToFile | src/lib.rs:137-145 | the files become `AppendFile` of the old ones; flags and history are unchanged |
| Accumulator.Session.RemoveDirAll | src/lib.rs:64 | the files become `RemoveDir` of the old ones; flags and history are unchanged |
| Accumulator.Session.WriteRustCode | src/lib.rs:94-106 | the files become `RustWritten` of the old ones; nothing else changes |
| Accumulator.Session.WriteCppCode | src/lib.rs:108-125 | the files become `CppWritten` of the old ones; nothing else changes |
| Accumulator.Session.WriteSwiftCode | src/lib.rs:50-92 | the bootstrap runs exactly when the Swift flag was clear, and the flag is set afterwards; the files become `SwiftWritten` of the old ones |
| Accumulator.Session.WriteCode | src/lib.rs:37-41 | runs the Rust writer, then the C++ and Swift writers of the enabled backends; the files become `Expanded` of the old ones |
| Accumulator.Session.Expand | src/lib.rs:37-47 | writes the declaration's files and returns its expansion, with the code base exactly on the first call; the session invariant is kept |
| Accumulator.Session.Ffi | src/lib.rs:32-48 | a declaration the translator refuses panics and writes nothing; otherwise the declaration is expanded as `Expand` says and the result is returned |

## Left out

- Parsing with `syn` and the `parse_macro_input!` error path: the model starts from a parsed `Syntax.Item`.
- A nested attribute item written `name = value` or `name(...)`: only its path is kept, so the parse error `syn` raises on the unread rest is not modelled.
- Rendering with `quote!` and `format!`: every generator builds structured items in place of text, so whitespace, punctuation and the exact token stream are not modelled.
- The text of the fixed code bases (`cpp_code_base`, `swift_code_base`, `swift_c_header_code_base`, the two package manifests and the module map): each is one constant content block of the file accumulator; the Rust code base is modelled item by item, and the three declarations of `swift_c_header_code_base` as `SwiftClass.CHeaderCodeBase`.
- The file system: paths are relative to `./generated_code/`, `create_dir_all` is implicit, and the `expect` panics on I/O errors are not modelled; `remove_dir_all`'s ignored error is not modelled either.
- `CARGO_PKG_NAME` is a parameter of the session, and the `cpp` and `swift` cargo features are two constant flags of it.
- `std::sync::Once`: the two flags are plain fields, so thread safety, poisoning and concurrent expansions are not modelled.
- Memory safety of the generated code: a null, dangling or wrongly typed handle is modelled as an abort or crash, not as undefined behaviour with arbitrary effects. The one exception is the Swift String buffer escaped from `withUnsafeBufferPointer`, which the model treats as valid (the `SwiftRuntime.CallWord` and `SwiftRuntime.StringSetBlock` lines below).
- UTF-8: text is a sequence of characters, so the invalid-encoding panic of `CStr::to_str().unwrap()` and the trap of Swift's `String(bytes:encoding:)!` are not modelled.
- Floating-point values and integer widths: a primitive value is an uninterpreted `Value`, since the shims pass primitives through unchanged.
- The original function bodies and `T::default()` are parameters (`Env.call`, `Env.defaultOf`); the model does not look inside them.
- Custom fields on the client side: the C++ client and the Swift client use only Primitive and String accessors, since a Custom accessor hands a box to another class's wrapper.
- Swift's public `init(_ rawPtr)` from the `Opaque` base: the Swift client creates instances only through `init()`, so two instances over one raw pointer are shown only as the failing second `deinit` (`SwiftRuntime.DeinitOfFreedAborts`).
- SwiftClass.CHeaderCodeBase: its `int rust_string_len(void*)` line is not compared with the Rust shim's `usize` result; and the C++ `RustString` class text is not modelled: the model reads a returned String through the runtime calls themselves.
- CppRuntime.FindStringSetter: when a class has two `std::string&&` overloads with the same name (two fields whose setters collide), the model runs the first one and does not model C++'s overload-resolution error.
- SwiftRuntime.StringGetReads: states what the String `get` block does once it runs; the class compiles only when the module's header declares the slice functions, which the generated header does not (`SwiftClass.StringGetterCallsUndeclared`), and the runtime's `Call` resolves a symbol among the Rust exports without asking whether Swift declared it.
- SwiftRuntime.StringRoundTrip: the same premise as `StringGetReads`: the read half runs only in a module that declares the slice functions.
- SwiftClient.ReadKeepsOwning: holds for a module whose header, the generated lines plus `extra`, declares every function the class calls (`CallsDeclared`); for a class with a String getter that premise needs `slice_ptr` among the `extra` lines (`SwiftClass.StringGetterNeedsSliceNames`), which the generator never writes, so with the generated header alone the lemma promises nothing for such a class.
- SwiftClient.StepKeepsOwning: the same premise as `ReadKeepsOwning`, for every step.
- SwiftRuntime.CallWord: a Swift `String` argument is passed as a live NUL-terminated buffer `CStr(CBuffer(s))`. The generated code takes that pointer out of a `withUnsafeBufferPointer` closure and uses it after the closure returns, which Swift does not guarantee. The model treats the escaped pointer as valid.
- SwiftRuntime.StringSetBlock: the same escaped `withUnsafeBufferPointer` pointer is passed to the setter as a valid buffer.
- SwiftRuntime.RunStringSet: rests on `StringSetBlock`'s valid buffer, so it states what the setter does when the escaped pointer still points at the text.
- SwiftRuntime.StringSetWrites: rests on the same valid-buffer reading of the escaped pointer.
- SwiftRuntime.SwiftFunctionCallsOriginal: String arguments reach the original through `CallWord`'s valid-buffer reading of the escaped pointer.
- SwiftClient.WriteKeepsOwning: a String assignment succeeds under the same valid-buffer reading of the escaped pointer.
- Agreement.BindingsAgree: the Swift half passes String arguments under the same valid-buffer reading of the escaped pointer.
- The order of the C++ `#include` lines: the source collects them in a `HashSet`, so the model states only which lines are there, not their order.

## Code and documented design

The model follows the code wherever it differs from what the project's design describes:

- No `NameCollision` check exists. Symbols that collide with the reserved runtime names or with each other are accepted (`Naming.FunctionSymbolCanBeReserved`, `Naming.CrossStructSymbolsCanCollide`).
- An unknown field type is not refused. Any identifier that is not primitive or `String` becomes a Custom field, whether or not it names a declared struct (`StructTranslator.ClassifyFieldType`).
- `#[derive(Clone, Default)]` gives no default constructor. The scan stops at the first derive item that is not `Default` (`StructTranslator.DefaultAfterOtherDeriveIsMissed`).
- A C++ function with no result declares its extern as returning `void*`, where the shim returns nothing (`Agreement.CppFunctionExternMatches`).
- The Swift C header declares a String setter's length as `unsigned int`, where the shim takes `usize`. The shim never reads the length (`Agreement.SwiftLengthNeverRead`).
- A declaration named `base` overwrites the code-base files `base.rs`, `base.h` and `base.swift` (`Accumulator.DeclarationNamedBaseOverwritesCodeBase`).
- A Swift String getter calls `slice_ptr`, `slice_len` and `slice_drop`, which `swift_c_header_code_base` does not declare; the C++ code base does declare them. Against the header the generator writes, a class with a String getter therefore calls undeclared functions (`SwiftClass.ClassCompilesIffNoStringGetter`, `Swift.SwiftOfCallsDeclared`). `SwiftRuntime.StringGetReads`, `SwiftRuntime.StringRoundTrip` and `SwiftClient.ReadKeepsOwning` describe the getter as it runs in a module that does declare them.
- The translators accept `i128` and `u128` as primitive field, argument and result types, but `base.h` and `swift_c_header_code_base` alias only `u8` to `u64`, `i8` to `i64`, `f32` and `f64` (and `usize` in `base.h`). An extern line with a 128-bit field or argument therefore names an undeclared type (`HeaderTypes.Undeclared128BitPrimitives`, `HeaderTypes.Wide128FieldUndeclared`, `HeaderTypes.Wide128ArgUndeclared`); against the other names the headers compile exactly when the field and argument types are declared (`HeaderTypes.CppClassTypesDeclared`, `HeaderTypes.SwiftClassTypesDeclared`). `Agreement` compares types by name and does not see this.
- A `.cpp` file left by an earlier function of the same name survives when that name is later used by a struct (`Accumulator.CppWritten`).
