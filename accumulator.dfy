/** The macro entry point and the files it leaves behind: every expansion writes the Rust, C++
    and Swift files of its declaration under `./generated_code/`, truncating each file it
    writes, except the shared Swift C header, to which every declaration appends its lines. Two
    process-wide once-flags make the Rust code base part of the first expansion only and
    recreate the Swift packages on the first expansion only. */
module Accumulator {
  import opened Common
  import opened Syntax
  import opened Schema
  import opened RustIr
  import opened CDecl
  import Base
  import Translator
  import WrapperOutput
  import Cpp
  import CppFunction
  import Swift

  /** What one `writeln!` puts in a file: a rendered value followed by a newline. */
  datatype Content =
    | RustTokens(items: seq<RustItem>)
    | CppBaseText                               // `cpp_code_base()`
    | CppHeaderText(header: Cpp.CppHeader)
    | CppSourceText(definition: CppFunction.FunctionDefinition)
    | CFfiPackageText                           // `swift_c_ffi_package_definition()`
    | FfiPackageText                            // `swift_ffi_package_definition()`
    | ModuleMapText(packageName: string)        // `clang_module_map(package_name)`
    | SwiftCHeaderBaseText                      // `swift_c_header_code_base()`
    | SwiftBaseText                             // `swift_code_base()`
    | SwiftHeaderText(lines: seq<CExtern>)
    | SwiftSourceText(source: Swift.SwiftSource)

  /** The files on disk, by path; a file is the sequence of writes it holds. */
  type Files = map<Path, seq<Content>>

  /** What a translated declaration renders: `Wrapper::name`, the token stream that replaces
      it, `Wrapper::cpp` and `Wrapper::swift`. */
  datatype Generated = Generated(name: string, rust: seq<RustItem>, cpp: Cpp.CppFiles, swift: Swift.SwiftFiles)

  function Generate(w: Wrapper): Generated
  {
    Generated(Name(w), WrapperOutput.Output(w), Cpp.CppOf(w), Swift.SwiftOf(w))
  }

  // Paths

  /** A path below `./generated_code/`: the directory as its components, then the file name;
      `Path::join` appends a component. */
  datatype Path = Path(dir: seq<string>, file: string)

  const RustDir: seq<string> := ["rust"]
  const CppDir: seq<string> := ["cpp"]
  const SwiftDir: seq<string> := ["swift"]
  const CFfiPackageDir: seq<string> := ["swift", "CFfiModule"]
  const CFfiModuleDir: seq<string> := ["swift", "CFfiModule", "Sources", "CFfiModule"]
  const FfiPackageDir: seq<string> := ["swift", "FfiModule"]
  const FfiModuleDir: seq<string> := ["swift", "FfiModule", "Sources", "FfiModule"]

  const RustBasePath := Path(RustDir, "base.rs")
  const CppBasePath := Path(CppDir, "base.h")
  const CFfiPackagePath := Path(CFfiPackageDir, "Package.swift")
  const FfiPackagePath := Path(FfiPackageDir, "Package.swift")
  const ModuleMapPath := Path(CFfiModuleDir, "module.modulemap")
  const SwiftHeaderPath := Path(CFfiModuleDir, "ffi_swift.h")
  const SwiftBasePath := Path(FfiModuleDir, "base.swift")

  function RustSourcePath(name: string): Path { Path(RustDir, name + ".rs") }
  function CppHeaderPath(name: string): Path { Path(CppDir, name + ".h") }
  function CppSourcePath(name: string): Path { Path(CppDir, name + ".cpp") }
  function SwiftSourcePath(name: string): Path { Path(FfiModuleDir, name + ".swift") }

  /** The file lies in the directory or below it. */
  predicate UnderDir(p: Path, dir: seq<string>)
  {
    |dir| <= |p.dir| && p.dir[..|dir|] == dir
  }

  // The two file operations

  /** `write_to_file`: the file is created or truncated and then holds exactly `c`. */
  function WriteFile(fs: Files, path: Path, c: Content): (r: Files)
    ensures path in r && r[path] == [c]
    ensures forall p :: p != path ==> (p in r <==> p in fs) && (p in r ==> r[p] == fs[p])
  {
    fs[path := [c]]
  }

  /** `append_to_file`: the file is created if missing and `c` goes after what it holds. */
  function AppendFile(fs: Files, path: Path, c: Content): (r: Files)
    ensures path in r && r[path] == (if path in fs then fs[path] else []) + [c]
    ensures forall p :: p != path ==> (p in r <==> p in fs) && (p in r ==> r[p] == fs[p])
  {
    fs[path := (if path in fs then fs[path] else []) + [c]]
  }

  /** `remove_dir_all`: every file under the directory is gone, the others stay. */
  function RemoveDir(fs: Files, dir: seq<string>): (r: Files)
    ensures forall p :: (p in r <==> p in fs && !UnderDir(p, dir)) && (p in r ==> r[p] == fs[p])
  {
    map p | p in fs && !UnderDir(p, dir) :: fs[p]
  }

  /** A second write of the same content changes nothing. */
  lemma WriteIdempotent(fs: Files, path: Path, c: Content)
    ensures WriteFile(WriteFile(fs, path, c), path, c) == WriteFile(fs, path, c)
  {
  }

  /** Truncation forgets everything that was appended before. */
  lemma WriteForgetsAppends(fs: Files, path: Path, c: Content, d: Content)
    ensures WriteFile(AppendFile(fs, path, d), path, c) == WriteFile(fs, path, c)
  {
  }

  // What the Swift files hold

  /** The lines a sequence of declarations appends to the shared C header, in order. */
  function HeaderBlocks(ws: seq<Generated>): (r: seq<Content>)
    ensures |r| == |ws| && forall i :: 0 <= i < |ws| ==> r[i] == SwiftHeaderText(ws[i].swift.header)
  {
    seq(|ws|, i requires 0 <= i < |ws| => SwiftHeaderText(ws[i].swift.header))
  }

  // Path facts

  /** Two files of one directory with one extension have the same path only for the same
      name. */
  lemma SameNameSamePath(n1: string, n2: string, ext: string)
    ensures n1 + ext == n2 + ext <==> n1 == n2
  {
    if n1 != n2 && |n1| == |n2| {
      var k :| 0 <= k < |n1| && n1[k] != n2[k];
      assert (n1 + ext)[k] == n1[k];
      assert (n2 + ext)[k] == n2[k];
    }
  }

  /** No Rust or C++ path is under the Swift directory. */
  lemma OtherBackendsOutsideSwift(name: string)
    ensures !UnderDir(RustBasePath, SwiftDir) && !UnderDir(RustSourcePath(name), SwiftDir)
    ensures !UnderDir(CppBasePath, SwiftDir) && !UnderDir(CppHeaderPath(name), SwiftDir) && !UnderDir(CppSourcePath(name), SwiftDir)
  {
    assert |RustDir[0]| != |SwiftDir[0]| && |CppDir[0]| != |SwiftDir[0]|;
    assert RustDir[..1] != SwiftDir && CppDir[..1] != SwiftDir;
  }

  /** The paths the Swift backend writes are all under the Swift directory and pairwise
      different, except that the source file of a declaration named `base` is the Swift code
      base. */
  lemma SwiftPathsDistinct(name: string)
    ensures forall p :: p in [CFfiPackagePath, FfiPackagePath, ModuleMapPath, SwiftHeaderPath, SwiftBasePath, SwiftSourcePath(name)] ==> UnderDir(p, SwiftDir)
    ensures SwiftSourcePath(name) != CFfiPackagePath && SwiftSourcePath(name) != FfiPackagePath
    ensures SwiftSourcePath(name) != ModuleMapPath && SwiftSourcePath(name) != SwiftHeaderPath
    ensures SwiftSourcePath(name) == SwiftBasePath <==> name == "base"
    ensures SwiftHeaderPath != CFfiPackagePath && SwiftHeaderPath != FfiPackagePath && SwiftHeaderPath != ModuleMapPath && SwiftHeaderPath != SwiftBasePath
  {
    assert CFfiPackageDir[..1] == FfiPackageDir[..1] == CFfiModuleDir[..1] == FfiModuleDir[..1] == SwiftDir;
    assert FfiModuleDir[1] != CFfiModuleDir[1];
    SameNameSamePath(name, "base", ".swift");
    assert "base.swift" == "base" + ".swift";
  }

  // The three backends

  /** `write_rust_code`: `base.rs` gets the code base and `<name>.rs` the expansion without it;
      a declaration named `base` overwrites the code base. Nothing else changes. */
  function RustWritten(fs: Files, g: Generated): (r: Files)
    ensures RustSourcePath(g.name) in r && RustBasePath in r
    ensures r[RustSourcePath(g.name)] == [RustTokens(g.rust)]
    ensures r[RustBasePath] == [RustTokens(if g.name == "base" then g.rust else Base.RustCodeBase())]
    ensures forall p :: p != RustBasePath && p != RustSourcePath(g.name) ==> (p in r <==> p in fs) && (p in r ==> r[p] == fs[p])
  {
    SameNameSamePath(g.name, "base", ".rs");
    assert "base.rs" == "base" + ".rs";
    var fs1 := WriteFile(fs, RustBasePath, RustTokens(Base.RustCodeBase()));
    WriteFile(fs1, RustSourcePath(g.name), RustTokens(g.rust))
  }

  lemma CppSourceIsNotBase(name: string)
    ensures CppSourcePath(name) != CppBasePath
  {
    if |name| == 2 {
      assert (name + ".cpp")[2] == '.';
    }
  }

  /** `write_cpp_code`: `base.h` gets the C++ code base, `<name>.h` the header and, for a
      function, `<name>.cpp` the definition. A struct leaves an older `<name>.cpp` in place. */
  function CppWritten(fs: Files, g: Generated): (r: Files)
    ensures CppHeaderPath(g.name) in r && CppBasePath in r
    ensures g.cpp.source.Some? ==> CppSourcePath(g.name) in r
    ensures r[CppHeaderPath(g.name)] == [CppHeaderText(g.cpp.header)]
    ensures g.cpp.source.Some? ==> r[CppSourcePath(g.name)] == [CppSourceText(g.cpp.source.value)]
    ensures g.cpp.source.None? ==> (CppSourcePath(g.name) in r <==> CppSourcePath(g.name) in fs)
    ensures g.cpp.source.None? && CppSourcePath(g.name) in fs ==> r[CppSourcePath(g.name)] == fs[CppSourcePath(g.name)]
    ensures g.name != "base" ==> r[CppBasePath] == [CppBaseText]
    ensures forall p :: p != CppBasePath && p != CppHeaderPath(g.name) && p != CppSourcePath(g.name) ==>
      (p in r <==> p in fs) && (p in r ==> r[p] == fs[p])
  {
    var name := g.name;
    var files := g.cpp;
    SameNameSamePath(name, "base", ".h");
    assert "base.h" == "base" + ".h";
    CppSourceIsNotBase(name);
    var fs1 := WriteFile(fs, CppBasePath, CppBaseText);
    var fs2 := WriteFile(fs1, CppHeaderPath(name), CppHeaderText(files.header));
    if files.source.Some? then WriteFile(fs2, CppSourcePath(name), CppSourceText(files.source.value)) else fs2
  }

  /** The once-guarded bootstrap of `write_swift_code`: the Swift directory is removed and
      recreated holding the two package manifests, the module map, the C header code base and
      the Swift code base. Files outside it stay. */
  function SwiftBootstrap(fs: Files, packageName: string): (r: Files)
    ensures r.Keys == (set p | p in fs && !UnderDir(p, SwiftDir)) + {CFfiPackagePath, FfiPackagePath, ModuleMapPath, SwiftHeaderPath, SwiftBasePath}
    ensures r[CFfiPackagePath] == [CFfiPackageText] && r[FfiPackagePath] == [FfiPackageText]
    ensures r[ModuleMapPath] == [ModuleMapText(packageName)]
    ensures r[SwiftHeaderPath] == [SwiftCHeaderBaseText] && r[SwiftBasePath] == [SwiftBaseText]
    ensures forall p :: p in fs && !UnderDir(p, SwiftDir) ==> r[p] == fs[p]
  {
    SwiftPathsDistinct("base");
    var fs0 := RemoveDir(fs, SwiftDir);
    var fs1 := WriteFile(fs0, CFfiPackagePath, CFfiPackageText);
    var fs2 := WriteFile(fs1, FfiPackagePath, FfiPackageText);
    var fs3 := WriteFile(fs2, ModuleMapPath, ModuleMapText(packageName));
    var fs4 := WriteFile(fs3, SwiftHeaderPath, SwiftCHeaderBaseText);
    WriteFile(fs4, SwiftBasePath, SwiftBaseText)
  }

  /** `write_swift_code`: after the bootstrap (first expansion only), the declaration's lines
      are appended to the C header and its `.swift` file is written. */
  function SwiftWritten(fs: Files, g: Generated, bootstrap: bool, packageName: string): (r: Files)
    ensures SwiftHeaderPath in r && SwiftSourcePath(g.name) in r
    ensures bootstrap ==> SwiftBasePath in r && ModuleMapPath in r
    ensures var before := if bootstrap then [SwiftCHeaderBaseText] else if SwiftHeaderPath in fs then fs[SwiftHeaderPath] else [];
      r[SwiftHeaderPath] == before + [SwiftHeaderText(g.swift.header)]
    ensures r[SwiftSourcePath(g.name)] == [SwiftSourceText(g.swift.source)]
    ensures bootstrap && g.name != "base" ==> r[SwiftBasePath] == [SwiftBaseText]
    ensures bootstrap ==> r[ModuleMapPath] == [ModuleMapText(packageName)]
    ensures forall p :: !UnderDir(p, SwiftDir) ==> (p in r <==> p in fs) && (p in r ==> r[p] == fs[p])
    ensures !bootstrap ==> forall p :: p != SwiftHeaderPath && p != SwiftSourcePath(g.name) ==> (p in r <==> p in fs) && (p in r ==> r[p] == fs[p])
  {
    SwiftPathsDistinct(g.name);
    var files := g.swift;
    var fs1 := if bootstrap then SwiftBootstrap(fs, packageName) else fs;
    var fs2 := AppendFile(fs1, SwiftHeaderPath, SwiftHeaderText(files.header));
    WriteFile(fs2, SwiftSourcePath(g.name), SwiftSourceText(files.source))
  }

  /** The files after one expansion, with the backends the crate is built with. */
  function Expanded(fs: Files, g: Generated, cppFeature: bool, swiftFeature: bool, bootstrap: bool, packageName: string): (r: Files)
    ensures swiftFeature ==> SwiftHeaderPath in r
    ensures swiftFeature ==>
      var before := if bootstrap then [SwiftCHeaderBaseText] else if SwiftHeaderPath in fs then fs[SwiftHeaderPath] else [];
      r[SwiftHeaderPath] == before + [SwiftHeaderText(g.swift.header)]
  {
    SwiftPathsDistinct(g.name);
    ExpansionKeepsHeaderAside(fs, g, cppFeature);
    var fs1 := RustWritten(fs, g);
    var fs2 := if cppFeature then CppWritten(fs1, g) else fs1;
    if swiftFeature then SwiftWritten(fs2, g, bootstrap, packageName) else fs2
  }

  /** The macro's output for a declaration: its expansion, followed by the code base if this is
      the first expansion. */
  function MacroOutput(g: Generated, first: bool): (r: seq<RustItem>)
    ensures |r| == |g.rust| + (if first then 7 else 0)
    ensures r[..|g.rust|] == g.rust
    ensures first ==> r[|g.rust|..] == Base.RustCodeBase()
  {
    g.rust + (if first then Base.RustCodeBase() else [])
  }

  // Properties over several expansions

  lemma HeaderBlocksSnoc(ws: seq<Generated>, g: Generated)
    ensures HeaderBlocks(ws + [g]) == HeaderBlocks(ws) + [SwiftHeaderText(g.swift.header)]
  {
  }

  /** The Swift C header holds its code base and then the lines of every declaration expanded
      so far, in expansion order: the first expansion recreates it, every later one appends to
      it, and the Rust and C++ backends never touch it. */
  lemma HeaderAccumulates(fs: Files, earlier: seq<Generated>, g: Generated, cppFeature: bool, packageName: string)
    requires earlier != [] ==> SwiftHeaderPath in fs && fs[SwiftHeaderPath] == [SwiftCHeaderBaseText] + HeaderBlocks(earlier)
    ensures var r := Expanded(fs, g, cppFeature, true, earlier == [], packageName);
      SwiftHeaderPath in r && r[SwiftHeaderPath] == [SwiftCHeaderBaseText] + HeaderBlocks(earlier + [g])
  {
    HeaderBlocksSnoc(earlier, g);
  }

  /** Writing the Rust and C++ files of a declaration leaves the Swift directory as it was. */
  lemma ExpansionKeepsHeaderAside(fs: Files, g: Generated, cppFeature: bool)
    ensures var fs' := if cppFeature then CppWritten(RustWritten(fs, g), g) else RustWritten(fs, g);
      forall p :: UnderDir(p, SwiftDir) ==> (p in fs' <==> p in fs) && (p in fs' ==> fs'[p] == fs[p])
  {
    OtherBackendsOutsideSwift(g.name);
  }

  /** Expanding the same declaration twice leaves the Rust files as one expansion does. */
  lemma RustWriteIdempotent(fs: Files, g: Generated)
    ensures RustWritten(RustWritten(fs, g), g) == RustWritten(fs, g)
  {
    var a := RustWritten(RustWritten(fs, g), g);
    var b := RustWritten(fs, g);
    assert a.Keys == b.Keys;
  }

  /** The code base files are overwritten by a declaration named `base`: its own output lands
      in `base.rs`, `base.h` and `base.swift`. */
  lemma DeclarationNamedBaseOverwritesCodeBase(fs: Files, g: Generated, packageName: string)
    requires g.name == "base"
    ensures RustWritten(fs, g)[RustBasePath] == [RustTokens(g.rust)]
    ensures CppWritten(fs, g)[CppBasePath] == [CppHeaderText(g.cpp.header)]
    ensures SwiftWritten(fs, g, true, packageName)[SwiftBasePath] == [SwiftSourceText(g.swift.source)]
  {
    SameNameSamePath(g.name, "base", ".h");
    assert "base.h" == "base" + ".h";
    SwiftPathsDistinct(g.name);
  }

  /** What a session keeps true: the flags are set once the first declaration has been expanded
      (the Swift one only with the Swift backend), only the first expansion carries the code
      base, and the C header holds its code base followed by the lines of every declaration in
      expansion order. */
  predicate SessionInvariant(swiftFeature: bool, rustFlag: bool, swiftFlag: bool, history: seq<Generated>, outputs: seq<seq<RustItem>>, files: Files)
  {
    && (rustFlag <==> |history| > 0)
    && (swiftFlag <==> swiftFeature && |history| > 0)
    && |outputs| == |history|
    && (forall i :: 0 <= i < |history| ==> outputs[i] == MacroOutput(history[i], i == 0))
    && (swiftFeature && |history| > 0 ==> SwiftHeaderPath in files && files[SwiftHeaderPath] == [SwiftCHeaderBaseText] + HeaderBlocks(history))
  }

  /** One expansion keeps the session invariant. */
  lemma ExpansionKeepsInvariant(cppFeature: bool, swiftFeature: bool, packageName: string, rustFlag: bool, swiftFlag: bool,
                                history: seq<Generated>, outputs: seq<seq<RustItem>>, files: Files, g: Generated)
    requires SessionInvariant(swiftFeature, rustFlag, swiftFlag, history, outputs, files)
    ensures SessionInvariant(swiftFeature, true, swiftFeature, history + [g], outputs + [MacroOutput(g, !rustFlag)],
                             Expanded(files, g, cppFeature, swiftFeature, !swiftFlag, packageName))
  {
    if swiftFeature {
      HeaderAccumulates(files, history, g, cppFeature, packageName);
    }
  }

  /** The accumulator: the files, the two once-flags and, as ghost state, the declarations
      expanded so far and what each expansion returned to the compiler. */
  class Session {
    const cppFeature: bool
    const swiftFeature: bool
    const packageName: string
    var files: Files
    var rustCodeBaseGenerated: bool
    var swiftCHeaderRecreated: bool
    ghost var history: seq<Generated>
    ghost var outputs: seq<seq<RustItem>>

    ghost predicate Valid()
      reads this
    {
      SessionInvariant(swiftFeature, rustCodeBaseGenerated, swiftCHeaderRecreated, history, outputs, files)
    }

    constructor(cppFeature: bool, swiftFeature: bool, packageName: string, onDisk: Files)
      ensures Valid() && files == onDisk && history == []
      ensures this.cppFeature == cppFeature && this.swiftFeature == swiftFeature && this.packageName == packageName
    {
      this.cppFeature := cppFeature;
      this.swiftFeature := swiftFeature;
      this.packageName := packageName;
      files := onDisk;
      rustCodeBaseGenerated := false;
      swiftCHeaderRecreated := false;
      history := [];
      outputs := [];
    }

    method WriteToFile(path: Path, c: Content)
      modifies this
      ensures files == WriteFile(old(files), path, c)
      ensures rustCodeBaseGenerated == old(rustCodeBaseGenerated) && swiftCHeaderRecreated == old(swiftCHeaderRecreated)
      ensures history == old(history) && outputs == old(outputs)
    {
      files := files[path := [c]];
    }

    method AppendToFile(path: Path, c: Content)
      modifies this
      ensures files == AppendFile(old(files), path, c)
      ensures rustCodeBaseGenerated == old(rustCodeBaseGenerated) && swiftCHeaderRecreated == old(swiftCHeaderRecreated)
      ensures history == old(history) && outputs == old(outputs)
    {
      var before := if path in files then files[path] else [];
      files := files[path := before + [c]];
    }

    method RemoveDirAll(dir: seq<string>)
      modifies this
      ensures files == RemoveDir(old(files), dir)
      ensures rustCodeBaseGenerated == old(rustCodeBaseGenerated) && swiftCHeaderRecreated == old(swiftCHeaderRecreated)
      ensures history == old(history) && outputs == old(outputs)
    {
      files := map p | p in files && !UnderDir(p, dir) :: files[p];
    }

    method WriteRustCode(g: Generated)
      modifies this
      ensures files == RustWritten(old(files), g)
      ensures rustCodeBaseGenerated == old(rustCodeBaseGenerated) && swiftCHeaderRecreated == old(swiftCHeaderRecreated)
      ensures history == old(history) && outputs == old(outputs)
    {
      WriteToFile(RustBasePath, RustTokens(Base.RustCodeBase()));
      WriteToFile(RustSourcePath(g.name), RustTokens(g.rust));
    }

    method WriteCppCode(g: Generated)
      modifies this
      ensures files == CppWritten(old(files), g)
      ensures rustCodeBaseGenerated == old(rustCodeBaseGenerated) && swiftCHeaderRecreated == old(swiftCHeaderRecreated)
      ensures history == old(history) && outputs == old(outputs)
    {
      var cppFiles := g.cpp;
      WriteToFile(CppBasePath, CppBaseText);
      WriteToFile(CppHeaderPath(g.name), CppHeaderText(cppFiles.header));
      if cppFiles.source.Some? {
        WriteToFile(CppSourcePath(g.name), CppSourceText(cppFiles.source.value));
      }
    }

    method WriteSwiftCode(g: Generated)
      modifies this
      ensures files == SwiftWritten(old(files), g, !old(swiftCHeaderRecreated), packageName)
      ensures swiftCHeaderRecreated && rustCodeBaseGenerated == old(rustCodeBaseGenerated)
      ensures history == old(history) && outputs == old(outputs)
    {
      if !swiftCHeaderRecreated {
        swiftCHeaderRecreated := true;
        RemoveDirAll(SwiftDir);
        WriteToFile(CFfiPackagePath, CFfiPackageText);
        WriteToFile(FfiPackagePath, FfiPackageText);
        WriteToFile(ModuleMapPath, ModuleMapText(packageName));
        WriteToFile(SwiftHeaderPath, SwiftCHeaderBaseText);
        WriteToFile(SwiftBasePath, SwiftBaseText);
      }
      var swiftFiles := g.swift;
      AppendToFile(SwiftHeaderPath, SwiftHeaderText(swiftFiles.header));
      WriteToFile(SwiftSourcePath(g.name), SwiftSourceText(swiftFiles.source));
    }

    /** The three `write_*_code` calls, each backend behind its feature flag. */
    method WriteCode(g: Generated)
      modifies this
      ensures files == Expanded(old(files), g, cppFeature, swiftFeature, !old(swiftCHeaderRecreated), packageName)
      ensures swiftCHeaderRecreated == (old(swiftCHeaderRecreated) || swiftFeature)
      ensures rustCodeBaseGenerated == old(rustCodeBaseGenerated) && history == old(history) && outputs == old(outputs)
    {
      WriteRustCode(g);
      if cppFeature {
        WriteCppCode(g);
      }
      if swiftFeature {
        WriteSwiftCode(g);
      }
    }

    /** The part of `ffi` after translation: every backend writes its files, and the expansion
        is returned with the code base appended on the first expansion only. */
    method Expand(g: Generated) returns (tokens: seq<RustItem>)
      requires Valid()
      modifies this
      ensures Valid()
      ensures tokens == MacroOutput(g, old(|history|) == 0)
      ensures files == Expanded(old(files), g, cppFeature, swiftFeature, !old(swiftCHeaderRecreated), packageName)
      ensures history == old(history) + [g]
    {
      ghost var fs0 := files;
      ghost var bootstrap := !swiftCHeaderRecreated;
      WriteCode(g);
      ExpansionKeepsInvariant(cppFeature, swiftFeature, packageName, rustCodeBaseGenerated, !bootstrap, history, outputs, fs0, g);
      tokens := g.rust;
      if !rustCodeBaseGenerated {
        rustCodeBaseGenerated := true;
        tokens := tokens + Base.RustCodeBase();
      }
      history := history + [g];
      outputs := outputs + [tokens];
    }

    /** `ffi`: a declaration that does not translate aborts the expansion before anything is
        written; otherwise it is expanded. */
    method Ffi(item: Item) returns (r: Result<seq<RustItem>>)
      requires Valid()
      modifies this
      ensures Valid()
      ensures Translator.Translate(item).Panic? ==> r == Panic(Translator.Translate(item).reason) && files == old(files) && history == old(history)
      ensures Translator.Translate(item).Ok? ==>
        var g := Generate(Translator.Translate(item).value);
        && r == Ok(MacroOutput(g, old(|history|) == 0))
        && files == Expanded(old(files), g, cppFeature, swiftFeature, !old(swiftCHeaderRecreated), packageName)
        && history == old(history) + [g]
    {
      var t := Translator.Translate(item);
      if t.Panic? {
        return Panic(t.reason);
      }
      var tokens := Expand(Generate(t.value));
      r := Ok(tokens);
    }
  }
}
