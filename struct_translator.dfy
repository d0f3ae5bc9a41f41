/** `translate_struct`: validates a struct declaration into a `StructWrapper` schema. */
module StructTranslator {
  import opened Common
  import opened Syntax
  import opened Naming
  import opened Schema

  /** The thirteen type names that cross the boundary by value. */
  const PrimitiveTypeNames: set<string> :=
    {"i8", "i16", "i32", "i64", "i128", "u8", "u16", "u32", "u64", "u128", "f32", "f64", "bool"}

  /** Classification of a field's type name: exactly the thirteen primitive names are
      Primitive, `String` is String, every other identifier is a Custom (opaque) type. */
  function ClassifyFieldType(name: string): (k: FieldWrapperType)
    ensures k == Primitive <==> name in PrimitiveTypeNames
    ensures k == String <==> name == "String"
    ensures k == Custom <==> name !in PrimitiveTypeNames && name != "String"
  {
    match name
    case "i8" | "i16" | "i32" | "i64" | "i128" | "u8" | "u16" | "u32" | "u64" | "u128" | "f32" | "f64" | "bool" =>
      Primitive
    case "String" => String
    case _ => Custom
  }

  // ---------------------------------------------------------------------------------------
  // Field attributes: #[ffi(getter, setter, skip)]

  datatype FieldAttributes = FieldAttributes(getterAttr: bool, setterAttr: bool, skipAttr: bool)

  predicate IsFlagItem(item: string)
  {
    item == "setter" || item == "getter" || item == "skip"
  }

  /** The items of one `#[ffi(...)]` list that are read: left to right, up to (excluding) the
      first unrecognised item, whose error ends the list and is discarded. */
  function ReadFlagItems(items: seq<string>): seq<string>
  {
    if items == [] || !IsFlagItem(items[0]) then [] else [items[0]] + ReadFlagItems(items[1..])
  }

  /** Some `ffi` attribute of the field reads `flag`. */
  predicate FlagRequested(attrs: seq<Attribute>, flag: string)
  {
    exists i :: 0 <= i < |attrs| && attrs[i].path == "ffi" && flag in ReadFlagItems(attrs[i].items)
  }

  /** The three flags, accumulated over all `ffi` attributes of a field. */
  function FieldAttributesOf(attrs: seq<Attribute>): FieldAttributes
  {
    FieldAttributes(FlagRequested(attrs, "getter"), FlagRequested(attrs, "setter"), FlagRequested(attrs, "skip"))
  }

  lemma FlagRequestedSnoc(attrs: seq<Attribute>, i: nat, flag: string)
    requires i < |attrs|
    ensures FlagRequested(attrs[..i + 1], flag) <==>
      FlagRequested(attrs[..i], flag) || (attrs[i].path == "ffi" && flag in ReadFlagItems(attrs[i].items))
  {
    if attrs[i].path == "ffi" && flag in ReadFlagItems(attrs[i].items) {
      assert attrs[..i + 1][i] == attrs[i];
    }
    if FlagRequested(attrs[..i], flag) {
      var k :| 0 <= k < i && attrs[..i][k].path == "ffi" && flag in ReadFlagItems(attrs[..i][k].items);
      assert attrs[..i + 1][k] == attrs[..i][k];
    }
    if FlagRequested(attrs[..i + 1], flag) {
      var k :| 0 <= k < i + 1 && attrs[..i + 1][k].path == "ffi" && flag in ReadFlagItems(attrs[..i + 1][k].items);
      if k < i {
        assert attrs[..i][k] == attrs[..i + 1][k];
      }
    }
  }

  /** The `parse_nested_meta` walk of one `ffi` list: which flags it reads before it stops. */
  method ReadFfiList(items: seq<string>) returns (getter: bool, setter: bool, skip: bool)
    ensures getter == ("getter" in ReadFlagItems(items))
    ensures setter == ("setter" in ReadFlagItems(items))
    ensures skip == ("skip" in ReadFlagItems(items))
  {
    getter, setter, skip := false, false, false;
    var j := 0;
    while j < |items|
      invariant 0 <= j <= |items|
      invariant ReadFlagItems(items) == items[..j] + ReadFlagItems(items[j..])
      invariant getter == ("getter" in items[..j])
      invariant setter == ("setter" in items[..j])
      invariant skip == ("skip" in items[..j])
    {
      var item := items[j];
      if item == "setter" {
        setter := true;
      } else if item == "getter" {
        getter := true;
      } else if item == "skip" {
        skip := true;
      } else {
        break;
      }
      assert items[j..][1..] == items[j + 1..];
      assert items[..j + 1] == items[..j] + [item];
      j := j + 1;
    }
    assert j < |items| ==> !IsFlagItem(items[j..][0]);
    assert ReadFlagItems(items) == items[..j];
  }

  /** `extract_field_attributes`: flips three booleans while walking every attribute and, in an
      `ffi` attribute, every item until the first unrecognised one. */
  method ExtractFieldAttributes(field: Field) returns (fa: FieldAttributes)
    ensures fa == FieldAttributesOf(field.attrs)
  {
    var attrs := field.attrs;
    var getter, setter, skip := false, false, false;
    for i := 0 to |attrs|
      invariant getter == FlagRequested(attrs[..i], "getter")
      invariant setter == FlagRequested(attrs[..i], "setter")
      invariant skip == FlagRequested(attrs[..i], "skip")
    {
      var attr := attrs[i];
      FlagRequestedSnoc(attrs, i, "getter");
      FlagRequestedSnoc(attrs, i, "setter");
      FlagRequestedSnoc(attrs, i, "skip");
      if attr.path == "ffi" {
        var g, s, k := ReadFfiList(attr.items);
        getter, setter, skip := getter || g, setter || s, skip || k;
      }
    }
    assert attrs[..|attrs|] == attrs;
    fa := FieldAttributes(getter, setter, skip);
  }

  /** Flags accumulate: the flags of a concatenation of attribute lists are the disjunction. */
  lemma FlagsAccumulate(a: seq<Attribute>, b: seq<Attribute>, flag: string)
    ensures FlagRequested(a + b, flag) <==> FlagRequested(a, flag) || FlagRequested(b, flag)
  {
    if FlagRequested(a, flag) {
      var k :| 0 <= k < |a| && a[k].path == "ffi" && flag in ReadFlagItems(a[k].items);
      assert (a + b)[k] == a[k];
    }
    if FlagRequested(b, flag) {
      var k :| 0 <= k < |b| && b[k].path == "ffi" && flag in ReadFlagItems(b[k].items);
      assert (a + b)[|a| + k] == b[k];
    }
    if FlagRequested(a + b, flag) {
      var k :| 0 <= k < |a + b| && (a + b)[k].path == "ffi" && flag in ReadFlagItems((a + b)[k].items);
      if k >= |a| {
        assert (a + b)[k] == b[k - |a|];
      }
    }
  }

  /** Attributes other than `ffi` (serde, doc, ...) never change the flags. */
  lemma NonFfiAttributeIgnored(a: seq<Attribute>, attr: Attribute, b: seq<Attribute>, flag: string)
    requires attr.path != "ffi"
    ensures FlagRequested(a + [attr] + b, flag) <==> FlagRequested(a + b, flag)
  {
    FlagsAccumulate(a + [attr], b, flag);
    FlagsAccumulate(a, [attr], flag);
    FlagsAccumulate(a, b, flag);
    assert !FlagRequested([attr], flag);
  }

  /** Reading stops at the first unrecognised item: nothing after it is read. */
  lemma {:induction false} ReadingStopsAtUnrecognised(pre: seq<string>, bad: string, post: seq<string>)
    requires forall k :: 0 <= k < |pre| ==> IsFlagItem(pre[k])
    requires !IsFlagItem(bad)
    ensures ReadFlagItems(pre + [bad] + post) == pre
  {
    if pre == [] {
      assert (pre + [bad] + post)[0] == bad;
    } else {
      assert (pre + [bad] + post)[1..] == pre[1..] + [bad] + post;
      ReadingStopsAtUnrecognised(pre[1..], bad, post);
    }
  }

  // ---------------------------------------------------------------------------------------
  // Getters and setters

  function GenerateGetter(attrs: FieldAttributes, className: string, fieldName: string, isPublic: bool): Option<Getter>
  {
    if !attrs.skipAttr && (isPublic || attrs.getterAttr) then
      Some(Getter(GetterName(fieldName), GetterSymbol(className, fieldName)))
    else None
  }

  function GenerateSetter(attrs: FieldAttributes, className: string, fieldName: string, isPublic: bool): Option<Setter>
  {
    if !attrs.skipAttr && (isPublic || attrs.setterAttr) then
      Some(Setter(SetterName(fieldName), SetterSymbol(className, fieldName)))
    else None
  }

  /** The field's type written as one identifier, or the panic the translator raises. */
  function FieldTypeIdent(ty: Ty): (r: Result<string>)
    ensures r.Ok? <==> ty.PathType? && GetIdent(ty.leadingColon, ty.segments).Some?
  {
    match ty
    case OtherType(_) => Panic(NoPath)
    case PathType(colon, segments) =>
      match GetIdent(colon, segments)
      case Some(ident) => Ok(ident)
      case None => Panic(NoIdent)
  }

  predicate SingleIdentType(ty: Ty)
  {
    ty.PathType? && !ty.leadingColon && |ty.segments| == 1 && !ty.segments[0].generic
  }

  /** The schema of one field (the closure of `fields_wrappers`). */
  function FieldWrapperOf(className: string, field: Field): (r: Result<FieldWrapper>)
    ensures r.Ok? <==> field.ident.Some? && SingleIdentType(field.ty)
    ensures field.ident.None? ==> r == Panic(NoFieldIdent)
    ensures field.ident.Some? && field.ty.OtherType? ==> r == Panic(NoPath)
    ensures field.ident.Some? && field.ty.PathType? && !SingleIdentType(field.ty) ==> r == Panic(NoIdent)
    ensures r.Ok? ==>
      && r.value.fieldName == field.ident.value
      && r.value.fieldType == field.ty.segments[0].ident
      && r.value.wrapperType == ClassifyFieldType(field.ty.segments[0].ident)
      && (r.value.getter.Some? <==>
            !FlagRequested(field.attrs, "skip") && (field.vis.Public? || FlagRequested(field.attrs, "getter")))
      && (r.value.setter.Some? <==>
            !FlagRequested(field.attrs, "skip") && (field.vis.Public? || FlagRequested(field.attrs, "setter")))
      && WellNamedField(className, r.value)
  {
    match field.ident
    case None => Panic(NoFieldIdent)
    case Some(fieldName) =>
      var attrs := FieldAttributesOf(field.attrs);
      var isPublic := field.vis.Public?;
      var getter := GenerateGetter(attrs, className, fieldName, isPublic);
      var setter := GenerateSetter(attrs, className, fieldName, isPublic);
      match FieldTypeIdent(field.ty)
      case Panic(e) => Panic(e)
      case Ok(ident) => Ok(FieldWrapper(fieldName, ident, ClassifyFieldType(ident), setter, getter))
  }

  /** Field `i` is the first invalid one and panics with `reason`. */
  predicate FirstPanic(className: string, fields: seq<Field>, i: int, reason: Failure)
  {
    && 0 <= i < |fields|
    && FieldWrapperOf(className, fields[i]) == Panic(reason)
    && forall k :: 0 <= k < i ==> FieldWrapperOf(className, fields[k]).Ok?
  }

  /** `fields_wrappers`: one schema per field, in declaration order; the first invalid field
      aborts the whole struct with that field's panic. */
  function FieldsWrappers(className: string, fields: seq<Field>): (r: Result<seq<FieldWrapper>>)
    ensures r.Ok? <==> forall i :: 0 <= i < |fields| ==> FieldWrapperOf(className, fields[i]).Ok?
    ensures r.Ok? ==> |r.value| == |fields|
    ensures r.Ok? ==> forall i :: 0 <= i < |fields| ==> FieldWrapperOf(className, fields[i]) == Ok(r.value[i])
    ensures r.Panic? ==> exists i :: FirstPanic(className, fields, i, r.reason)
  {
    if fields == [] then Ok([])
    else
      match FieldWrapperOf(className, fields[0])
      case Panic(e) =>
        assert FirstPanic(className, fields, 0, e);
        Panic(e)
      case Ok(fw) =>
        match FieldsWrappers(className, fields[1..])
        case Panic(e) =>
          assert forall k :: 0 <= k < |fields[1..]| ==> fields[1..][k] == fields[k + 1];
          ghost var i :| FirstPanic(className, fields[1..], i, e);
          assert FirstPanic(className, fields, i + 1, e);
          Panic(e)
        case Ok(rest) =>
          assert forall k :: 0 <= k < |fields[1..]| ==> fields[1..][k] == fields[k + 1];
          Ok([fw] + rest)
  }

  // ---------------------------------------------------------------------------------------
  // Default construction from #[derive(Default, ...)]

  /** Some `derive` list names `Default` in first position: reading a derive list stops at the
      first name other than `Default`, so `Default` counts only before any other name. */
  predicate DerivesDefault(attrs: seq<Attribute>)
  {
    exists i :: 0 <= i < |attrs| && attrs[i].path == "derive" && |attrs[i].items| > 0 && attrs[i].items[0] == "Default"
  }

  /** The default-constructor entry of the schema. */
  function DefaultConstructorOf(item: ItemStruct): Option<DefaultConstructor>
  {
    if DerivesDefault(item.attrs) then
      Some(DefaultConstructor(DefaultConstructorName(item.ident), DefaultSymbol(item.ident)))
    else None
  }

  /** `default_constructor`: walks every attribute; in a `derive` list, records the constructor
      at each `Default` and stops at the first other name. */
  method FindDefaultConstructor(item: ItemStruct) returns (dc: Option<DefaultConstructor>)
    ensures dc == DefaultConstructorOf(item)
  {
    var attrs := item.attrs;
    var className := item.ident;
    dc := None;
    for i := 0 to |attrs|
      invariant dc.Some? <==> DerivesDefault(attrs[..i])
      invariant dc.Some? ==> dc.value == DefaultConstructor(DefaultConstructorName(className), DefaultSymbol(className))
    {
      var attr := attrs[i];
      ghost var before := dc.Some?;
      if attr.path == "derive" {
        var j := 0;
        while j < |attr.items|
          invariant 0 <= j <= |attr.items|
          invariant forall k :: 0 <= k < j ==> attr.items[k] == "Default"
          invariant dc.Some? <==> before || j > 0
          invariant dc.Some? ==> dc.value == DefaultConstructor(DefaultConstructorName(className), DefaultSymbol(className))
        {
          if attr.items[j] == "Default" {
            dc := Some(DefaultConstructor(DefaultConstructorName(className), DefaultSymbol(className)));
            j := j + 1;
          } else {
            break;
          }
        }
      }
      assert attrs[..i + 1][i] == attr;
      assert forall k :: 0 <= k < i ==> attrs[..i + 1][k] == attrs[..i][k];
    }
    assert attrs[..|attrs|] == attrs;
  }

  /** `#[derive(Clone, Default)]` yields no default constructor: the scan gives up at `Clone`. */
  lemma DefaultAfterOtherDeriveIsMissed(item: ItemStruct)
    requires item.attrs == [Attribute("derive", ["Clone", "Default"])]
    ensures DefaultConstructorOf(item) == None
  {
  }

  // ---------------------------------------------------------------------------------------

  /** Every field is named and typed by a single identifier. */
  predicate ValidStructFields(fields: seq<Field>)
  {
    forall i :: 0 <= i < |fields| ==> fields[i].ident.Some? && SingleIdentType(fields[i].ty)
  }

  /** `translate_struct`: the schema of a struct declaration. */
  function TranslateStruct(item: ItemStruct): (r: Result<Wrapper>)
    ensures r.Ok? <==> ValidStructFields(item.fields)
    ensures r.Ok? ==>
      && r.value.originalDefinition == StructItem(item)
      && r.value.parsed.Struct?
      && var sw := r.value.parsed.structWrapper;
      && sw.name == item.ident
      && sw.originalItemStruct == item
      && |sw.fields| == |item.fields|
      && (forall i :: 0 <= i < |item.fields| ==> FieldWrapperOf(item.ident, item.fields[i]) == Ok(sw.fields[i]))
      && (sw.defaultConstructor.Some? <==> DerivesDefault(item.attrs))
      && WellNamedStruct(sw)
  {
    match FieldsWrappers(item.ident, item.fields)
    case Panic(e) => Panic(e)
    case Ok(fields) =>
      Ok(Wrapper(StructItem(item), Struct(StructWrapper(
        item.ident,
        fields,
        DefaultConstructorOf(item),
        DropSymbol(item.ident),
        CloneSymbol(item.ident),
        item))))
  }

  /** Distinct source field names give a schema whose extern symbols are pairwise distinct and
      never reserved runtime names. */
  lemma TranslatedStructSymbolsDistinct(item: ItemStruct)
    requires TranslateStruct(item).Ok?
    requires forall i, j :: 0 <= i < j < |item.fields| ==> item.fields[i].ident != item.fields[j].ident
    ensures NoDuplicates(SchemaExternNames(TranslateStruct(item).value.parsed.structWrapper))
    ensures forall x :: x in SchemaExternNames(TranslateStruct(item).value.parsed.structWrapper) ==> x !in ReservedNames
  {
    var sw := TranslateStruct(item).value.parsed.structWrapper;
    forall i, j | 0 <= i < j < |sw.fields| ensures sw.fields[i].fieldName != sw.fields[j].fieldName {
      assert FieldWrapperOf(item.ident, item.fields[i]) == Ok(sw.fields[i]);
      assert FieldWrapperOf(item.ident, item.fields[j]) == Ok(sw.fields[j]);
    }
    SchemaExternNamesDistinct(sw);
  }
}
