/** The claim contract in plain terms: exactly which values it accepts, and exactly which rows the table's
    constraints refuse. */
module ClaimMeaning {
  import opened Prelude
  import opened ClaimNames
  import opened JsonSchema
  import opened ClaimContract
  import opened ClaimStorage
  import opened ClaimAgreement

  // ---------- single values ----------

  predicate IsInteger(v: Json) {
    v.Number? && v.value == v.value.Floor as real
  }

  predicate IsOptionalText(v: Json) {
    v.Str? || v == Null
  }

  predicate IsOneOf(v: Json, texts: seq<string>) {
    v.Str? && v.text in texts
  }

  lemma OneKind(a: JsonType, v: Json)
    ensures Valid(Typed([a]), v) <==> HasKind(v, a)
  {
    TypedMeans([a], v);
    assert [a][0] == a;
  }

  lemma TwoKinds(a: JsonType, b: JsonType, v: Json)
    ensures Valid(Typed([a, b]), v) <==> HasKind(v, a) || HasKind(v, b)
  {
    TypedMeans([a, b], v);
    assert [a, b][0] == a && [a, b][1] == b;
  }

  lemma TextMeans(v: Json)
    ensures Valid(Text(), v) <==> v.Str?
    ensures Valid(OptionalText(), v) <==> IsOptionalText(v)
  {
    OneKind(StringType, v);
    TwoKinds(StringType, NullType, v);
  }

  lemma IntegerMeans(v: Json)
    ensures Valid(Integer(), v) <==> IsInteger(v)
    ensures Valid(OptionalInteger(), v) <==> IsInteger(v) || v == Null
    ensures Valid(Typed([IntegerType, StringType]), v) <==> IsInteger(v) || v.Str?
  {
    OneKind(IntegerType, v);
    TwoKinds(IntegerType, NullType, v);
    TwoKinds(IntegerType, StringType, v);
  }

  lemma NumberMeans(v: Json)
    ensures Valid(Typed([NumberType]), v) <==> v.Number?
    ensures Valid(Typed([NumberType, NullType]), v) <==> v.Number? || v == Null
    ensures Valid(Typed([NullType]), v) <==> v == Null
  {
    OneKind(NumberType, v);
    OneKind(NullType, v);
    TwoKinds(NumberType, NullType, v);
  }

  lemma TextOfExactly(texts: seq<string>, v: Json)
    ensures Valid(TextOf(texts), v) <==> IsOneOf(v, texts)
  {
    Double(Type([StringType]), Enum(Strings(texts)), v);
    assert [StringType][0] == StringType;
    InStrings(texts, v);
  }

  lemma OptionalTextOfExactly(texts: seq<string>, v: Json)
    ensures Valid(OptionalTextOf(texts), v) <==> v == Null || IsOneOf(v, texts)
  {
    Double(Type([StringType, NullType]), Enum(Strings(texts) + [Null]), v);
    assert [StringType, NullType][0] == StringType && [StringType, NullType][1] == NullType;
    InStrings(texts, v);
    assert v in Strings(texts) + [Null] <==> v in Strings(texts) || v == Null;
  }

  lemma InStrings(texts: seq<string>, v: Json)
    ensures v in Strings(texts) <==> IsOneOf(v, texts)
  {
    if IsOneOf(v, texts) {
      var i :| 0 <= i < |texts| && texts[i] == v.text;
      assert Strings(texts)[i] == v;
    }
  }

  // ---------- boxes and flags ----------

  predicate IsCorners(v: Json) {
    v.Arr? && |v.items| == 4 && forall i :: 0 <= i < 4 ==> v.items[i].Number?
  }

  predicate IsBox(v: Json) {
    v.Arr? && forall i :: 0 <= i < |v.items| ==> IsCorners(v.items[i])
  }

  lemma CornersMeans(v: Json)
    ensures Valid(Keywords([Type([ArrayType]), MinItems(4), MaxItems(4), Items(Typed([NumberType]))]), v) <==> IsCorners(v)
  {
    Quadruple(Type([ArrayType]), MinItems(4), MaxItems(4), Items(Typed([NumberType])), v);
    assert [ArrayType][0] == ArrayType;
    forall w ensures Valid(Typed([NumberType]), w) <==> w.Number? {
      NumberMeans(w);
    }
  }

  lemma ArrayMeans(s: Schema, v: Json)
    ensures Valid(Keywords([Type([ArrayType]), Items(s)]), v) <==> v.Arr? && forall i :: 0 <= i < |v.items| ==> Valid(s, v.items[i])
  {
    Double(Type([ArrayType]), Items(s), v);
    assert [ArrayType][0] == ArrayType;
  }

  lemma BoxMeans(v: Json)
    ensures Valid(Box(), v) <==> IsBox(v)
  {
    var s := Keywords([Type([ArrayType]), MinItems(4), MaxItems(4), Items(Typed([NumberType]))]);
    ArrayMeans(s, v);
    if v.Arr? {
      forall i | 0 <= i < |v.items| ensures Valid(s, v.items[i]) <==> IsCorners(v.items[i]) {
        CornersMeans(v.items[i]);
      }
    }
  }

  const FLAG_NAMES := ["ragged_table_rows", "chart_data_not_extracted", "scale_assumed", "quote_unresolved",
                       "ambiguous_location", "ambiguous_region_bounds", "ambiguous_unit", "table_touches_page_edge",
                       "zero_text_page", "empty_section", "formula_mismatch", "external_reference_unresolved",
                       "magnitude_unparseable", "cites_boilerplate", "binding_unsupported"]

  predicate IsFlags(v: Json) {
    v.Arr? && forall i :: 0 <= i < |v.items| ==> IsOneOf(v.items[i], FLAG_NAMES)
  }

  lemma FlagsMeans(v: Json)
    ensures Valid(FlagsSchema(), v) <==> IsFlags(v)
  {
    ArrayMeans(TextOf(FLAG_NAMES), v);
    if v.Arr? {
      forall i | 0 <= i < |v.items| ensures Valid(TextOf(FLAG_NAMES), v.items[i]) <==> IsOneOf(v.items[i], FLAG_NAMES) {
        TextOfExactly(FLAG_NAMES, v.items[i]);
      }
    }
  }

  // ---------- the value object ----------

  const SCALE_SOURCES := ["explicit_in_value", "column_header", "page_header", "assumed_1x", "not_applicable"]
  const VALUE_TYPES := ["currency", "percent", "count", "ratio", "date", "text"]

  predicate FieldFits(p: Property, v: Json) {
    v.Obj? && (p.name in v.fields ==> Valid(p.schema, v.fields[p.name]))
  }

  lemma ThreeFields(a: Property, b: Property, c: Property, v: Json)
    requires v.Obj?
    ensures FieldsFit([a, b, c], v) <==> FieldFits(a, v) && FieldFits(b, v) && FieldFits(c, v)
  {
    var ps := [a, b, c];
    assert ps[0] == a && ps[1] == b && ps[2] == c;
  }

  lemma ThreeNames(a: Property, b: Property, c: Property, name: Name)
    ensures Names([a, b, c], name) <==> name == a.name || name == b.name || name == c.name
  {
    var ps := [a, b, c];
    assert ps[0] == a && ps[1] == b && ps[2] == c;
  }

  lemma OneField(a: Property, v: Json)
    ensures FieldsFit([a], v) <==> FieldFits(a, v)
  {
    assert [a][0] == a;
  }

  lemma OneName(a: Property, name: Name)
    ensures Names([a], name) <==> name == a.name
  {
    assert [a][0] == a;
  }

  lemma TwoFields(a: Property, b: Property, v: Json)
    requires v.Obj?
    ensures FieldsFit([a, b], v) <==> FieldFits(a, v) && FieldFits(b, v)
  {
    assert [a, b][0] == a && [a, b][1] == b;
  }

  lemma TwoNames(a: Property, b: Property, name: Name)
    ensures Names([a, b], name) <==> name == a.name || name == b.name
  {
    assert [a, b][0] == a && [a, b][1] == b;
  }

  lemma SixFields(a: Property, b: Property, c: Property, x: Property, y: Property, z: Property, v: Json)
    requires v.Obj?
    ensures FieldsFit([a, b, c, x, y, z], v) <==>
            FieldFits(a, v) && FieldFits(b, v) && FieldFits(c, v) && FieldFits(x, v) && FieldFits(y, v) && FieldFits(z, v)
  {
    assert [a, b, c, x, y, z] == [a, b, c] + [x, y, z];
    FieldsOfBoth([a, b, c], [x, y, z], v);
    ThreeFields(a, b, c, v);
    ThreeFields(x, y, z, v);
  }

  lemma SixNames(a: Property, b: Property, c: Property, x: Property, y: Property, z: Property, name: Name)
    ensures Names([a, b, c, x, y, z], name) <==>
            name == a.name || name == b.name || name == c.name || name == x.name || name == y.name || name == z.name
  {
    assert [a, b, c, x, y, z] == [a, b, c] + [x, y, z];
    NamesOfBoth([a, b, c], [x, y, z], name);
    ThreeNames(a, b, c, name);
    ThreeNames(x, y, z, name);
  }

  ghost predicate HasAll(required: seq<Name>, v: Json) {
    v.Obj? && forall name :: name in required ==> name in v.fields
  }

  ghost predicate HasOnly(ps: seq<Property>, v: Json) {
    v.Obj? && forall name :: name in v.fields ==> Names(ps, name)
  }

  lemma ClosedExactly(required: seq<Name>, ps: seq<Property>, v: Json)
    ensures Valid(Closed(required, ps), v) <==> HasOnly(ps, v) && HasAll(required, v) && FieldsFit(ps, v)
  {
    ClosedMeans(required, ps, v);
  }

  lemma HasTwo(a: Name, b: Name, v: Json)
    ensures HasAll([a, b], v) <==> Has(v, a) && Has(v, b)
  {
    assert [a, b][0] == a && [a, b][1] == b;
  }

  lemma HasThree(a: Name, b: Name, c: Name, v: Json)
    ensures HasAll([a, b, c], v) <==> Has(v, a) && Has(v, b) && Has(v, c)
  {
    assert [a, b, c][0] == a && [a, b, c][1] == b && [a, b, c][2] == c;
  }

  lemma HasSome(required: seq<Name>, more: seq<Name>, v: Json)
    ensures HasAll(required + more, v) <==> HasAll(required, v) && HasAll(more, v)
  {
  }

  predicate IsValueName(name: Name) {
    name.Raw? || name.Normalized? || name.Unit? || name.ScaleMultiplier? || name.ScaleSource? || name.ValueType?
  }

  /** The types of what a value object holds. */
  predicate ValueTyped(v: Json) {
    && v.Obj?
    && (Raw in v.fields ==> v.fields[Raw].Str?)
    && (Normalized in v.fields ==> v.fields[Normalized].Number? || v.fields[Normalized] == Null)
    && (Unit in v.fields ==> IsOptionalText(v.fields[Unit]))
    && (ScaleMultiplier in v.fields ==> v.fields[ScaleMultiplier].Number? || v.fields[ScaleMultiplier] == Null)
    && (ScaleSource in v.fields ==> IsOneOf(v.fields[ScaleSource], SCALE_SOURCES))
    && (ValueType in v.fields ==> IsOneOf(v.fields[ValueType], VALUE_TYPES))
  }

  lemma ValueFields(v: Json)
    requires v.Obj?
    ensures FieldsFit(ValueProperties(), v) <==> ValueTyped(v)
  {
    SixFields(Property(Raw, Text()), Property(Normalized, Typed([NumberType, NullType])), Property(Unit, OptionalText()),
              Property(ScaleMultiplier, Typed([NumberType, NullType])), Property(ScaleSource, TextOf(SCALE_SOURCES)),
              Property(ValueType, TextOf(VALUE_TYPES)), v);
    TextMeans(Get(v, Raw));
    TextMeans(Get(v, Unit));
    NumberMeans(Get(v, Normalized));
    NumberMeans(Get(v, ScaleMultiplier));
    TextOfExactly(SCALE_SOURCES, Get(v, ScaleSource));
    TextOfExactly(VALUE_TYPES, Get(v, ValueType));
  }

  lemma ValueNames(v: Json)
    ensures HasOnly(ValueProperties(), v) <==> v.Obj? && forall name :: name in v.fields ==> IsValueName(name)
  {
    forall name ensures Names(ValueProperties(), name) <==> IsValueName(name) {
      SixNames(Property(Raw, Text()), Property(Normalized, Typed([NumberType, NullType])), Property(Unit, OptionalText()),
               Property(ScaleMultiplier, Typed([NumberType, NullType])), Property(ScaleSource, TextOf(SCALE_SOURCES)),
               Property(ValueType, TextOf(VALUE_TYPES)), name);
    }
  }

  /** The value object, exactly: no other members, four of them required, and their types. */
  predicate IsValue(v: Json) {
    && ValueTyped(v) && (forall name :: name in v.fields ==> IsValueName(name))
    && Raw in v.fields && Normalized in v.fields && Unit in v.fields && ValueType in v.fields
  }

  lemma ValueMeans(v: Json)
    ensures Valid(ValueSchema(), v) <==> IsValue(v)
  {
    ClosedExactly([Raw, Normalized, Unit, ValueType], ValueProperties(), v);
    assert [Raw, Normalized, Unit, ValueType] == [Raw, Normalized] + [Unit, ValueType];
    HasSome([Raw, Normalized], [Unit, ValueType], v);
    HasTwo(Raw, Normalized, v);
    HasTwo(Unit, ValueType, v);
    ValueNames(v);
    if v.Obj? {
      ValueFields(v);
    }
  }

  // ---------- the location ----------

  predicate IsDocumentName(name: Name) {
    name.File? || name.DocumentId? || name.DocumentName? || name.DocumentVersion? || name.IngestedAt? || name.DocumentDate?
  }

  predicate DocumentTyped(l: Json) {
    && l.Obj?
    && (File in l.fields ==> l.fields[File].Str?)
    && (DocumentId in l.fields ==> l.fields[DocumentId].Str?)
    && (DocumentName in l.fields ==> l.fields[DocumentName].Str?)
    && (DocumentVersion in l.fields ==> IsInteger(l.fields[DocumentVersion]) || l.fields[DocumentVersion].Str?)
    && (IngestedAt in l.fields ==> l.fields[IngestedAt].Str?)
    && (DocumentDate in l.fields ==> IsOptionalText(l.fields[DocumentDate]))
  }

  lemma DocumentFields(l: Json)
    requires l.Obj?
    ensures FieldsFit(DocumentProperties(), l) <==> DocumentTyped(l)
  {
    SixFields(Property(File, Text()), Property(DocumentId, Text()), Property(DocumentName, Text()),
              Property(DocumentVersion, Typed([IntegerType, StringType])), Property(IngestedAt, Text()),
              Property(DocumentDate, OptionalText()), l);
    TextFits(File, l);
    TextFits(DocumentId, l);
    TextFits(DocumentName, l);
    IntegerFits(DocumentVersion, l);
    TextFits(IngestedAt, l);
    TextFits(DocumentDate, l);
  }

  lemma DocumentNames(name: Name)
    ensures Names(DocumentProperties(), name) <==> IsDocumentName(name)
  {
    SixNames(Property(File, Text()), Property(DocumentId, Text()), Property(DocumentName, Text()),
             Property(DocumentVersion, Typed([IntegerType, StringType])), Property(IngestedAt, Text()),
             Property(DocumentDate, OptionalText()), name);
  }

  /** A page and, if present, a span of integers and boxes of four numbers. */
  predicate IsPdfLocation(l: Json) {
    && DocumentTyped(l)
    && (forall name :: name in l.fields ==>
          name.Kind? || name.Page? || name.CharStart? || name.CharEnd? || name.Bbox? || IsDocumentName(name))
    && Kind in l.fields && l.fields[Kind] == Str("pdf")
    && Page in l.fields && IsInteger(l.fields[Page])
    && (CharStart in l.fields ==> IsInteger(l.fields[CharStart]))
    && (CharEnd in l.fields ==> IsInteger(l.fields[CharEnd]))
    && (Bbox in l.fields ==> IsBox(l.fields[Bbox]))
  }

  /** A sheet and a cell. */
  predicate IsXlsxLocation(l: Json) {
    && DocumentTyped(l)
    && (forall name :: name in l.fields ==>
          name.Kind? || name.Sheet? || name.CellRef? || name.NamedRange? || IsDocumentName(name))
    && Kind in l.fields && l.fields[Kind] == Str("xlsx")
    && Sheet in l.fields && l.fields[Sheet].Str?
    && CellRef in l.fields && l.fields[CellRef].Str?
    && (NamedRange in l.fields ==> IsOptionalText(l.fields[NamedRange]))
  }

  /** A paragraph and, if present, a span of integers and a table cell. */
  predicate IsDocxLocation(l: Json) {
    && DocumentTyped(l)
    && (forall name :: name in l.fields ==>
          || name.Kind? || name.Paragraph? || name.CharStart? || name.CharEnd?
          || name.TableId? || name.TableRow? || name.TableCol? || IsDocumentName(name))
    && Kind in l.fields && l.fields[Kind] == Str("docx")
    && Paragraph in l.fields && IsInteger(l.fields[Paragraph])
    && (CharStart in l.fields ==> IsInteger(l.fields[CharStart]))
    && (CharEnd in l.fields ==> IsInteger(l.fields[CharEnd]))
    && (TableId in l.fields ==> IsOptionalText(l.fields[TableId]))
    && (TableRow in l.fields ==> IsInteger(l.fields[TableRow]) || l.fields[TableRow] == Null)
    && (TableCol in l.fields ==> IsInteger(l.fields[TableCol]) || l.fields[TableCol] == Null)
  }

  lemma PdfFieldsExactly(l: Json)
    requires l.Obj?
    ensures FieldsFit(PdfProperties(), l) <==>
            && DocumentTyped(l)
            && (Kind in l.fields ==> l.fields[Kind] == Str("pdf"))
            && (Page in l.fields ==> IsInteger(l.fields[Page]))
            && (CharStart in l.fields ==> IsInteger(l.fields[CharStart]))
            && (CharEnd in l.fields ==> IsInteger(l.fields[CharEnd]))
            && (Bbox in l.fields ==> IsBox(l.fields[Bbox]))
  {
    var a, b, c := Property(Kind, OneText("pdf")), Property(Page, Integer()), Property(CharStart, Integer());
    var x, y := Property(CharEnd, Integer()), Property(Bbox, Box());
    assert PdfProperties() == [a, b, c] + [x, y] + DocumentProperties();
    FieldsOfBoth([a, b, c] + [x, y], DocumentProperties(), l);
    FieldsOfBoth([a, b, c], [x, y], l);
    ThreeFields(a, b, c, l);
    TwoFields(x, y, l);
    DocumentFields(l);
    ConstantFits(Kind, "pdf", l);
    IntegerFits(Page, l);
    IntegerFits(CharStart, l);
    IntegerFits(CharEnd, l);
    BoxMeans(Get(l, Bbox));
  }

  lemma PdfNamesExactly(l: Json)
    ensures HasOnly(PdfProperties(), l) <==>
            l.Obj? && forall name :: name in l.fields ==>
              name.Kind? || name.Page? || name.CharStart? || name.CharEnd? || name.Bbox? || IsDocumentName(name)
  {
    var a, b, c := Property(Kind, OneText("pdf")), Property(Page, Integer()), Property(CharStart, Integer());
    var x, y := Property(CharEnd, Integer()), Property(Bbox, Box());
    forall name ensures Names(PdfProperties(), name) <==>
                        name.Kind? || name.Page? || name.CharStart? || name.CharEnd? || name.Bbox? || IsDocumentName(name) {
      assert PdfProperties() == [a, b, c] + [x, y] + DocumentProperties();
      NamesOfBoth([a, b, c] + [x, y], DocumentProperties(), name);
      NamesOfBoth([a, b, c], [x, y], name);
      ThreeNames(a, b, c, name);
      TwoNames(x, y, name);
      DocumentNames(name);
    }
  }

  lemma PdfExactly(l: Json)
    ensures Valid(PdfLocation(), l) <==> IsPdfLocation(l)
  {
    ClosedExactly([Kind, Page], PdfProperties(), l);
    HasTwo(Kind, Page, l);
    PdfNamesExactly(l);
    if l.Obj? {
      PdfFieldsExactly(l);
    }
  }

  lemma XlsxFieldsExactly(l: Json)
    requires l.Obj?
    ensures FieldsFit(XlsxProperties(), l) <==>
            && DocumentTyped(l)
            && (Kind in l.fields ==> l.fields[Kind] == Str("xlsx"))
            && (Sheet in l.fields ==> l.fields[Sheet].Str?)
            && (CellRef in l.fields ==> l.fields[CellRef].Str?)
            && (NamedRange in l.fields ==> IsOptionalText(l.fields[NamedRange]))
  {
    var a, b, c, x := Property(Kind, OneText("xlsx")), Property(Sheet, Text()), Property(CellRef, Text()), Property(NamedRange, OptionalText());
    assert XlsxProperties() == [a, b, c] + [x] + DocumentProperties();
    FieldsOfBoth([a, b, c] + [x], DocumentProperties(), l);
    FieldsOfBoth([a, b, c], [x], l);
    ThreeFields(a, b, c, l);
    OneField(x, l);
    DocumentFields(l);
    OneTextMeans("xlsx", Get(l, Kind));
    TextMeans(Get(l, Sheet));
    TextMeans(Get(l, CellRef));
    TextMeans(Get(l, NamedRange));
  }

  lemma XlsxNamesExactly(l: Json)
    ensures HasOnly(XlsxProperties(), l) <==>
            l.Obj? && forall name :: name in l.fields ==>
              name.Kind? || name.Sheet? || name.CellRef? || name.NamedRange? || IsDocumentName(name)
  {
    var a, b, c, x := Property(Kind, OneText("xlsx")), Property(Sheet, Text()), Property(CellRef, Text()), Property(NamedRange, OptionalText());
    forall name ensures Names(XlsxProperties(), name) <==>
                        name.Kind? || name.Sheet? || name.CellRef? || name.NamedRange? || IsDocumentName(name) {
      assert XlsxProperties() == [a, b, c] + [x] + DocumentProperties();
      NamesOfBoth([a, b, c] + [x], DocumentProperties(), name);
      NamesOfBoth([a, b, c], [x], name);
      ThreeNames(a, b, c, name);
      OneName(x, name);
      DocumentNames(name);
    }
  }

  lemma XlsxExactly(l: Json)
    ensures Valid(XlsxLocation(), l) <==> IsXlsxLocation(l)
  {
    ClosedExactly([Kind, Sheet, CellRef], XlsxProperties(), l);
    HasThree(Kind, Sheet, CellRef, l);
    XlsxNamesExactly(l);
    if l.Obj? {
      XlsxFieldsExactly(l);
    }
  }

  lemma DocxFieldsExactly(l: Json)
    requires l.Obj?
    ensures FieldsFit(DocxProperties(), l) <==>
            && DocumentTyped(l)
            && (Kind in l.fields ==> l.fields[Kind] == Str("docx"))
            && (Paragraph in l.fields ==> IsInteger(l.fields[Paragraph]))
            && (CharStart in l.fields ==> IsInteger(l.fields[CharStart]))
            && (CharEnd in l.fields ==> IsInteger(l.fields[CharEnd]))
            && (TableId in l.fields ==> IsOptionalText(l.fields[TableId]))
            && (TableRow in l.fields ==> IsInteger(l.fields[TableRow]) || l.fields[TableRow] == Null)
            && (TableCol in l.fields ==> IsInteger(l.fields[TableCol]) || l.fields[TableCol] == Null)
  {
    var a, b, c := Property(Kind, OneText("docx")), Property(Paragraph, Integer()), Property(CharStart, Integer());
    var x, y, z := Property(CharEnd, Integer()), Property(TableId, OptionalText()), Property(TableRow, OptionalInteger());
    var last := Property(TableCol, OptionalInteger());
    assert DocxProperties() == [a, b, c, x, y, z] + [last] + DocumentProperties();
    FieldsOfBoth([a, b, c, x, y, z] + [last], DocumentProperties(), l);
    FieldsOfBoth([a, b, c, x, y, z], [last], l);
    SixFields(a, b, c, x, y, z, l);
    OneField(last, l);
    DocumentFields(l);
    ConstantFits(Kind, "docx", l);
    IntegerFits(Paragraph, l);
    IntegerFits(CharStart, l);
    IntegerFits(CharEnd, l);
    TextFits(TableId, l);
    IntegerFits(TableRow, l);
    IntegerFits(TableCol, l);
  }

  lemma DocxNamesExactly(l: Json)
    ensures HasOnly(DocxProperties(), l) <==>
            l.Obj? && forall name :: name in l.fields ==>
              || name.Kind? || name.Paragraph? || name.CharStart? || name.CharEnd?
              || name.TableId? || name.TableRow? || name.TableCol? || IsDocumentName(name)
  {
    var a, b, c := Property(Kind, OneText("docx")), Property(Paragraph, Integer()), Property(CharStart, Integer());
    var x, y, z := Property(CharEnd, Integer()), Property(TableId, OptionalText()), Property(TableRow, OptionalInteger());
    var last := Property(TableCol, OptionalInteger());
    forall name ensures Names(DocxProperties(), name) <==>
                        || name.Kind? || name.Paragraph? || name.CharStart? || name.CharEnd?
                        || name.TableId? || name.TableRow? || name.TableCol? || IsDocumentName(name) {
      assert DocxProperties() == [a, b, c, x, y, z] + [last] + DocumentProperties();
      NamesOfBoth([a, b, c, x, y, z] + [last], DocumentProperties(), name);
      NamesOfBoth([a, b, c, x, y, z], [last], name);
      SixNames(a, b, c, x, y, z, name);
      OneName(last, name);
      DocumentNames(name);
    }
  }

  lemma DocxExactly(l: Json)
    ensures Valid(DocxLocation(), l) <==> IsDocxLocation(l)
  {
    ClosedExactly([Kind, Paragraph], DocxProperties(), l);
    HasTwo(Kind, Paragraph, l);
    DocxNamesExactly(l);
    if l.Obj? {
      DocxFieldsExactly(l);
    }
  }

  predicate IsLocation(l: Json) {
    IsPdfLocation(l) || IsXlsxLocation(l) || IsDocxLocation(l)
  }

  /** The three kinds exclude each other, so `oneOf` accepts whatever one of them does. */
  lemma LocationExactly(l: Json)
    ensures Valid(LocationSchema(), l) <==> IsLocation(l)
  {
    var options := [PdfLocation(), XlsxLocation(), DocxLocation()];
    Single(OneOf(options), l);
    assert options[0] == PdfLocation() && options[1] == XlsxLocation() && options[2] == DocxLocation();
    PdfExactly(l);
    XlsxExactly(l);
    DocxExactly(l);
    assert "pdf"[0] != "xlsx"[0] && "pdf"[0] != "docx"[0] && "xlsx"[0] != "docx"[0];
    OneOfMeans(options, l);
    OneOfThree(options, l);
  }

  /** Valid for one option and for no other. */
  ghost predicate OnlyOption(options: seq<Schema>, i: nat, l: Json) {
    i < |options| && Valid(options[i], l) && forall j :: 0 <= j < |options| && j != i ==> !Valid(options[j], l)
  }

  lemma OneOfGives(options: seq<Schema>, l: Json) returns (i: nat)
    requires Holds(OneOf(options), [OneOf(options)], l)
    ensures OnlyOption(options, i, l)
  {
    i :| 0 <= i < |options| && Valid(options[i], l) && forall j :: 0 <= j < |options| && j != i ==> !Valid(options[j], l);
  }

  lemma OneOfTakes(options: seq<Schema>, i: nat, l: Json)
    requires OnlyOption(options, i, l)
    ensures Holds(OneOf(options), [OneOf(options)], l)
  {
    assert Valid(options[i], l);
  }

  lemma OneOfMeans(options: seq<Schema>, l: Json)
    ensures Holds(OneOf(options), [OneOf(options)], l) <==> exists i: nat :: OnlyOption(options, i, l)
  {
    if Holds(OneOf(options), [OneOf(options)], l) {
      var i := OneOfGives(options, l);
    }
    if i: nat :| OnlyOption(options, i, l) {
      OneOfTakes(options, i, l);
    }
  }

  lemma OneOfThree(options: seq<Schema>, l: Json)
    requires |options| == 3
    requires !(Valid(options[0], l) && Valid(options[1], l)) && !(Valid(options[0], l) && Valid(options[2], l))
             && !(Valid(options[1], l) && Valid(options[2], l))
    ensures (exists i: nat :: OnlyOption(options, i, l)) <==> Valid(options[0], l) || Valid(options[1], l) || Valid(options[2], l)
  {
    var first, second, third := Valid(options[0], l), Valid(options[1], l), Valid(options[2], l);
    if first {
      assert OnlyOption(options, 0, l);
    } else if second {
      assert OnlyOption(options, 1, l);
    } else if third {
      assert OnlyOption(options, 2, l);
    }
  }

  // ---------- the claim ----------

  predicate IsClaimName(name: Name) {
    || IsVerdictName(name) || IsContentName(name) || IsReferenceName(name)
  }

  predicate IsVerdictName(name: Name) {
    name.Status? || name.Location? || name.VerificationMethod? || name.ClaimKind? || name.AssertionClass? || name.PeriodKind?
  }

  predicate IsContentName(name: Name) {
    name.PeriodYear? || name.Value? || name.Entity? || name.Attribute? || name.Flags? || name.Section?
  }

  predicate IsReferenceName(name: Name) {
    || name.Id? || name.DealId? || name.SessionId? || name.OrgId?
    || name.DataSourceId? || name.ChunkId? || name.TableGroupId? || name.FragmentOrder?
  }

  predicate VerdictTyped(c: Json) {
    && c.Obj?
    && (Status in c.fields ==> IsOneOf(c.fields[Status], STATUSES))
    && (Location in c.fields ==> IsLocation(c.fields[Location]))
    && (VerificationMethod in c.fields ==> c.fields[VerificationMethod] == Null || IsOneOf(c.fields[VerificationMethod], VERIFICATION_METHODS))
    && (ClaimKind in c.fields ==> c.fields[ClaimKind] == Null || IsOneOf(c.fields[ClaimKind], CLAIM_KINDS))
    && (AssertionClass in c.fields ==> c.fields[AssertionClass] == Null || IsOneOf(c.fields[AssertionClass], ASSERTION_CLASSES))
    && (PeriodKind in c.fields ==> c.fields[PeriodKind] == Null || IsOneOf(c.fields[PeriodKind], ["A", "E", "P"]))
  }

  predicate ContentTyped(c: Json) {
    && c.Obj?
    && (PeriodYear in c.fields ==> IsInteger(c.fields[PeriodYear]) || c.fields[PeriodYear] == Null)
    && (Value in c.fields ==> IsValue(c.fields[Value]))
    && (Entity in c.fields ==> c.fields[Entity].Str?)
    && (Attribute in c.fields ==> c.fields[Attribute].Str?)
    && (Flags in c.fields ==> IsFlags(c.fields[Flags]))
    && (Section in c.fields ==> IsOptionalText(c.fields[Section]))
  }

  predicate ReferenceTyped(c: Json) {
    && c.Obj?
    && (Id in c.fields ==> c.fields[Id].Str?)
    && (DealId in c.fields ==> c.fields[DealId].Str?)
    && (SessionId in c.fields ==> c.fields[SessionId].Str?)
    && (OrgId in c.fields ==> c.fields[OrgId].Str?)
    && (DataSourceId in c.fields ==> IsOptionalText(c.fields[DataSourceId]))
    && (ChunkId in c.fields ==> IsOptionalText(c.fields[ChunkId]))
    && (TableGroupId in c.fields ==> IsOptionalText(c.fields[TableGroupId]))
    && (FragmentOrder in c.fields ==> IsInteger(c.fields[FragmentOrder]) || c.fields[FragmentOrder] == Null)
  }

  lemma VerdictFields(c: Json)
    requires c.Obj?
    ensures FieldsFit(VerdictProperties(), c) <==> VerdictTyped(c)
  {
    var x, y, z := Property(Status, StatusSchema()), Property(Location, LocationSchema()), Property(VerificationMethod, MethodSchema());
    var p, q, r := Property(ClaimKind, ClaimKindSchema()), Property(AssertionClass, AssertionClassSchema()), Property(PeriodKind, PeriodKindSchema());
    SixFields(x, y, z, p, q, r, c);
    StatusFits(c);
    LocationFits(c);
    MethodFits(c);
    ClassFits(c);
    PeriodFits(c);
  }

  lemma StatusFits(c: Json)
    requires c.Obj?
    ensures FieldFits(Property(Status, StatusSchema()), c) <==> (Status in c.fields ==> IsOneOf(c.fields[Status], STATUSES))
  {
    TextOfExactly(STATUSES, Get(c, Status));
  }

  lemma LocationFits(c: Json)
    requires c.Obj?
    ensures FieldFits(Property(Location, LocationSchema()), c) <==> (Location in c.fields ==> IsLocation(c.fields[Location]))
  {
    LocationExactly(Get(c, Location));
  }

  lemma MethodFits(c: Json)
    requires c.Obj?
    ensures FieldFits(Property(VerificationMethod, MethodSchema()), c) <==>
            (VerificationMethod in c.fields ==>
               c.fields[VerificationMethod] == Null || IsOneOf(c.fields[VerificationMethod], VERIFICATION_METHODS))
  {
    OptionalTextOfExactly(VERIFICATION_METHODS, Get(c, VerificationMethod));
  }

  lemma ClassFits(c: Json)
    requires c.Obj?
    ensures FieldFits(Property(ClaimKind, ClaimKindSchema()), c) <==>
            (ClaimKind in c.fields ==> c.fields[ClaimKind] == Null || IsOneOf(c.fields[ClaimKind], CLAIM_KINDS))
    ensures FieldFits(Property(AssertionClass, AssertionClassSchema()), c) <==>
            (AssertionClass in c.fields ==> c.fields[AssertionClass] == Null || IsOneOf(c.fields[AssertionClass], ASSERTION_CLASSES))
  {
    OptionalTextOfExactly(CLAIM_KINDS, Get(c, ClaimKind));
    OptionalTextOfExactly(ASSERTION_CLASSES, Get(c, AssertionClass));
  }

  lemma PeriodFits(c: Json)
    requires c.Obj?
    ensures FieldFits(Property(PeriodKind, PeriodKindSchema()), c) <==>
            (PeriodKind in c.fields ==> c.fields[PeriodKind] == Null || IsOneOf(c.fields[PeriodKind], ["A", "E", "P"]))
  {
    OptionalTextOfExactly(["A", "E", "P"], Get(c, PeriodKind));
  }

  lemma TextFits(name: Name, c: Json)
    requires c.Obj?
    ensures FieldFits(Property(name, Text()), c) <==> (name in c.fields ==> c.fields[name].Str?)
    ensures FieldFits(Property(name, OptionalText()), c) <==> (name in c.fields ==> IsOptionalText(c.fields[name]))
  {
    TextMeans(Get(c, name));
  }

  lemma ConstantFits(name: Name, text: string, c: Json)
    requires c.Obj?
    ensures FieldFits(Property(name, OneText(text)), c) <==> (name in c.fields ==> c.fields[name] == Str(text))
  {
    OneTextMeans(text, Get(c, name));
  }

  lemma IntegerFits(name: Name, c: Json)
    requires c.Obj?
    ensures FieldFits(Property(name, Integer()), c) <==> (name in c.fields ==> IsInteger(c.fields[name]))
    ensures FieldFits(Property(name, OptionalInteger()), c) <==> (name in c.fields ==> IsInteger(c.fields[name]) || c.fields[name] == Null)
    ensures FieldFits(Property(name, Typed([IntegerType, StringType])), c) <==>
            (name in c.fields ==> IsInteger(c.fields[name]) || c.fields[name].Str?)
  {
    IntegerMeans(Get(c, name));
  }

  lemma ContentFields(c: Json)
    requires c.Obj?
    ensures FieldsFit(ContentProperties(), c) <==> ContentTyped(c)
  {
    var x, y, z := Property(PeriodYear, OptionalInteger()), Property(Value, ValueSchema()), Property(Entity, Text());
    var p, q, r := Property(Attribute, Text()), Property(Flags, FlagsSchema()), Property(Section, OptionalText());
    SixFields(x, y, z, p, q, r, c);
    IntegerFits(PeriodYear, c);
    ValueMeans(Get(c, Value));
    TextFits(Entity, c);
    TextFits(Attribute, c);
    FlagsMeans(Get(c, Flags));
    TextFits(Section, c);
  }

  lemma ReferenceFields(c: Json)
    requires c.Obj?
    ensures FieldsFit(ReferenceProperties(), c) <==> ReferenceTyped(c)
  {
    var x, y, z := Property(Id, Text()), Property(DealId, Text()), Property(SessionId, Text());
    var p, q, r := Property(OrgId, Text()), Property(DataSourceId, OptionalText()), Property(ChunkId, OptionalText());
    var m, n := Property(TableGroupId, OptionalText()), Property(FragmentOrder, OptionalInteger());
    assert ReferenceProperties() == [x, y, z, p, q, r] + [m, n];
    FieldsOfBoth([x, y, z, p, q, r], [m, n], c);
    SixFields(x, y, z, p, q, r, c);
    TwoFields(m, n, c);
    TextFits(Id, c);
    TextFits(DealId, c);
    TextFits(SessionId, c);
    TextFits(OrgId, c);
    TextFits(DataSourceId, c);
    TextFits(ChunkId, c);
    TextFits(TableGroupId, c);
    IntegerFits(FragmentOrder, c);
  }

  lemma VerdictNames(name: Name)
    ensures Names(VerdictProperties(), name) <==> IsVerdictName(name)
  {
    SixNames(Property(Status, StatusSchema()), Property(Location, LocationSchema()), Property(VerificationMethod, MethodSchema()),
             Property(ClaimKind, ClaimKindSchema()), Property(AssertionClass, AssertionClassSchema()), Property(PeriodKind, PeriodKindSchema()), name);
  }

  lemma ContentNames(name: Name)
    ensures Names(ContentProperties(), name) <==> IsContentName(name)
  {
    SixNames(Property(PeriodYear, OptionalInteger()), Property(Value, ValueSchema()), Property(Entity, Text()),
             Property(Attribute, Text()), Property(Flags, FlagsSchema()), Property(Section, OptionalText()), name);
  }

  lemma ReferenceNames(name: Name)
    ensures Names(ReferenceProperties(), name) <==> IsReferenceName(name)
  {
    var x, y, z := Property(Id, Text()), Property(DealId, Text()), Property(SessionId, Text());
    var p, q, r := Property(OrgId, Text()), Property(DataSourceId, OptionalText()), Property(ChunkId, OptionalText());
    var m, n := Property(TableGroupId, OptionalText()), Property(FragmentOrder, OptionalInteger());
    assert ReferenceProperties() == [x, y, z, p, q, r] + [m, n];
    NamesOfBoth([x, y, z, p, q, r], [m, n], name);
    SixNames(x, y, z, p, q, r, name);
    TwoNames(m, n, name);
  }

  lemma ClaimFields(c: Json)
    requires c.Obj?
    ensures FieldsFit(ClaimProperties(), c) <==> VerdictTyped(c) && ContentTyped(c) && ReferenceTyped(c)
  {
    FieldsOfBoth(VerdictProperties() + ContentProperties(), ReferenceProperties(), c);
    FieldsOfBoth(VerdictProperties(), ContentProperties(), c);
    VerdictFields(c);
    ContentFields(c);
    ReferenceFields(c);
  }

  lemma ClaimNamesExactly(c: Json)
    ensures HasOnly(ClaimProperties(), c) <==> c.Obj? && forall name :: name in c.fields ==> IsClaimName(name)
  {
    forall name ensures Names(ClaimProperties(), name) <==> IsClaimName(name) {
      NamesOfBoth(VerdictProperties() + ContentProperties(), ReferenceProperties(), name);
      NamesOfBoth(VerdictProperties(), ContentProperties(), name);
      VerdictNames(name);
      ContentNames(name);
      ReferenceNames(name);
    }
  }

  /** The unconditional part of the contract. */
  predicate IsBaseClaim(c: Json) {
    && VerdictTyped(c) && ContentTyped(c) && ReferenceTyped(c)
    && (forall name :: name in c.fields ==> IsClaimName(name))
    && Entity in c.fields && Attribute in c.fields && Value in c.fields && Status in c.fields && Location in c.fields
  }

  lemma BaseExactly(c: Json)
    ensures Valid(BaseSchema(), c) <==> IsBaseClaim(c)
  {
    var required := [Entity, Attribute] + [Value, Status, Location];
    assert [Entity, Attribute, Value, Status, Location] == required;
    ClosedExactly([Entity, Attribute, Value, Status, Location], ClaimProperties(), c);
    HasSome([Entity, Attribute], [Value, Status, Location], c);
    HasTwo(Entity, Attribute, c);
    HasThree(Value, Status, Location, c);
    ClaimNamesExactly(c);
    if c.Obj? {
      ClaimFields(c);
    }
  }

  // ---------- the conditional rules ----------

  /** A value without a magnitude: a text, or nothing normalized. */
  predicate HasNoMagnitude(v: Json) {
    Get(v, ValueType) == Str("text") || (v.Obj? && Normalized in v.fields && v.fields[Normalized] == Null)
  }

  predicate IsScaled(v: Json) {
    v.Obj? && ScaleMultiplier in v.fields && v.fields[ScaleMultiplier].Number? && ScaleSource in v.fields
  }

  lemma TextOption(v: Json)
    requires v.Obj?
    ensures Valid(Keywords([Properties([Property(ValueType, OneText("text"))]), Required([ValueType])]), v) <==>
            ValueType in v.fields && v.fields[ValueType] == Str("text")
  {
    WithinRequired(ValueType, OneText("text"), v);
    OneTextMeans("text", Get(v, ValueType));
  }

  lemma NullOption(v: Json)
    requires v.Obj?
    ensures Valid(Keywords([Properties([Property(Normalized, Typed([NullType]))]), Required([Normalized])]), v) <==>
            Normalized in v.fields && v.fields[Normalized] == Null
  {
    WithinRequired(Normalized, Typed([NullType]), v);
    NumberMeans(Get(v, Normalized));
  }

  lemma ScaleOption(v: Json)
    requires v.Obj?
    ensures Valid(Keywords([Required([ScaleMultiplier, ScaleSource]), Properties([Property(ScaleMultiplier, Typed([NumberType]))])]), v) <==>
            IsScaled(v)
  {
    var r, k := Required([ScaleMultiplier, ScaleSource]), Properties([Property(ScaleMultiplier, Typed([NumberType]))]);
    Double(r, k, v);
    RequiresTwo(ScaleMultiplier, ScaleSource, [r, k], v);
    OneProperty(ScaleMultiplier, Typed([NumberType]), [r, k], v);
    NumberMeans(Get(v, ScaleMultiplier));
  }

  lemma AnyOfTwo(a: Schema, b: Schema, v: Json)
    ensures Valid(Keywords([AnyOf([a, b])]), v) <==> Valid(a, v) || Valid(b, v)
  {
    Single(AnyOf([a, b]), v);
    assert [a, b][0] == a && [a, b][1] == b;
  }

  /** A magnitude <=> multiplier and source. */
  lemma ScaleRuleMeans(c: Json)
    requires c.Obj? && Value in c.fields && c.fields[Value].Obj?
    ensures Valid(ScaleRule(), c) <==> HasNoMagnitude(c.fields[Value]) || IsScaled(c.fields[Value])
  {
    var v := c.fields[Value];
    var text := Keywords([Properties([Property(ValueType, OneText("text"))]), Required([ValueType])]);
    var empty := Keywords([Properties([Property(Normalized, Typed([NullType]))]), Required([Normalized])]);
    var scaled := Keywords([Required([ScaleMultiplier, ScaleSource]), Properties([Property(ScaleMultiplier, Typed([NumberType]))])]);
    var a := Keywords([Properties([Property(Value, text)]), Required([Value])]);
    var b := Keywords([Properties([Property(Value, empty)]), Required([Value])]);
    var some := Keywords([AnyOf([a, b])]);
    var else_ := Keywords([Properties([Property(Value, scaled)])]);
    assert ScaleRule() == Keywords([If(some, Always, else_)]);
    IfMeans(some, Always, else_, c);
    AnyOfTwo(a, b, c);
    WithinRequired(Value, text, c);
    WithinRequired(Value, empty, c);
    Within(Value, scaled, c);
    TextOption(v);
    NullOption(v);
    ScaleOption(v);
  }

  lemma QualitativeValueMeans(v: Json)
    requires IsValue(v)
    ensures Valid(QualitativeValue(), v) <==> v.fields[ValueType] == Str("text") && v.fields[Normalized] == Null
  {
    var k := Properties([Property(ValueType, OneText("text")), Property(Normalized, Typed([NullType]))]);
    Single(k, v);
    TwoProperties(ValueType, OneText("text"), Normalized, Typed([NullType]), [k], v);
    OneTextMeans("text", v.fields[ValueType]);
    NumberMeans(v.fields[Normalized]);
  }

  /** The five rules in plain terms, for a claim that meets the unconditional part. */
  predicate MeetsRules(c: Json)
    requires IsBaseClaim(c)
  {
    var l, v, status := c.fields[Location].fields, c.fields[Value].fields, c.fields[Status].text;
    && (status != "missing" && l[Kind] != Str("xlsx") ==> CharStart in l && CharEnd in l)
    && (status == "missing" ==> CharStart !in l && CharEnd !in l)
    && (status in ["cited", "conflicted", "inconclusive", "partially_verified", "verified"] ==>
          VerificationMethod in c.fields && c.fields[VerificationMethod].Str?)
    && (v[ValueType] != Str("text") && v[Normalized] != Null ==>
          ScaleMultiplier in v && v[ScaleMultiplier].Number? && ScaleSource in v)
    && (ClaimKind in c.fields && c.fields[ClaimKind] == Str("qualitative") ==>
          AssertionClass in c.fields && c.fields[AssertionClass].Str? && v[ValueType] == Str("text") && v[Normalized] == Null)
  }

  lemma SpanRulesMean(c: Json)
    requires IsBaseClaim(c) && WellFormed(c)
    ensures Valid(FoundRule(), c) && Valid(MissingRule(), c) <==>
            var l, status := c.fields[Location].fields, c.fields[Status].text;
            && (status != "missing" && l[Kind] != Str("xlsx") ==> CharStart in l && CharEnd in l)
            && (status == "missing" ==> CharStart !in l && CharEnd !in l)
  {
    FoundRuleMeans(c);
    MissingRuleMeans(c);
    KindsApart(c.fields[Location]);
  }

  lemma TrustRulesMean(c: Json)
    requires IsBaseClaim(c) && WellFormed(c)
    ensures Valid(CheckedRule(), c) && Valid(QualitativeRule(), c) <==>
            var v, status := c.fields[Value].fields, c.fields[Status].text;
            && (status in ["cited", "conflicted", "inconclusive", "partially_verified", "verified"] ==>
                  VerificationMethod in c.fields && c.fields[VerificationMethod].Str?)
            && (ClaimKind in c.fields && c.fields[ClaimKind] == Str("qualitative") ==>
                  AssertionClass in c.fields && c.fields[AssertionClass].Str? && v[ValueType] == Str("text") && v[Normalized] == Null)
  {
    CheckedRuleMeans(c);
    QualitativeRuleMeans(c);
    QualitativeValueMeans(c.fields[Value]);
  }

  lemma AllRules(c: Json)
    ensures (forall i :: 0 <= i < |Rules()| ==> Valid(Rules()[i], c)) <==>
            Valid(FoundRule(), c) && Valid(MissingRule(), c) && Valid(CheckedRule(), c) && Valid(ScaleRule(), c) && Valid(QualitativeRule(), c)
  {
    var rules := Rules();
    assert rules[0] == FoundRule() && rules[1] == MissingRule() && rules[2] == CheckedRule() && rules[3] == ScaleRule() && rules[4] == QualitativeRule();
  }

  /** The contract accepts exactly the claims that are typed as they should be and meet the five rules. */
  lemma ContractExactly(c: Json)
    ensures Valid(ClaimSchema(), c) <==> IsBaseClaim(c) && MeetsRules(c)
  {
    ClaimSchemaSplits(c);
    AllRules(c);
    BaseExactly(c);
    if IsBaseClaim(c) {
      BaseMeans(c);
      SpanRulesMean(c);
      TrustRulesMean(c);
      ScaleRuleMeans(c);
    }
  }

  // ---------- what the row holds ----------

  /** Every column of the row, from the claim's own members. Absent and null members are NULL, and so is an
      empty array of flags. */
  lemma RowHoldsClaim(c: Json, row: Row, orgId: int, sessionId: string)
    requires Valid(ClaimSchema(), c) && IsRowOf(row, c, orgId, sessionId)
    ensures HasKeys(c)
    ensures row.orgId == Number(orgId as real) && row.sessionId == Str(sessionId)
    ensures row.entity == c.fields[Entity] && row.attribute == c.fields[Attribute]
    ensures row.value == c.fields[Value] && row.status == c.fields[Status]
    ensures row.flags == if Flags in c.fields && c.fields[Flags] != Arr([]) then c.fields[Flags] else Null
  {
    ValidHasKeys(c);
    ContractExactly(c);
    GivenColumns(c, row, orgId, sessionId);
    FlagsColumn(c, row, orgId, sessionId);
    OwnerColumns(c, row, orgId, sessionId);
  }

  /** The member, or NULL when there is none. */
  function OrNull(fields: map<Name, Json>, name: Name): Json {
    if name in fields then fields[name] else Null
  }

  lemma GivenColumns(c: Json, row: Row, orgId: int, sessionId: string)
    requires IsRowOf(row, c, orgId, sessionId) && HasKeys(c)
    ensures row.entity == c.fields[Entity] && row.attribute == c.fields[Attribute]
    ensures row.value == c.fields[Value] && row.status == c.fields[Status]
  {
    CopiedIs(c, row, orgId, sessionId, Entity);
    CopiedIs(c, row, orgId, sessionId, Attribute);
    CopiedIs(c, row, orgId, sessionId, Value);
    CopiedIs(c, row, orgId, sessionId, Status);
  }

  lemma FlagsColumn(c: Json, row: Row, orgId: int, sessionId: string)
    requires IsRowOf(row, c, orgId, sessionId) && c.Obj? && (Flags in c.fields ==> c.fields[Flags].Arr?)
    ensures row.flags == if Flags in c.fields && c.fields[Flags] != Arr([]) then c.fields[Flags] else Null
  {
    assert Column(row, Flags) == Expected(c, orgId, sessionId, Flags);
  }

  lemma OwnerColumns(c: Json, row: Row, orgId: int, sessionId: string)
    requires IsRowOf(row, c, orgId, sessionId)
    ensures row.orgId == Number(orgId as real) && row.sessionId == Str(sessionId)
  {
    assert Column(row, OrgId) == Expected(c, orgId, sessionId, OrgId);
    assert Column(row, SessionId) == Expected(c, orgId, sessionId, SessionId);
  }

  lemma CopiedIs(c: Json, row: Row, orgId: int, sessionId: string, name: Name)
    requires IsRowOf(row, c, orgId, sessionId) && c.Obj? && IsCopied(name)
    ensures Column(row, name) == OrNull(c.fields, name)
  {
    ColumnOf(row, c, orgId, sessionId, name);
  }

  lemma PeriodColumns(c: Json, row: Row, orgId: int, sessionId: string)
    requires IsRowOf(row, c, orgId, sessionId) && c.Obj?
    ensures row.periodYear == OrNull(c.fields, PeriodYear) && row.periodKind == OrNull(c.fields, PeriodKind)
    ensures row.section == OrNull(c.fields, Section)
  {
    CopiedIs(c, row, orgId, sessionId, PeriodYear);
    CopiedIs(c, row, orgId, sessionId, PeriodKind);
    CopiedIs(c, row, orgId, sessionId, Section);
  }

  lemma TrustColumns(c: Json, row: Row, orgId: int, sessionId: string)
    requires IsRowOf(row, c, orgId, sessionId) && c.Obj?
    ensures row.verificationMethod == OrNull(c.fields, VerificationMethod)
    ensures row.claimKind == OrNull(c.fields, ClaimKind) && row.assertionClass == OrNull(c.fields, AssertionClass)
  {
    CopiedIs(c, row, orgId, sessionId, VerificationMethod);
    CopiedIs(c, row, orgId, sessionId, ClaimKind);
    CopiedIs(c, row, orgId, sessionId, AssertionClass);
  }

  lemma OptionalColumns(c: Json, row: Row, orgId: int, sessionId: string)
    requires IsRowOf(row, c, orgId, sessionId) && c.Obj?
    ensures row.periodYear == OrNull(c.fields, PeriodYear) && row.periodKind == OrNull(c.fields, PeriodKind)
    ensures row.verificationMethod == OrNull(c.fields, VerificationMethod) && row.section == OrNull(c.fields, Section)
    ensures row.claimKind == OrNull(c.fields, ClaimKind) && row.assertionClass == OrNull(c.fields, AssertionClass)
  {
    PeriodColumns(c, row, orgId, sessionId);
    TrustColumns(c, row, orgId, sessionId);
  }

  lemma LocatedIs(c: Json, row: Row, orgId: int, sessionId: string, name: Name)
    requires IsRowOf(row, c, orgId, sessionId) && HasKeys(c) && (IsLocationColumn(name) || name.Kind?)
    ensures Column(row, name) == OrNull(c.fields[Location].fields, name)
  {
    ColumnOf(row, c, orgId, sessionId, name);
  }

  lemma LocatorColumnsHold(c: Json, row: Row, orgId: int, sessionId: string)
    requires IsRowOf(row, c, orgId, sessionId) && HasKeys(c)
    ensures var l := c.fields[Location].fields;
            && row.kind == OrNull(l, Kind) && row.page == OrNull(l, Page)
            && row.sheet == OrNull(l, Sheet) && row.cellRef == OrNull(l, CellRef) && row.paragraph == OrNull(l, Paragraph)
  {
    LocatedIs(c, row, orgId, sessionId, Kind);
    LocatedIs(c, row, orgId, sessionId, Page);
    LocatedIs(c, row, orgId, sessionId, Sheet);
    LocatedIs(c, row, orgId, sessionId, CellRef);
    LocatedIs(c, row, orgId, sessionId, Paragraph);
  }

  /** The columns of the citation, from the location's own members. */
  lemma CitationColumns(c: Json, row: Row, orgId: int, sessionId: string)
    requires IsRowOf(row, c, orgId, sessionId) && HasKeys(c)
    ensures var l := c.fields[Location].fields;
            && row.kind == OrNull(l, Kind) && row.page == OrNull(l, Page)
            && row.charStart == OrNull(l, CharStart) && row.charEnd == OrNull(l, CharEnd) && row.bbox == OrNull(l, Bbox)
            && row.sheet == OrNull(l, Sheet) && row.cellRef == OrNull(l, CellRef) && row.paragraph == OrNull(l, Paragraph)
  {
    LocatorColumnsHold(c, row, orgId, sessionId);
    LocatedIs(c, row, orgId, sessionId, CharStart);
    LocatedIs(c, row, orgId, sessionId, CharEnd);
    LocatedIs(c, row, orgId, sessionId, Bbox);
  }

  // ---------- what the table refuses ----------

  lemma ListedRefuses(row: Row, name: Name, texts: seq<string>)
    ensures Eval(In(name, texts), row) == No <==> Column(row, name) != Null && !IsOneOf(Column(row, name), texts)
    ensures Eval(Or(IsNull(name), In(name, texts)), row) == No <==> Column(row, name) != Null && !IsOneOf(Column(row, name), texts)
  {
    assert Eval(IsNull(name), row) == Sure(Column(row, name) == Null);
  }

  /** The listing constraints refuse exactly the values that are not null and not listed. */
  lemma StatusRefusesExactly(row: Row)
    ensures Eval(Check(StatusListed), row) == No <==> row.status != Null && !IsOneOf(row.status,
              ["proposed", "cited", "rejected", "missing", "conflicted", "inconclusive", "partially_verified", "verified"])
  {
    ListedRefuses(row, Status, STATUSES);
  }

  lemma KindsRefuseExactly(row: Row)
    ensures Eval(Check(KindListed), row) == No <==> row.kind != Null && !IsOneOf(row.kind, ["pdf", "xlsx", "docx"])
    ensures Eval(Check(PeriodKindListed), row) == No <==> row.periodKind != Null && !IsOneOf(row.periodKind, ["A", "E", "P"])
    ensures Eval(Check(ClaimKindListed), row) == No <==> row.claimKind != Null && !IsOneOf(row.claimKind, ["quantitative", "qualitative"])
  {
    ListedRefuses(row, Kind, LOCATION_KINDS);
    ListedRefuses(row, PeriodKind, ["A", "E", "P"]);
    ListedRefuses(row, ClaimKind, CLAIM_KINDS);
  }

  lemma MethodRefusesExactly(row: Row)
    ensures Eval(Check(VerificationMethodListed), row) == No <==> row.verificationMethod != Null && !IsOneOf(row.verificationMethod,
              ["exact_span", "formula_reexecution", "direct_read", "reranker", "human_review"])
  {
    ListedRefuses(row, VerificationMethod, VERIFICATION_METHODS);
  }

  lemma ClassRefusesExactly(row: Row)
    ensures Eval(Check(AssertionClassListed), row) == No <==> row.assertionClass != Null && !IsOneOf(row.assertionClass,
              ["related_party", "operating_model", "market_definition", "competitive_position", "commercial_terms",
               "risk_or_dependency", "plan_or_commitment"])
  {
    ListedRefuses(row, AssertionClass, ASSERTION_CLASSES);
  }

  lemma QualitativeRefusesExactly(row: Row)
    ensures Eval(Check(QualitativeHasClass), row) == No <==> row.claimKind == Str("qualitative") && row.assertionClass == Null
  {
    var other, given := IsDistinctFrom(ClaimKind, "qualitative"), IsNotNull(AssertionClass);
    assert Check(QualitativeHasClass) == Or(other, given);
    assert Eval(other, row) == Sure(row.claimKind != Str("qualitative")) && Eval(given, row) == Sure(row.assertionClass != Null);
  }

  /** With status and kind given, as their columns require, the four conditional constraints refuse exactly a
      locator that does not go with the kind, a found claim without its span, a missing claim with one, and a
      checked claim without its method. */
  lemma ConditionsRefuseExactly(row: Row)
    requires row.status.Str? && row.kind != Null
    ensures Eval(Check(LocatorMatchesKind), row) == No <==>
            && !(row.kind == Str("pdf") && row.page != Null)
            && !(row.kind == Str("xlsx") && row.sheet != Null && row.cellRef != Null)
            && !(row.kind == Str("docx") && row.paragraph != Null)
    ensures Eval(Check(FoundRequiresSpan), row) == No <==>
            row.status.text != "missing" && row.kind != Str("xlsx") && (row.charStart == Null || row.charEnd == Null)
    ensures Eval(Check(MissingHasNoSpan), row) == No <==>
            row.status.text == "missing" && (row.charStart != Null || row.charEnd != Null)
    ensures Eval(Check(CheckedRequiresMethod), row) == No <==>
            row.status.text in ["cited", "conflicted", "inconclusive", "partially_verified", "verified"] && row.verificationMethod == Null
  {
    LocatorConstraintMeans(row);
    FoundConstraintMeans(row);
    MissingConstraintMeans(row);
    CheckedConstraintMeans(row);
  }
}
