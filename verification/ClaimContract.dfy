/** contracts/claims.schema.json as data. */
module ClaimContract {
  import opened ClaimNames
  import opened JsonSchema

  // ---------- building blocks ----------

  function Strings(texts: seq<string>): (r: seq<Json>)
    ensures |r| == |texts| && forall i :: 0 <= i < |r| ==> r[i] == Str(texts[i])
  {
    seq(|texts|, i requires 0 <= i < |texts| => Str(texts[i]))
  }

  function Typed(kinds: seq<JsonType>): Schema {
    Keywords([Type(kinds)])
  }

  function Text(): Schema { Typed([StringType]) }
  function OptionalText(): Schema { Typed([StringType, NullType]) }
  function Integer(): Schema { Typed([IntegerType]) }
  function OptionalInteger(): Schema { Typed([IntegerType, NullType]) }
  function OneText(text: string): Schema { Keywords([Const(Str(text))]) }
  function TextOf(texts: seq<string>): Schema { Keywords([Type([StringType]), Enum(Strings(texts))]) }
  function OptionalTextOf(texts: seq<string>): Schema { Keywords([Type([StringType, NullType]), Enum(Strings(texts) + [Null])]) }

  function Closed(required: seq<Name>, properties: seq<Property>): Schema {
    Keywords([Type([ObjectType]), NoAdditionalProperties, Required(required), Properties(properties)])
  }

  // ---------- value ----------

  function ValueProperties(): seq<Property> {
    [Property(Raw, Text()),
     Property(Normalized, Typed([NumberType, NullType])),
     Property(Unit, OptionalText()),
     Property(ScaleMultiplier, Typed([NumberType, NullType])),
     Property(ScaleSource, TextOf(["explicit_in_value", "column_header", "page_header", "assumed_1x", "not_applicable"])),
     Property(ValueType, TextOf(["currency", "percent", "count", "ratio", "date", "text"]))]
  }

  function ValueSchema(): Schema {
    Closed([Raw, Normalized, Unit, ValueType], ValueProperties())
  }

  // ---------- location ----------

  function DocumentProperties(): seq<Property> {
    [Property(File, Text()),
     Property(DocumentId, Text()),
     Property(DocumentName, Text()),
     Property(DocumentVersion, Typed([IntegerType, StringType])),
     Property(IngestedAt, Text()),
     Property(DocumentDate, OptionalText())]
  }

  function Box(): Schema {
    Keywords([Type([ArrayType]),
              Items(Keywords([Type([ArrayType]), MinItems(4), MaxItems(4), Items(Typed([NumberType]))]))])
  }

  function PdfProperties(): seq<Property> {
    [Property(Kind, OneText("pdf")),
     Property(Page, Integer()),
     Property(CharStart, Integer()),
     Property(CharEnd, Integer()),
     Property(Bbox, Box())] + DocumentProperties()
  }

  function PdfLocation(): Schema {
    Closed([Kind, Page], PdfProperties())
  }

  function XlsxProperties(): seq<Property> {
    [Property(Kind, OneText("xlsx")),
     Property(Sheet, Text()),
     Property(CellRef, Text()),
     Property(NamedRange, OptionalText())] + DocumentProperties()
  }

  function XlsxLocation(): Schema {
    Closed([Kind, Sheet, CellRef], XlsxProperties())
  }

  function DocxProperties(): seq<Property> {
    [Property(Kind, OneText("docx")),
     Property(Paragraph, Integer()),
     Property(CharStart, Integer()),
     Property(CharEnd, Integer()),
     Property(TableId, OptionalText()),
     Property(TableRow, OptionalInteger()),
     Property(TableCol, OptionalInteger())] + DocumentProperties()
  }

  function DocxLocation(): Schema {
    Closed([Kind, Paragraph], DocxProperties())
  }

  function LocationSchema(): Schema {
    Keywords([OneOf([PdfLocation(), XlsxLocation(), DocxLocation()])])
  }

  // ---------- the claim ----------

  function StatusSchema(): Schema {
    TextOf(["proposed", "cited", "rejected", "missing", "conflicted", "inconclusive", "partially_verified", "verified"])
  }

  function MethodSchema(): Schema {
    OptionalTextOf(["exact_span", "formula_reexecution", "direct_read", "reranker", "human_review"])
  }

  function ClaimKindSchema(): Schema {
    OptionalTextOf(["quantitative", "qualitative"])
  }

  function AssertionClassSchema(): Schema {
    OptionalTextOf(["related_party", "operating_model", "market_definition", "competitive_position", "commercial_terms",
                    "risk_or_dependency", "plan_or_commitment"])
  }

  function PeriodKindSchema(): Schema {
    OptionalTextOf(["A", "E", "P"])
  }

  function FlagsSchema(): Schema {
    Keywords([Type([ArrayType]),
              Items(TextOf(["ragged_table_rows", "chart_data_not_extracted", "scale_assumed", "quote_unresolved",
                            "ambiguous_location", "ambiguous_region_bounds", "ambiguous_unit", "table_touches_page_edge",
                            "zero_text_page", "empty_section", "formula_mismatch", "external_reference_unresolved",
                            "magnitude_unparseable", "cites_boilerplate", "binding_unsupported"]))])
  }

  function VerdictProperties(): seq<Property> {
    [Property(Status, StatusSchema()),
     Property(Location, LocationSchema()),
     Property(VerificationMethod, MethodSchema()),
     Property(ClaimKind, ClaimKindSchema()),
     Property(AssertionClass, AssertionClassSchema()),
     Property(PeriodKind, PeriodKindSchema())]
  }

  function ContentProperties(): seq<Property> {
    [Property(PeriodYear, OptionalInteger()),
     Property(Value, ValueSchema()),
     Property(Entity, Text()),
     Property(Attribute, Text()),
     Property(Flags, FlagsSchema()),
     Property(Section, OptionalText())]
  }

  function ReferenceProperties(): seq<Property> {
    [Property(Id, Text()),
     Property(DealId, Text()),
     Property(SessionId, Text()),
     Property(OrgId, Text()),
     Property(DataSourceId, OptionalText()),
     Property(ChunkId, OptionalText()),
     Property(TableGroupId, OptionalText()),
     Property(FragmentOrder, OptionalInteger())]
  }

  function ClaimProperties(): seq<Property> {
    VerdictProperties() + ContentProperties() + ReferenceProperties()
  }

  /** Everything but the conditional rules. */
  function BaseSchema(): Schema {
    Closed([Entity, Attribute, Value, Status, Location], ClaimProperties())
  }

  // ---------- the conditional rules ----------

  /** A claim that found something in a PDF or DOCX carries its span. */
  function FoundRule(): Schema {
    Keywords([If(
      Keywords([Properties([Property(Status, Keywords([Not(OneText("missing"))])),
                            Property(Location, Keywords([Properties([Property(Kind, Keywords([Enum(Strings(["pdf", "docx"]))]))])]))]),
                Required([Status, Location])]),
      Keywords([Properties([Property(Location, Keywords([Required([CharStart, CharEnd])]))])]),
      Always)])
  }

  /** A missing claim carries no span. */
  function MissingRule(): Schema {
    Keywords([If(
      Keywords([Properties([Property(Status, OneText("missing"))]), Required([Status])]),
      Keywords([Properties([Property(Location, Keywords([Properties([Property(CharStart, Never), Property(CharEnd, Never)])]))])]),
      Always)])
  }

  /** A checked claim says how trust was earned. */
  function CheckedRule(): Schema {
    Keywords([If(
      Keywords([Properties([Property(Status,
                  Keywords([Enum(Strings(["cited", "conflicted", "inconclusive", "partially_verified", "verified"]))]))]),
                Required([Status])]),
      Keywords([Required([VerificationMethod]), Properties([Property(VerificationMethod, Text())])]),
      Always)])
  }

  /** A magnitude says what scaled it, and how that was determined. */
  function ScaleRule(): Schema {
    Keywords([If(
      Keywords([AnyOf([
        Keywords([Properties([Property(Value,
                    Keywords([Properties([Property(ValueType, OneText("text"))]), Required([ValueType])]))]),
                  Required([Value])]),
        Keywords([Properties([Property(Value,
                    Keywords([Properties([Property(Normalized, Typed([NullType]))]), Required([Normalized])]))]),
                  Required([Value])])])]),
      Always,
      Keywords([Properties([Property(Value,
        Keywords([Required([ScaleMultiplier, ScaleSource]),
                  Properties([Property(ScaleMultiplier, Typed([NumberType]))])]))])]))])
  }

  function QualitativeValue(): Schema {
    Keywords([Properties([Property(ValueType, OneText("text")), Property(Normalized, Typed([NullType]))])])
  }

  /** A qualitative claim is a text without magnitude and names its class. */
  function QualitativeRule(): Schema {
    Keywords([If(
      Keywords([Properties([Property(ClaimKind, OneText("qualitative"))]), Required([ClaimKind])]),
      Keywords([Required([AssertionClass]),
                Properties([Property(AssertionClass, Text()), Property(Value, QualitativeValue())])]),
      Always)])
  }

  function Rules(): seq<Schema> {
    [FoundRule(), MissingRule(), CheckedRule(), ScaleRule(), QualitativeRule()]
  }

  function ClaimSchema(): Schema {
    Keywords(BaseSchema().keywords + [AllOf(Rules())])
  }

  lemma ClaimSchemaSplits(c: Json)
    ensures Valid(ClaimSchema(), c) <==> Valid(BaseSchema(), c) && forall i :: 0 <= i < |Rules()| ==> Valid(Rules()[i], c)
  {
    AppendAllOf(BaseSchema().keywords, Rules(), c);
  }

  // ---------- reading a closed object ----------

  /** What a closed object schema says. */
  ghost predicate Fits(required: seq<Name>, ps: seq<Property>, v: Json) {
    && v.Obj?
    && (forall name :: name in v.fields ==> Names(ps, name))
    && (forall i :: 0 <= i < |required| ==> required[i] in v.fields)
    && (forall j :: 0 <= j < |ps| && ps[j].name in v.fields ==> Valid(ps[j].schema, v.fields[ps[j].name]))
  }

  lemma ClosedDeclares(required: seq<Name>, ps: seq<Property>, name: Name)
    ensures Declares(Closed(required, ps).keywords, name) <==> Names(ps, name)
  {
    var ks := Closed(required, ps).keywords;
    assert ks[3] == Properties(ps);
    assert forall i :: 0 <= i < |ks| && ks[i].Properties? ==> i == 3;
  }

  lemma ClosedMeans(required: seq<Name>, ps: seq<Property>, v: Json)
    ensures Valid(Closed(required, ps), v) <==> Fits(required, ps, v)
  {
    var ks := Closed(required, ps).keywords;
    assert ks[0] == Type([ObjectType]) && ks[1] == NoAdditionalProperties && ks[2] == Required(required) && ks[3] == Properties(ps);
    assert Valid(Closed(required, ps), v) <==>
           Holds(ks[0], ks, v) && Holds(ks[1], ks, v) && Holds(ks[2], ks, v) && Holds(ks[3], ks, v);
    assert [ObjectType][0] == ObjectType;
    forall name ensures Declares(ks, name) <==> Names(ps, name) {
      ClosedDeclares(required, ps, name);
    }
  }

  /** The values that an object has for the properties are valid. */
  ghost predicate FieldsFit(ps: seq<Property>, v: Json) {
    v.Obj? && forall j :: 0 <= j < |ps| && ps[j].name in v.fields ==> Valid(ps[j].schema, v.fields[ps[j].name])
  }

  lemma FieldsOfBoth(a: seq<Property>, b: seq<Property>, v: Json)
    ensures FieldsFit(a + b, v) <==> FieldsFit(a, v) && FieldsFit(b, v)
  {
    var ab := a + b;
    assert forall j :: 0 <= j < |a| ==> ab[j] == a[j];
    assert forall j :: 0 <= j < |b| ==> ab[|a| + j] == b[j];
  }

  lemma NamesOfBoth(a: seq<Property>, b: seq<Property>, name: Name)
    ensures Names(a + b, name) <==> Names(a, name) || Names(b, name)
  {
    var ab := a + b;
    if Names(a, name) {
      var j :| 0 <= j < |a| && a[j].name == name;
      assert ab[j].name == name;
    }
    if Names(b, name) {
      var j :| 0 <= j < |b| && b[j].name == name;
      assert ab[|a| + j].name == name;
    }
  }

  lemma TextOfMeans(texts: seq<string>, v: Json)
    requires Valid(TextOf(texts), v)
    ensures v.Str? && v.text in texts
  {
    var s := TextOf(texts);
    ValidHolds(s, 1, v);
    assert v in Strings(texts);
  }

  lemma OptionalTextOfMeans(texts: seq<string>, v: Json)
    requires Valid(OptionalTextOf(texts), v)
    ensures v != Null ==> v.Str? && v.text in texts
  {
    var s := OptionalTextOf(texts);
    ValidHolds(s, 1, v);
    assert v in Strings(texts) + [Null];
  }

  lemma TypedMeans(kinds: seq<JsonType>, v: Json)
    ensures Valid(Typed(kinds), v) <==> exists i :: 0 <= i < |kinds| && HasKind(v, kinds[i])
  {
    Single(Type(kinds), v);
  }
}
