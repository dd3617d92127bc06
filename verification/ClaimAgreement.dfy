/** The contract implies the storage constraints, three of them exactly mirror its conditional rules,
    and the citation can be read back from the row. */
module ClaimAgreement {
  import opened Prelude
  import opened ClaimNames
  import opened JsonSchema
  import opened ClaimContract
  import opened ClaimStorage

  // ---------- what the unconditional part of the contract says ----------

  ghost predicate Has(v: Json, name: Name) {
    v.Obj? && name in v.fields
  }

  ghost predicate Lacks(v: Json, name: Name) {
    v.Obj? && name !in v.fields
  }

  /** Present members of a location that have a column are not null. */
  ghost predicate NoNullColumns(l: Json) {
    l.Obj? && forall name :: IsLocationColumn(name) && name in l.fields ==> l.fields[name] != Null
  }

  ghost predicate IsPdf(l: Json) {
    && Get(l, Kind) == Str("pdf") && NoNullColumns(l) && Has(l, Page)
    && Lacks(l, Sheet) && Lacks(l, CellRef) && Lacks(l, Paragraph)
  }

  ghost predicate IsXlsx(l: Json) {
    && Get(l, Kind) == Str("xlsx") && NoNullColumns(l) && Has(l, Sheet) && Has(l, CellRef)
    && Lacks(l, Page) && Lacks(l, CharStart) && Lacks(l, CharEnd) && Lacks(l, Bbox) && Lacks(l, Paragraph)
  }

  ghost predicate IsDocx(l: Json) {
    && Get(l, Kind) == Str("docx") && NoNullColumns(l) && Has(l, Paragraph)
    && Lacks(l, Page) && Lacks(l, Bbox) && Lacks(l, Sheet) && Lacks(l, CellRef)
  }

  lemma TextIsText(v: Json)
    ensures Valid(Text(), v) <==> v.Str?
  {
    TypedMeans([StringType], v);
    assert [StringType][0] == StringType;
  }

  lemma OneTextMeans(text: string, v: Json)
    ensures Valid(OneText(text), v) <==> v == Str(text)
  {
    Single(Const(Str(text)), v);
  }

  lemma RequiredField(required: seq<Name>, ps: seq<Property>, v: Json, i: nat, name: Name)
    requires Valid(Closed(required, ps), v) && i < |required| && required[i] == name
    ensures Has(v, name)
  {
    ClosedMeans(required, ps, v);
  }

  lemma UndeclaredField(required: seq<Name>, ps: seq<Property>, v: Json, name: Name)
    requires Valid(Closed(required, ps), v) && !Names(ps, name)
    ensures Lacks(v, name)
  {
    ClosedMeans(required, ps, v);
  }

  lemma DeclaredField(required: seq<Name>, ps: seq<Property>, v: Json, j: nat)
    requires Valid(Closed(required, ps), v) && j < |ps|
    ensures Has(v, ps[j].name) ==> Valid(ps[j].schema, v.fields[ps[j].name])
  {
    ClosedMeans(required, ps, v);
  }

  lemma ConstantField(required: seq<Name>, ps: seq<Property>, v: Json, j: nat, name: Name, text: string)
    requires Valid(Closed(required, ps), v) && j < |ps| && ps[j] == Property(name, OneText(text)) && Has(v, name)
    ensures Get(v, name) == Str(text)
  {
    DeclaredField(required, ps, v, j);
    OneTextMeans(text, v.fields[name]);
  }

  lemma IntegerField(required: seq<Name>, ps: seq<Property>, v: Json, j: nat, name: Name)
    requires Valid(Closed(required, ps), v) && j < |ps| && ps[j] == Property(name, Integer())
    ensures Has(v, name) ==> v.fields[name] != Null
  {
    DeclaredField(required, ps, v, j);
    if Has(v, name) {
      TypedMeans([IntegerType], v.fields[name]);
    }
  }

  lemma TextField(required: seq<Name>, ps: seq<Property>, v: Json, j: nat, name: Name)
    requires Valid(Closed(required, ps), v) && j < |ps| && ps[j] == Property(name, Text())
    ensures Has(v, name) ==> v.fields[name].Str?
  {
    DeclaredField(required, ps, v, j);
    if Has(v, name) {
      TextIsText(v.fields[name]);
    }
  }

  lemma BoxField(required: seq<Name>, ps: seq<Property>, v: Json, j: nat, name: Name)
    requires Valid(Closed(required, ps), v) && j < |ps| && ps[j] == Property(name, Box())
    ensures Has(v, name) ==> v.fields[name] != Null
  {
    DeclaredField(required, ps, v, j);
    if Has(v, name) {
      ValidHolds(Box(), 0, v.fields[name]);
    }
  }

  lemma PdfNames(name: Name)
    requires name.Sheet? || name.CellRef? || name.Paragraph?
    ensures !Names(PdfProperties(), name)
  {
  }

  lemma PdfLacks(l: Json, name: Name)
    requires Valid(PdfLocation(), l) && (name.Sheet? || name.CellRef? || name.Paragraph?)
    ensures Lacks(l, name)
  {
    PdfNames(name);
    UndeclaredField([Kind, Page], PdfProperties(), l, name);
  }

  lemma PdfFields(l: Json)
    requires Valid(PdfLocation(), l)
    ensures Get(l, Kind) == Str("pdf")
    ensures Has(l, Page) ==> l.fields[Page] != Null
    ensures Has(l, CharStart) ==> l.fields[CharStart] != Null
    ensures Has(l, CharEnd) ==> l.fields[CharEnd] != Null
    ensures Has(l, Bbox) ==> l.fields[Bbox] != Null
  {
    var required, ps := [Kind, Page], PdfProperties();
    RequiredField(required, ps, l, 0, Kind);
    ConstantField(required, ps, l, 0, Kind, "pdf");
    IntegerField(required, ps, l, 1, Page);
    IntegerField(required, ps, l, 2, CharStart);
    IntegerField(required, ps, l, 3, CharEnd);
    BoxField(required, ps, l, 4, Bbox);
  }

  lemma PdfMeans(l: Json)
    requires Valid(PdfLocation(), l)
    ensures IsPdf(l)
  {
    var required := [Kind, Page];
    RequiredField(required, PdfProperties(), l, 1, Page);
    PdfLacks(l, Sheet);
    PdfLacks(l, CellRef);
    PdfLacks(l, Paragraph);
    PdfFields(l);
  }

  lemma XlsxNames(name: Name)
    requires name.Page? || name.CharStart? || name.CharEnd? || name.Bbox? || name.Paragraph?
    ensures !Names(XlsxProperties(), name)
  {
  }

  lemma XlsxLacks(l: Json, name: Name)
    requires Valid(XlsxLocation(), l) && (name.Page? || name.CharStart? || name.CharEnd? || name.Bbox? || name.Paragraph?)
    ensures Lacks(l, name)
  {
    XlsxNames(name);
    UndeclaredField([Kind, Sheet, CellRef], XlsxProperties(), l, name);
  }

  lemma XlsxFields(l: Json)
    requires Valid(XlsxLocation(), l)
    ensures Get(l, Kind) == Str("xlsx")
    ensures Has(l, Sheet) ==> l.fields[Sheet] != Null
    ensures Has(l, CellRef) ==> l.fields[CellRef] != Null
  {
    var required, ps := [Kind, Sheet, CellRef], XlsxProperties();
    RequiredField(required, ps, l, 0, Kind);
    ConstantField(required, ps, l, 0, Kind, "xlsx");
    TextField(required, ps, l, 1, Sheet);
    TextField(required, ps, l, 2, CellRef);
  }

  lemma XlsxMeans(l: Json)
    requires Valid(XlsxLocation(), l)
    ensures IsXlsx(l)
  {
    var required := [Kind, Sheet, CellRef];
    RequiredField(required, XlsxProperties(), l, 1, Sheet);
    RequiredField(required, XlsxProperties(), l, 2, CellRef);
    XlsxLacks(l, Page);
    XlsxLacks(l, CharStart);
    XlsxLacks(l, CharEnd);
    XlsxLacks(l, Bbox);
    XlsxLacks(l, Paragraph);
    XlsxFields(l);
  }

  lemma DocxNames(name: Name)
    requires name.Page? || name.Bbox? || name.Sheet? || name.CellRef?
    ensures !Names(DocxProperties(), name)
  {
  }

  lemma DocxLacks(l: Json, name: Name)
    requires Valid(DocxLocation(), l) && (name.Page? || name.Bbox? || name.Sheet? || name.CellRef?)
    ensures Lacks(l, name)
  {
    DocxNames(name);
    UndeclaredField([Kind, Paragraph], DocxProperties(), l, name);
  }

  lemma DocxFields(l: Json)
    requires Valid(DocxLocation(), l)
    ensures Get(l, Kind) == Str("docx")
    ensures Has(l, Paragraph) ==> l.fields[Paragraph] != Null
    ensures Has(l, CharStart) ==> l.fields[CharStart] != Null
    ensures Has(l, CharEnd) ==> l.fields[CharEnd] != Null
  {
    var required, ps := [Kind, Paragraph], DocxProperties();
    RequiredField(required, ps, l, 0, Kind);
    ConstantField(required, ps, l, 0, Kind, "docx");
    IntegerField(required, ps, l, 1, Paragraph);
    IntegerField(required, ps, l, 2, CharStart);
    IntegerField(required, ps, l, 3, CharEnd);
  }

  lemma DocxMeans(l: Json)
    requires Valid(DocxLocation(), l)
    ensures IsDocx(l)
  {
    var required := [Kind, Paragraph];
    RequiredField(required, DocxProperties(), l, 1, Paragraph);
    DocxLacks(l, Page);
    DocxLacks(l, Bbox);
    DocxLacks(l, Sheet);
    DocxLacks(l, CellRef);
    DocxFields(l);
  }

  /** A location is exactly one of the three kinds, told apart by `kind`. */
  lemma LocationMeans(l: Json)
    requires Valid(LocationSchema(), l)
    ensures IsPdf(l) || IsXlsx(l) || IsDocx(l)
  {
    var options := [PdfLocation(), XlsxLocation(), DocxLocation()];
    Single(OneOf(options), l);
    var i :| 0 <= i < |options| && Valid(options[i], l);
    assert options[0] == PdfLocation() && options[1] == XlsxLocation() && options[2] == DocxLocation();
    if i == 0 {
      PdfMeans(l);
    } else if i == 1 {
      XlsxMeans(l);
    } else {
      DocxMeans(l);
    }
  }

  ghost predicate OneOfOrNull(v: Json, texts: seq<string>) {
    v == Null || (v.Str? && v.text in texts)
  }

  ghost predicate Located(c: Json) {
    Has(c, Location) && var l := c.fields[Location]; IsPdf(l) || IsXlsx(l) || IsDocx(l)
  }

  ghost predicate WellFormed(c: Json) {
    && Has(c, Entity) && Has(c, Attribute) && Has(c, Value) && Has(c, Status) && Located(c)
    && Get(c, Status).Str? && Get(c, Status).text in STATUSES
    && OneOfOrNull(Get(c, VerificationMethod), VERIFICATION_METHODS)
    && OneOfOrNull(Get(c, ClaimKind), CLAIM_KINDS)
    && OneOfOrNull(Get(c, AssertionClass), ASSERTION_CLASSES)
    && OneOfOrNull(Get(c, PeriodKind), ["A", "E", "P"])
  }

  lemma OptionalTextField(c: Json, j: nat, name: Name, texts: seq<string>)
    requires Valid(BaseSchema(), c) && j < |ClaimProperties()| && ClaimProperties()[j] == Property(name, OptionalTextOf(texts))
    ensures OneOfOrNull(Get(c, name), texts)
  {
    DeclaredField([Entity, Attribute, Value, Status, Location], ClaimProperties(), c, j);
    if Has(c, name) {
      OptionalTextOfMeans(texts, c.fields[name]);
    }
  }

  lemma RequiredFields(c: Json)
    requires Valid(BaseSchema(), c)
    ensures Has(c, Entity) && Has(c, Attribute) && Has(c, Value) && Has(c, Status) && Has(c, Location)
  {
    var required := [Entity, Attribute, Value, Status, Location];
    RequiredField(required, ClaimProperties(), c, 0, Entity);
    RequiredField(required, ClaimProperties(), c, 1, Attribute);
    RequiredField(required, ClaimProperties(), c, 2, Value);
    RequiredField(required, ClaimProperties(), c, 3, Status);
    RequiredField(required, ClaimProperties(), c, 4, Location);
  }

  lemma StatusField(c: Json)
    requires Valid(BaseSchema(), c) && Has(c, Status)
    ensures Get(c, Status).Str? && Get(c, Status).text in STATUSES
  {
    DeclaredField([Entity, Attribute, Value, Status, Location], ClaimProperties(), c, 0);
    TextOfMeans(STATUSES, c.fields[Status]);
  }

  lemma LocationField(c: Json)
    requires Valid(BaseSchema(), c) && Has(c, Location)
    ensures Located(c)
  {
    DeclaredField([Entity, Attribute, Value, Status, Location], ClaimProperties(), c, 1);
    LocationMeans(c.fields[Location]);
  }

  lemma ClassFields(c: Json)
    requires Valid(BaseSchema(), c)
    ensures OneOfOrNull(Get(c, ClaimKind), CLAIM_KINDS) && OneOfOrNull(Get(c, AssertionClass), ASSERTION_CLASSES)
  {
    OptionalTextField(c, 3, ClaimKind, CLAIM_KINDS);
    OptionalTextField(c, 4, AssertionClass, ASSERTION_CLASSES);
  }

  lemma MethodAndPeriodFields(c: Json)
    requires Valid(BaseSchema(), c)
    ensures OneOfOrNull(Get(c, VerificationMethod), VERIFICATION_METHODS) && OneOfOrNull(Get(c, PeriodKind), ["A", "E", "P"])
  {
    OptionalTextField(c, 2, VerificationMethod, VERIFICATION_METHODS);
    OptionalTextField(c, 5, PeriodKind, ["A", "E", "P"]);
  }

  lemma BaseMeans(c: Json)
    requires Valid(BaseSchema(), c)
    ensures WellFormed(c)
  {
    RequiredFields(c);
    StatusField(c);
    LocationField(c);
    ClassFields(c);
    MethodAndPeriodFields(c);
  }

  // ---------- what the conditional rules say ----------

  lemma IfMeans(c: Schema, t: Schema, e: Schema, v: Json)
    ensures Valid(Keywords([If(c, t, e)]), v) <==> if Valid(c, v) then Valid(t, v) else Valid(e, v)
  {
    Single(If(c, t, e), v);
  }

  lemma NotText(text: string, v: Json)
    ensures Valid(Keywords([Not(OneText(text))]), v) <==> v != Str(text)
  {
    Single(Not(OneText(text)), v);
    OneTextMeans(text, v);
  }

  lemma EnumMeans(texts: seq<string>, v: Json)
    ensures Valid(Keywords([Enum(Strings(texts))]), v) <==> v.Str? && v.text in texts
  {
    Single(Enum(Strings(texts)), v);
    if v.Str? && v.text in texts {
      var i :| 0 <= i < |texts| && texts[i] == v.text;
      assert Strings(texts)[i] == v;
    }
  }

  lemma Within(name: Name, s: Schema, v: Json)
    requires v.Obj?
    ensures Valid(Keywords([Properties([Property(name, s)])]), v) <==> (name in v.fields ==> Valid(s, v.fields[name]))
  {
    var k := Properties([Property(name, s)]);
    Single(k, v);
    OneProperty(name, s, [k], v);
  }

  lemma RequiresOne(name: Name, siblings: seq<Keyword>, v: Json)
    requires v.Obj?
    ensures Holds(Required([name]), siblings, v) <==> name in v.fields
  {
    assert [name][0] == name;
  }

  lemma RequiresTwo(a: Name, b: Name, siblings: seq<Keyword>, v: Json)
    requires v.Obj?
    ensures Holds(Required([a, b]), siblings, v) <==> a in v.fields && b in v.fields
  {
    assert [a, b][0] == a && [a, b][1] == b;
  }

  lemma WithinRequired(name: Name, s: Schema, v: Json)
    requires v.Obj?
    ensures Valid(Keywords([Properties([Property(name, s)]), Required([name])]), v) <==> name in v.fields && Valid(s, v.fields[name])
  {
    var k, r := Properties([Property(name, s)]), Required([name]);
    Double(k, r, v);
    OneProperty(name, s, [k, r], v);
    RequiresOne(name, [k, r], v);
  }

  /** Found in a PDF or DOCX <=> span present. */
  lemma FoundRuleMeans(c: Json)
    requires WellFormed(c)
    ensures var l := c.fields[Location];
            Valid(FoundRule(), c) <==> (Get(c, Status) != Str("missing") && !IsXlsx(l) ==> Has(l, CharStart) && Has(l, CharEnd))
  {
    var l := c.fields[Location];
    var status := Keywords([Not(OneText("missing"))]);
    var linear := Keywords([Enum(Strings(["pdf", "docx"]))]);
    var place := Keywords([Properties([Property(Kind, linear)])]);
    var props, needs := Properties([Property(Status, status), Property(Location, place)]), Required([Status, Location]);
    var found := Keywords([props, needs]);
    var span := Keywords([Required([CharStart, CharEnd])]);
    var then_ := Keywords([Properties([Property(Location, span)])]);
    assert FoundRule() == Keywords([If(found, then_, Always)]);
    IfMeans(found, then_, Always, c);
    Double(props, needs, c);
    RequiresTwo(Status, Location, [props, needs], c);
    TwoProperties(Status, status, Location, place, [props, needs], c);
    NotText("missing", c.fields[Status]);
    Within(Kind, linear, l);
    EnumMeans(["pdf", "docx"], l.fields[Kind]);
    KindsApart(l);
    Within(Location, span, c);
    Single(Required([CharStart, CharEnd]), l);
    RequiresTwo(CharStart, CharEnd, [Required([CharStart, CharEnd])], l);
  }

  lemma KindsApart(l: Json)
    requires IsPdf(l) || IsXlsx(l) || IsDocx(l)
    ensures l.Obj? && Has(l, Kind) && l.fields[Kind].Str?
    ensures l.fields[Kind].text in ["pdf", "docx"] <==> !IsXlsx(l)
    ensures l.fields[Kind] == Str("xlsx") <==> IsXlsx(l)
  {
    assert ["pdf", "docx"][0] == "pdf" && ["pdf", "docx"][1] == "docx";
    assert "xlsx"[0] == 'x' && "pdf"[0] == 'p' && "docx"[0] == 'd';
  }

  /** Missing => no span. */
  lemma MissingRuleMeans(c: Json)
    requires WellFormed(c)
    ensures var l := c.fields[Location];
            Valid(MissingRule(), c) <==> (Get(c, Status) == Str("missing") ==> Lacks(l, CharStart) && Lacks(l, CharEnd))
  {
    var l := c.fields[Location];
    var missing := Keywords([Properties([Property(Status, OneText("missing"))]), Required([Status])]);
    var bare := Keywords([Properties([Property(CharStart, Never), Property(CharEnd, Never)])]);
    var then_ := Keywords([Properties([Property(Location, bare)])]);
    assert MissingRule() == Keywords([If(missing, then_, Always)]);
    IfMeans(missing, then_, Always, c);
    WithinRequired(Status, OneText("missing"), c);
    OneTextMeans("missing", c.fields[Status]);
    Within(Location, bare, c);
    var k := Properties([Property(CharStart, Never), Property(CharEnd, Never)]);
    Single(k, l);
    TwoProperties(CharStart, Never, CharEnd, Never, [k], l);
  }

  /** Checked => a method that is not null. */
  lemma CheckedRuleMeans(c: Json)
    requires WellFormed(c)
    ensures Valid(CheckedRule(), c) <==> (Get(c, Status).text in CHECKED_STATUSES ==> Get(c, VerificationMethod) != Null)
  {
    var listed := Keywords([Enum(Strings(CHECKED_STATUSES))]);
    var checked := Keywords([Properties([Property(Status, listed)]), Required([Status])]);
    var r, k := Required([VerificationMethod]), Properties([Property(VerificationMethod, Text())]);
    var then_ := Keywords([r, k]);
    assert CheckedRule() == Keywords([If(checked, then_, Always)]);
    IfMeans(checked, then_, Always, c);
    WithinRequired(Status, listed, c);
    EnumMeans(CHECKED_STATUSES, c.fields[Status]);
    Double(r, k, c);
    RequiresOne(VerificationMethod, [r, k], c);
    OneProperty(VerificationMethod, Text(), [r, k], c);
    TextIsText(Get(c, VerificationMethod));
  }

  /** Qualitative => a class that is not null and a text value; no column constraint mentions the latter. */
  lemma QualitativeRuleMeans(c: Json)
    requires WellFormed(c)
    ensures Valid(QualitativeRule(), c) <==>
            (Get(c, ClaimKind) == Str("qualitative") ==>
               Get(c, AssertionClass) != Null && Valid(QualitativeValue(), c.fields[Value]))
  {
    var qualitative := Keywords([Properties([Property(ClaimKind, OneText("qualitative"))]), Required([ClaimKind])]);
    var r, k := Required([AssertionClass]), Properties([Property(AssertionClass, Text()), Property(Value, QualitativeValue())]);
    var then_ := Keywords([r, k]);
    assert QualitativeRule() == Keywords([If(qualitative, then_, Always)]);
    IfMeans(qualitative, then_, Always, c);
    WithinRequired(ClaimKind, OneText("qualitative"), c);
    OneTextMeans("qualitative", Get(c, ClaimKind));
    Double(r, k, c);
    RequiresOne(AssertionClass, [r, k], c);
    TwoProperties(AssertionClass, Text(), Value, QualitativeValue(), [r, k], c);
    TextIsText(Get(c, AssertionClass));
  }

  // ---------- the constraints of the table ----------

  lemma ColumnOf(row: Row, c: Json, orgId: int, sessionId: string, name: Name)
    requires IsRowOf(row, c, orgId, sessionId)
    ensures IsCopied(name) ==> Column(row, name) == Get(c, name)
    ensures IsLocationColumn(name) || name.Kind? ==> Column(row, name) == Get(Get(c, Location), name)
  {
    assert Column(row, name) == Expected(c, orgId, sessionId, name);
  }

  lemma FoundConstraintMeans(row: Row)
    requires row.status != Null && row.kind != Null
    ensures Eval(Check(FoundRequiresSpan), row) ==
            Sure(row.status != Str("missing") && row.kind != Str("xlsx") ==> row.charStart != Null && row.charEnd != Null)
  {
    var a, b, span := Equals(Status, "missing"), Equals(Kind, "xlsx"), And(IsNotNull(CharStart), IsNotNull(CharEnd));
    assert Check(FoundRequiresSpan) == Or(Or(a, b), span);
    assert Eval(Or(a, b), row) == Sure(row.status == Str("missing") || row.kind == Str("xlsx"));
    assert Eval(span, row) == Sure(row.charStart != Null && row.charEnd != Null);
  }

  lemma MissingConstraintMeans(row: Row)
    requires row.status != Null
    ensures Eval(Check(MissingHasNoSpan), row) == Sure(row.status == Str("missing") ==> row.charStart == Null && row.charEnd == Null)
  {
    var found, bare := Differs(Status, "missing"), And(IsNull(CharStart), IsNull(CharEnd));
    assert Check(MissingHasNoSpan) == Or(found, bare);
    assert Eval(bare, row) == Sure(row.charStart == Null && row.charEnd == Null);
  }

  lemma CheckedConstraintMeans(row: Row)
    requires row.status.Str?
    ensures Eval(Check(CheckedRequiresMethod), row) == Sure(row.status.text in CHECKED_STATUSES ==> row.verificationMethod != Null)
  {
    var unchecked, method_ := NotIn(Status, CHECKED_STATUSES), IsNotNull(VerificationMethod);
    assert Check(CheckedRequiresMethod) == Or(unchecked, method_);
    assert Eval(unchecked, row) == Sure(row.status.text !in CHECKED_STATUSES);
  }

  /** The columns the constraints speak about, in terms of the claim. */
  lemma CopiedColumns(c: Json, row: Row, orgId: int, sessionId: string)
    requires IsRowOf(row, c, orgId, sessionId)
    ensures row.status == Get(c, Status) && row.verificationMethod == Get(c, VerificationMethod)
  {
    ColumnOf(row, c, orgId, sessionId, Status);
    ColumnOf(row, c, orgId, sessionId, VerificationMethod);
  }

  lemma ClassColumns(c: Json, row: Row, orgId: int, sessionId: string)
    requires IsRowOf(row, c, orgId, sessionId)
    ensures row.claimKind == Get(c, ClaimKind) && row.assertionClass == Get(c, AssertionClass)
    ensures row.periodKind == Get(c, PeriodKind)
  {
    ColumnOf(row, c, orgId, sessionId, ClaimKind);
    ColumnOf(row, c, orgId, sessionId, AssertionClass);
    ColumnOf(row, c, orgId, sessionId, PeriodKind);
  }

  lemma StoredIffPresent(c: Json, row: Row, orgId: int, sessionId: string, name: Name)
    requires IsRowOf(row, c, orgId, sessionId) && IsLocationColumn(name)
    requires Has(c, Location) && NoNullColumns(c.fields[Location])
    ensures Column(row, name) != Null <==> Has(c.fields[Location], name)
  {
    ColumnOf(row, c, orgId, sessionId, name);
  }

  lemma SpanColumns(c: Json, row: Row, orgId: int, sessionId: string)
    requires IsRowOf(row, c, orgId, sessionId)
    requires Has(c, Location) && NoNullColumns(c.fields[Location])
    ensures var l := c.fields[Location];
            && row.kind == Get(l, Kind)
            && (row.charStart != Null <==> Has(l, CharStart)) && (row.charEnd != Null <==> Has(l, CharEnd))
  {
    ColumnOf(row, c, orgId, sessionId, Kind);
    StoredIffPresent(c, row, orgId, sessionId, CharStart);
    StoredIffPresent(c, row, orgId, sessionId, CharEnd);
  }

  lemma LocatorColumns(c: Json, row: Row, orgId: int, sessionId: string)
    requires IsRowOf(row, c, orgId, sessionId)
    requires Has(c, Location) && NoNullColumns(c.fields[Location])
    ensures var l := c.fields[Location];
            && (row.page != Null <==> Has(l, Page)) && (row.paragraph != Null <==> Has(l, Paragraph))
            && (row.sheet != Null <==> Has(l, Sheet)) && (row.cellRef != Null <==> Has(l, CellRef))
  {
    StoredIffPresent(c, row, orgId, sessionId, Page);
    StoredIffPresent(c, row, orgId, sessionId, Paragraph);
    StoredIffPresent(c, row, orgId, sessionId, Sheet);
    StoredIffPresent(c, row, orgId, sessionId, CellRef);
  }

  /** For a claim that meets the unconditional part, the constraint holds or fails exactly as the rule does,
      and is never unknown. */
  lemma FoundConstraintMirrorsRule(c: Json, row: Row, orgId: int, sessionId: string)
    requires WellFormed(c) && IsRowOf(row, c, orgId, sessionId)
    ensures Eval(Check(FoundRequiresSpan), row) == Sure(Valid(FoundRule(), c))
  {
    FoundRuleMeans(c);
    KindsApart(c.fields[Location]);
    CopiedColumns(c, row, orgId, sessionId);
    SpanColumns(c, row, orgId, sessionId);
    FoundConstraintMeans(row);
  }

  lemma MissingConstraintMirrorsRule(c: Json, row: Row, orgId: int, sessionId: string)
    requires WellFormed(c) && IsRowOf(row, c, orgId, sessionId)
    ensures Eval(Check(MissingHasNoSpan), row) == Sure(Valid(MissingRule(), c))
  {
    MissingRuleMeans(c);
    CopiedColumns(c, row, orgId, sessionId);
    SpanColumns(c, row, orgId, sessionId);
    MissingConstraintMeans(row);
  }

  lemma CheckedConstraintMirrorsRule(c: Json, row: Row, orgId: int, sessionId: string)
    requires WellFormed(c) && IsRowOf(row, c, orgId, sessionId)
    ensures Eval(Check(CheckedRequiresMethod), row) == Sure(Valid(CheckedRule(), c))
  {
    CheckedRuleMeans(c);
    CopiedColumns(c, row, orgId, sessionId);
    CheckedConstraintMeans(row);
  }

  /** The qualitative constraint is the class half of its rule. */
  lemma QualitativeConstraintIsHalfTheRule(c: Json, row: Row, orgId: int, sessionId: string)
    requires WellFormed(c) && IsRowOf(row, c, orgId, sessionId)
    ensures Valid(QualitativeRule(), c) <==>
            Eval(Check(QualitativeHasClass), row) == Yes
            && (Get(c, ClaimKind) == Str("qualitative") ==> Valid(QualitativeValue(), c.fields[Value]))
  {
    QualitativeRuleMeans(c);
    ClassColumns(c, row, orgId, sessionId);
  }

  lemma ListedOrNull(row: Row, name: Name, texts: seq<string>)
    requires OneOfOrNull(Column(row, name), texts)
    ensures Eval(Or(IsNull(name), In(name, texts)), row) == Yes
  {
    assert Eval(IsNull(name), row) == Yes || Eval(In(name, texts), row) == Yes;
  }

  lemma ListedConstraintsHold(c: Json, row: Row, orgId: int, sessionId: string)
    requires WellFormed(c) && IsRowOf(row, c, orgId, sessionId)
    ensures Eval(Check(StatusListed), row) == Yes
    ensures Eval(Check(VerificationMethodListed), row) == Yes
    ensures Eval(Check(ClaimKindListed), row) == Yes
    ensures Eval(Check(AssertionClassListed), row) == Yes
    ensures Eval(Check(PeriodKindListed), row) == Yes
  {
    CopiedColumns(c, row, orgId, sessionId);
    ClassColumns(c, row, orgId, sessionId);
    ListedOrNull(row, VerificationMethod, VERIFICATION_METHODS);
    ListedOrNull(row, ClaimKind, CLAIM_KINDS);
    ListedOrNull(row, AssertionClass, ASSERTION_CLASSES);
    ListedOrNull(row, PeriodKind, ["A", "E", "P"]);
  }

  lemma KindListedHolds(c: Json, row: Row, orgId: int, sessionId: string)
    requires WellFormed(c) && IsRowOf(row, c, orgId, sessionId)
    ensures Eval(Check(KindListed), row) == Yes
  {
    ColumnOf(row, c, orgId, sessionId, Kind);
    assert LOCATION_KINDS[0] == "pdf" && LOCATION_KINDS[1] == "xlsx" && LOCATION_KINDS[2] == "docx";
  }

  lemma LocatorConstraintMeans(row: Row)
    requires row.kind != Null
    ensures Eval(Check(LocatorMatchesKind), row) ==
            Sure(|| (row.kind == Str("pdf") && row.page != Null)
                 || (row.kind == Str("xlsx") && row.sheet != Null && row.cellRef != Null)
                 || (row.kind == Str("docx") && row.paragraph != Null))
  {
    var pdf := And(Equals(Kind, "pdf"), IsNotNull(Page));
    var cell := And(IsNotNull(Sheet), IsNotNull(CellRef));
    var xlsx := And(Equals(Kind, "xlsx"), cell);
    var docx := And(Equals(Kind, "docx"), IsNotNull(Paragraph));
    assert Check(LocatorMatchesKind) == Or(Or(pdf, xlsx), docx);
    assert Eval(pdf, row) == Sure(row.kind == Str("pdf") && row.page != Null);
    assert Eval(cell, row) == Sure(row.sheet != Null && row.cellRef != Null);
    assert Eval(xlsx, row) == Sure(row.kind == Str("xlsx") && row.sheet != Null && row.cellRef != Null);
    assert Eval(docx, row) == Sure(row.kind == Str("docx") && row.paragraph != Null);
    assert Eval(Or(pdf, xlsx), row) == Sure(Eval(pdf, row) == Yes || Eval(xlsx, row) == Yes);
  }

  lemma LocatorHolds(c: Json, row: Row, orgId: int, sessionId: string)
    requires WellFormed(c) && IsRowOf(row, c, orgId, sessionId)
    ensures Eval(Check(LocatorMatchesKind), row) == Yes
  {
    SpanColumns(c, row, orgId, sessionId);
    LocatorColumns(c, row, orgId, sessionId);
    LocatorConstraintMeans(row);
  }

  /** A claim that the contract accepts satisfies every constraint outright: none is even unknown. */
  lemma ContractImpliesStorage(c: Json, row: Row, orgId: int, sessionId: string)
    requires Valid(ClaimSchema(), c) && IsRowOf(row, c, orgId, sessionId)
    ensures forall name :: Eval(Check(name), row) == Yes
  {
    ClaimSchemaSplits(c);
    BaseMeans(c);
    RulesByName(c);
    ListedConstraintsHold(c, row, orgId, sessionId);
    KindListedHolds(c, row, orgId, sessionId);
    LocatorHolds(c, row, orgId, sessionId);
    FoundConstraintMirrorsRule(c, row, orgId, sessionId);
    MissingConstraintMirrorsRule(c, row, orgId, sessionId);
    CheckedConstraintMirrorsRule(c, row, orgId, sessionId);
    QualitativeConstraintIsHalfTheRule(c, row, orgId, sessionId);
    forall name ensures Eval(Check(name), row) == Yes {
      match name {
        case StatusListed => {}
        case VerificationMethodListed => {}
        case KindListed => {}
        case ClaimKindListed => {}
        case AssertionClassListed => {}
        case QualitativeHasClass => {}
        case PeriodKindListed => {}
        case LocatorMatchesKind => {}
        case FoundRequiresSpan => {}
        case MissingHasNoSpan => {}
        case CheckedRequiresMethod => {}
      }
    }
  }

  lemma RulesByName(c: Json)
    requires Valid(ClaimSchema(), c)
    ensures Valid(FoundRule(), c) && Valid(MissingRule(), c) && Valid(CheckedRule(), c) && Valid(QualitativeRule(), c)
  {
    ClaimSchemaSplits(c);
    var rules := Rules();
    assert rules[0] == FoundRule() && rules[1] == MissingRule() && rules[2] == CheckedRule() && rules[4] == QualitativeRule();
  }

  // ---------- reading the citation back ----------

  function ReadBack(row: Row): Json {
    Obj(map name | name in [Kind] + LOCATION_COLUMNS && Column(row, name) != Null :: Column(row, name))
  }

  /** The members of a location that the table has columns for. */
  function Citation(l: Json): Json
    requires l.Obj?
  {
    Obj(map name | name in l.fields && (name.Kind? || IsLocationColumn(name)) :: l.fields[name])
  }

  lemma CitationNames(name: Name)
    ensures name in [Kind] + LOCATION_COLUMNS <==> name.Kind? || IsLocationColumn(name)
  {
    AllLocationColumns();
    var cs := LOCATION_COLUMNS;
    assert cs[..|cs|] == cs;
    if name in cs {
      var i :| 0 <= i < |cs| && cs[i] == name;
      LocationColumn(i);
    }
  }

  lemma CitationColumn(l: Json, c: Json, row: Row, orgId: int, sessionId: string, name: Name)
    requires IsRowOf(row, c, orgId, sessionId) && Has(c, Location) && c.fields[Location] == l
    requires NoNullColumns(l) && Has(l, Kind) && l.fields[Kind] != Null
    ensures var back, cited := ReadBack(row).fields, Citation(l).fields;
            (name in back <==> name in cited) && (name in back ==> back[name] == cited[name])
  {
    CitationNames(name);
    ColumnOf(row, c, orgId, sessionId, name);
  }

  lemma WellFormedReadsBack(c: Json, row: Row, orgId: int, sessionId: string)
    requires WellFormed(c) && IsRowOf(row, c, orgId, sessionId)
    ensures ReadBack(row) == Citation(c.fields[Location])
  {
    var l := c.fields[Location];
    var back, cited := ReadBack(row).fields, Citation(l).fields;
    forall name ensures (name in back <==> name in cited) && (name in back ==> back[name] == cited[name]) {
      CitationColumn(l, c, row, orgId, sessionId, name);
    }
    assert back == cited;
  }

  /** Locator and span survive the flattening: nothing is lost, nothing is made up. */
  lemma CitationReadsBack(c: Json, row: Row, orgId: int, sessionId: string)
    requires Valid(ClaimSchema(), c) && IsRowOf(row, c, orgId, sessionId)
    ensures Has(c, Location) && c.fields[Location].Obj? && ReadBack(row) == Citation(c.fields[Location])
  {
    ClaimSchemaSplits(c);
    BaseMeans(c);
    WellFormedReadsBack(c, row, orgId, sessionId);
  }

  // ---------- the ingest ----------

  /** The position of the first claim that violates the contract, if any. */
  method FirstInvalid(claims: seq<Json>) returns (bad: Option<nat>)
    ensures bad.None? ==> forall i :: 0 <= i < |claims| ==> Valid(ClaimSchema(), claims[i])
    ensures bad.Some? ==> bad.value < |claims| && !Valid(ClaimSchema(), claims[bad.value])
    ensures bad.Some? ==> forall i :: 0 <= i < bad.value ==> Valid(ClaimSchema(), claims[i])
  {
    var i := 0;
    while i < |claims|
      invariant 0 <= i <= |claims|
      invariant forall j :: 0 <= j < i ==> Valid(ClaimSchema(), claims[j])
    {
      if !Valid(ClaimSchema(), claims[i]) {
        return Some(i);
      }
      i := i + 1;
    }
    bad := None;
  }

  lemma ValidHasKeys(c: Json)
    requires Valid(ClaimSchema(), c)
    ensures HasKeys(c)
  {
    ClaimSchemaSplits(c);
    BaseMeans(c);
    KindsApart(c.fields[Location]);
  }

  /** Row of a claim that the table accepts and that still cites what the claim cites. */
  ghost predicate Faithful(row: Row, c: Json, orgId: int, sessionId: string) {
    && IsRowOf(row, c, orgId, sessionId)
    && (forall name :: Eval(Check(name), row) == Yes)
    && Has(c, Location) && c.fields[Location].Obj? && ReadBack(row) == Citation(c.fields[Location])
  }

  /** All claims or none: either the first violation is reported and there is nothing to insert, or every
      claim has its row, in order, and no row can be refused by a constraint. */
  method IngestClaims(claims: seq<Json>, orgId: int, sessionId: string) returns (r: Result<seq<Row>, nat>)
    ensures r.Success? <==> forall i :: 0 <= i < |claims| ==> Valid(ClaimSchema(), claims[i])
    ensures r.Failure? ==> r.error < |claims| && !Valid(ClaimSchema(), claims[r.error])
                           && forall i :: 0 <= i < r.error ==> Valid(ClaimSchema(), claims[i])
    ensures r.Success? ==> |r.value| == |claims| && forall i :: 0 <= i < |claims| ==> Faithful(r.value[i], claims[i], orgId, sessionId)
  {
    var bad := FirstInvalid(claims);
    if bad.Some? {
      return Failure(bad.value);
    }
    var rows := [];
    var i := 0;
    while i < |claims|
      invariant 0 <= i <= |claims| && |rows| == i
      invariant forall j :: 0 <= j < i ==> Faithful(rows[j], claims[j], orgId, sessionId)
    {
      ValidHasKeys(claims[i]);
      var row := RowFromClaim(claims[i], orgId, sessionId);
      ContractImpliesStorage(claims[i], row.value, orgId, sessionId);
      CitationReadsBack(claims[i], row.value, orgId, sessionId);
      rows := rows + [row.value];
      i := i + 1;
    }
    r := Success(rows);
  }
}
