/** Storing a claim: the CHECK constraints of the claims table as data with SQL's three-valued logic,
    the flattening of a claim into a row, and the agreement of the two with the contract. */
module ClaimStorage {
  import opened Prelude
  import opened ClaimNames
  import opened JsonSchema
  import opened ClaimContract

  // ---------- rows and constraints ----------

  // The columns the ingest sets; Null is NULL. The others keep their defaults.
  datatype Row = Row(orgId: Json, sessionId: Json, entity: Json, attribute: Json, periodYear: Json, periodKind: Json, value: Json,
                     kind: Json, page: Json, charStart: Json, charEnd: Json, bbox: Json, sheet: Json, cellRef: Json,
                     paragraph: Json, status: Json, verificationMethod: Json, section: Json, claimKind: Json, assertionClass: Json, flags: Json)

  function Column(row: Row, name: Name): Json {
    match name
    case OrgId => row.orgId
    case SessionId => row.sessionId
    case Entity => row.entity
    case Attribute => row.attribute
    case PeriodYear => row.periodYear
    case PeriodKind => row.periodKind
    case Value => row.value
    case Kind => row.kind
    case Page => row.page
    case CharStart => row.charStart
    case CharEnd => row.charEnd
    case Bbox => row.bbox
    case Sheet => row.sheet
    case CellRef => row.cellRef
    case Paragraph => row.paragraph
    case Status => row.status
    case VerificationMethod => row.verificationMethod
    case Section => row.section
    case ClaimKind => row.claimKind
    case AssertionClass => row.assertionClass
    case Flags => row.flags
    case _ => Null
  }

  /** `setattr` for a location column. */
  function SetColumn(row: Row, name: Name, v: Json): Row
    requires IsLocationColumn(name)
  {
    match name
    case Page => row.(page := v)
    case CharStart => row.(charStart := v)
    case CharEnd => row.(charEnd := v)
    case Bbox => row.(bbox := v)
    case Sheet => row.(sheet := v)
    case CellRef => row.(cellRef := v)
    case Paragraph => row.(paragraph := v)
  }

  datatype Truth = Yes | No | Unknown

  datatype Expr =
    | IsNull(column: Name)
    | IsNotNull(column: Name)
    | Equals(column: Name, text: string)
    | Differs(column: Name, text: string)
    | IsDistinctFrom(column: Name, text: string)
    | In(column: Name, texts: seq<string>)
    | NotIn(column: Name, texts: seq<string>)
    | And(left: Expr, right: Expr)
    | Or(left: Expr, right: Expr)

  function Sure(b: bool): Truth {
    if b then Yes else No
  }

  function Compare(v: Json, b: bool): Truth {
    if v == Null then Unknown else Sure(b)
  }

  function Eval(e: Expr, row: Row): Truth {
    match e
    case IsNull(c) => Sure(Column(row, c) == Null)
    case IsNotNull(c) => Sure(Column(row, c) != Null)
    case Equals(c, t) => Compare(Column(row, c), Column(row, c) == Str(t))
    case Differs(c, t) => Compare(Column(row, c), Column(row, c) != Str(t))
    case IsDistinctFrom(c, t) => Sure(Column(row, c) != Str(t))
    case In(c, ts) => Compare(Column(row, c), Column(row, c).Str? && Column(row, c).text in ts)
    case NotIn(c, ts) => Compare(Column(row, c), !(Column(row, c).Str? && Column(row, c).text in ts))
    case And(a, b) =>
      if Eval(a, row) == No || Eval(b, row) == No then No
      else if Eval(a, row) == Yes && Eval(b, row) == Yes then Yes
      else Unknown
    case Or(a, b) =>
      if Eval(a, row) == Yes || Eval(b, row) == Yes then Yes
      else if Eval(a, row) == No && Eval(b, row) == No then No
      else Unknown
  }

  const STATUSES := ["proposed", "cited", "rejected", "missing", "conflicted", "inconclusive", "partially_verified", "verified"]
  const CHECKED_STATUSES := ["cited", "conflicted", "inconclusive", "partially_verified", "verified"]
  const VERIFICATION_METHODS := ["exact_span", "formula_reexecution", "direct_read", "reranker", "human_review"]
  const LOCATION_KINDS := ["pdf", "xlsx", "docx"]
  const CLAIM_KINDS := ["quantitative", "qualitative"]
  const ASSERTION_CLASSES := ["related_party", "operating_model", "market_definition", "competitive_position",
                              "commercial_terms", "risk_or_dependency", "plan_or_commitment"]

  datatype CheckName =
    | StatusListed
    | VerificationMethodListed
    | KindListed
    | ClaimKindListed
    | AssertionClassListed
    | QualitativeHasClass
    | PeriodKindListed
    | LocatorMatchesKind
    | FoundRequiresSpan
    | MissingHasNoSpan
    | CheckedRequiresMethod

  function Check(name: CheckName): Expr {
    match name
    case StatusListed => In(Status, STATUSES)
    case VerificationMethodListed => Or(IsNull(VerificationMethod), In(VerificationMethod, VERIFICATION_METHODS))
    case KindListed => In(Kind, LOCATION_KINDS)
    case ClaimKindListed => Or(IsNull(ClaimKind), In(ClaimKind, CLAIM_KINDS))
    case AssertionClassListed => Or(IsNull(AssertionClass), In(AssertionClass, ASSERTION_CLASSES))
    case QualitativeHasClass => Or(IsDistinctFrom(ClaimKind, "qualitative"), IsNotNull(AssertionClass))
    case PeriodKindListed => Or(IsNull(PeriodKind), In(PeriodKind, ["A", "E", "P"]))
    case LocatorMatchesKind =>
      Or(Or(And(Equals(Kind, "pdf"), IsNotNull(Page)),
            And(Equals(Kind, "xlsx"), And(IsNotNull(Sheet), IsNotNull(CellRef)))),
         And(Equals(Kind, "docx"), IsNotNull(Paragraph)))
    case FoundRequiresSpan =>
      Or(Or(Equals(Status, "missing"), Equals(Kind, "xlsx")), And(IsNotNull(CharStart), IsNotNull(CharEnd)))
    case MissingHasNoSpan =>
      Or(Differs(Status, "missing"), And(IsNull(CharStart), IsNull(CharEnd)))
    case CheckedRequiresMethod => Or(NotIn(Status, CHECKED_STATUSES), IsNotNull(VerificationMethod))
  }

  // ---------- flattening ----------

  const LOCATION_COLUMNS := [Page, CharStart, CharEnd, Bbox, Sheet, CellRef, Paragraph]
  predicate IsLocationColumn(name: Name) {
    name.Page? || name.CharStart? || name.CharEnd? || name.Bbox? || name.Sheet? || name.CellRef? || name.Paragraph?
  }

  predicate IsCopied(name: Name) {
    || name.Entity? || name.Attribute? || name.Value? || name.Status?
    || name.PeriodYear? || name.PeriodKind? || name.VerificationMethod? || name.Section? || name.ClaimKind? || name.AssertionClass?
  }

  /** `d.get(name)`. */
  function Get(v: Json, name: Name): Json {
    if v.Obj? && name in v.fields then v.fields[name] else Null
  }

  /** `v or None`. */
  function OrNone(v: Json): Json {
    if v == Bool(false) || v == Number(0.0) || v == Str("") || v == Arr([]) || v == Obj(map[]) then Null else v
  }

  /** The keys that are read with `[]`: without one of them the flattening raises. */
  predicate HasKeys(claim: Json) {
    && claim.Obj?
    && Location in claim.fields
    && Entity in claim.fields && Attribute in claim.fields && Value in claim.fields && Status in claim.fields
    && claim.fields[Location].Obj?
    && Kind in claim.fields[Location].fields
  }

  /** What each column of the row should hold. */
  function Expected(claim: Json, orgId: int, sessionId: string, name: Name): Json {
    if name.OrgId? then Number(orgId as real)
    else if name.SessionId? then Str(sessionId)
    else if IsCopied(name) then Get(claim, name)
    else if name.Flags? then OrNone(Get(claim, Flags))
    else if name.Kind? || IsLocationColumn(name) then Get(Get(claim, Location), name)
    else Null
  }

  ghost predicate IsRowOf(row: Row, claim: Json, orgId: int, sessionId: string) {
    forall name :: Column(row, name) == Expected(claim, orgId, sessionId, name)
  }

  /** The constructor call, before the location columns are set. */
  function Constructed(claim: Json, orgId: int, sessionId: string): Row
    requires HasKeys(claim)
  {
    Row(orgId := Number(orgId as real), sessionId := Str(sessionId),
        entity := claim.fields[Entity], attribute := claim.fields[Attribute], value := claim.fields[Value],
        periodYear := Get(claim, PeriodYear), periodKind := Get(claim, PeriodKind),
        status := claim.fields[Status], verificationMethod := Get(claim, VerificationMethod), section := Get(claim, Section),
        flags := OrNone(Get(claim, Flags)),
        claimKind := Get(claim, ClaimKind), assertionClass := Get(claim, AssertionClass),
        kind := claim.fields[Location].fields[Kind],
        page := Null, charStart := Null, charEnd := Null, bbox := Null, sheet := Null, cellRef := Null, paragraph := Null)
  }

  lemma ConstructedCopies(claim: Json, orgId: int, sessionId: string, name: Name)
    requires HasKeys(claim) && IsCopied(name)
    ensures Column(Constructed(claim, orgId, sessionId), name) == Get(claim, name)
  {
  }

  lemma ConstructedOthers(claim: Json, orgId: int, sessionId: string, name: Name)
    requires HasKeys(claim) && !IsCopied(name) && !IsLocationColumn(name)
    ensures Column(Constructed(claim, orgId, sessionId), name) == Expected(claim, orgId, sessionId, name)
  {
  }

  lemma ConstructedColumns(claim: Json, orgId: int, sessionId: string, name: Name)
    requires HasKeys(claim)
    ensures Column(Constructed(claim, orgId, sessionId), name) ==
            if IsLocationColumn(name) then Null else Expected(claim, orgId, sessionId, name)
  {
    if IsCopied(name) {
      ConstructedCopies(claim, orgId, sessionId, name);
    } else if !IsLocationColumn(name) {
      ConstructedOthers(claim, orgId, sessionId, name);
    }
  }

  lemma SetColumnSets(row: Row, name: Name, v: Json)
    requires IsLocationColumn(name)
    ensures Column(SetColumn(row, name, v), name) == v
  {
  }

  lemma SetColumnKeeps(row: Row, name: Name, v: Json, other: Name)
    requires IsLocationColumn(name) && other != name
    ensures Column(SetColumn(row, name, v), other) == Column(row, other)
  {
  }

  /** What a column holds when the loop has set the first `i` location columns. */
  function Halfway(claim: Json, orgId: int, sessionId: string, i: nat, name: Name): Json
    requires i <= |LOCATION_COLUMNS|
  {
    if IsLocationColumn(name) && name !in LOCATION_COLUMNS[..i] then Null else Expected(claim, orgId, sessionId, name)
  }

  lemma HalfwayStarts(claim: Json, orgId: int, sessionId: string, name: Name)
    requires HasKeys(claim)
    ensures Column(Constructed(claim, orgId, sessionId), name) == Halfway(claim, orgId, sessionId, 0, name)
  {
    ConstructedColumns(claim, orgId, sessionId, name);
  }

  lemma HalfwayStep(claim: Json, orgId: int, sessionId: string, i: nat, name: Name)
    requires i < |LOCATION_COLUMNS|
    ensures name != LOCATION_COLUMNS[i] ==>
              Halfway(claim, orgId, sessionId, i + 1, name) == Halfway(claim, orgId, sessionId, i, name)
  {
    LocationColumn(i);
  }

  lemma HalfwayTurns(claim: Json, orgId: int, sessionId: string, i: nat)
    requires i < |LOCATION_COLUMNS|
    ensures Halfway(claim, orgId, sessionId, i, LOCATION_COLUMNS[i]) == Null
    ensures Halfway(claim, orgId, sessionId, i + 1, LOCATION_COLUMNS[i]) == Get(Get(claim, Location), LOCATION_COLUMNS[i])
  {
    LocationColumn(i);
  }

  method RowFromClaim(claim: Json, orgId: int, sessionId: string) returns (r: Option<Row>)
    ensures r.Some? <==> HasKeys(claim)
    ensures r.Some? ==> IsRowOf(r.value, claim, orgId, sessionId)
  {
    if !HasKeys(claim) {
      return None;
    }
    var location := claim.fields[Location];
    var row := Constructed(claim, orgId, sessionId);
    forall name ensures Column(row, name) == Halfway(claim, orgId, sessionId, 0, name) {
      HalfwayStarts(claim, orgId, sessionId, name);
    }
    var i := 0;
    while i < |LOCATION_COLUMNS|
      invariant 0 <= i <= |LOCATION_COLUMNS|
      invariant forall name :: Column(row, name) == Halfway(claim, orgId, sessionId, i, name)
    {
      var key := LOCATION_COLUMNS[i];
      LocationColumn(i);
      HalfwayTurns(claim, orgId, sessionId, i);
      ghost var was := row;
      if key in location.fields {
        row := SetColumn(row, key, location.fields[key]);
      }
      forall name ensures Column(row, name) == Halfway(claim, orgId, sessionId, i + 1, name) {
        HalfwayStep(claim, orgId, sessionId, i, name);
        assert Column(was, name) == Halfway(claim, orgId, sessionId, i, name);
        if key in location.fields {
          SetColumnSets(was, key, location.fields[key]);
          if name != key {
            SetColumnKeeps(was, key, location.fields[key], name);
          }
        }
      }
      i := i + 1;
    }
    AllLocationColumns();
    r := Some(row);
    forall name ensures Column(row, name) == Expected(claim, orgId, sessionId, name) {
      assert Column(row, name) == Halfway(claim, orgId, sessionId, i, name);
    }
  }

  lemma LocationColumn(i: nat)
    requires i < |LOCATION_COLUMNS|
    ensures IsLocationColumn(LOCATION_COLUMNS[i])
    ensures LOCATION_COLUMNS[i] !in LOCATION_COLUMNS[..i]
    ensures forall name :: name in LOCATION_COLUMNS[..i + 1] <==> name in LOCATION_COLUMNS[..i] || name == LOCATION_COLUMNS[i]
  {
    assert LOCATION_COLUMNS[..i + 1] == LOCATION_COLUMNS[..i] + [LOCATION_COLUMNS[i]];
  }

  lemma AllLocationColumns()
    ensures forall name :: IsLocationColumn(name) ==> name in LOCATION_COLUMNS[..|LOCATION_COLUMNS|]
  {
    var cs := LOCATION_COLUMNS;
    assert cs[0] == Page && cs[1] == CharStart && cs[2] == CharEnd && cs[3] == Bbox && cs[4] == Sheet && cs[5] == CellRef && cs[6] == Paragraph;
    assert cs[..|cs|] == cs;
  }
}
