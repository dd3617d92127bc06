/** JSON values, JSON Schema documents as data, and what it means for a value to be valid: the
    applicators and assertions of draft 2020-12 that the claim contract uses. `format` is an
    annotation there and has no keyword here. */
module JsonSchema {
  import opened ClaimNames

  datatype Json =
    | Null
    | Bool(flag: bool)
    | Number(value: real)
    | Str(text: string)
    | Arr(items: seq<Json>)
    | Obj(fields: map<Name, Json>)

  datatype JsonType = NullType | BooleanType | IntegerType | NumberType | StringType | ArrayType | ObjectType

  datatype Property = Property(name: Name, schema: Schema)

  datatype Schema = Always | Never | Keywords(keywords: seq<Keyword>)

  datatype Keyword =
    | Type(kinds: seq<JsonType>)
    | Const(value: Json)
    | Enum(values: seq<Json>)
    | Required(names: seq<Name>)
    | Properties(properties: seq<Property>)
    | NoAdditionalProperties
    | Items(schema: Schema)
    | MinItems(least: nat)
    | MaxItems(most: nat)
    | AllOf(schemas: seq<Schema>)
    | AnyOf(schemas: seq<Schema>)
    | OneOf(schemas: seq<Schema>)
    | Not(schema: Schema)
    | If(condition: Schema, consequence: Schema, alternative: Schema)

  predicate HasKind(v: Json, kind: JsonType) {
    match kind
    case NullType => v.Null?
    case BooleanType => v.Bool?
    case IntegerType => v.Number? && v.value == v.value.Floor as real
    case NumberType => v.Number?
    case StringType => v.Str?
    case ArrayType => v.Arr?
    case ObjectType => v.Obj?
  }

  /** The names that the `properties` keywords beside `additionalProperties` declare. */
  predicate Declares(keywords: seq<Keyword>, name: Name) {
    exists i :: 0 <= i < |keywords| && keywords[i].Properties? && Names(keywords[i].properties, name)
  }

  predicate Names(properties: seq<Property>, name: Name) {
    exists i :: 0 <= i < |properties| && properties[i].name == name
  }

  predicate Valid(s: Schema, v: Json)
    decreases s, 1
  {
    match s
    case Always => true
    case Never => false
    case Keywords(ks) => forall i :: 0 <= i < |ks| ==> Holds(ks[i], ks, v)
  }

  predicate Holds(k: Keyword, siblings: seq<Keyword>, v: Json)
    decreases k, 0
  {
    match k
    case Type(kinds) => exists i :: 0 <= i < |kinds| && HasKind(v, kinds[i])
    case Const(value) => v == value
    case Enum(values) => v in values
    case Required(names) => v.Obj? ==> forall i :: 0 <= i < |names| ==> names[i] in v.fields
    case Properties(ps) =>
      v.Obj? ==> forall i :: 0 <= i < |ps| && ps[i].name in v.fields ==> Valid(ps[i].schema, v.fields[ps[i].name])
    case NoAdditionalProperties => v.Obj? ==> forall name :: name in v.fields ==> Declares(siblings, name)
    case Items(s) => v.Arr? ==> forall i :: 0 <= i < |v.items| ==> Valid(s, v.items[i])
    case MinItems(n) => v.Arr? ==> n <= |v.items|
    case MaxItems(n) => v.Arr? ==> |v.items| <= n
    case AllOf(ss) => forall i :: 0 <= i < |ss| ==> Valid(ss[i], v)
    case AnyOf(ss) => exists i :: 0 <= i < |ss| && Valid(ss[i], v)
    case OneOf(ss) => exists i :: 0 <= i < |ss| && Valid(ss[i], v) && forall j :: 0 <= j < |ss| && j != i ==> !Valid(ss[j], v)
    case Not(s) => !Valid(s, v)
    case If(c, t, e) => if Valid(c, v) then Valid(t, v) else Valid(e, v)
  }

  // ---------- using a schema one keyword at a time ----------

  lemma ValidHolds(s: Schema, i: nat, v: Json)
    requires Valid(s, v) && s.Keywords? && i < |s.keywords|
    ensures Holds(s.keywords[i], s.keywords, v)
  {
  }

  lemma Single(k: Keyword, v: Json)
    ensures Valid(Keywords([k]), v) <==> Holds(k, [k], v)
  {
    var s := Keywords([k]);
    assert s.keywords[0] == k;
  }

  lemma Double(k: Keyword, l: Keyword, v: Json)
    ensures Valid(Keywords([k, l]), v) <==> Holds(k, [k, l], v) && Holds(l, [k, l], v)
  {
    var s := Keywords([k, l]);
    assert s.keywords[0] == k && s.keywords[1] == l;
  }

  lemma Quadruple(k: Keyword, l: Keyword, m: Keyword, n: Keyword, v: Json)
    ensures var ks := [k, l, m, n];
            Valid(Keywords(ks), v) <==> Holds(k, ks, v) && Holds(l, ks, v) && Holds(m, ks, v) && Holds(n, ks, v)
  {
    var s := Keywords([k, l, m, n]);
    assert s.keywords[0] == k && s.keywords[1] == l && s.keywords[2] == m && s.keywords[3] == n;
  }

  lemma OneProperty(name: Name, s: Schema, siblings: seq<Keyword>, v: Json)
    requires v.Obj?
    ensures Holds(Properties([Property(name, s)]), siblings, v) <==> (name in v.fields ==> Valid(s, v.fields[name]))
  {
    var ps := [Property(name, s)];
    assert ps[0].name == name;
  }

  lemma TwoProperties(a: Name, s: Schema, b: Name, t: Schema, siblings: seq<Keyword>, v: Json)
    requires v.Obj?
    ensures Holds(Properties([Property(a, s), Property(b, t)]), siblings, v) <==>
            (a in v.fields ==> Valid(s, v.fields[a])) && (b in v.fields ==> Valid(t, v.fields[b]))
  {
    var ps := [Property(a, s), Property(b, t)];
    assert ps[0].name == a && ps[1].name == b;
  }

  lemma SameBeside(ks: seq<Keyword>, ss: seq<Schema>, k: Keyword, v: Json)
    ensures Holds(k, ks + [AllOf(ss)], v) <==> Holds(k, ks, v)
  {
    SameDeclarations(ks, ss);
  }

  /** An `allOf` beside other keywords is their conjunction. */
  lemma AppendAllOf(ks: seq<Keyword>, ss: seq<Schema>, v: Json)
    ensures Valid(Keywords(ks + [AllOf(ss)]), v) <==> Valid(Keywords(ks), v) && forall i :: 0 <= i < |ss| ==> Valid(ss[i], v)
  {
    var all := ks + [AllOf(ss)];
    forall i | 0 <= i < |ks| ensures all[i] == ks[i] && (Holds(all[i], all, v) <==> Holds(ks[i], ks, v)) {
      SameBeside(ks, ss, ks[i], v);
    }
    assert all[|ks|] == AllOf(ss);
    assert Valid(Keywords(all), v) <==> (forall i :: 0 <= i < |ks| ==> Holds(all[i], all, v)) && Holds(all[|ks|], all, v);
  }

  lemma SameDeclarations(ks: seq<Keyword>, ss: seq<Schema>)
    ensures forall name :: Declares(ks + [AllOf(ss)], name) <==> Declares(ks, name)
  {
    var all := ks + [AllOf(ss)];
    forall name ensures Declares(all, name) <==> Declares(ks, name) {
      if Declares(ks, name) {
        var i :| 0 <= i < |ks| && ks[i].Properties? && Names(ks[i].properties, name);
        assert all[i] == ks[i];
      }
    }
  }
}
