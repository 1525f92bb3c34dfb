/** The entry points of the schema generator: each analyses the records, then
    assembles the top-level schema from one of the per-field builders. */
module Generator {
  import opened Json
  import opened Structure
  import opened Profiling
  import opened Schemas
  import opened Validation

  /** Which entry point a top-level schema comes from. */
  datatype Style =
    | Plain              // `_analyze_objects` / `_generate_schema_from_analysis`
    | BinaryAware        // `generate_binary_aware_schema`
    | Flexible           // `generate_flexible_schema`
    | FlexibleWithTypes  // `generate_flexible_with_types_schema`
    | Pydantic           // `generate_pydantic_model_with_any`
    | Hardened           // `generate_hardened_binary_schema`
    | Smart              // `generate_smart_hardened_schema_with_depth`
    | Corrected          // the plain schema with nullable fields; not in the source
  {
    /** The top level lists the required fields. */
    predicate ListsRequired() {
      !Flexible? && !FlexibleWithTypes?
    }

    /** The top level forbids keys it does not declare. */
    predicate Closed() {
      Hardened? || Smart?
    }
  }

  /** The schema one entry point gives the field `name`. */
  function PropertyFor(style: Style, name: string, a: FieldAnalysis): JSON {
    match style
    case Plain => PropertySchema(a)
    case BinaryAware => BinaryAwarePropertySchema(name, a)
    case Flexible => FlexiblePropertySchema(a)
    case FlexibleWithTypes => FlexibleWithTypesPropertySchema(a)
    case Pydantic => PydanticPropertySchema(name, a)
    case Hardened => HardenedPropertySchema(name, a)
    case Smart => SmartPropertySchema(name, a)
    case Corrected => NullablePropertySchema(a)
  }

  lemma CorrectedProperty(name: string, a: FieldAnalysis)
    ensures PropertyFor(Corrected, name, a) == NullablePropertySchema(a)
  {
  }

  /** The table with `required` kept only for fields that every one of the
      `n` records holds. */
  function Presence(t: Table<FieldAnalysis>, n: nat): Table<FieldAnalysis>
    requires forall k :: k in t.order ==> k in t.fields
  {
    Table(t.order, map k | k in t.order :: t.fields[k].(required := t.fields[k].required && t.fields[k].stats.totalCount == n))
  }

  /** The schema each analysed field gets from one entry point. */
  function SchemasOf(style: Style, fields: map<string, FieldAnalysis>): map<string, JSON> {
    map k | k in fields :: PropertyFor(style, k, fields[k])
  }

  /** `d[name] = vals[name]` for each name of `order`, in that order. */
  function Assigned(order: seq<string>, vals: map<string, JSON>): Members
    requires forall k :: k in order ==> k in vals
  {
    if order == [] then []
    else
      var name := order[|order| - 1];
      SetKey(Assigned(order[..|order| - 1], vals), name, vals[name])
  }

  /** `schema["properties"][name] = ...` for each field, in table order. */
  function PropertiesOf(style: Style, order: seq<string>, fields: map<string, FieldAnalysis>): Members
    requires forall k :: k in order ==> k in fields
  {
    Assigned(order, SchemasOf(style, fields))
  }

  /** `schema["required"].append(name)` for each field whose record is required. */
  function RequiredOf(order: seq<string>, fields: map<string, FieldAnalysis>): seq<string>
    requires forall k :: k in order ==> k in fields
  {
    if order == [] then []
    else
      var name := order[|order| - 1];
      RequiredOf(order[..|order| - 1], fields) + if fields[name].required then [name] else []
  }

  function SmartDescription(maxDepth: int): string {
    "Smart hardened schema with intelligent binary and mixed type handling (max depth: " + IntToString(maxDepth) + ")"
  }

  /** The members of a top-level schema around its `properties` and `required`. */
  function TopMembers(style: Style, props: Members, req: seq<string>, maxDepth: int): Members {
    TopHead(props)
    + TopRequired(style, req)
    + TopExtra(style, maxDepth)
  }

  function TopHead(props: Members): Members {
    [("$schema", JStr(SchemaDialect)), ("type", JStr("object")), ("properties", JObj(props))]
  }

  function TopRequired(style: Style, req: seq<string>): Members {
    if style.ListsRequired() then [("required", JArr(Strings(req)))] else []
  }

  /** `additionalProperties` and, for the smart schema, its `description`. */
  function TopExtra(style: Style, maxDepth: int): Members {
    match style
    case Flexible => [("additionalProperties", JBool(true))]
    case FlexibleWithTypes => [("additionalProperties", JBool(true))]
    case Hardened => [("additionalProperties", JBool(false))]
    case Smart => [("additionalProperties", JBool(false)), ("description", JStr(SmartDescription(maxDepth)))]
    case _ => []
  }

  /** The top-level schema an entry point builds from a finished table. */
  function TopLevel(style: Style, t: Table<FieldAnalysis>, maxDepth: int): JSON
    requires forall k :: k in t.order ==> k in t.fields
  {
    JObj(TopMembers(style, PropertiesOf(style, t.order, t.fields), RequiredOf(t.order, t.fields), maxDepth))
  }

  /** The loop every entry point runs over the table. */
  method BuildSchema(style: Style, t: Table<FieldAnalysis>, maxDepth: int) returns (schema: JSON)
    requires forall k :: k in t.order ==> k in t.fields
    ensures schema == TopLevel(style, t, maxDepth)
  {
    var props: Members := [];
    var req: seq<string> := [];
    for i := 0 to |t.order|
      invariant props == PropertiesOf(style, t.order[..i], t.fields)
      invariant req == RequiredOf(t.order[..i], t.fields)
    {
      var name := t.order[i];
      BuildStep(style, t, i);
      props := SetKey(props, name, PropertyFor(style, name, t.fields[name]));
      if t.fields[name].required {
        req := req + [name];
      }
    }
    assert t.order[..|t.order|] == t.order;
    schema := JObj(TopMembers(style, props, req, maxDepth));
  }

  /** What one more field adds to `properties` and `required`. */
  lemma BuildStep(style: Style, t: Table<FieldAnalysis>, i: nat)
    requires forall k :: k in t.order ==> k in t.fields
    requires i < |t.order|
    ensures var name := t.order[i];
      && PropertiesOf(style, t.order[..i + 1], t.fields) ==
           SetKey(PropertiesOf(style, t.order[..i], t.fields), name, PropertyFor(style, name, t.fields[name]))
      && RequiredOf(t.order[..i + 1], t.fields) ==
           RequiredOf(t.order[..i], t.fields) + (if t.fields[name].required then [name] else [])
  {
    assert t.order[..i + 1][..i] == t.order[..i];
  }

  // ---- the shape of the top level

  /** `properties` holds one entry per analysed field, in first-seen order,
      each with that field's schema. */
  lemma PropertiesShape(style: Style, order: seq<string>, fields: map<string, FieldAnalysis>)
    requires NoDuplicates(order)
    requires forall k :: k in order ==> k in fields
    ensures Keys(PropertiesOf(style, order, fields)) == order
    ensures forall j :: 0 <= j < |order| ==>
      PropertiesOf(style, order, fields)[j] == (order[j], PropertyFor(style, order[j], fields[order[j]]))
  {
    AssignedShape(order, SchemasOf(style, fields));
  }

  /** Distinct names each get one entry, in order, with their value. */
  lemma {:induction false} AssignedShape(order: seq<string>, vals: map<string, JSON>)
    requires NoDuplicates(order)
    requires forall k :: k in order ==> k in vals
    ensures Keys(Assigned(order, vals)) == order
    ensures forall j :: 0 <= j < |order| ==> Assigned(order, vals)[j] == (order[j], vals[order[j]])
  {
    if order != [] {
      var init := order[..|order| - 1];
      var name := order[|order| - 1];
      NoDuplicatesInit(order);
      AssignedShape(init, vals);
      AssignedStep(init, name, vals);
      assert init + [name] == order;
    }
  }

  lemma AssignedStep(init: seq<string>, name: string, vals: map<string, JSON>)
    requires forall k :: k in init ==> k in vals
    requires name in vals && name !in init
    requires Keys(Assigned(init, vals)) == init
    requires forall j :: 0 <= j < |init| ==> Assigned(init, vals)[j] == (init[j], vals[init[j]])
    ensures Keys(Assigned(init + [name], vals)) == init + [name]
    ensures forall j :: 0 <= j < |init| + 1 ==> Assigned(init + [name], vals)[j] == ((init + [name])[j], vals[(init + [name])[j]])
  {
    var order := init + [name];
    assert order[..|order| - 1] == init;
    SetKeyAppend(Assigned(init, vals), init, name, vals[name]);
  }

  /** `required` lists exactly the fields whose record is required, in
      first-seen order, each once: a subset of `properties`. */
  lemma {:induction false} RequiredShape(order: seq<string>, fields: map<string, FieldAnalysis>)
    requires NoDuplicates(order)
    requires forall k :: k in order ==> k in fields
    ensures forall k :: k in RequiredOf(order, fields) <==> k in order && fields[k].required
    ensures NoDuplicates(RequiredOf(order, fields))
  {
    if order != [] {
      var init := order[..|order| - 1];
      RequiredShape(init, fields);
      assert order == init + [order[|order| - 1]];
    }
  }

  /** `required` keeps the order of `properties`: its entries are taken from
      the table's order at strictly increasing positions. */
  lemma {:induction false} RequiredInOrder(order: seq<string>, fields: map<string, FieldAnalysis>) returns (pos: seq<nat>)
    requires forall k :: k in order ==> k in fields
    ensures |pos| == |RequiredOf(order, fields)|
    ensures forall i :: 0 <= i < |pos| ==> pos[i] < |order| && order[pos[i]] == RequiredOf(order, fields)[i]
    ensures forall i, j :: 0 <= i < j < |pos| ==> pos[i] < pos[j]
  {
    if order == [] {
      pos := [];
    } else {
      var init := order[..|order| - 1];
      var p := RequiredInOrder(init, fields);
      var name := order[|order| - 1];
      assert forall i :: 0 <= i < |init| ==> order[i] == init[i];
      if fields[name].required {
        pos := p + [|order| - 1];
      } else {
        pos := p;
      }
    }
  }

  // ---- the entry points

  /** `_validate_schema(schema, objects)`: the index of the first record the
      schema rejects, if any. */
  method ValidateSchema(schema: JSON, objects: seq<Members>) returns (failed: Option<nat>)
    ensures failed.None? <==> forall i :: 0 <= i < |objects| ==> Admits(schema, JObj(objects[i]))
    ensures failed.Some? ==>
      && failed.value < |objects|
      && !Admits(schema, JObj(objects[failed.value]))
      && forall j :: 0 <= j < failed.value ==> Admits(schema, JObj(objects[j]))
  {
    for i := 0 to |objects|
      invariant forall j :: 0 <= j < i ==> Admits(schema, JObj(objects[j]))
    {
      if !Admits(schema, JObj(objects[i])) {
        return Some(i);
      }
    }
    return None;
  }

  /** `_analyze_objects` (and its alias `analyze_json_list`): the plain
      schema, checked against the records it was built from. */
  method AnalyzeObjects(objects: seq<Members>) returns (r: Result<JSON>)
    ensures objects == [] ==> r == Failure(EmptyInput)
    ensures r.Success? ==>
      && objects != []
      && r.value == TopLevel(Plain, Profile(objects), 0)
      && forall i :: 0 <= i < |objects| ==> Admits(r.value, JObj(objects[i]))
    ensures objects != [] ==>
      (r.Success? <==> forall i :: 0 <= i < |objects| ==> Admits(TopLevel(Plain, Profile(objects), 0), JObj(objects[i])))
    ensures r.Failure? && objects != [] ==>
      && r.error.RejectsInput?
      && r.error.index < |objects|
      && !Admits(TopLevel(Plain, Profile(objects), 0), JObj(objects[r.error.index]))
      && forall j :: 0 <= j < r.error.index ==> Admits(TopLevel(Plain, Profile(objects), 0), JObj(objects[j]))
  {
    if objects == [] {
      return Failure(EmptyInput);
    }
    var t := AnalyzeFields(objects);
    ProfileOrder(objects, 0);
    var schema := BuildSchema(Plain, t, 0);
    var failed := ValidateSchema(schema, objects);
    if failed.Some? {
      return Failure(RejectsInput(failed.value));
    }
    return Success(schema);
  }

  /** An entry point that builds its schema from the flat profile without
      checking it. */
  method GenerateFlat(style: Style, objects: seq<Members>) returns (r: Result<JSON>)
    ensures objects == [] <==> r == Failure(EmptyInput)
    ensures r.Success? ==> r.value == TopLevel(style, Profile(objects), 0)
  {
    if objects == [] {
      return Failure(EmptyInput);
    }
    var t := AnalyzeFields(objects);
    ProfileOrder(objects, 0);
    var schema := BuildSchema(style, t, 0);
    return Success(schema);
  }

  /** `generate_flexible_schema` */
  method GenerateFlexibleSchema(objects: seq<Members>) returns (r: Result<JSON>)
    ensures objects == [] <==> r == Failure(EmptyInput)
    ensures r.Success? ==> r.value == TopLevel(Flexible, Profile(objects), 0)
  {
    r := GenerateFlat(Flexible, objects);
  }

  /** `generate_binary_aware_schema` */
  method GenerateBinaryAwareSchema(objects: seq<Members>) returns (r: Result<JSON>)
    ensures objects == [] <==> r == Failure(EmptyInput)
    ensures r.Success? ==> r.value == TopLevel(BinaryAware, Profile(objects), 0)
  {
    r := GenerateFlat(BinaryAware, objects);
  }

  /** `generate_flexible_with_types_schema` */
  method GenerateFlexibleWithTypesSchema(objects: seq<Members>) returns (r: Result<JSON>)
    ensures objects == [] <==> r == Failure(EmptyInput)
    ensures r.Success? ==> r.value == TopLevel(FlexibleWithTypes, Profile(objects), 0)
  {
    r := GenerateFlat(FlexibleWithTypes, objects);
  }

  /** `generate_pydantic_model_with_any` */
  method GeneratePydanticModelWithAny(objects: seq<Members>) returns (r: Result<JSON>)
    ensures objects == [] <==> r == Failure(EmptyInput)
    ensures r.Success? ==> r.value == TopLevel(Pydantic, Profile(objects), 0)
  {
    r := GenerateFlat(Pydantic, objects);
  }

  /** `generate_hardened_binary_schema` */
  method GenerateHardenedBinarySchema(objects: seq<Members>) returns (r: Result<JSON>)
    ensures objects == [] <==> r == Failure(EmptyInput)
    ensures r.Success? ==> r.value == TopLevel(Hardened, Profile(objects), 0)
  {
    r := GenerateFlat(Hardened, objects);
  }

  /** `generate_smart_hardened_schema_with_depth` */
  method GenerateSmartHardenedSchemaWithDepth(objects: seq<Members>, maxDepth: int) returns (r: Result<JSON>)
    ensures objects == [] <==> r == Failure(EmptyInput)
    ensures r.Success? ==> r.value == TopLevel(Smart, DeepProfile(objects, maxDepth), maxDepth)
  {
    if objects == [] {
      return Failure(EmptyInput);
    }
    var t := AnalyzeFieldsDeep(objects, maxDepth);
    ProfileOrder(objects, 0);
    var schema := BuildSchema(Smart, t, maxDepth);
    return Success(schema);
  }

  /** `generate_smart_hardened_schema`: the smart schema at depth 100. */
  method GenerateSmartHardenedSchema(objects: seq<Members>) returns (r: Result<JSON>)
    ensures objects == [] <==> r == Failure(EmptyInput)
    ensures r.Success? ==> r.value == TopLevel(Smart, DeepProfile(objects, 100), 100)
  {
    r := GenerateSmartHardenedSchemaWithDepth(objects, 100);
  }
}
