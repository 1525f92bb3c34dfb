/** The per-field schema builders: each turns one finished field record into
    the JSON Schema fragment for that field. */
module Schemas {
  import opened Json
  import opened Classifiers
  import opened Structure
  import opened Profiling

  const SchemaDialect := "http://json-schema.org/draft-2020-12/schema#"
  const OctetStream := "application/octet-stream"

  function TypeSchema(t: string): JSON {
    JObj([("type", JStr(t))])
  }

  const NullSchema := TypeSchema("null")
  const AnyObjectSchema := JObj([("type", JStr("object")), ("additionalProperties", JBool(true))])
  const AnyArraySchema := JObj([("type", JStr("array")), ("items", JObj([]))])

  function OneOf(alts: seq<JSON>): JSON {
    JObj([("oneOf", JArr(alts))])
  }

  /** The seven alternatives that are meant to allow any value. */
  const AnyValueAlternatives: seq<JSON> := [
    TypeSchema("string"),
    TypeSchema("number"),
    TypeSchema("integer"),
    TypeSchema("boolean"),
    AnyObjectSchema,
    AnyArraySchema,
    NullSchema
  ]

  /** `schema.get("type")` compared with a type name. */
  predicate HasType(schema: JSON, t: string) {
    Get(schema, "type") == Some(JStr(t))
  }

  /** `d.update({key: value})` or `d[key] = value` on a schema object. */
  function Set(schema: JSON, key: string, value: JSON): JSON {
    if schema.JObj? then JObj(SetKey(schema.members, key, value)) else schema
  }

  /** The `format` a string schema gets from the pattern set. */
  function FormatOf(ps: set<Pattern>): Option<string> {
    if Email in ps then Some("email")
    else if Url in ps then Some("uri")
    else if DateTime in ps then Some("date-time")
    else if Uuid in ps then Some("uuid")
    else None
  }

  /** The format is named after the first of email, URL, date/time and UUID
      that the values showed, in the order the classifier tries them. */
  lemma FormatPriority(ps: set<Pattern>)
    ensures FormatOf(ps).None? <==> ps == {}
    ensures FormatOf(ps) == Some("email") <==> Email in ps
    ensures FormatOf(ps) == Some("uri") <==> Url in ps && Email !in ps
    ensures FormatOf(ps) == Some("date-time") <==> DateTime in ps && Email !in ps && Url !in ps
    ensures FormatOf(ps) == Some("uuid") <==> ps == {Uuid}
  {
    if FormatOf(ps).None? {
      forall p | p in ps ensures false {
        match p
        case Email =>
        case Url =>
        case DateTime =>
        case Uuid =>
      }
    }
    if FormatOf(ps) == Some("uuid") {
      forall p | p in ps ensures p == Uuid {
        match p
        case Email =>
        case Url =>
        case DateTime =>
        case Uuid =>
      }
    }
  }

  function OptionalInt(key: string, n: Option<nat>): Members {
    if n.Some? then [(key, JInt(n.value))] else []
  }

  // ---- the plain builders

  /** `_generate_string_schema` */
  function StringSchema(a: FieldAnalysis): JSON {
    if a.nullPercentage.Positive() then OneOf([TypeSchema("string"), NullSchema])
    else
      JObj([("type", JStr("string"))]
        + OptionalInt("minLength", a.stats.minLength)
        + OptionalInt("maxLength", a.stats.maxLength)
        + FormatMembers(a.stats.patterns)
        + Base64Members(a.stats.isBinary))
  }

  function FormatMembers(ps: set<Pattern>): Members {
    match FormatOf(ps)
    case Some(f) => [("format", JStr(f))]
    case None => []
  }

  function Base64Members(isBinary: bool): Members {
    if isBinary then [("contentEncoding", JStr("base64")), ("contentMediaType", JStr(OctetStream))] else []
  }

  /** `_generate_numeric_schema` */
  function NumericSchema(a: FieldAnalysis): JSON {
    JObj([("type", JStr(NumericType(a.stats.types)))]
      + OptionalNum("minimum", a.stats.minValue)
      + OptionalNum("maximum", a.stats.maxValue))
  }

  /** `number` once a float was seen, `integer` otherwise. */
  function NumericType(ts: set<TypeTag>): string {
    if TFloat in ts then "number" else "integer"
  }

  function OptionalNum(key: string, n: Option<Num>): Members {
    if n.Some? then [(key, n.value.ToJson())] else []
  }

  /** `_generate_boolean_schema` */
  function BooleanSchema(a: FieldAnalysis): JSON {
    TypeSchema("boolean")
  }

  /** `_generate_array_schema` */
  function ArraySchema(a: FieldAnalysis): JSON {
    JObj([("type", JStr("array"))]
      + OptionalInt("minItems", a.stats.minLength)
      + OptionalInt("maxItems", a.stats.maxLength)
      + [("items", JObj([]))])
  }

  /** `_generate_object_schema` */
  function ObjectSchema(a: FieldAnalysis): JSON {
    AnyObjectSchema
  }

  /** The alternatives of `_generate_mixed_type_schema`, one per type seen,
      then `null` when some value was null. */
  function MixedAlternatives(a: FieldAnalysis): seq<JSON> {
    var ts := a.stats.types;
    Opt(TStr in ts, StringSchema(a))
    + Opt(TInt in ts || TFloat in ts, NumericSchema(a))
    + Opt(TBool in ts, TypeSchema("boolean"))
    + Opt(TList in ts, ArraySchema(a))
    + Opt(TDict in ts, ObjectSchema(a))
    + Opt(a.nullPercentage.Positive(), NullSchema)
  }

  /** The alternative `x`, appended only when `c` holds. */
  function Opt(c: bool, x: JSON): seq<JSON> {
    if c then [x] else []
  }

  /** `_generate_mixed_type_schema` */
  function MixedTypeSchema(a: FieldAnalysis): JSON {
    OneOf(MixedAlternatives(a))
  }

  /** `_generate_property_schema` */
  function PropertySchema(a: FieldAnalysis): JSON {
    var ts := a.stats.types;
    if a.isMixed || |ts| > 1 then MixedTypeSchema(a)
    else if TStr in ts then StringSchema(a)
    else if TInt in ts || TFloat in ts then NumericSchema(a)
    else if TBool in ts then BooleanSchema(a)
    else if TList in ts then ArraySchema(a)
    else if TDict in ts then ObjectSchema(a)
    else TypeSchema("string")
  }

  // ---- binary-aware, flexible and pydantic-style builders

  /** `_generate_binary_aware_property_schema` */
  function BinaryAwarePropertySchema(name: string, a: FieldAnalysis): JSON {
    if a.stats.isBinary then
      JObj([("type", JStr("string")), ("contentEncoding", JStr("base64")),
            ("contentMediaType", JStr(OctetStream)), ("description", JStr("Binary data for " + name))])
    else if a.isMixed then OneOf(BinaryAwareMixedAlternatives)
    else PropertySchema(a)
  }

  const BinaryAwareMixedAlternatives: seq<JSON> := [
    JObj([("type", JStr("string")), ("description", JStr("Text content"))]),
    JObj([("type", JStr("string")), ("contentEncoding", JStr("base64")), ("description", JStr("Binary content"))]),
    JObj([("type", JStr("object")), ("additionalProperties", JBool(true)), ("description", JStr("Object content"))]),
    JObj([("type", JStr("array")), ("items", JObj([])), ("description", JStr("Array content"))]),
    JObj([("type", JStr("number")), ("description", JStr("Numeric content"))]),
    JObj([("type", JStr("boolean")), ("description", JStr("Boolean content"))]),
    JObj([("type", JStr("null")), ("description", JStr("Null value"))])
  ]

  /** The per-field schema of `generate_flexible_schema`. */
  function FlexiblePropertySchema(a: FieldAnalysis): JSON {
    OneOf(AnyValueAlternatives + Opt(a.stats.isBinary, Base64StringSchema))
  }

  const Base64StringSchema := JObj([("type", JStr("string")), ("contentEncoding", JStr("base64"))])

  /** The alternatives of `generate_flexible_with_types_schema` for one field. */
  function TypeOptions(a: FieldAnalysis): seq<JSON> {
    ScalarTypeOptions(a.stats.types) + ContainerTypeOptions(a.stats.types, a.stats.isBinary)
  }

  /** The first four alternatives: one per scalar type seen. */
  function ScalarTypeOptions(ts: set<TypeTag>): seq<JSON> {
    Opt(TStr in ts, TypeSchema("string"))
    + Opt(TInt in ts, TypeSchema("integer"))
    + Opt(TFloat in ts, TypeSchema("number"))
    + Opt(TBool in ts, TypeSchema("boolean"))
  }

  /** The rest: containers seen, `null` always, then the base64 string. */
  function ContainerTypeOptions(ts: set<TypeTag>, isBinary: bool): seq<JSON> {
    Opt(TList in ts, AnyArraySchema)
    + Opt(TDict in ts, AnyObjectSchema)
    + [NullSchema]
    + Opt(isBinary, TypedBinarySchema)
  }

  const TypedBinarySchema :=
    JObj([("type", JStr("string")), ("contentEncoding", JStr("base64")), ("contentMediaType", JStr(OctetStream))])

  /** The per-field schema of `generate_flexible_with_types_schema`. */
  function FlexibleWithTypesPropertySchema(a: FieldAnalysis): JSON {
    var opts := TypeOptions(a);
    if |opts| > 1 then OneOf(opts) else if |opts| == 1 then opts[0] else TypeSchema("string")
  }

  /** `should_use_any` in `generate_pydantic_model_with_any`. */
  predicate UsesAny(a: FieldAnalysis) {
    a.stats.isBinary || a.isMixed || a.nullPercentage.AboveThreeTenths()
  }

  /** The per-field schema of `generate_pydantic_model_with_any`. */
  function PydanticPropertySchema(name: string, a: FieldAnalysis): JSON {
    if UsesAny(a) then
      JObj([("oneOf", JArr(AnyValueAlternatives)),
            ("description", JStr("Any type for " + name + " (allows all content types)"))])
    else PropertySchema(a)
  }

  // ---- the hardened builder

  /** The strict binary schema shared by the hardened and smart builders. */
  function StrictBinarySchema(name: string): JSON {
    JObj([("type", JStr("string")), ("contentEncoding", JStr("base64")),
          ("contentMediaType", JStr(OctetStream)), ("minLength", JInt(1)),
          ("pattern", JStr(Base64Pattern)),
          ("description", JStr("Binary data for " + name + " (base64 encoded)")),
          ("examples", JArr([JStr("SGVsbG8gV29ybGQ=")]))])
  }

  const HardenedMixedAlternatives: seq<JSON> := [
    HardenedTextAlternative,
    HardenedBinaryAlternative,
    JObj([("type", JStr("object")), ("additionalProperties", JBool(true)), ("description", JStr("Object content"))]),
    JObj([("type", JStr("array")), ("items", JObj([])), ("description", JStr("Array content")), ("minItems", JInt(0))]),
    JObj([("type", JStr("number")), ("description", JStr("Numeric content"))]),
    JObj([("type", JStr("integer")), ("description", JStr("Integer content"))]),
    JObj([("type", JStr("boolean")), ("description", JStr("Boolean content"))]),
    JObj([("type", JStr("null")), ("description", JStr("Null value"))])
  ]

  const HardenedTextAlternative :=
    JObj([("type", JStr("string")), ("description", JStr("Text content")), ("minLength", JInt(1))])

  const HardenedBinaryAlternative :=
    JObj([("type", JStr("string")), ("contentEncoding", JStr("base64")),
          ("description", JStr("Binary content (base64 encoded)")), ("pattern", JStr(Base64Pattern))])

  /** The per-field schema of `generate_hardened_binary_schema`. */
  function HardenedPropertySchema(name: string, a: FieldAnalysis): JSON {
    if a.stats.isBinary then StrictBinarySchema(name)
    else if a.isMixed then
      JObj([("oneOf", JArr(HardenedMixedAlternatives)),
            ("description", JStr("Mixed content for " + name + " (allows any type)"))])
    else
      var p := PropertySchema(a);
      if HasType(p, "string") then Set(p, "minLength", JInt(1))
      else if HasType(p, "array") then Set(p, "minItems", JInt(0))
      else p
  }

  // ---- the smart builders

  /** `_generate_smart_property_schema` */
  function SmartPropertySchema(name: string, a: FieldAnalysis): JSON {
    if a.stats.isBinary || a.hasNestedBinary then SmartBinarySchema(name, a)
    else if a.isMixed || |a.stats.types| > 1 then SmartMixedSchema(name, a)
    else if a.maxDepth.GetOr(0) > 0 then SmartNestedSchema(name, a)
    else SmartSingleTypeSchema(name, a)
  }

  /** `_generate_smart_binary_schema` */
  function SmartBinarySchema(name: string, a: FieldAnalysis): JSON {
    if a.hasNestedBinary then NestedBinaryUnion(name) else StrictBinarySchema(name)
  }

  /** The union `_generate_smart_binary_schema` gives a field with binary
      content anywhere inside: a base64 string, an object or an array. */
  function NestedBinaryUnion(name: string): JSON {
    JObj([("oneOf", JArr(NestedBinaryAlternatives(name))),
          ("description", JStr("Binary data field for " + name + " (supports nested structures)"))])
  }

  function NestedBinaryAlternatives(name: string): seq<JSON> {
    [JObj([("type", JStr("string")), ("contentEncoding", JStr("base64")),
           ("contentMediaType", JStr(OctetStream)), ("pattern", JStr(Base64Pattern)),
           ("description", JStr("Direct binary data for " + name))]),
     JObj([("type", JStr("object")), ("additionalProperties", JBool(true)),
           ("description", JStr("Object containing binary data for " + name))]),
     JObj([("type", JStr("array")), ("items", JObj([])),
           ("description", JStr("Array containing binary data for " + name))])]
  }

  /** The alternatives of `_generate_smart_mixed_schema`. */
  function SmartMixedAlternatives(a: FieldAnalysis): seq<JSON> {
    SmartScalarAlternatives(a.stats.types, a.stats.isBinary) + SmartContainerAlternatives(a.stats.types)
  }

  /** One alternative per scalar type seen; the string one is non-empty. */
  function SmartScalarAlternatives(ts: set<TypeTag>, isBinary: bool): seq<JSON> {
    Opt(TStr in ts, SmartStringAlternative(isBinary))
    + Opt(TInt in ts, TypeSchema("integer"))
    + Opt(TFloat in ts, TypeSchema("number"))
    + Opt(TBool in ts, TypeSchema("boolean"))
  }

  /** The containers seen, then `null`, always last. */
  function SmartContainerAlternatives(ts: set<TypeTag>): seq<JSON> {
    Opt(TList in ts, SmartArrayAlternative)
    + Opt(TDict in ts, AnyObjectSchema)
    + [NullSchema]
  }

  const SmartArrayAlternative := JObj([("type", JStr("array")), ("items", JObj([])), ("minItems", JInt(0))])

  /** The string alternative of `_generate_smart_mixed_schema`. */
  function SmartStringAlternative(binary: bool): JSON {
    JObj([("type", JStr("string")), ("minLength", JInt(1))]
      + (if binary then [("contentEncoding", JStr("base64")), ("pattern", JStr(Base64Pattern))] else []))
  }

  /** `_generate_smart_mixed_schema` */
  function SmartMixedSchema(name: string, a: FieldAnalysis): JSON {
    JObj([("oneOf", JArr(SmartMixedAlternatives(a))),
          ("description", JStr("Mixed content for " + name + " (intelligently handles detected types)"))])
  }

  /** `_generate_smart_nested_schema` */
  function SmartNestedSchema(name: string, a: FieldAnalysis): JSON {
    if a.nested.Some? && a.nested.value.maxDepthFound > 0 then RecursiveNestedSchema(name, a.nested.value)
    else if a.hasNestedBinary then
      JObj([("oneOf", JArr([
               JObj([("type", JStr("object")), ("additionalProperties", JBool(true)),
                     ("description", JStr("Object with nested binary content for " + name))]),
               JObj([("type", JStr("array")), ("items", JObj([])),
                     ("description", JStr("Array with nested binary content for " + name))])])),
            ("description", JStr("Complex nested structure for " + name + " (may contain binary data)"))])
    else
      JObj([("oneOf", JArr([
               JObj([("type", JStr("object")), ("additionalProperties", JBool(true)),
                     ("description", JStr("Object structure for " + name))]),
               JObj([("type", JStr("array")), ("items", JObj([])),
                     ("description", JStr("Array structure for " + name))])])),
            ("description", JStr("Nested structure for " + name))])
  }

  /** `_generate_smart_single_type_schema` */
  function SmartSingleTypeSchema(name: string, a: FieldAnalysis): JSON {
    var p := PropertySchema(a);
    if HasType(p, "string") then
      var p1 := Set(p, "minLength", JInt(1));
      if a.stats.isBinary then Set(Set(p1, "contentEncoding", JStr("base64")), "pattern", JStr(Base64Pattern))
      else p1
    else if HasType(p, "array") then Set(p, "minItems", JInt(0))
    else p
  }

  // ---- corrected builders

  /** The property schema with null allowed exactly where a null was seen:
      the schema of the non-null values (built as if no null had been seen)
      or `null`, and plain `null` for a field that only ever held null. */
  function NullablePropertySchema(a: FieldAnalysis): JSON {
    if !a.nullPercentage.Positive() then PropertySchema(a)
    else if a.stats.types == {} then NullSchema
    else OneOf([PropertySchema(a.(nullPercentage := Ratio(0, a.nullPercentage.den))), NullSchema])
  }

  /** The permissive field schema with `anyOf` in place of `oneOf`, so that
      a value matching several alternatives still passes. */
  function AnyValueSchema(a: FieldAnalysis): JSON {
    JObj([("anyOf", JArr(AnyValueAlternatives + Opt(a.stats.isBinary, Base64StringSchema)))])
  }

  // ---- the per-depth object schemas

  /** The properties `_generate_base_object_schema` gives the fields of a level. */
  function AnyProperties(fields: seq<string>): Members {
    if fields == [] then []
    else SetKey(AnyProperties(fields[..|fields| - 1]), fields[|fields| - 1], OneOf(AnyValueAlternatives))
  }

  /** `_generate_base_object_schema` */
  function BaseObjectSchema(lv: Level): JSON {
    JObj([("type", JStr("object")), ("properties", JObj(AnyProperties(lv.fields))), ("additionalProperties", JBool(true))]
      + (if lv.requiredFields != [] then [("required", JArr(Strings(lv.requiredFields)))] else []))
  }

  function Strings(ss: seq<string>): (r: seq<JSON>)
    ensures |r| == |ss| && forall i :: 0 <= i < |ss| ==> r[i] == JStr(ss[i])
  {
    if ss == [] then [] else [JStr(ss[0])] + Strings(ss[1..])
  }

  /** `_generate_nested_level_schema` */
  function NestedLevelSchema(hierarchy: map<int, Level>, target: int, name: string): JSON {
    var lv := if target in hierarchy then hierarchy[target] else EmptyLevel;
    var base := BaseObjectSchema(lv);
    if target > 0 then Set(base, "additionalProperties", JBool(true)) else base
  }

  /** `_generate_recursive_nested_schema` */
  function RecursiveNestedSchema(name: string, n: NestedAnalysis): JSON {
    if n.maxDepthFound == 0 then AnyObjectSchema
    else
      Set(NestedLevelSchema(n.hierarchy, n.maxDepthFound, name), "description",
          JStr("Deeply nested structure for " + name + " (max depth: " + IntToString(n.maxDepthFound) + ")"))
  }
}
