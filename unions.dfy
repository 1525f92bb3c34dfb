/** What the `oneOf` unions of the binary-aware, pydantic-style, flexible,
    hardened and smart builders accept. Several of them list alternatives
    that overlap (`number` and `integer`, two kinds of string), and `oneOf`
    rejects a value that more than one alternative accepts. */
module Unions {
  import opened Json
  import opened Classifiers
  import opened Structure
  import opened Profiling
  import opened Schemas
  import opened Validation
  import opened Acceptance

  // ---- generate_pydantic_model_with_any

  /** The "any type" union of a field that `should_use_any` picks rejects
      exactly the integers (and integral floats): they are both `number`
      and `integer`. */
  lemma PydanticAnyAccepts(name: string, a: FieldAnalysis, v: JSON)
    requires UsesAny(a)
    ensures Admits(PydanticPropertySchema(name, a), v) <==> !TypeMatches("integer", v)
  {
    OneOfDescribed(AnyValueAlternatives, "Any type for " + name + " (allows all content types)", v);
    AnyValueCount(v);
  }

  // ---- generate_binary_aware_schema

  /** The mixed union of a field without binary content rejects every
      string: "Text content" and "Binary content" both accept it. */
  lemma BinaryAwareMixedAccepts(name: string, a: FieldAnalysis, v: JSON)
    requires a.isMixed && !a.stats.isBinary
    ensures Admits(BinaryAwarePropertySchema(name, a), v) <==> !v.JStr?
  {
    OneOfCount(BinaryAwareMixedAlternatives, v);
    BinaryAwareMixedCount(v);
  }

  lemma BinaryAwareMixedCount(v: JSON)
    ensures CountAdmitting(BinaryAwareMixedAlternatives, v) ==
      Hit(v.JStr?) + Hit(v.JStr?) + Hit(v.JObj?) + Hit(v.JArr?) + Hit(IsNumber(v)) + Hit(v.JBool?) + Hit(v.JNull?)
  {
    BinaryAwareShape();
    CountSevenTyped(BinaryAwareMixedAlternatives, BinaryAwareTypes, v);
  }

  const BinaryAwareTypes := ["string", "string", "object", "array", "number", "boolean", "null"]

  lemma BinaryAwareShape()
    ensures |BinaryAwareMixedAlternatives| == 7 == |BinaryAwareTypes|
    ensures forall k :: 0 <= k < 7 ==> Typed(BinaryAwareMixedAlternatives[k], BinaryAwareTypes[k])
  {
  }

  /** A binary field gets a string schema whose other keywords are
      annotations: it accepts every string, base64 or not. */
  lemma BinaryAwareBinaryAccepts(name: string, a: FieldAnalysis, v: JSON)
    requires a.stats.isBinary
    ensures Admits(BinaryAwarePropertySchema(name, a), v) <==> v.JStr?
  {
    var ms := BinaryAwarePropertySchema(name, a).members;
    assert |ms| == 4 && ms[0] == ("type", JStr("string"));
    forall k | 1 <= k < |ms| ensures Vacuous(ms[k]) {
      assert k == 1 || k == 2 || k == 3;
    }
    TypedVacuous(ms, "string", v);
  }

  // ---- generate_hardened_binary_schema

  lemma HardenedTextAccepts(v: JSON)
    ensures Admits(HardenedTextAlternative, v) <==> v.JStr? && |v.s| >= 1
  {
    var ms := HardenedTextAlternative.members;
    assert |ms| == 3 && ms[0] == ("type", JStr("string")) && ms[2] == ("minLength", JInt(1));
    assert Annotation(ms[1].0);
    assert forall k :: 1 <= k < |ms| ==> StringKeyword(ms[k]) by {
      forall k | 1 <= k < |ms| ensures StringKeyword(ms[k]) {
        assert k == 1 || k == 2;
      }
    }
    assert ("minLength", JInt(1)) in ms;
    assert ("pattern", JStr(Base64Pattern)) !in ms by {
      forall k | 0 <= k < |ms| ensures ms[k] != ("pattern", JStr(Base64Pattern)) {
        assert k == 0 || k == 1 || k == 2;
      }
    }
    TypedString(ms, v);
  }

  lemma HardenedBinaryAccepts(v: JSON)
    ensures Admits(HardenedBinaryAlternative, v) <==> v.JStr? && Base64Shaped(v.s)
  {
    var ms := HardenedBinaryAlternative.members;
    assert |ms| == 4 && ms[0] == ("type", JStr("string")) && ms[3] == ("pattern", JStr(Base64Pattern));
    assert Annotation(ms[1].0) && Annotation(ms[2].0);
    assert forall k :: 1 <= k < |ms| ==> StringKeyword(ms[k]) by {
      forall k | 1 <= k < |ms| ensures StringKeyword(ms[k]) {
        assert k == 1 || k == 2 || k == 3;
      }
    }
    assert ("pattern", JStr(Base64Pattern)) in ms;
    assert ("minLength", JInt(1)) !in ms by {
      forall k | 0 <= k < |ms| ensures ms[k] != ("minLength", JInt(1)) {
        assert k == 0 || k == 1 || k == 2 || k == 3;
      }
    }
    TypedString(ms, v);
  }

  const HardenedTypes := ["string", "string", "object", "array", "number", "integer", "boolean", "null"]

  lemma HardenedShape()
    ensures |HardenedMixedAlternatives| == 8 == |HardenedTypes|
    ensures HardenedMixedAlternatives[0] == HardenedTextAlternative
    ensures HardenedMixedAlternatives[1] == HardenedBinaryAlternative
    ensures forall k :: 2 <= k < 8 ==> Typed(HardenedMixedAlternatives[k], HardenedTypes[k])
    ensures HardenedTypes[2] == "object" && HardenedTypes[3] == "array" && HardenedTypes[4] == "number"
    ensures HardenedTypes[5] == "integer" && HardenedTypes[6] == "boolean" && HardenedTypes[7] == "null"
  {
  }

  /** The hardened mixed union rejects the integers (`number` and `integer`)
      and every non-empty base64-shaped string, such as any plain word
      ("Text content" and "Binary content" both accept it). */
  lemma HardenedMixedAccepts(name: string, a: FieldAnalysis, v: JSON)
    requires a.isMixed && !a.stats.isBinary
    ensures Admits(HardenedPropertySchema(name, a), v) <==>
      !TypeMatches("integer", v) && !(v.JStr? && |v.s| >= 1 && Base64Shaped(v.s))
  {
    OneOfDescribed(HardenedMixedAlternatives, "Mixed content for " + name + " (allows any type)", v);
    HardenedMixedCount(v);
  }

  lemma HardenedMixedCount(v: JSON)
    ensures CountAdmitting(HardenedMixedAlternatives, v) ==
      Hit(v.JStr? && |v.s| >= 1) + Hit(v.JStr? && Base64Shaped(v.s)) + Hit(v.JObj?) + Hit(v.JArr?)
      + Hit(IsNumber(v)) + Hit(TypeMatches("integer", v)) + Hit(v.JBool?) + Hit(v.JNull?)
  {
    HardenedShape();
    CountEightTyped(HardenedMixedAlternatives, HardenedTypes, v);
    HardenedTextAccepts(v);
    HardenedBinaryAccepts(v);
    TypeNames(v);
  }

  /** The hardened schema of a binary field accepts only non-empty
      base64-shaped strings. */
  lemma StrictBinaryAccepts(name: string, v: JSON)
    ensures Admits(StrictBinarySchema(name), v) <==> v.JStr? && |v.s| >= 1 && Base64Shaped(v.s)
  {
    var ms := StrictBinarySchema(name).members;
    StrictBinaryShape(name);
    TypedString(ms, v);
  }

  lemma StrictBinaryShape(name: string)
    ensures var ms := StrictBinarySchema(name).members;
      && |ms| >= 1 && ms[0] == ("type", JStr("string"))
      && (forall k :: 1 <= k < |ms| ==> StringKeyword(ms[k]))
      && ("minLength", JInt(1)) in ms && ("pattern", JStr(Base64Pattern)) in ms
  {
    var ms := StrictBinarySchema(name).members;
    assert |ms| == 7 && ms[3] == ("minLength", JInt(1)) && ms[4] == ("pattern", JStr(Base64Pattern));
    forall k | 1 <= k < |ms| ensures StringKeyword(ms[k]) {
      assert k in {1, 2, 5, 6} ==> Annotation(ms[k].0);
    }
  }

  // ---- regular fields of the hardened and smart builders

  /** The plain builder's schema is typed `string` exactly for a field that
      saw only strings and no null, or no type it has a schema for, and
      typed `array` exactly for a field that saw only lists. */
  lemma PropertySchemaTyped(a: FieldAnalysis)
    ensures HasType(PropertySchema(a), "string") <==>
      && !a.isMixed
      && (a.stats.types <= {TNone} || (a.stats.types == {TStr} && !a.nullPercentage.Positive()))
    ensures HasType(PropertySchema(a), "array") <==> !a.isMixed && a.stats.types == {TList}
  {
    var ts := a.stats.types;
    if a.isMixed || |ts| > 1 {
      assert |{TStr}| == 1 && |{TList}| == 1;
      if ts <= {TNone} {
        assert ts == {} || ts == {TNone};
      }
    } else if TStr in ts {
      SingleTag(ts, TStr);
    } else if TInt in ts || TFloat in ts {
      if TInt in ts { SingleTag(ts, TInt); } else { SingleTag(ts, TFloat); }
    } else if TBool in ts {
      SingleTag(ts, TBool);
    } else if TList in ts {
      SingleTag(ts, TList);
    } else if TDict in ts {
      SingleTag(ts, TDict);
    } else {
      forall t | t in ts ensures t == TNone {
        assert t != TStr && t != TInt && t != TFloat && t != TBool && t != TList && t != TDict;
      }
    }
  }

  lemma SingleTag(ts: set<TypeTag>, t: TypeTag)
    requires |ts| <= 1 && t in ts
    ensures ts == {t}
  {
    assert ts == (ts - {t}) + {t};
    assert |ts - {t}| == 0;
  }

  /** `max_length` where the plain builder puts it into a `string` schema. */
  function StringMaxLength(a: FieldAnalysis): Option<nat> {
    if TStr in a.stats.types then a.stats.maxLength else None
  }

  /** `property_schema["minLength"] = 1` replaces the recorded lower bound
      of a plain string schema (or adds one): what is left is the type,
      `minLength: 1`, the recorded `maxLength` and annotations. */
  lemma NonEmptyStringShape(a: FieldAnalysis)
    requires HasType(PropertySchema(a), "string")
    ensures Set(PropertySchema(a), "minLength", JInt(1)).JObj?
    ensures var ms := Set(PropertySchema(a), "minLength", JInt(1)).members;
      && ("type", JStr("string")) in ms && ("minLength", JInt(1)) in ms
      && (StringMaxLength(a).Some? ==> ("maxLength", JInt(StringMaxLength(a).value)) in ms)
      && ("pattern", JStr(Base64Pattern)) !in ms
      && forall m :: m in ms ==> NonEmptyStringKeyword(m, StringMaxLength(a))
  {
    PropertySchemaTyped(a);
    if a.stats.types <= {TNone} {
      assert PropertySchema(a) == TypeSchema("string");
      assert SetKey([("type", JStr("string"))], "minLength", JInt(1)) == [("type", JStr("string")), ("minLength", JInt(1))];
    } else {
      assert PropertySchema(a) == StringSchema(a) && TStr in a.stats.types;
      PlainStringShape(a);
    }
  }

  lemma PlainStringShape(a: FieldAnalysis)
    requires !a.nullPercentage.Positive()
    ensures var ms := SetKey(StringSchema(a).members, "minLength", JInt(1));
      && ("type", JStr("string")) in ms && ("minLength", JInt(1)) in ms
      && (a.stats.maxLength.Some? ==> ("maxLength", JInt(a.stats.maxLength.value)) in ms)
      && ("pattern", JStr(Base64Pattern)) !in ms
      && forall m :: m in ms ==> NonEmptyStringKeyword(m, a.stats.maxLength)
  {
    var st := a.stats;
    var rest := OptionalInt("maxLength", st.maxLength) + FormatMembers(st.patterns) + Base64Members(st.isBinary);
    assert StringSchema(a).members == [("type", JStr("string"))] + OptionalInt("minLength", st.minLength) + rest;
    StringRest(st.maxLength, st.patterns, st.isBinary);
    NonEmptyStringParts(OptionalInt("minLength", st.minLength), rest, st.maxLength);
  }

  /** `minLength: 1` set in a string schema `[type] + opt + rest` whose
      `rest` holds the recorded `maxLength` and annotations. */
  lemma NonEmptyStringParts(opt: Members, rest: Members, hi: Option<nat>)
    requires |opt| <= 1 && forall m :: m in opt ==> m.0 == "minLength"
    requires hi.Some? ==> ("maxLength", JInt(hi.value)) in rest
    requires forall m :: m in rest ==> Annotation(m.0) || (hi.Some? && m == ("maxLength", JInt(hi.value)))
    ensures var ms := SetKey([("type", JStr("string"))] + opt + rest, "minLength", JInt(1));
      && ("type", JStr("string")) in ms && ("minLength", JInt(1)) in ms
      && (hi.Some? ==> ("maxLength", JInt(hi.value)) in ms)
      && ("pattern", JStr(Base64Pattern)) !in ms
      && forall m :: m in ms ==> NonEmptyStringKeyword(m, hi)
  {
    assert !Annotation("minLength") && !Annotation("pattern");
    SetSecondKey(("type", JStr("string")), opt, rest, "minLength", JInt(1));
  }

  /** Setting `key` in `[t] + opt + rest`, where `opt` holds at most one
      item, of that key, and `rest` none of that key. */
  lemma SetSecondKey(t: (string, JSON), opt: Members, rest: Members, key: string, value: JSON)
    requires t.0 != key && |opt| <= 1 && (forall m :: m in opt ==> m.0 == key)
    requires forall m :: m in rest ==> m.0 != key
    ensures var r := SetKey([t] + opt + rest, key, value);
      forall m :: m in r <==> m == t || m == (key, value) || m in rest
  {
    var ms := [t] + opt + rest;
    if opt == [] {
      assert ms == [t] + rest;
      assert Lookup(ms, key).None? by {
        forall i | 0 <= i < |ms| ensures ms[i].0 != key {
          assert ms[i] in ms;
        }
      }
      SetKeyFresh(ms, key, value);
    } else {
      assert ms == [t] + ([opt[0]] + rest);
      assert SetKey([opt[0]] + rest, key, value) == [(key, value)] + rest;
      assert SetKey(ms, key, value) == [t] + ([(key, value)] + rest);
    }
  }

  /** The keywords after a plain string schema's bounds. */
  lemma StringRest(hi: Option<nat>, ps: set<Pattern>, isBinary: bool)
    ensures var rest := OptionalInt("maxLength", hi) + FormatMembers(ps) + Base64Members(isBinary);
      && (hi.Some? ==> ("maxLength", JInt(hi.value)) in rest)
      && forall m :: m in rest ==> Annotation(m.0) || (hi.Some? && m == ("maxLength", JInt(hi.value)))
  {
  }

  /** `property_schema["minItems"] = 0` replaces the recorded lower bound of
      a plain array schema (or adds one), leaving no lower bound at all. */
  lemma BoundedArrayShape(a: FieldAnalysis)
    requires HasType(PropertySchema(a), "array")
    ensures Set(PropertySchema(a), "minItems", JInt(0)).JObj?
    ensures var ms := Set(PropertySchema(a), "minItems", JInt(0)).members;
      && ("type", JStr("array")) in ms
      && (a.stats.maxLength.Some? ==> ("maxItems", JInt(a.stats.maxLength.value)) in ms)
      && forall m :: m in ms ==> BoundedArrayKeyword(m, a.stats.maxLength)
  {
    PropertySchemaTyped(a);
    var st := a.stats;
    assert PropertySchema(a) == ArraySchema(a);
    var T := ("type", JStr("array"));
    var rest := OptionalInt("maxItems", st.maxLength) + [("items", JObj([]))];
    assert ArraySchema(a).members == [T] + OptionalInt("minItems", st.minLength) + rest;
    SetSecondKey(T, OptionalInt("minItems", st.minLength), rest, "minItems", JInt(0));
  }

  /** A regular field of the hardened schema: a string schema accepts every
      non-empty string within the recorded `max_length`, whatever
      `min_length` was recorded, so it rejects an empty string the field
      held and accepts strings shorter than any it held; an array schema
      accepts every array within the recorded `max_length`; any other
      schema is the plain one. */
  lemma HardenedRegularAccepts(name: string, a: FieldAnalysis, v: JSON)
    requires !a.stats.isBinary && !a.isMixed
    ensures HasType(PropertySchema(a), "string") ==>
      (Admits(HardenedPropertySchema(name, a), v) <==>
         v.JStr? && |v.s| >= 1 && (StringMaxLength(a).Some? ==> |v.s| <= StringMaxLength(a).value))
    ensures HasType(PropertySchema(a), "array") ==>
      (Admits(HardenedPropertySchema(name, a), v) <==>
         v.JArr? && (a.stats.maxLength.Some? ==> |v.items| <= a.stats.maxLength.value))
    ensures !HasType(PropertySchema(a), "string") && !HasType(PropertySchema(a), "array") ==>
      (Admits(HardenedPropertySchema(name, a), v) <==> Admits(PropertySchema(a), v))
  {
    var p := PropertySchema(a);
    if HasType(p, "string") {
      NonEmptyStringShape(a);
      NonEmptyStringAdmits(Set(p, "minLength", JInt(1)).members, StringMaxLength(a), false, v);
    } else if HasType(p, "array") {
      BoundedArrayShape(a);
      BoundedArrayAdmits(Set(p, "minItems", JInt(0)).members, a.stats.maxLength, v);
    }
  }

  // ---- generate_flexible_with_types_schema

  /** The alternatives of a field's type union that accept `v`. */
  lemma TypeOptionsCount(a: FieldAnalysis, v: JSON)
    ensures var ts := a.stats.types;
      CountAdmitting(TypeOptions(a), v) ==
        Hit(TStr in ts && v.JStr?) + Hit(TInt in ts && TypeMatches("integer", v)) + Hit(TFloat in ts && IsNumber(v))
        + Hit(TBool in ts && v.JBool?) + Hit(TList in ts && v.JArr?) + Hit(TDict in ts && v.JObj?)
        + Hit(v.JNull?) + Hit(a.stats.isBinary && v.JStr?)
  {
    var ts := a.stats.types;
    CountAppend(ScalarTypeOptions(ts), ContainerTypeOptions(ts, a.stats.isBinary), v);
    ScalarOptionsCount(ts, v);
    ContainerOptionsCount(ts, a.stats.isBinary, v);
  }

  lemma ScalarOptionsCount(ts: set<TypeTag>, v: JSON)
    ensures CountAdmitting(ScalarTypeOptions(ts), v) ==
      Hit(TStr in ts && v.JStr?) + Hit(TInt in ts && TypeMatches("integer", v)) + Hit(TFloat in ts && IsNumber(v))
      + Hit(TBool in ts && v.JBool?)
  {
    CountFourRuns(Opt(TStr in ts, TypeSchema("string")), Opt(TInt in ts, TypeSchema("integer")),
                  Opt(TFloat in ts, TypeSchema("number")), Opt(TBool in ts, TypeSchema("boolean")), v);
    TypeHits(TStr in ts, TInt in ts, TFloat in ts, TBool in ts, v);
  }

  lemma ContainerOptionsCount(ts: set<TypeTag>, isBinary: bool, v: JSON)
    ensures CountAdmitting(ContainerTypeOptions(ts, isBinary), v) ==
      Hit(TList in ts && v.JArr?) + Hit(TDict in ts && v.JObj?) + Hit(v.JNull?) + Hit(isBinary && v.JStr?)
  {
    CountFourRuns(Opt(TList in ts, AnyArraySchema), Opt(TDict in ts, AnyObjectSchema), [NullSchema],
                  Opt(isBinary, TypedBinarySchema), v);
    ContainerHits(TList in ts, TDict in ts, v);
    TypedSchemas();
    CountOptTyped(true, NullSchema, "null", v);
    assert Typed(TypedBinarySchema, "string");
    CountOptTyped(isBinary, TypedBinarySchema, "string", v);
  }

  /** The scalar `type` alternatives, each present when its flag is set. */
  lemma TypeHits(s: bool, i: bool, f: bool, b: bool, v: JSON)
    ensures CountAdmitting(Opt(s, TypeSchema("string")), v) == Hit(s && v.JStr?)
    ensures CountAdmitting(Opt(i, TypeSchema("integer")), v) == Hit(i && TypeMatches("integer", v))
    ensures CountAdmitting(Opt(f, TypeSchema("number")), v) == Hit(f && IsNumber(v))
    ensures CountAdmitting(Opt(b, TypeSchema("boolean")), v) == Hit(b && v.JBool?)
    ensures CountAdmitting([NullSchema], v) == Hit(v.JNull?)
  {
    TypedSchemas();
    CountOptTyped(s, TypeSchema("string"), "string", v);
    CountOptTyped(i, TypeSchema("integer"), "integer", v);
    CountOptTyped(f, TypeSchema("number"), "number", v);
    CountOptTyped(b, TypeSchema("boolean"), "boolean", v);
    CountOptTyped(true, NullSchema, "null", v);
  }

  /** The "any array" and "any object" alternatives. */
  lemma ContainerHits(l: bool, d: bool, v: JSON)
    ensures CountAdmitting(Opt(l, AnyArraySchema), v) == Hit(l && v.JArr?)
    ensures CountAdmitting(Opt(d, AnyObjectSchema), v) == Hit(d && v.JObj?)
  {
    TypedSchemas();
    CountOptTyped(l, AnyArraySchema, "array", v);
    CountOptTyped(d, AnyObjectSchema, "object", v);
  }

  /** The field schema is the union of its type options, or the one option
      (`null`) when no type was seen. */
  lemma FlexibleWithTypesOneOf(a: FieldAnalysis, v: JSON)
    ensures Admits(FlexibleWithTypesPropertySchema(a), v) <==> CountAdmitting(TypeOptions(a), v) == 1
  {
    var opts := TypeOptions(a);
    if |opts| > 1 {
      OneOfCount(opts, v);
    } else {
      assert opts == [NullSchema];
      CountSingle(NullSchema, v);
    }
  }

  /** The typed union always accepts null; it rejects integers once both
      integers and floats were seen, and every string once binary content
      was seen among the strings; any other value of a type that was seen
      passes. */
  lemma FlexibleWithTypesAccepts(a: FieldAnalysis, v: JSON)
    ensures Admits(FlexibleWithTypesPropertySchema(a), JNull)
    ensures TInt in a.stats.types && TFloat in a.stats.types && TypeMatches("integer", v) ==>
      !Admits(FlexibleWithTypesPropertySchema(a), v)
    ensures TStr in a.stats.types && a.stats.isBinary && v.JStr? ==> !Admits(FlexibleWithTypesPropertySchema(a), v)
    ensures
      && !v.JNull? && Tag(v) in a.stats.types
      && !(TInt in a.stats.types && TFloat in a.stats.types && TypeMatches("integer", v))
      && !(a.stats.isBinary && v.JStr?)
      ==> Admits(FlexibleWithTypesPropertySchema(a), v)
  {
    TypeOptionsCount(a, JNull);
    FlexibleWithTypesOneOf(a, JNull);
    TypeOptionsCount(a, v);
    FlexibleWithTypesOneOf(a, v);
  }

  // ---- generate_smart_hardened_schema_with_depth

  /** The string alternative of the smart mixed union. */
  lemma SmartStringAccepts(binary: bool, v: JSON)
    ensures Admits(SmartStringAlternative(binary), v) <==> v.JStr? && |v.s| >= 1 && (binary ==> Base64Shaped(v.s))
  {
    TypedString(SmartStringAlternative(binary).members, v);
  }

  /** The alternatives of the smart mixed union that accept `v`. */
  lemma SmartMixedCount(a: FieldAnalysis, v: JSON)
    ensures var ts := a.stats.types;
      CountAdmitting(SmartMixedAlternatives(a), v) ==
        Hit(TStr in ts && v.JStr? && |v.s| >= 1 && (a.stats.isBinary ==> Base64Shaped(v.s)))
        + Hit(TInt in ts && TypeMatches("integer", v)) + Hit(TFloat in ts && IsNumber(v))
        + Hit(TBool in ts && v.JBool?) + Hit(TList in ts && v.JArr?) + Hit(TDict in ts && v.JObj?)
        + Hit(v.JNull?)
  {
    var ts := a.stats.types;
    CountAppend(SmartScalarAlternatives(ts, a.stats.isBinary), SmartContainerAlternatives(ts), v);
    SmartScalarCount(ts, a.stats.isBinary, v);
    SmartContainerCount(ts, v);
  }

  lemma SmartScalarCount(ts: set<TypeTag>, isBinary: bool, v: JSON)
    ensures CountAdmitting(SmartScalarAlternatives(ts, isBinary), v) ==
      Hit(TStr in ts && v.JStr? && |v.s| >= 1 && (isBinary ==> Base64Shaped(v.s)))
      + Hit(TInt in ts && TypeMatches("integer", v)) + Hit(TFloat in ts && IsNumber(v)) + Hit(TBool in ts && v.JBool?)
  {
    CountFourRuns(Opt(TStr in ts, SmartStringAlternative(isBinary)), Opt(TInt in ts, TypeSchema("integer")),
                  Opt(TFloat in ts, TypeSchema("number")), Opt(TBool in ts, TypeSchema("boolean")), v);
    TypeHits(TStr in ts, TInt in ts, TFloat in ts, TBool in ts, v);
    CountOpt(TStr in ts, SmartStringAlternative(isBinary), v);
    SmartStringAccepts(isBinary, v);
  }

  lemma SmartContainerCount(ts: set<TypeTag>, v: JSON)
    ensures CountAdmitting(SmartContainerAlternatives(ts), v) ==
      Hit(TList in ts && v.JArr?) + Hit(TDict in ts && v.JObj?) + Hit(v.JNull?)
  {
    CountThreeRuns(Opt(TList in ts, SmartArrayAlternative), Opt(TDict in ts, AnyObjectSchema), [NullSchema], v);
    ContainerHits(TList in ts, TDict in ts, v);
    TypedSchemas();
    CountOptTyped(true, NullSchema, "null", v);
    assert Typed(SmartArrayAlternative, "array");
    CountOptTyped(TList in ts, SmartArrayAlternative, "array", v);
  }

  /** The smart mixed union rejects integers once both integers and floats
      were seen; any other non-null value of a type that was seen passes, a
      string when it is non-empty (and base64-shaped, for a field with
      binary content). */
  lemma SmartMixedAccepts(name: string, a: FieldAnalysis, v: JSON)
    ensures TInt in a.stats.types && TFloat in a.stats.types && TypeMatches("integer", v) ==>
      !Admits(SmartMixedSchema(name, a), v)
    ensures
      && !v.JNull? && Tag(v) in a.stats.types
      && !(TInt in a.stats.types && TFloat in a.stats.types && TypeMatches("integer", v))
      && (v.JStr? ==> |v.s| >= 1 && (a.stats.isBinary ==> Base64Shaped(v.s)))
      ==> Admits(SmartMixedSchema(name, a), v)
  {
    var desc := "Mixed content for " + name + " (intelligently handles detected types)";
    OneOfDescribed(SmartMixedAlternatives(a), desc, v);
    SmartMixedCount(a, v);
  }

  /** The smart union always ends with the null alternative, so null passes
      whatever was seen, and the empty string never does. */
  lemma SmartMixedEndsNull(name: string, a: FieldAnalysis)
    ensures SmartMixedAlternatives(a)[|SmartMixedAlternatives(a)| - 1] == NullSchema
    ensures Admits(SmartMixedSchema(name, a), JNull)
    ensures !Admits(SmartMixedSchema(name, a), JStr(""))
  {
    var desc := "Mixed content for " + name + " (intelligently handles detected types)";
    var alts := SmartMixedAlternatives(a);
    OneOfDescribed(alts, desc, JNull);
    SmartMixedCount(a, JNull);
    OneOfDescribed(alts, desc, JStr(""));
    SmartMixedCount(a, JStr(""));
  }

  /** The union for a field with binary content nested anywhere accepts the
      base64-shaped strings, the objects and the arrays. */
  lemma NestedBinaryAccepts(name: string, v: JSON)
    ensures Admits(NestedBinaryUnion(name), v) <==> (v.JStr? && Base64Shaped(v.s)) || v.JObj? || v.JArr?
  {
    OneOfDescribed(NestedBinaryAlternatives(name), "Binary data field for " + name + " (supports nested structures)", v);
    NestedBinaryCount(name, v);
  }

  lemma NestedBinaryCount(name: string, v: JSON)
    ensures CountAdmitting(NestedBinaryAlternatives(name), v) == Hit(v.JStr? && Base64Shaped(v.s)) + Hit(v.JObj?) + Hit(v.JArr?)
  {
    var alts := NestedBinaryAlternatives(name);
    CountThree(alts[0], alts[1], alts[2], v);
    NestedBinaryString(name, v);
    NestedBinaryContainers(name, v);
  }

  lemma NestedBinaryString(name: string, v: JSON)
    ensures Admits(NestedBinaryAlternatives(name)[0], v) <==> v.JStr? && Base64Shaped(v.s)
  {
    var ms := NestedBinaryAlternatives(name)[0].members;
    assert |ms| == 5 && ms[0] == ("type", JStr("string")) && ms[3] == ("pattern", JStr(Base64Pattern));
    assert Annotation(ms[1].0) && Annotation(ms[2].0) && Annotation(ms[4].0);
    assert forall k :: 1 <= k < |ms| ==> StringKeyword(ms[k]) by {
      forall k | 1 <= k < |ms| ensures StringKeyword(ms[k]) {
        assert k == 1 || k == 2 || k == 3 || k == 4;
      }
    }
    assert ("pattern", JStr(Base64Pattern)) in ms;
    assert ("minLength", JInt(1)) !in ms by {
      forall k | 0 <= k < |ms| ensures ms[k] != ("minLength", JInt(1)) {
        assert k == 0 || k == 1 || k == 2 || k == 3 || k == 4;
      }
    }
    TypedString(ms, v);
  }

  lemma NestedBinaryContainers(name: string, v: JSON)
    ensures Admits(NestedBinaryAlternatives(name)[1], v) <==> v.JObj?
    ensures Admits(NestedBinaryAlternatives(name)[2], v) <==> v.JArr?
  {
    TypedAdmits(NestedBinaryAlternatives(name)[1], "object", v);
    TypedAdmits(NestedBinaryAlternatives(name)[2], "array", v);
  }

  /** `_generate_smart_single_type_schema`, which the smart builder uses for
      every field with one type and no binary content: as for the hardened
      schema, except that a binary string field also needs base64-shaped
      strings. */
  lemma SmartSingleTypeAccepts(name: string, a: FieldAnalysis, v: JSON)
    ensures HasType(PropertySchema(a), "string") ==>
      (Admits(SmartSingleTypeSchema(name, a), v) <==>
         && v.JStr? && |v.s| >= 1
         && (StringMaxLength(a).Some? ==> |v.s| <= StringMaxLength(a).value)
         && (a.stats.isBinary ==> Base64Shaped(v.s)))
    ensures HasType(PropertySchema(a), "array") ==>
      (Admits(SmartSingleTypeSchema(name, a), v) <==>
         v.JArr? && (a.stats.maxLength.Some? ==> |v.items| <= a.stats.maxLength.value))
    ensures !HasType(PropertySchema(a), "string") && !HasType(PropertySchema(a), "array") ==>
      (Admits(SmartSingleTypeSchema(name, a), v) <==> Admits(PropertySchema(a), v))
  {
    var p := PropertySchema(a);
    if HasType(p, "string") {
      NonEmptyStringShape(a);
      var ms1 := Set(p, "minLength", JInt(1)).members;
      if a.stats.isBinary {
        var ms2 := SetKey(ms1, "contentEncoding", JStr("base64"));
        var ms3 := SetKey(ms2, "pattern", JStr(Base64Pattern));
        SetKeyItems(ms1, "contentEncoding", JStr("base64"));
        SetKeyItems(ms2, "pattern", JStr(Base64Pattern));
        assert SmartSingleTypeSchema(name, a) == JObj(ms3);
        assert forall m :: m in ms3 ==> NonEmptyStringKeyword(m, StringMaxLength(a));
        NonEmptyStringAdmits(ms3, StringMaxLength(a), true, v);
      } else {
        NonEmptyStringAdmits(ms1, StringMaxLength(a), false, v);
      }
    } else if HasType(p, "array") {
      BoundedArrayShape(a);
      BoundedArrayAdmits(Set(p, "minItems", JInt(0)).members, a.stats.maxLength, v);
    }
  }

  /** On the deep profile `_generate_smart_property_schema` takes only three
      of its branches: binary content makes `is_binary` and
      `has_nested_binary` coincide, so the direct strict binary schema is
      never chosen, and `max_depth` is never set, so the nested branch is
      never reached. */
  lemma SmartOnDeepProfile(objects: seq<Members>, maxDepth: int, k: string)
    requires forall i :: 0 <= i < |objects| ==> DistinctKeys(objects[i])
    requires k in DeepProfile(objects, maxDepth).order
    ensures var a := DeepProfile(objects, maxDepth).fields[k];
      SmartPropertySchema(k, a) ==
        if FieldHasNestedBinary(objects, k) then NestedBinaryUnion(k)
        else if a.isMixed || |a.stats.types| > 1 then SmartMixedSchema(k, a)
        else SmartSingleTypeSchema(k, a)
  {
    DeepBinaryCoincides(objects, maxDepth, k);
    DeepNeverSetsMaxDepth(objects, maxDepth, k);
  }
}
