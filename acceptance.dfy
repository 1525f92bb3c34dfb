/** What the per-field schemas accept, stated against the field record each
    one is built from. These are the partners of the builders: a builder
    turns a record into a schema, and each lemma here says which JSON values
    that schema lets through. */
module Acceptance {
  import opened Json
  import opened Classifiers
  import opened Profiling
  import opened Schemas
  import opened Validation

  /** `n` lies within the record's `min_length`/`max_length`, where set. */
  predicate LengthWithin(st: FieldStats, n: nat) {
    && (st.minLength.Some? ==> st.minLength.value <= n)
    && (st.maxLength.Some? ==> n <= st.maxLength.value)
  }

  /** A number `v` lies within the record's `min_value`/`max_value`, where set. */
  predicate ValueWithin(st: FieldStats, v: JSON) {
    IsNumber(v) ==>
      && (st.minValue.Some? ==> st.minValue.value.Value() <= NumberValue(v))
      && (st.maxValue.Some? ==> NumberValue(v) <= st.maxValue.value.Value())
  }

  /** Keywords a validator reads as annotations only. */
  predicate Annotation(kw: string) {
    kw in {"format", "contentEncoding", "contentMediaType", "description", "examples", "$schema"}
  }

  // ---- small facts about keyword lists

  lemma EmptySchemaAdmits(v: JSON)
    ensures Admits(JObj([]), v)
  {
  }

  lemma OptionalIntHolds(key: string, n: Option<nat>, v: JSON, d: seq<string>)
    ensures AllHold(OptionalInt(key, n), v, d) <==> (n.Some? ==> KeywordHolds(key, JInt(n.value), v, d))
  {
    if n.Some? {
      AllHoldOne((key, JInt(n.value)), v, d);
    }
  }

  lemma OptionalNumHolds(key: string, n: Option<Num>, v: JSON, d: seq<string>)
    ensures AllHold(OptionalNum(key, n), v, d) <==> (n.Some? ==> KeywordHolds(key, n.value.ToJson(), v, d))
  {
    if n.Some? {
      AllHoldOne((key, n.value.ToJson()), v, d);
    }
  }

  lemma NumJson(n: Num)
    ensures IsNumber(n.ToJson()) && NumberValue(n.ToJson()) == n.Value()
  {
  }

  /** `{"oneOf": [{"type": "string"}, {"type": "null"}]}` accepts strings and null. */
  lemma StringOrNullAccepts(v: JSON)
    ensures Admits(OneOf([TypeSchema("string"), NullSchema]), v) <==> v.JStr? || v.JNull?
  {
    var alts := [TypeSchema("string"), NullSchema];
    AdmitsOneOf(alts, v);
    ExactlyOneCount(alts, v);
    assert alts == [TypeSchema("string")] + [NullSchema];
    CountAppend([TypeSchema("string")], [NullSchema], v);
    CountSingle(TypeSchema("string"), v);
    CountSingle(NullSchema, v);
    AdmitsType("string", v);
    NullSchemaAccepts(v);
  }

  // ---- the plain builders

  /** A string field with a null gets `string or null` and no bounds;
      otherwise a string within the observed length bounds. `format` and the
      base64 annotations do not narrow it. */
  lemma StringSchemaAccepts(a: FieldAnalysis, v: JSON)
    ensures Admits(StringSchema(a), v) <==>
      if a.nullPercentage.Positive() then v.JStr? || v.JNull?
      else v.JStr? && LengthWithin(a.stats, |v.s|)
  {
    if a.nullPercentage.Positive() {
      StringOrNullAccepts(v);
    } else {
      BoundedStringAdmits(a.stats.minLength, a.stats.maxLength, FormatMembers(a.stats.patterns), Base64Members(a.stats.isBinary), v);
    }
  }

  /** A string schema with optional length bounds, followed by annotations. */
  lemma BoundedStringAdmits(lo: Option<nat>, hi: Option<nat>, f: Members, b: Members, v: JSON)
    requires forall k :: 0 <= k < |f| ==> Annotation(f[k].0)
    requires forall k :: 0 <= k < |b| ==> Annotation(b[k].0)
    ensures Admits(JObj([("type", JStr("string"))] + OptionalInt("minLength", lo) + OptionalInt("maxLength", hi) + f + b), v) <==>
      v.JStr? && (lo.Some? ==> lo.value <= |v.s|) && (hi.Some? ==> |v.s| <= hi.value)
  {
    var t := [("type", JStr("string"))];
    var l := OptionalInt("minLength", lo);
    var h := OptionalInt("maxLength", hi);
    var d := Declared(t + l + h + f + b);
    BoundedStringParts(t, l, h, f, b, v);
    AllHoldOne(t[0], v, d);
    LengthBoundHolds(lo, hi, v, d);
  }

  lemma BoundedStringParts(t: Members, l: Members, h: Members, f: Members, b: Members, v: JSON)
    requires forall k :: 0 <= k < |f| ==> Annotation(f[k].0)
    requires forall k :: 0 <= k < |b| ==> Annotation(b[k].0)
    ensures var d := Declared(t + l + h + f + b);
      Admits(JObj(t + l + h + f + b), v) <==> AllHold(t, v, d) && AllHold(l, v, d) && AllHold(h, v, d)
  {
    var ms := t + l + h + f + b;
    var d := Declared(ms);
    AdmitsObject(ms, v);
    AllHoldAppend(t + l + h + f, b, v, d);
    AllHoldAppend(t + l + h, f, v, d);
    AllHoldAppend(t + l, h, v, d);
    AllHoldAppend(t, l, v, d);
    VacuousHold(f, v, d);
    VacuousHold(b, v, d);
  }

  lemma LengthBoundHolds(lo: Option<nat>, hi: Option<nat>, v: JSON, d: seq<string>)
    ensures AllHold(OptionalInt("minLength", lo), v, d) <==> (lo.Some? && v.JStr? ==> lo.value <= |v.s|)
    ensures AllHold(OptionalInt("maxLength", hi), v, d) <==> (hi.Some? && v.JStr? ==> |v.s| <= hi.value)
  {
    OptionalIntHolds("minLength", lo, v, d);
    OptionalIntHolds("maxLength", hi, v, d);
  }

  /** A numeric field accepts integers (or any number once a float was seen)
      within the observed value bounds. */
  lemma NumericSchemaAccepts(a: FieldAnalysis, v: JSON)
    ensures Admits(NumericSchema(a), v) <==>
      TypeMatches(NumericType(a.stats.types), v) && ValueWithin(a.stats, v)
  {
    var t := [("type", JStr(NumericType(a.stats.types)))];
    var lo := OptionalNum("minimum", a.stats.minValue);
    var hi := OptionalNum("maximum", a.stats.maxValue);
    var d := Declared(t + lo + hi);
    ThreeParts(t, lo, hi, v);
    AllHoldOne(t[0], v, d);
    ValueBoundHolds(a.stats.minValue, a.stats.maxValue, v, d);
  }

  lemma ThreeParts(t: Members, lo: Members, hi: Members, v: JSON)
    ensures var d := Declared(t + lo + hi);
      Admits(JObj(t + lo + hi), v) <==> AllHold(t, v, d) && AllHold(lo, v, d) && AllHold(hi, v, d)
  {
    var d := Declared(t + lo + hi);
    AdmitsObject(t + lo + hi, v);
    AllHoldAppend(t + lo, hi, v, d);
    AllHoldAppend(t, lo, v, d);
  }

  lemma ValueBoundHolds(lo: Option<Num>, hi: Option<Num>, v: JSON, d: seq<string>)
    ensures AllHold(OptionalNum("minimum", lo), v, d) <==> (lo.Some? && IsNumber(v) ==> lo.value.Value() <= NumberValue(v))
    ensures AllHold(OptionalNum("maximum", hi), v, d) <==> (hi.Some? && IsNumber(v) ==> NumberValue(v) <= hi.value.Value())
  {
    OptionalNumHolds("minimum", lo, v, d);
    OptionalNumHolds("maximum", hi, v, d);
    if lo.Some? {
      NumJson(lo.value);
    }
    if hi.Some? {
      NumJson(hi.value);
    }
  }

  /** An array field accepts arrays of any items within the observed length bounds. */
  lemma ArraySchemaAccepts(a: FieldAnalysis, v: JSON)
    ensures Admits(ArraySchema(a), v) <==> v.JArr? && LengthWithin(a.stats, |v.items|)
  {
    var t := [("type", JStr("array"))];
    var lo := OptionalInt("minItems", a.stats.minLength);
    var hi := OptionalInt("maxItems", a.stats.maxLength);
    var it := [("items", JObj([]))];
    var d := Declared(t + lo + hi + it);
    assert Admits(JObj(t + lo + hi + it), v) <==> AllHold(t, v, d) && AllHold(lo, v, d) && AllHold(hi, v, d) by {
      ArrayParts(t, lo, hi, it, v);
    }
    AllHoldOne(t[0], v, d);
    ItemsBoundHolds(a.stats.minLength, a.stats.maxLength, v, d);
  }

  lemma ArrayParts(t: Members, lo: Members, hi: Members, it: Members, v: JSON)
    requires it == [("items", JObj([]))]
    ensures var d := Declared(t + lo + hi + it);
      Admits(JObj(t + lo + hi + it), v) <==> AllHold(t, v, d) && AllHold(lo, v, d) && AllHold(hi, v, d)
  {
    var d := Declared(t + lo + hi + it);
    AdmitsObject(t + lo + hi + it, v);
    AllHoldAppend(t + lo + hi, it, v, d);
    AllHoldAppend(t + lo, hi, v, d);
    AllHoldAppend(t, lo, v, d);
    AllHoldOne(it[0], v, d);
    if v.JArr? {
      forall i | 0 <= i < |v.items| ensures Admits(JObj([]), v.items[i]) {
        EmptySchemaAdmits(v.items[i]);
      }
    }
  }

  lemma ItemsBoundHolds(lo: Option<nat>, hi: Option<nat>, v: JSON, d: seq<string>)
    ensures AllHold(OptionalInt("minItems", lo), v, d) <==> (lo.Some? && v.JArr? ==> lo.value <= |v.items|)
    ensures AllHold(OptionalInt("maxItems", hi), v, d) <==> (hi.Some? && v.JArr? ==> |v.items| <= hi.value)
  {
    OptionalIntHolds("minItems", lo, v, d);
    OptionalIntHolds("maxItems", hi, v, d);
  }

  lemma BooleanSchemaAccepts(a: FieldAnalysis, v: JSON)
    ensures Admits(BooleanSchema(a), v) <==> v.JBool?
  {
    AdmitsType("boolean", v);
  }

  /** `{"type": "object", "additionalProperties": true}` accepts every object. */
  lemma ObjectSchemaAccepts(a: FieldAnalysis, v: JSON)
    ensures Admits(ObjectSchema(a), v) <==> v.JObj?
  {
    var ms := [("type", JStr("object")), ("additionalProperties", JBool(true))];
    AdmitsObject(ms, v);
    AllHoldTwo(ms[0], ms[1], v, Declared(ms));
  }

  lemma NullSchemaAccepts(v: JSON)
    ensures Admits(NullSchema, v) <==> v.JNull?
  {
    AdmitsType("null", v);
  }

  // ---- the property schema against the values it was built from

  /** What a field record knows about one of its non-null values: its type
      was seen, and its length and value lie within the recorded bounds. */
  predicate Describes(a: FieldAnalysis, v: JSON) {
    && !v.JNull?
    && Tag(v) in a.stats.types
    && (LengthOf(v).Some? ==> LengthWithin(a.stats, LengthOf(v).value))
    && ValueWithin(a.stats, v)
  }

  lemma CountOpt(c: bool, x: JSON, v: JSON)
    ensures CountAdmitting(Opt(c, x), v) == if c && Admits(x, v) then 1 else 0
  {
    if c {
      CountSingle(x, v);
    }
  }

  /** Six runs of alternatives, counted run by run. */
  lemma CountSix(s1: seq<JSON>, s2: seq<JSON>, s3: seq<JSON>, s4: seq<JSON>, s5: seq<JSON>, s6: seq<JSON>, v: JSON)
    ensures CountAdmitting(s1 + s2 + s3 + s4 + s5 + s6, v)
      == CountAdmitting(s1, v) + CountAdmitting(s2, v) + CountAdmitting(s3, v)
         + CountAdmitting(s4, v) + CountAdmitting(s5, v) + CountAdmitting(s6, v)
  {
    CountAppend(s1 + s2 + s3 + s4 + s5, s6, v);
    CountAppend(s1 + s2 + s3 + s4, s5, v);
    CountAppend(s1 + s2 + s3, s4, v);
    CountAppend(s1 + s2, s3, v);
    CountAppend(s1, s2, v);
  }

  lemma CountThreeRuns(s1: seq<JSON>, s2: seq<JSON>, s3: seq<JSON>, v: JSON)
    ensures CountAdmitting(s1 + s2 + s3, v) == CountAdmitting(s1, v) + CountAdmitting(s2, v) + CountAdmitting(s3, v)
  {
    CountAppend(s1 + s2, s3, v);
    CountAppend(s1, s2, v);
  }

  lemma CountFourRuns(s1: seq<JSON>, s2: seq<JSON>, s3: seq<JSON>, s4: seq<JSON>, v: JSON)
    ensures CountAdmitting(s1 + s2 + s3 + s4, v)
      == CountAdmitting(s1, v) + CountAdmitting(s2, v) + CountAdmitting(s3, v) + CountAdmitting(s4, v)
  {
    CountThreeRuns(s1, s2, s3, v);
    CountAppend(s1 + s2 + s3, s4, v);
  }

  /** The mixed union counted alternative by alternative. */
  lemma MixedCount(a: FieldAnalysis, v: JSON)
    ensures var ts := a.stats.types;
      CountAdmitting(MixedAlternatives(a), v) ==
        CountAdmitting(Opt(TStr in ts, StringSchema(a)), v)
        + CountAdmitting(Opt(TInt in ts || TFloat in ts, NumericSchema(a)), v)
        + CountAdmitting(Opt(TBool in ts, TypeSchema("boolean")), v)
        + CountAdmitting(Opt(TList in ts, ArraySchema(a)), v)
        + CountAdmitting(Opt(TDict in ts, ObjectSchema(a)), v)
        + CountAdmitting(Opt(a.nullPercentage.Positive(), NullSchema), v)
  {
    var ts := a.stats.types;
    CountSix(Opt(TStr in ts, StringSchema(a)), Opt(TInt in ts || TFloat in ts, NumericSchema(a)),
             Opt(TBool in ts, TypeSchema("boolean")), Opt(TList in ts, ArraySchema(a)),
             Opt(TDict in ts, ObjectSchema(a)), Opt(a.nullPercentage.Positive(), NullSchema), v);
  }

  lemma SingleType(ts: set<TypeTag>, t: TypeTag)
    requires |ts| <= 1 && t in ts
    ensures ts == {t}
  {
    var rest := ts - {t};
    assert ts == rest + {t};
    assert rest == {};
  }

  /** Each non-null value a record describes is accepted by the record's
      property schema: in a mixed union by the alternative for its own type
      and by no other, otherwise by the single-type schema. */
  lemma PropertySchemaAcceptsDescribed(a: FieldAnalysis, v: JSON)
    requires Describes(a, v)
    ensures Admits(PropertySchema(a), v)
  {
    if a.isMixed || |a.stats.types| > 1 {
      MixedAcceptsDescribed(a, v);
    } else {
      SingleType(a.stats.types, Tag(v));
      SingleAcceptsDescribed(a, v);
    }
  }

  lemma SingleAcceptsDescribed(a: FieldAnalysis, v: JSON)
    requires Describes(a, v) && !a.isMixed && a.stats.types == {Tag(v)}
    ensures Admits(PropertySchema(a), v)
  {
    match v
    case JStr(_) =>
      assert PropertySchema(a) == StringSchema(a);
      StringSchemaAccepts(a, v);
    case JInt(_) =>
      assert PropertySchema(a) == NumericSchema(a);
      NumericSchemaAccepts(a, v);
    case JFloat(_) =>
      assert PropertySchema(a) == NumericSchema(a);
      NumericSchemaAccepts(a, v);
    case JBool(_) =>
      assert PropertySchema(a) == BooleanSchema(a);
      BooleanSchemaAccepts(a, v);
    case JArr(_) =>
      assert PropertySchema(a) == ArraySchema(a);
      ArraySchemaAccepts(a, v);
    case JObj(_) =>
      assert PropertySchema(a) == ObjectSchema(a);
      ObjectSchemaAccepts(a, v);
  }

  lemma MixedAcceptsDescribed(a: FieldAnalysis, v: JSON)
    requires Describes(a, v)
    ensures Admits(MixedTypeSchema(a), v)
  {
    MixedCount(a, v);
    MixedScalarHits(a, v);
    MixedContainerHits(a, v);
    AdmitsOneOf(MixedAlternatives(a), v);
    ExactlyOneCount(MixedAlternatives(a), v);
  }

  lemma MixedScalarHits(a: FieldAnalysis, v: JSON)
    requires Describes(a, v)
    ensures var ts := a.stats.types;
      && CountAdmitting(Opt(TStr in ts, StringSchema(a)), v) == Hit(v.JStr?)
      && CountAdmitting(Opt(TInt in ts || TFloat in ts, NumericSchema(a)), v) == Hit(IsNumber(v))
      && CountAdmitting(Opt(TBool in ts, TypeSchema("boolean")), v) == Hit(v.JBool?)
  {
    var ts := a.stats.types;
    CountOpt(TStr in ts, StringSchema(a), v);
    StringSchemaAccepts(a, v);
    CountOpt(TInt in ts || TFloat in ts, NumericSchema(a), v);
    NumericSchemaAccepts(a, v);
    CountOpt(TBool in ts, TypeSchema("boolean"), v);
    AdmitsType("boolean", v);
  }

  lemma MixedContainerHits(a: FieldAnalysis, v: JSON)
    requires Describes(a, v)
    ensures var ts := a.stats.types;
      && CountAdmitting(Opt(TList in ts, ArraySchema(a)), v) == Hit(v.JArr?)
      && CountAdmitting(Opt(TDict in ts, ObjectSchema(a)), v) == Hit(v.JObj?)
      && CountAdmitting(Opt(a.nullPercentage.Positive(), NullSchema), v) == 0
  {
    var ts := a.stats.types;
    CountOpt(TList in ts, ArraySchema(a), v);
    ArraySchemaAccepts(a, v);
    CountOpt(TDict in ts, ObjectSchema(a), v);
    ObjectSchemaAccepts(a, v);
    CountOpt(a.nullPercentage.Positive(), NullSchema, v);
    NullSchemaAccepts(v);
  }

  /** Where the property schema lets null through: only a single-type
      string field with a null, or a mixed field with a null and no string
      (a mixed field with a string already admits null inside its string
      alternative, so null matches twice). */
  lemma PropertySchemaNull(a: FieldAnalysis)
    requires a.isMixed <==> |a.stats.types| > 1
    ensures Admits(PropertySchema(a), JNull) <==>
      a.nullPercentage.Positive() && (if |a.stats.types| > 1 then TStr !in a.stats.types else TStr in a.stats.types)
  {
    var ts := a.stats.types;
    var pos := a.nullPercentage.Positive();
    if |ts| > 1 {
      MixedCount(a, JNull);
      assert CountAdmitting(Opt(TStr in ts, StringSchema(a)), JNull) == if TStr in ts && pos then 1 else 0 by {
        CountOpt(TStr in ts, StringSchema(a), JNull);
        StringSchemaAccepts(a, JNull);
      }
      assert CountAdmitting(Opt(TInt in ts || TFloat in ts, NumericSchema(a)), JNull) == 0 by {
        CountOpt(TInt in ts || TFloat in ts, NumericSchema(a), JNull);
        NumericSchemaAccepts(a, JNull);
      }
      assert CountAdmitting(Opt(TBool in ts, TypeSchema("boolean")), JNull) == 0 by {
        CountOpt(TBool in ts, TypeSchema("boolean"), JNull);
        AdmitsType("boolean", JNull);
      }
      assert CountAdmitting(Opt(TList in ts, ArraySchema(a)), JNull) == 0 by {
        CountOpt(TList in ts, ArraySchema(a), JNull);
        ArraySchemaAccepts(a, JNull);
      }
      assert CountAdmitting(Opt(TDict in ts, ObjectSchema(a)), JNull) == 0 by {
        CountOpt(TDict in ts, ObjectSchema(a), JNull);
        ObjectSchemaAccepts(a, JNull);
      }
      assert CountAdmitting(Opt(pos, NullSchema), JNull) == if pos then 1 else 0 by {
        CountOpt(pos, NullSchema, JNull);
        NullSchemaAccepts(JNull);
      }
      AdmitsOneOf(MixedAlternatives(a), JNull);
      ExactlyOneCount(MixedAlternatives(a), JNull);
    } else if TStr in ts {
      StringSchemaAccepts(a, JNull);
    } else if TInt in ts || TFloat in ts {
      NumericSchemaAccepts(a, JNull);
    } else if TBool in ts {
      BooleanSchemaAccepts(a, JNull);
    } else if TList in ts {
      ArraySchemaAccepts(a, JNull);
    } else if TDict in ts {
      ObjectSchemaAccepts(a, JNull);
    } else {
      AdmitsType("string", JNull);
    }
  }

  // ---- the "any value" alternatives

  lemma Base64StringAccepts(v: JSON)
    ensures Admits(Base64StringSchema, v) <==> v.JStr?
  {
    TypedVacuous(Base64StringSchema.members, "string", v);
  }

  lemma AnyArrayAccepts(v: JSON)
    ensures Admits(AnyArraySchema, v) <==> v.JArr?
  {
    TypedVacuous(AnyArraySchema.members, "array", v);
  }

  lemma AnyObjectAccepts(v: JSON)
    ensures Admits(AnyObjectSchema, v) <==> v.JObj?
  {
    TypedVacuous(AnyObjectSchema.members, "object", v);
  }

  /** The JSON type names, one by one. */
  lemma TypeNames(v: JSON)
    ensures TypeMatches("string", v) <==> v.JStr?
    ensures TypeMatches("number", v) <==> IsNumber(v)
    ensures TypeMatches("boolean", v) <==> v.JBool?
    ensures TypeMatches("null", v) <==> v.JNull?
    ensures TypeMatches("object", v) <==> v.JObj?
    ensures TypeMatches("array", v) <==> v.JArr?
  {
  }

  /** One for a singleton alternative that accepts, zero otherwise. */
  function Hit(b: bool): nat {
    if b then 1 else 0
  }

  lemma TypeCount(t: string, v: JSON)
    ensures CountAdmitting([TypeSchema(t)], v) == Hit(TypeMatches(t, v))
  {
    CountSingle(TypeSchema(t), v);
    AdmitsType(t, v);
  }

  /** Every value has exactly one JSON type, except that an integer (or an
      integral float) is also a `number`. */
  lemma TypeSum(v: JSON)
    ensures Hit(v.JStr?) + Hit(IsNumber(v)) + Hit(TypeMatches("integer", v)) + Hit(v.JBool?)
      + Hit(v.JObj?) + Hit(v.JArr?) + Hit(v.JNull?) == if TypeMatches("integer", v) then 2 else 1
  {
  }

  /** Every value matches one of the seven "any value" alternatives, and an
      integer (or an integral float) matches two: `number` and `integer`. */
  lemma AnyValueCount(v: JSON)
    ensures CountAdmitting(AnyValueAlternatives, v) == if TypeMatches("integer", v) then 2 else 1
  {
    AnyValueRuns(v);
    TypeCount("string", v);
    TypeCount("number", v);
    TypeCount("integer", v);
    TypeCount("boolean", v);
    AnyContainerHits(v);
    TypeSum(v);
  }

  lemma AnyValueRuns(v: JSON)
    ensures CountAdmitting(AnyValueAlternatives, v) ==
      CountAdmitting([TypeSchema("string")], v) + CountAdmitting([TypeSchema("number")], v)
      + CountAdmitting([TypeSchema("integer")], v) + CountAdmitting([TypeSchema("boolean")], v)
      + CountAdmitting([AnyObjectSchema], v) + CountAdmitting([AnyArraySchema, NullSchema], v)
  {
    var s := [TypeSchema("string")];
    var n := [TypeSchema("number")];
    var i := [TypeSchema("integer")];
    var b := [TypeSchema("boolean")];
    var o := [AnyObjectSchema];
    var rest := [AnyArraySchema, NullSchema];
    assert AnyValueAlternatives == s + n + i + b + o + rest;
    CountSix(s, n, i, b, o, rest, v);
  }

  lemma AnyContainerHits(v: JSON)
    ensures CountAdmitting([AnyObjectSchema], v) == Hit(v.JObj?)
    ensures CountAdmitting([AnyArraySchema, NullSchema], v) == Hit(v.JArr?) + Hit(v.JNull?)
  {
    CountSingle(AnyObjectSchema, v);
    AnyObjectAccepts(v);
    assert [AnyArraySchema, NullSchema] == [AnyArraySchema] + [NullSchema];
    CountAppend([AnyArraySchema], [NullSchema], v);
    CountSingle(AnyArraySchema, v);
    AnyArrayAccepts(v);
    TypeCount("null", v);
  }

  // ---- schema objects built from a type and keywords that impose nothing

  /** A keyword every value satisfies: an annotation, or an argument that
      constrains nothing. */
  predicate Vacuous(m: (string, JSON)) {
    || Annotation(m.0)
    || m == ("additionalProperties", JBool(true))
    || m == ("items", JObj([]))
    || m == ("minItems", JInt(0))
  }

  lemma VacuousHolds(m: (string, JSON), v: JSON, d: seq<string>)
    requires Vacuous(m)
    ensures KeywordHolds(m.0, m.1, v, d)
  {
    if m == ("items", JObj([])) && v.JArr? {
      forall i | 0 <= i < |v.items| ensures Admits(JObj([]), v.items[i]) {
        EmptySchemaAdmits(v.items[i]);
      }
    }
  }

  lemma VacuousHold(ms: Members, v: JSON, d: seq<string>)
    requires forall k :: 0 <= k < |ms| ==> Vacuous(ms[k])
    ensures AllHold(ms, v, d)
  {
    forall k | 0 <= k < |ms| ensures KeywordHolds(ms[k].0, ms[k].1, v, d) {
      VacuousHolds(ms[k], v, d);
    }
  }

  /** The keywords a string schema of the hardened and smart builders may
      carry besides its `type`. */
  predicate StringKeyword(m: (string, JSON)) {
    Vacuous(m) || m == ("pattern", JStr(Base64Pattern)) || m == ("minLength", JInt(1))
  }

  /** Such a string schema accepts the strings, non-empty where it says
      `minLength: 1` and base64-shaped where it carries the base64 pattern. */
  lemma TypedString(ms: Members, v: JSON)
    requires |ms| >= 1 && ms[0] == ("type", JStr("string"))
    requires forall k :: 1 <= k < |ms| ==> StringKeyword(ms[k])
    ensures Admits(JObj(ms), v) <==>
      && v.JStr?
      && (("minLength", JInt(1)) in ms ==> |v.s| >= 1)
      && (("pattern", JStr(Base64Pattern)) in ms ==> Base64Shaped(v.s))
  {
    AdmitsObject(ms, v);
    if v.JStr? && (("minLength", JInt(1)) in ms ==> |v.s| >= 1) && (("pattern", JStr(Base64Pattern)) in ms ==> Base64Shaped(v.s)) {
      TypedStringIf(ms, v);
    }
    if AllHold(ms, v, Declared(ms)) {
      TypedStringOnly(ms, v);
    }
  }

  lemma TypedStringIf(ms: Members, v: JSON)
    requires |ms| >= 1 && ms[0] == ("type", JStr("string"))
    requires forall k :: 1 <= k < |ms| ==> StringKeyword(ms[k])
    requires v.JStr? && (("minLength", JInt(1)) in ms ==> |v.s| >= 1)
    requires ("pattern", JStr(Base64Pattern)) in ms ==> Base64Shaped(v.s)
    ensures AllHold(ms, v, Declared(ms))
  {
    forall k | 0 <= k < |ms| ensures KeywordHolds(ms[k].0, ms[k].1, v, Declared(ms)) {
      if k > 0 {
        assert ms[k] in ms;
        StringKeywordHolds(ms[k], v, Declared(ms));
      }
    }
  }

  lemma TypedStringOnly(ms: Members, v: JSON)
    requires |ms| >= 1 && ms[0] == ("type", JStr("string"))
    requires AllHold(ms, v, Declared(ms))
    ensures v.JStr?
    ensures ("minLength", JInt(1)) in ms ==> |v.s| >= 1
    ensures ("pattern", JStr(Base64Pattern)) in ms ==> Base64Shaped(v.s)
  {
    var d := Declared(ms);
    assert KeywordHolds(ms[0].0, ms[0].1, v, d);
    if ("minLength", JInt(1)) in ms {
      var k :| 0 <= k < |ms| && ms[k] == ("minLength", JInt(1));
      assert KeywordHolds(ms[k].0, ms[k].1, v, d);
    }
    if ("pattern", JStr(Base64Pattern)) in ms {
      var k :| 0 <= k < |ms| && ms[k] == ("pattern", JStr(Base64Pattern));
      assert KeywordHolds(ms[k].0, ms[k].1, v, d);
    }
  }

  lemma StringKeywordHolds(m: (string, JSON), v: JSON, d: seq<string>)
    requires StringKeyword(m) && v.JStr?
    ensures KeywordHolds(m.0, m.1, v, d) <==>
      && (m == ("minLength", JInt(1)) ==> |v.s| >= 1)
      && (m == ("pattern", JStr(Base64Pattern)) ==> Base64Shaped(v.s))
  {
    if Vacuous(m) {
      VacuousHolds(m, v, d);
    }
  }

  /** A schema object accepts a value exactly when each keyword it holds
      does, in whatever order they are listed. */
  lemma AdmitsEach(ms: Members, v: JSON)
    ensures Admits(JObj(ms), v) <==> forall m :: m in ms ==> KeywordHolds(m.0, m.1, v, Declared(ms))
  {
    if Admits(JObj(ms), v) {
      forall m | m in ms ensures KeywordHolds(m.0, m.1, v, Declared(ms)) {
        var k :| 0 <= k < |ms| && ms[k] == m;
      }
    }
  }

  /** The keywords of a non-empty string schema of the hardened and smart
      builders: its `type`, `minLength: 1`, annotations, the base64 pattern
      and the `maxLength` the field recorded. */
  predicate NonEmptyStringKeyword(m: (string, JSON), hi: Option<nat>) {
    m == ("type", JStr("string")) || StringKeyword(m) || (hi.Some? && m == ("maxLength", JInt(hi.value)))
  }

  /** Such a schema accepts the non-empty strings within `maxLength`,
      base64-shaped ones where it carries the pattern. */
  lemma NonEmptyStringAdmits(ms: Members, hi: Option<nat>, b64: bool, v: JSON)
    requires ("type", JStr("string")) in ms && ("minLength", JInt(1)) in ms
    requires hi.Some? ==> ("maxLength", JInt(hi.value)) in ms
    requires ("pattern", JStr(Base64Pattern)) in ms <==> b64
    requires forall m :: m in ms ==> NonEmptyStringKeyword(m, hi)
    ensures Admits(JObj(ms), v) <==>
      v.JStr? && |v.s| >= 1 && (hi.Some? ==> |v.s| <= hi.value) && (b64 ==> Base64Shaped(v.s))
  {
    var d := Declared(ms);
    AdmitsEach(ms, v);
    if v.JStr? && |v.s| >= 1 && (hi.Some? ==> |v.s| <= hi.value) && (b64 ==> Base64Shaped(v.s)) {
      forall m | m in ms ensures KeywordHolds(m.0, m.1, v, d) {
        if StringKeyword(m) {
          StringKeywordHolds(m, v, d);
        }
      }
    }
  }

  /** The keywords of an array schema of the hardened and smart builders:
      its `type`, keywords that impose nothing (`minItems: 0` among them)
      and the `maxItems` the field recorded. */
  predicate BoundedArrayKeyword(m: (string, JSON), hi: Option<nat>) {
    m == ("type", JStr("array")) || Vacuous(m) || (hi.Some? && m == ("maxItems", JInt(hi.value)))
  }

  /** Such a schema accepts the arrays within `maxItems`, whatever their items. */
  lemma BoundedArrayAdmits(ms: Members, hi: Option<nat>, v: JSON)
    requires ("type", JStr("array")) in ms
    requires hi.Some? ==> ("maxItems", JInt(hi.value)) in ms
    requires forall m :: m in ms ==> BoundedArrayKeyword(m, hi)
    ensures Admits(JObj(ms), v) <==> v.JArr? && (hi.Some? ==> |v.items| <= hi.value)
  {
    var d := Declared(ms);
    AdmitsEach(ms, v);
    if v.JArr? && (hi.Some? ==> |v.items| <= hi.value) {
      forall m | m in ms ensures KeywordHolds(m.0, m.1, v, d) {
        if Vacuous(m) {
          VacuousHolds(m, v, d);
        }
      }
    }
  }

  /** A schema of a `type` and keywords that impose nothing accepts exactly
      the values of that type. */
  lemma TypedVacuous(ms: Members, t: string, v: JSON)
    requires |ms| >= 1 && ms[0] == ("type", JStr(t))
    requires forall k :: 1 <= k < |ms| ==> Vacuous(ms[k])
    ensures Admits(JObj(ms), v) <==> TypeMatches(t, v)
  {
    var d := Declared(ms);
    assert ms == [ms[0]] + ms[1..];
    AdmitsObject(ms, v);
    AllHoldAppend([ms[0]], ms[1..], v, d);
    AllHoldOne(ms[0], v, d);
    VacuousHold(ms[1..], v, d);
  }

  /** A schema object of a `type` followed by keywords that impose nothing. */
  predicate Typed(x: JSON, t: string) {
    && x.JObj? && |x.members| >= 1 && x.members[0] == ("type", JStr(t))
    && forall k :: 1 <= k < |x.members| ==> Vacuous(x.members[k])
  }

  lemma TypedAdmits(x: JSON, t: string, v: JSON)
    requires Typed(x, t)
    ensures Admits(x, v) <==> TypeMatches(t, v)
  {
    TypedVacuous(x.members, t, v);
  }

  /** A typed alternative appended only when `c` holds. */
  lemma CountOptTyped(c: bool, x: JSON, t: string, v: JSON)
    requires Typed(x, t)
    ensures CountAdmitting(Opt(c, x), v) == Hit(c && TypeMatches(t, v))
  {
    CountOpt(c, x, v);
    TypedAdmits(x, t, v);
  }

  lemma TypedSchemas()
    ensures forall t :: Typed(TypeSchema(t), t)
    ensures Typed(AnyArraySchema, "array") && Typed(AnyObjectSchema, "object")
  {
  }

  /** A three-way union counted alternative by alternative. */
  lemma CountThree(x: JSON, y: JSON, z: JSON, v: JSON)
    ensures CountAdmitting([x, y, z], v) == Hit(Admits(x, v)) + Hit(Admits(y, v)) + Hit(Admits(z, v))
  {
    assert [x, y, z] == [x] + [y] + [z];
    CountAppend([x] + [y], [z], v);
    CountAppend([x], [y], v);
    CountSingle(x, v);
    CountSingle(y, v);
    CountSingle(z, v);
  }

  /** A seven-way union of such alternatives, counted by type. */
  lemma CountSevenTyped(alts: seq<JSON>, ts: seq<string>, v: JSON)
    requires |alts| == 7 == |ts| && forall k :: 0 <= k < 7 ==> Typed(alts[k], ts[k])
    ensures CountAdmitting(alts, v) ==
      Hit(TypeMatches(ts[0], v)) + Hit(TypeMatches(ts[1], v)) + Hit(TypeMatches(ts[2], v)) + Hit(TypeMatches(ts[3], v))
      + Hit(TypeMatches(ts[4], v)) + Hit(TypeMatches(ts[5], v)) + Hit(TypeMatches(ts[6], v))
  {
    CountSeven(alts, v);
    forall k | 0 <= k < 7 ensures Admits(alts[k], v) <==> TypeMatches(ts[k], v) {
      TypedVacuous(alts[k].members, ts[k], v);
    }
  }

  /** An eight-way union whose last six alternatives are typed, counted by
      type after its first two. */
  lemma CountEightTyped(alts: seq<JSON>, ts: seq<string>, v: JSON)
    requires |alts| == 8 == |ts| && forall k :: 2 <= k < 8 ==> Typed(alts[k], ts[k])
    ensures CountAdmitting(alts, v) ==
      Hit(Admits(alts[0], v)) + Hit(Admits(alts[1], v)) + Hit(TypeMatches(ts[2], v)) + Hit(TypeMatches(ts[3], v))
      + Hit(TypeMatches(ts[4], v)) + Hit(TypeMatches(ts[5], v)) + Hit(TypeMatches(ts[6], v)) + Hit(TypeMatches(ts[7], v))
  {
    CountEight(alts, v);
    forall k | 2 <= k < 8 ensures Admits(alts[k], v) <==> TypeMatches(ts[k], v) {
      TypedVacuous(alts[k].members, ts[k], v);
    }
  }

  /** A described `oneOf` accepts what exactly one alternative accepts. */
  lemma OneOfDescribed(alts: seq<JSON>, desc: string, v: JSON)
    ensures Admits(JObj([("oneOf", JArr(alts)), ("description", JStr(desc))]), v) <==> CountAdmitting(alts, v) == 1
  {
    var ms := [("oneOf", JArr(alts)), ("description", JStr(desc))];
    AdmitsObject(ms, v);
    AllHoldTwo(ms[0], ms[1], v, Declared(ms));
    ExactlyOneCount(alts, v);
  }

  /** `oneOf` accepts what exactly one alternative accepts. */
  lemma OneOfCount(alts: seq<JSON>, v: JSON)
    ensures Admits(OneOf(alts), v) <==> CountAdmitting(alts, v) == 1
  {
    AdmitsOneOf(alts, v);
    ExactlyOneCount(alts, v);
  }

  /** The number of alternatives of a seven-way union that accept `v`. */
  lemma CountSeven(alts: seq<JSON>, v: JSON)
    requires |alts| == 7
    ensures CountAdmitting(alts, v) ==
      Hit(Admits(alts[0], v)) + Hit(Admits(alts[1], v)) + Hit(Admits(alts[2], v)) + Hit(Admits(alts[3], v))
      + Hit(Admits(alts[4], v)) + Hit(Admits(alts[5], v)) + Hit(Admits(alts[6], v))
  {
    assert alts == [alts[0]] + [alts[1]] + [alts[2]] + [alts[3]] + [alts[4]] + alts[5..];
    CountSix([alts[0]], [alts[1]], [alts[2]], [alts[3]], [alts[4]], alts[5..], v);
    CountSingle(alts[0], v);
    CountSingle(alts[1], v);
    CountSingle(alts[2], v);
    CountSingle(alts[3], v);
    CountSingle(alts[4], v);
    assert alts[5..] == [alts[5]] + [alts[6]];
    CountAppend([alts[5]], [alts[6]], v);
    CountSingle(alts[5], v);
    CountSingle(alts[6], v);
  }

  /** The number of alternatives of an eight-way union that accept `v`. */
  lemma CountEight(alts: seq<JSON>, v: JSON)
    requires |alts| == 8
    ensures CountAdmitting(alts, v) ==
      Hit(Admits(alts[0], v)) + Hit(Admits(alts[1], v)) + Hit(Admits(alts[2], v)) + Hit(Admits(alts[3], v))
      + Hit(Admits(alts[4], v)) + Hit(Admits(alts[5], v)) + Hit(Admits(alts[6], v)) + Hit(Admits(alts[7], v))
  {
    assert alts == alts[..7] + [alts[7]];
    CountAppend(alts[..7], [alts[7]], v);
    CountSeven(alts[..7], v);
    CountSingle(alts[7], v);
  }
}
