/** Where the generated schemas disagree with the records they were built
    from, each shown on a concrete input, and the corrected builders with
    the property the original ones were meant to have. */
module Findings {
  import opened Json
  import opened Classifiers
  import opened Profiling
  import opened Schemas
  import opened Validation
  import opened Acceptance
  import opened Generator
  import opened Soundness

  // ---- the profile of a field, read back from the records

  /** A field's types are the tags of the non-null values the records give it. */
  lemma ProfileTypes(objects: seq<Members>, k: string, t: TypeTag)
    requires k in Profile(objects).order
    ensures t in Profile(objects).fields[k].stats.types <==>
      exists i, v :: 0 <= i < |objects| && (k, v) in objects[i] && !v.JNull? && Tag(v) == t
  {
    var vals := ValuesOf(Entries(objects), k);
    StatsTypes(vals, t);
    if t in Profile(objects).fields[k].stats.types {
      var m :| 0 <= m < |vals| && !vals[m].JNull? && Tag(vals[m]) == t;
      ValuesOfMembers(Entries(objects), k, vals[m]);
      EntriesMembers(objects, (k, vals[m]));
    }
    if exists i, v :: 0 <= i < |objects| && (k, v) in objects[i] && !v.JNull? && Tag(v) == t {
      var i, v :| 0 <= i < |objects| && (k, v) in objects[i] && !v.JNull? && Tag(v) == t;
      EntriesMembers(objects, (k, v));
      ValuesOfMembers(Entries(objects), k, v);
      var m :| 0 <= m < |vals| && vals[m] == v;
    }
  }

  /** Every record holds `k` exactly when `Holding` counts all of them. */
  lemma {:induction false} HoldingAll(objects: seq<Members>, k: string)
    ensures Holding(objects, k) <= |objects|
    ensures Holding(objects, k) == |objects| <==> forall i :: 0 <= i < |objects| ==> Lookup(objects[i], k).Some?
  {
    if objects != [] {
      var init := objects[..|objects| - 1];
      HoldingAll(init, k);
      if forall i :: 0 <= i < |objects| ==> Lookup(objects[i], k).Some? {
        assert forall i :: 0 <= i < |init| ==> init[i] == objects[i];
      }
      if Holding(objects, k) == |objects| {
        forall i | 0 <= i < |objects| ensures Lookup(objects[i], k).Some? {
          if i < |init| {
            assert init[i] == objects[i];
          }
        }
      }
    }
  }

  /** A record with no null that holds every key any record holds passes
      the plain schema. */
  lemma PlainAcceptsComplete(objects: seq<Members>, i: nat)
    requires i < |objects|
    requires forall k :: (k, JNull) !in objects[i]
    requires forall j, k :: 0 <= j < |objects| && Lookup(objects[j], k).Some? ==> Lookup(objects[i], k).Some?
    ensures Admits(TopLevel(Plain, Profile(objects), 0), JObj(objects[i]))
  {
    ProfileOrder(objects, 0);
    PlainAcceptsRecord(objects, i);
  }

  // ---- a nullable field fails `_analyze_objects`' own check

  /** The records `[{"a": 1}, {"a": null}]`: the field is an integer field
      with a null seen, and its schema `{"type": "integer"}` rejects null, so
      the second record fails the schema generated from it. */
  lemma NullableFieldRejected()
    ensures var objects := [[("a", JInt(1))], [("a", JNull)]];
      && Admits(TopLevel(Plain, Profile(objects), 0), JObj(objects[0]))
      && !Admits(TopLevel(Plain, Profile(objects), 0), JObj(objects[1]))
  {
    var objects := [[("a", JInt(1))], [("a", JNull)]];
    NullableFieldProfile(objects);
    PlainAcceptsRecord(objects, 1);
    NullableFieldFirst(objects);
  }

  lemma NullableFieldProfile(objects: seq<Members>)
    requires objects == [[("a", JInt(1))], [("a", JNull)]]
    ensures "a" in Profile(objects).order && "a" in Profile(objects).fields
    ensures ("a", JNull) in objects[1] && !NullAccepted(Profile(objects).fields["a"])
  {
    var t := Profile(objects);
    ProfileOrder(objects, 0);
    assert Lookup(objects[0], "a") == Some(JInt(1));
    assert "a" in t.order;
    var a := t.fields["a"];
    ProfileNulls(objects, "a");
    assert ("a", JNull) in objects[1];
    assert a.nullPercentage.Positive();
    NullableFieldTypes(objects);
  }

  /** The only type the records give the field is integer. */
  lemma NullableFieldTypes(objects: seq<Members>)
    requires objects == [[("a", JInt(1))], [("a", JNull)]]
    requires "a" in Profile(objects).order
    ensures Profile(objects).fields["a"].stats.types == {TInt}
  {
    var ts := Profile(objects).fields["a"].stats.types;
    forall u: TypeTag ensures u in ts <==> u == TInt {
      ProfileTypes(objects, "a", u);
      assert ("a", JInt(1)) in objects[0];
    }
  }

  lemma NullableFieldFirst(objects: seq<Members>)
    requires objects == [[("a", JInt(1))], [("a", JNull)]]
    ensures Admits(TopLevel(Plain, Profile(objects), 0), JObj(objects[0]))
  {
    forall j, k | 0 <= j < |objects| && Lookup(objects[j], k).Some? ensures Lookup(objects[0], k).Some? {
      assert k == "a";
    }
    PlainAcceptsComplete(objects, 0);
  }

  // ---- a key missing from some record stays required

  /** The records `[{"a": 1, "b": 2}, {"a": 3}]`: `b` holds no null, so it
      is marked required although the second record lacks it, and that
      record fails the schema generated from it. */
  lemma MissingFieldRejected()
    ensures var objects := [[("a", JInt(1)), ("b", JInt(2))], [("a", JInt(3))]];
      && Admits(TopLevel(Plain, Profile(objects), 0), JObj(objects[0]))
      && !Admits(TopLevel(Plain, Profile(objects), 0), JObj(objects[1]))
  {
    var objects := [[("a", JInt(1)), ("b", JInt(2))], [("a", JInt(3))]];
    MissingFieldRequired(objects);
    MissingFieldFirst(objects);
  }

  lemma MissingFieldRequired(objects: seq<Members>)
    requires objects == [[("a", JInt(1)), ("b", JInt(2))], [("a", JInt(3))]]
    ensures !Admits(TopLevel(Plain, Profile(objects), 0), JObj(objects[1]))
  {
    MissingFieldProfile(objects);
    PlainAcceptsRecord(objects, 1);
  }

  lemma MissingFieldProfile(objects: seq<Members>)
    requires objects == [[("a", JInt(1)), ("b", JInt(2))], [("a", JInt(3))]]
    ensures "b" in Profile(objects).order && "b" in Profile(objects).fields
    ensures Profile(objects).fields["b"].required && Lookup(objects[1], "b").None?
  {
    var t := Profile(objects);
    ProfileOrder(objects, 0);
    assert Lookup(objects[0], "b") == Some(JInt(2));
    assert "b" in t.order;
    MissingFieldNeverNull(objects);
    ProfileFlags(objects, "b");
  }

  lemma MissingFieldNeverNull(objects: seq<Members>)
    requires objects == [[("a", JInt(1)), ("b", JInt(2))], [("a", JInt(3))]]
    ensures forall i :: 0 <= i < |objects| ==> ("b", JNull) !in objects[i]
  {
    assert ("b", JNull) !in objects[0] && ("b", JNull) !in objects[1];
  }

  lemma MissingFieldFirst(objects: seq<Members>)
    requires objects == [[("a", JInt(1)), ("b", JInt(2))], [("a", JInt(3))]]
    ensures Admits(TopLevel(Plain, Profile(objects), 0), JObj(objects[0]))
  {
    forall j, k | 0 <= j < |objects| && Lookup(objects[j], k).Some? ensures Lookup(objects[0], k).Some? {
      assert k == "a" || k == "b";
    }
    PlainAcceptsComplete(objects, 0);
  }

  // ---- the corrected field schema

  /** The corrected schema admits null exactly when some record gave the
      field a null. */
  lemma NullableNull(a: FieldAnalysis)
    requires a.isMixed <==> |a.stats.types| > 1
    ensures Admits(NullablePropertySchema(a), JNull) <==> a.nullPercentage.Positive()
  {
    if !a.nullPercentage.Positive() {
      PropertySchemaNull(a);
    } else if a.stats.types == {} {
      NullSchemaAccepts(JNull);
    } else {
      var a' := a.(nullPercentage := Ratio(0, a.nullPercentage.den));
      PropertySchemaNull(a');
      NullSchemaAccepts(JNull);
      NullableCount(a, JNull);
    }
  }

  /** The two alternatives of a corrected nullable field. */
  lemma NullableCount(a: FieldAnalysis, v: JSON)
    ensures var a' := a.(nullPercentage := Ratio(0, a.nullPercentage.den));
      Admits(OneOf([PropertySchema(a'), NullSchema]), v) <==>
        (if Admits(PropertySchema(a'), v) then 1 else 0) + (if Admits(NullSchema, v) then 1 else 0) == 1
  {
    var a' := a.(nullPercentage := Ratio(0, a.nullPercentage.den));
    var alts := [PropertySchema(a'), NullSchema];
    assert alts == [PropertySchema(a')] + [NullSchema];
    AdmitsOneOf(alts, v);
    ExactlyOneCount(alts, v);
    CountAppend([PropertySchema(a')], [NullSchema], v);
    CountSingle(PropertySchema(a'), v);
    CountSingle(NullSchema, v);
  }

  /** The corrected schema admits every non-null value the field's analysis
      describes. */
  lemma NullableDescribed(a: FieldAnalysis, v: JSON)
    requires Describes(a, v)
    ensures Admits(NullablePropertySchema(a), v)
  {
    var a' := a.(nullPercentage := Ratio(0, a.nullPercentage.den));
    if !a.nullPercentage.Positive() {
      PropertySchemaAcceptsDescribed(a, v);
    } else {
      assert a.stats.types != {};
      assert Describes(a', v);
      PropertySchemaAcceptsDescribed(a', v);
      NullSchemaAccepts(v);
      NullableCount(a, v);
    }
  }

  /** Each member of a record is admitted by the corrected schema of its
      field, with the presence-based `required`. */
  lemma CorrectedMember(objects: seq<Members>, i: nat, j: nat)
    requires i < |objects| && j < |objects[i]|
    ensures objects[i][j].0 in Profile(objects).order
    ensures var p := Presence(Profile(objects), |objects|);
      Admits(NullablePropertySchema(p.fields[objects[i][j].0]), objects[i][j].1)
  {
    ProfileOrder(objects, 0);
    var (k, v) := objects[i][j];
    var t := Profile(objects);
    EntriesMembers(objects, (k, v));
    ValuesOfMembers(Entries(objects), k, v);
    OrderValues(Entries(objects), k);
    ProfileFlags(objects, k);
    var b := Presence(t, |objects|).fields[k];
    assert b.stats == t.fields[k].stats && b.isMixed == t.fields[k].isMixed && b.nullPercentage == t.fields[k].nullPercentage;
    if v.JNull? {
      ProfileNulls(objects, k);
      NullableNull(b);
    } else {
      ProfileDescribes(objects, k, v);
      NullableDescribed(b, v);
    }
  }

  lemma CorrectedFields(objects: seq<Members>, i: nat)
    requires i < |objects|
    ensures forall k :: k in Profile(objects).order ==> k in Profile(objects).fields
    ensures FieldsAccept(Corrected, Presence(Profile(objects), |objects|), objects[i])
  {
    ProfileOrder(objects, 0);
    var p := Presence(Profile(objects), |objects|);
    var o := objects[i];
    forall j | 0 <= j < |o| && o[j].0 in p.order
      ensures Admits(PropertyFor(Corrected, o[j].0, p.fields[o[j].0]), o[j].1)
    {
      CorrectedMemberAt(objects, i, j, p);
    }
    FieldsAcceptEach(Corrected, p, o);
  }

  lemma CorrectedMemberAt(objects: seq<Members>, i: nat, j: nat, p: Table<FieldAnalysis>)
    requires i < |objects| && j < |objects[i]|
    requires forall k :: k in Profile(objects).order ==> k in Profile(objects).fields
    requires p == Presence(Profile(objects), |objects|)
    requires objects[i][j].0 in p.order
    ensures Admits(PropertyFor(Corrected, objects[i][j].0, p.fields[objects[i][j].0]), objects[i][j].1)
  {
    var (k, v) := objects[i][j];
    var a := p.fields[k];
    assert Admits(NullablePropertySchema(a), v) by {
      CorrectedMember(objects, i, j);
    }
    CorrectedProperty(k, a);
  }

  /** `FieldsAccept`, one member at a time. */
  lemma FieldsAcceptEach(style: Style, t: Table<FieldAnalysis>, o: Members)
    requires forall k :: k in t.order ==> k in t.fields
    requires forall j :: 0 <= j < |o| && o[j].0 in t.order ==> Admits(PropertyFor(style, o[j].0, t.fields[o[j].0]), o[j].1)
    ensures FieldsAccept(style, t, o)
  {
    forall j, m | 0 <= j < |o| && 0 <= m < |t.order| && o[j].0 == t.order[m]
      ensures Admits(PropertyFor(style, t.order[m], t.fields[t.order[m]]), o[j].1)
    {
      assert o[j].0 in t.order;
    }
  }

  lemma CorrectedRequired(objects: seq<Members>, i: nat)
    requires forall i :: 0 <= i < |objects| ==> DistinctKeys(objects[i])
    requires i < |objects|
    ensures forall k :: k in Profile(objects).order ==> k in Profile(objects).fields
    ensures var p := Presence(Profile(objects), |objects|);
      forall k :: k in p.order && p.fields[k].required ==> Lookup(objects[i], k).Some?
  {
    ProfileOrder(objects, 0);
    var p := Presence(Profile(objects), |objects|);
    forall k | k in p.order && p.fields[k].required ensures Lookup(objects[i], k).Some? {
      ProfileTotal(objects, k);
      HoldingAll(objects, k);
    }
  }

  /** With nullable field schemas and `required` kept only for fields every
      record holds, the schema admits every record it was built from. */
  lemma CorrectedAcceptsRecord(objects: seq<Members>, i: nat)
    requires forall i :: 0 <= i < |objects| ==> DistinctKeys(objects[i])
    requires i < |objects|
    ensures Admits(TopLevel(Corrected, Presence(Profile(objects), |objects|), 0), JObj(objects[i]))
  {
    ProfileOrder(objects, 0);
    TopLevelAccepts(Corrected, Presence(Profile(objects), |objects|), 0, objects[i]);
    CorrectedFields(objects, i);
    CorrectedRequired(objects, i);
  }

  lemma CorrectedAcceptsAll(objects: seq<Members>)
    requires forall i :: 0 <= i < |objects| ==> DistinctKeys(objects[i])
    ensures forall i :: 0 <= i < |objects| ==>
      Admits(TopLevel(Corrected, Presence(Profile(objects), |objects|), 0), JObj(objects[i]))
  {
    forall i | 0 <= i < |objects|
      ensures Admits(TopLevel(Corrected, Presence(Profile(objects), |objects|), 0), JObj(objects[i]))
    {
      CorrectedAcceptsRecord(objects, i);
    }
  }

  /** `_analyze_objects` with the corrected schema: its check never fails. */
  method AnalyzeObjectsCorrected(objects: seq<Members>) returns (r: Result<JSON>)
    requires forall i :: 0 <= i < |objects| ==> DistinctKeys(objects[i])
    ensures objects == [] <==> r == Failure(EmptyInput)
    ensures r.Success? ==>
      && r.value == TopLevel(Corrected, Presence(Profile(objects), |objects|), 0)
      && forall i :: 0 <= i < |objects| ==> Admits(r.value, JObj(objects[i]))
  {
    if objects == [] {
      return Failure(EmptyInput);
    }
    var t := AnalyzeFields(objects);
    ProfileOrder(objects, 0);
    var schema := BuildSchema(Corrected, Presence(t, |objects|), 0);
    CorrectedAcceptsAll(objects);
    var failed := ValidateSchema(schema, objects);
    assert failed.None?;
    return Success(schema);
  }

  // ---- the permissive field schema rejects integers

  /** The field schema of `generate_flexible_schema` is a `oneOf` over
      overlapping alternatives: it rejects every integer, and, for a field
      with binary content, every string. */
  lemma FlexibleAccepts(a: FieldAnalysis, v: JSON)
    ensures Admits(FlexiblePropertySchema(a), v) <==>
      !TypeMatches("integer", v) && !(a.stats.isBinary && v.JStr?)
  {
    var extra := Opt(a.stats.isBinary, Base64StringSchema);
    AdmitsOneOf(AnyValueAlternatives + extra, v);
    ExactlyOneCount(AnyValueAlternatives + extra, v);
    CountAppend(AnyValueAlternatives, extra, v);
    AnyValueCount(v);
    CountOpt(a.stats.isBinary, Base64StringSchema, v);
    Base64StringAccepts(v);
  }

  /** So the flexible schema rejects every record that gives an analysed
      field an integer. */
  lemma FlexibleRejectsIntegers(t: Table<FieldAnalysis>, o: Members, j: nat)
    requires NoDuplicates(t.order)
    requires forall k :: k in t.order ==> k in t.fields
    requires j < |o| && o[j].0 in t.order && o[j].1.JInt?
    ensures !Admits(TopLevel(Flexible, t, 0), JObj(o))
  {
    TopLevelAccepts(Flexible, t, 0, o);
    var m :| 0 <= m < |t.order| && t.order[m] == o[j].0;
    FlexibleAccepts(t.fields[t.order[m]], o[j].1);
  }

  /** The `anyOf` form admits every value. */
  lemma AnyValueAdmitsAll(a: FieldAnalysis, v: JSON)
    ensures Admits(AnyValueSchema(a), v)
  {
    var alts := AnyValueAlternatives + Opt(a.stats.isBinary, Base64StringSchema);
    AdmitsAnyOf(alts, v);
    AnyValueCount(v);
    CountAppend(AnyValueAlternatives, Opt(a.stats.isBinary, Base64StringSchema), v);
    CountPositive(alts, v);
  }
}
