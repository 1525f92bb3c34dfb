/** What the top-level schemas accept, and whether the records a schema was
    generated from pass it. */
module Soundness {
  import opened Json
  import opened Classifiers
  import opened Profiling
  import opened Schemas
  import opened Validation
  import opened Acceptance
  import opened Generator

  /** Each member of `o` that names an analysed field is accepted by that
      field's schema. */
  predicate FieldsAccept(style: Style, t: Table<FieldAnalysis>, o: Members)
    requires forall k :: k in t.order ==> k in t.fields
  {
    forall i, j :: 0 <= i < |o| && 0 <= j < |t.order| && o[i].0 == t.order[j] ==>
      Admits(PropertyFor(style, t.order[j], t.fields[t.order[j]]), o[i].1)
  }

  /** Where the schema lists `required`, every field seen in all records is
      present in `o`. */
  predicate RequiredFieldsPresent(style: Style, t: Table<FieldAnalysis>, o: Members)
    requires forall k :: k in t.order ==> k in t.fields
  {
    style.ListsRequired() ==> forall k :: k in t.order && t.fields[k].required ==> Lookup(o, k).Some?
  }

  /** Where the schema closes `additionalProperties`, `o` holds no member
      outside the declared names `d`. */
  predicate NoExtraFields(style: Style, d: seq<string>, o: Members) {
    style.Closed() ==> forall i :: 0 <= i < |o| ==> o[i].0 in d
  }

  lemma LookupProperties(style: Style, props: Members, req: seq<string>, maxDepth: int)
    ensures Lookup(TopMembers(style, props, req, maxDepth), "properties") == Some(JObj(props))
  {
    var head := TopHead(props);
    var ms := head + TopRequired(style, req) + TopExtra(style, maxDepth);
    assert ms[0] == head[0] && ms[1] == head[1] && ms[2] == head[2];
    LookupThird(ms, "properties");
  }

  lemma HeadHolds(props: Members, o: Members, d: seq<string>)
    ensures AllHold(TopHead(props), JObj(o), d) <==> PropertiesHold(props, o)
  {
    var h := TopHead(props);
    assert h == [h[0]] + [h[1], h[2]];
    AllHoldAppend([h[0]], [h[1], h[2]], JObj(o), d);
    AllHoldOne(h[0], JObj(o), d);
    AllHoldTwo(h[1], h[2], JObj(o), d);
  }

  lemma PropertiesHoldFields(style: Style, t: Table<FieldAnalysis>, o: Members)
    requires NoDuplicates(t.order)
    requires forall k :: k in t.order ==> k in t.fields
    ensures PropertiesHold(PropertiesOf(style, t.order, t.fields), o) <==> FieldsAccept(style, t, o)
  {
    PropertiesShape(style, t.order, t.fields);
  }

  lemma RequiredHolds(style: Style, req: seq<string>, o: Members, d: seq<string>)
    ensures AllHold(TopRequired(style, req), JObj(o), d) <==>
      (style.ListsRequired() ==> forall k :: k in req ==> Lookup(o, k).Some?)
  {
    if style.ListsRequired() {
      var names := Strings(req);
      AllHoldOne(("required", JArr(names)), JObj(o), d);
      if forall k :: k in req ==> Lookup(o, k).Some? {
        forall j | 0 <= j < |names| && names[j].JStr? ensures Lookup(o, names[j].s).Some? {
          assert names[j].s == req[j];
        }
      }
      if RequiredPresent(names, o) {
        forall k | k in req ensures Lookup(o, k).Some? {
          var j :| 0 <= j < |req| && req[j] == k;
          assert names[j] == JStr(k);
        }
      }
    }
  }

  lemma ExtraHolds(style: Style, maxDepth: int, o: Members, d: seq<string>)
    ensures AllHold(TopExtra(style, maxDepth), JObj(o), d) <==> NoExtraFields(style, d, o)
  {
    if style.Hardened? {
      AllHoldOne(("additionalProperties", JBool(false)), JObj(o), d);
    } else if style.Smart? {
      SmartExtraHolds(maxDepth, o, d);
    } else if style.Flexible? || style.FlexibleWithTypes? {
      AllHoldOne(("additionalProperties", JBool(true)), JObj(o), d);
    }
  }

  lemma SmartExtraHolds(maxDepth: int, o: Members, d: seq<string>)
    ensures AllHold(TopExtra(Smart, maxDepth), JObj(o), d) <==> forall i :: 0 <= i < |o| ==> o[i].0 in d
  {
    AllHoldTwo(("additionalProperties", JBool(false)), ("description", JStr(SmartDescription(maxDepth))), JObj(o), d);
  }

  lemma TopLevelParts(style: Style, t: Table<FieldAnalysis>, maxDepth: int, o: Members)
    requires NoDuplicates(t.order)
    requires forall k :: k in t.order ==> k in t.fields
    ensures Admits(TopLevel(style, t, maxDepth), JObj(o)) <==>
      && AllHold(TopHead(PropertiesOf(style, t.order, t.fields)), JObj(o), t.order)
      && AllHold(TopRequired(style, RequiredOf(t.order, t.fields)), JObj(o), t.order)
      && AllHold(TopExtra(style, maxDepth), JObj(o), t.order)
  {
    var props := PropertiesOf(style, t.order, t.fields);
    var req := RequiredOf(t.order, t.fields);
    TopDeclared(style, t, maxDepth);
    ThreeParts(TopHead(props), TopRequired(style, req), TopExtra(style, maxDepth), JObj(o));
  }

  /** The names a top-level schema declares are the table's fields, in order. */
  lemma TopDeclared(style: Style, t: Table<FieldAnalysis>, maxDepth: int)
    requires NoDuplicates(t.order)
    requires forall k :: k in t.order ==> k in t.fields
    ensures Declared(TopMembers(style, PropertiesOf(style, t.order, t.fields), RequiredOf(t.order, t.fields), maxDepth)) == t.order
  {
    var props := PropertiesOf(style, t.order, t.fields);
    var req := RequiredOf(t.order, t.fields);
    LookupProperties(style, props, req, maxDepth);
    DeclaredOf(TopMembers(style, props, req, maxDepth), props);
    PropertiesShape(style, t.order, t.fields);
  }

  lemma HeadFields(style: Style, t: Table<FieldAnalysis>, o: Members)
    requires NoDuplicates(t.order)
    requires forall k :: k in t.order ==> k in t.fields
    ensures AllHold(TopHead(PropertiesOf(style, t.order, t.fields)), JObj(o), t.order) <==> FieldsAccept(style, t, o)
  {
    HeadHolds(PropertiesOf(style, t.order, t.fields), o, t.order);
    PropertiesHoldFields(style, t, o);
  }

  lemma RequiredFields(style: Style, t: Table<FieldAnalysis>, o: Members)
    requires NoDuplicates(t.order)
    requires forall k :: k in t.order ==> k in t.fields
    ensures AllHold(TopRequired(style, RequiredOf(t.order, t.fields)), JObj(o), t.order) <==>
      RequiredFieldsPresent(style, t, o)
  {
    RequiredHolds(style, RequiredOf(t.order, t.fields), o, t.order);
    RequiredShape(t.order, t.fields);
  }

  /** A top-level schema accepts a record exactly when every analysed field
      it holds passes that field's schema, every required field is present
      (where `required` is listed), and, for the hardened and smart schemas,
      it holds no field outside `properties`. */
  lemma TopLevelAccepts(style: Style, t: Table<FieldAnalysis>, maxDepth: int, o: Members)
    requires NoDuplicates(t.order)
    requires forall k :: k in t.order ==> k in t.fields
    ensures Admits(TopLevel(style, t, maxDepth), JObj(o)) <==>
      FieldsAccept(style, t, o) && RequiredFieldsPresent(style, t, o) && NoExtraFields(style, t.order, o)
  {
    TopLevelParts(style, t, maxDepth, o);
    HeadFields(style, t, o);
    RequiredFields(style, t, o);
    ExtraHolds(style, maxDepth, o, t.order);
  }

  // ---- the plain schema against the records it was generated from

  /** Every non-null value a record gives a field is described by that
      field's record in the profile. */
  lemma ProfileDescribes(objects: seq<Members>, k: string, v: JSON)
    requires v in ValuesOf(Entries(objects), k) && !v.JNull?
    ensures k in Profile(objects).order
    ensures Describes(Profile(objects).fields[k], v)
  {
    var vals := ValuesOf(Entries(objects), k);
    OrderValues(Entries(objects), k);
    var i :| 0 <= i < |vals| && vals[i] == v;
    StatsTypes(vals, Tag(v));
    StatsLengths(vals);
    StatsValues(vals);
  }

  /** A field's `null_percentage` is positive exactly when some record gives
      it a null. */
  lemma ProfileNulls(objects: seq<Members>, k: string)
    requires k in Profile(objects).order
    ensures Profile(objects).fields[k].nullPercentage.Positive() <==>
      exists i :: 0 <= i < |objects| && (k, JNull) in objects[i]
  {
    ProfileFlags(objects, k);
  }

  /** Where the plain property schema admits null. */
  predicate NullAccepted(a: FieldAnalysis) {
    a.nullPercentage.Positive() && (if |a.stats.types| > 1 then TStr !in a.stats.types else TStr in a.stats.types)
  }

  lemma MemberAccepted(objects: seq<Members>, i: nat, j: nat)
    requires i < |objects| && j < |objects[i]|
    ensures objects[i][j].0 in Profile(objects).order
    ensures Admits(PropertySchema(Profile(objects).fields[objects[i][j].0]), objects[i][j].1) <==>
      (objects[i][j].1.JNull? ==> NullAccepted(Profile(objects).fields[objects[i][j].0]))
  {
    var (k, v) := objects[i][j];
    EntriesMembers(objects, (k, v));
    ValuesOfMembers(Entries(objects), k, v);
    OrderValues(Entries(objects), k);
    ProfileFlags(objects, k);
    if v.JNull? {
      PropertySchemaNull(Profile(objects).fields[k]);
    } else {
      ProfileDescribes(objects, k, v);
      PropertySchemaAcceptsDescribed(Profile(objects).fields[k], v);
    }
  }

  lemma PlainFieldsAccept(objects: seq<Members>, i: nat)
    requires i < |objects|
    ensures forall k :: (k, JNull) in objects[i] ==> k in Profile(objects).order
    ensures FieldsAccept(Plain, Profile(objects), objects[i]) <==>
      forall k :: (k, JNull) in objects[i] ==> NullAccepted(Profile(objects).fields[k])
  {
    NullsDeclared(objects, i);
    if FieldsAccept(Plain, Profile(objects), objects[i]) {
      PlainFieldsNulls(objects, i);
    }
    if forall k :: (k, JNull) in objects[i] ==> NullAccepted(Profile(objects).fields[k]) {
      PlainNullsFields(objects, i);
    }
  }

  /** A key a record gives a null is a field of the profile. */
  lemma NullsDeclared(objects: seq<Members>, i: nat)
    requires i < |objects|
    ensures forall k :: (k, JNull) in objects[i] ==> k in Profile(objects).order
  {
    var o := objects[i];
    forall k | (k, JNull) in o ensures k in Profile(objects).order {
      var j :| 0 <= j < |o| && o[j] == (k, JNull);
      MemberAccepted(objects, i, j);
    }
  }

  lemma PlainFieldsNulls(objects: seq<Members>, i: nat)
    requires i < |objects|
    requires FieldsAccept(Plain, Profile(objects), objects[i])
    ensures forall k :: (k, JNull) in objects[i] ==> k in Profile(objects).fields && NullAccepted(Profile(objects).fields[k])
  {
    var t := Profile(objects);
    var o := objects[i];
    forall k | (k, JNull) in o ensures k in t.fields && NullAccepted(t.fields[k]) {
      var j :| 0 <= j < |o| && o[j] == (k, JNull);
      MemberAccepted(objects, i, j);
      var m :| 0 <= m < |t.order| && t.order[m] == k;
    }
  }

  lemma PlainNullsFields(objects: seq<Members>, i: nat)
    requires i < |objects|
    requires forall k :: (k, JNull) in objects[i] ==> k in Profile(objects).fields && NullAccepted(Profile(objects).fields[k])
    ensures FieldsAccept(Plain, Profile(objects), objects[i])
  {
    var t := Profile(objects);
    var o := objects[i];
    forall j, m | 0 <= j < |o| && 0 <= m < |t.order| && o[j].0 == t.order[m]
      ensures Admits(PropertyFor(Plain, t.order[m], t.fields[t.order[m]]), o[j].1)
    {
      MemberAccepted(objects, i, j);
      if o[j].1.JNull? {
        assert (o[j].0, JNull) in o;
      }
    }
  }


  /** The check `_analyze_objects` runs on its own schema: a record passes
      exactly when each of its nulls sits in a field whose schema admits
      null, and it holds every field the profile marks required. Non-null
      values always pass. */
  lemma PlainAcceptsRecord(objects: seq<Members>, i: nat)
    requires i < |objects|
    ensures var t := Profile(objects);
      Admits(TopLevel(Plain, t, 0), JObj(objects[i])) <==>
        && (forall k :: (k, JNull) in objects[i] ==> k in t.order && NullAccepted(t.fields[k]))
        && (forall k :: k in t.order && t.fields[k].required ==> Lookup(objects[i], k).Some?)
  {
    ProfileOrder(objects, 0);
    TopLevelAccepts(Plain, Profile(objects), 0, objects[i]);
    PlainFieldsAccept(objects, i);
  }
}
