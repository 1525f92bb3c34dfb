/** What a JSON Schema (draft 2020-12) accepts, for the keywords the schema
    builders emit: `type`, `oneOf`, `anyOf`, `properties`, `required`,
    `additionalProperties`, `items`, `minLength`/`maxLength`,
    `minItems`/`maxItems`, `minimum`/`maximum` and `pattern`. `format`,
    `contentEncoding`, `contentMediaType`, `description`, `examples` and
    `$schema` are annotations and accept everything, as they do in a
    validator that is not asked to check formats. */
module Validation {
  import opened Json
  import opened Classifiers

  /** A number in the sense of the `number` type: an int or a float, never a bool. */
  predicate IsNumber(v: JSON) {
    v.JInt? || v.JFloat?
  }

  function NumberValue(v: JSON): real
    requires IsNumber(v)
  {
    if v.JInt? then v.i as real else v.f
  }

  /** `type: t` */
  predicate TypeMatches(t: string, v: JSON) {
    if t == "string" then v.JStr?
    else if t == "number" then IsNumber(v)
    else if t == "integer" then v.JInt? || (v.JFloat? && v.f == v.f.Floor as real)
    else if t == "boolean" then v.JBool?
    else if t == "null" then v.JNull?
    else if t == "object" then v.JObj?
    else if t == "array" then v.JArr?
    else false
  }

  /** `pattern: p`, searched in the string. */
  predicate PatternHolds(p: string, s: string) {
    p == Base64Pattern ==> Base64Shaped(s)
  }

  /** The property names a schema object declares under `properties`. */
  function Declared(ms: Members): seq<string> {
    match Lookup(ms, "properties")
    case Some(JObj(props)) => Keys(props)
    case _ => []
  }

  lemma DeclaredOf(ms: Members, props: Members)
    requires Lookup(ms, "properties") == Some(JObj(props))
    ensures Declared(ms) == Keys(props)
  {
  }

  predicate Admits(schema: JSON, v: JSON)
    decreases schema, 1
  {
    match schema
    case JBool(b) => b
    case JObj(ms) => forall k :: 0 <= k < |ms| ==> KeywordHolds(ms[k].0, ms[k].1, v, Declared(ms))
    case _ => true
  }

  /** One keyword `kw` with argument `arg` of a schema object whose
      `properties` declare `declared`. */
  predicate KeywordHolds(kw: string, arg: JSON, v: JSON, declared: seq<string>)
    decreases arg, 2
  {
    if kw == "type" then
      arg.JStr? ==> TypeMatches(arg.s, v)
    else if kw == "oneOf" then
      arg.JArr? ==> ExactlyOne(arg.items, v)
    else if kw == "anyOf" then
      arg.JArr? ==> SomeAdmits(arg.items, v)
    else if kw == "properties" then
      arg.JObj? && v.JObj? ==> PropertiesHold(arg.members, v.members)
    else if kw == "required" then
      arg.JArr? && v.JObj? ==> RequiredPresent(arg.items, v.members)
    else if kw == "additionalProperties" then
      arg == JBool(false) && v.JObj? ==> forall i :: 0 <= i < |v.members| ==> v.members[i].0 in declared
    else if kw == "items" then
      v.JArr? ==> forall i :: 0 <= i < |v.items| ==> Admits(arg, v.items[i])
    else if kw == "minLength" then
      arg.JInt? && v.JStr? ==> |v.s| >= arg.i
    else if kw == "maxLength" then
      arg.JInt? && v.JStr? ==> |v.s| <= arg.i
    else if kw == "minItems" then
      arg.JInt? && v.JArr? ==> |v.items| >= arg.i
    else if kw == "maxItems" then
      arg.JInt? && v.JArr? ==> |v.items| <= arg.i
    else if kw == "minimum" then
      IsNumber(arg) && IsNumber(v) ==> NumberValue(v) >= NumberValue(arg)
    else if kw == "maximum" then
      IsNumber(arg) && IsNumber(v) ==> NumberValue(v) <= NumberValue(arg)
    else if kw == "pattern" then
      arg.JStr? && v.JStr? ==> PatternHolds(arg.s, v.s)
    else
      true
  }

  /** Exactly one of `alts` accepts `v`. */
  predicate ExactlyOne(alts: seq<JSON>, v: JSON)
    decreases JArr(alts), 0
  {
    exists i :: 0 <= i < |alts| && Admits(alts[i], v) && forall j :: 0 <= j < |alts| && j != i ==> !Admits(alts[j], v)
  }

  /** At least one of `alts` accepts `v`. */
  predicate SomeAdmits(alts: seq<JSON>, v: JSON)
    decreases JArr(alts), 0
  {
    exists i :: 0 <= i < |alts| && Admits(alts[i], v)
  }

  /** Each member of the instance that a property schema names is accepted by it. */
  predicate PropertiesHold(props: Members, ms: Members)
    decreases JObj(props), 0
  {
    forall j, i :: 0 <= j < |props| && 0 <= i < |ms| && props[j].0 == ms[i].0 ==> Admits(props[j].1, ms[i].1)
  }

  /** Each name listed as required is a key of the instance. */
  predicate RequiredPresent(names: seq<JSON>, ms: Members) {
    forall j :: 0 <= j < |names| && names[j].JStr? ==> Lookup(ms, names[j].s).Some?
  }

  /** Every keyword of `ms` holds of `v`. */
  predicate AllHold(ms: Members, v: JSON, declared: seq<string>) {
    forall k :: 0 <= k < |ms| ==> KeywordHolds(ms[k].0, ms[k].1, v, declared)
  }

  // ---- taking a schema object apart keyword by keyword

  lemma AdmitsObject(ms: Members, v: JSON)
    ensures Admits(JObj(ms), v) <==> AllHold(ms, v, Declared(ms))
  {
  }

  lemma AllHoldAppend(ms1: Members, ms2: Members, v: JSON, d: seq<string>)
    ensures AllHold(ms1 + ms2, v, d) <==> AllHold(ms1, v, d) && AllHold(ms2, v, d)
  {
    if AllHold(ms1, v, d) && AllHold(ms2, v, d) {
      forall k | 0 <= k < |ms1 + ms2|
        ensures KeywordHolds((ms1 + ms2)[k].0, (ms1 + ms2)[k].1, v, d)
      {
        if k >= |ms1| {
          assert (ms1 + ms2)[k] == ms2[k - |ms1|];
        }
      }
    }
    if AllHold(ms1 + ms2, v, d) {
      forall k | 0 <= k < |ms1|
        ensures KeywordHolds(ms1[k].0, ms1[k].1, v, d)
      {
        assert (ms1 + ms2)[k] == ms1[k];
      }
      forall k | 0 <= k < |ms2|
        ensures KeywordHolds(ms2[k].0, ms2[k].1, v, d)
      {
        assert (ms1 + ms2)[|ms1| + k] == ms2[k];
      }
    }
  }

  lemma AllHoldOne(m: (string, JSON), v: JSON, d: seq<string>)
    ensures AllHold([m], v, d) <==> KeywordHolds(m.0, m.1, v, d)
  {
    assert [m][0] == m;
  }

  lemma AllHoldTwo(m1: (string, JSON), m2: (string, JSON), v: JSON, d: seq<string>)
    ensures AllHold([m1, m2], v, d) <==> KeywordHolds(m1.0, m1.1, v, d) && KeywordHolds(m2.0, m2.1, v, d)
  {
    assert [m1, m2] == [m1] + [m2];
    AllHoldAppend([m1], [m2], v, d);
    AllHoldOne(m1, v, d);
    AllHoldOne(m2, v, d);
  }

  /** `{"type": t}` accepts exactly the values of type `t`. */
  lemma AdmitsType(t: string, v: JSON)
    ensures Admits(JObj([("type", JStr(t))]), v) <==> TypeMatches(t, v)
  {
    AllHoldOne(("type", JStr(t)), v, []);
  }

  /** `{"oneOf": alts}` accepts what exactly one alternative accepts. */
  lemma AdmitsOneOf(alts: seq<JSON>, v: JSON)
    ensures Admits(JObj([("oneOf", JArr(alts))]), v) <==> ExactlyOne(alts, v)
  {
    AllHoldOne(("oneOf", JArr(alts)), v, []);
  }

  /** The alternative at `i` accepts `v` and no other does: `oneOf` holds. */
  lemma ExactlyOneAt(alts: seq<JSON>, v: JSON, i: nat)
    requires i < |alts| && Admits(alts[i], v)
    requires forall j :: 0 <= j < |alts| && j != i ==> !Admits(alts[j], v)
    ensures ExactlyOne(alts, v)
  {
  }

  /** Two different alternatives accepting `v` make `oneOf` fail. */
  lemma TwoAdmitNotExactlyOne(alts: seq<JSON>, v: JSON, i: nat, j: nat)
    requires i < |alts| && j < |alts| && i != j
    requires Admits(alts[i], v) && Admits(alts[j], v)
    ensures !ExactlyOne(alts, v)
  {
  }

  /** No alternative accepting `v` makes `oneOf` fail. */
  lemma NoneAdmitNotExactlyOne(alts: seq<JSON>, v: JSON)
    requires forall j :: 0 <= j < |alts| ==> !Admits(alts[j], v)
    ensures !ExactlyOne(alts, v)
  {
  }

  // ---- counting the alternatives that accept a value

  /** `{"anyOf": alts}` accepts what some alternative accepts. */
  lemma AdmitsAnyOf(alts: seq<JSON>, v: JSON)
    ensures Admits(JObj([("anyOf", JArr(alts))]), v) <==> SomeAdmits(alts, v)
  {
    AllHoldOne(("anyOf", JArr(alts)), v, []);
  }

  /** The number of alternatives that accept `v`. */
  function CountAdmitting(alts: seq<JSON>, v: JSON): nat {
    if alts == [] then 0
    else (if Admits(alts[0], v) then 1 else 0) + CountAdmitting(alts[1..], v)
  }

  lemma {:induction false} CountPositive(alts: seq<JSON>, v: JSON)
    ensures CountAdmitting(alts, v) > 0 <==> SomeAdmits(alts, v)
  {
    if alts != [] {
      CountPositive(alts[1..], v);
      if SomeAdmits(alts, v) && !Admits(alts[0], v) {
        var i :| 0 <= i < |alts| && Admits(alts[i], v);
        assert alts[1..][i - 1] == alts[i];
      }
      if SomeAdmits(alts[1..], v) {
        var i :| 0 <= i < |alts[1..]| && Admits(alts[1..][i], v);
        assert alts[i + 1] == alts[1..][i];
      }
    }
  }

  lemma {:induction false} CountTwo(alts: seq<JSON>, v: JSON, i: nat, j: nat)
    requires i < |alts| && j < |alts| && i != j
    requires Admits(alts[i], v) && Admits(alts[j], v)
    ensures CountAdmitting(alts, v) >= 2
  {
    var rest := alts[1..];
    if i == 0 {
      assert rest[j - 1] == alts[j];
      CountPositive(rest, v);
    } else if j == 0 {
      assert rest[i - 1] == alts[i];
      CountPositive(rest, v);
    } else {
      assert rest[i - 1] == alts[i] && rest[j - 1] == alts[j];
      CountTwo(rest, v, i - 1, j - 1);
    }
  }

  lemma {:induction false} CountOnly(alts: seq<JSON>, v: JSON, i: nat)
    requires i < |alts| && Admits(alts[i], v)
    requires forall j :: 0 <= j < |alts| && j != i ==> !Admits(alts[j], v)
    ensures CountAdmitting(alts, v) == 1
  {
    var rest := alts[1..];
    if i == 0 {
      forall j | 0 <= j < |rest| ensures !Admits(rest[j], v) {
        assert rest[j] == alts[j + 1];
      }
      CountPositive(rest, v);
    } else {
      forall j | 0 <= j < |rest| && j != i - 1 ensures !Admits(rest[j], v) {
        assert rest[j] == alts[j + 1];
      }
      assert rest[i - 1] == alts[i];
      CountOnly(rest, v, i - 1);
    }
  }

  /** `oneOf` holds exactly when one alternative, counted, accepts `v`. */
  lemma ExactlyOneCount(alts: seq<JSON>, v: JSON)
    ensures ExactlyOne(alts, v) <==> CountAdmitting(alts, v) == 1
  {
    if ExactlyOne(alts, v) {
      var i :| 0 <= i < |alts| && Admits(alts[i], v) && forall j :: 0 <= j < |alts| && j != i ==> !Admits(alts[j], v);
      CountOnly(alts, v, i);
    }
    if CountAdmitting(alts, v) == 1 {
      CountOneExactly(alts, v);
    }
  }

  lemma CountOneExactly(alts: seq<JSON>, v: JSON)
    requires CountAdmitting(alts, v) == 1
    ensures ExactlyOne(alts, v)
  {
    CountPositive(alts, v);
    var i :| 0 <= i < |alts| && Admits(alts[i], v);
    forall j | 0 <= j < |alts| && j != i ensures !Admits(alts[j], v) {
      if Admits(alts[j], v) {
        CountTwo(alts, v, i, j);
      }
    }
  }

  lemma {:induction false} CountAppend(a: seq<JSON>, b: seq<JSON>, v: JSON)
    ensures CountAdmitting(a + b, v) == CountAdmitting(a, v) + CountAdmitting(b, v)
  {
    if a != [] {
      assert (a + b)[0] == a[0];
      assert (a + b)[1..] == a[1..] + b;
      CountAppend(a[1..], b, v);
    } else {
      assert a + b == b;
    }
  }

  lemma CountSingle(x: JSON, v: JSON)
    ensures CountAdmitting([x], v) == if Admits(x, v) then 1 else 0
  {
    assert [x][1..] == [];
  }
}
