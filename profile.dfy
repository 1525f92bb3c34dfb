/** The flat field profiler: one pass over the records that keeps, per field
    name, a running record of what its values looked like; then the
    post-processing pass and the deep analysis that enriches each record. */
module Profiling {
  import opened Json
  import opened Classifiers
  import opened Structure

  /** The running record `_analyze_fields` keeps for one field name. The
      `values` list it also keeps is never read again and is not modelled. */
  datatype FieldStats = FieldStats(
    types: set<TypeTag>,
    nullCount: nat,
    totalCount: nat,
    minLength: Option<nat>,
    maxLength: Option<nat>,
    minValue: Option<Num>,
    maxValue: Option<Num>,
    patterns: set<Pattern>,
    isBinary: bool)

  const NewStats := FieldStats({}, 0, 0, None, None, None, None, {}, false)

  /** `null_count / total_count`, kept exact. */
  datatype Ratio = Ratio(num: nat, den: nat) {
    /** `null_percentage > 0` */
    predicate Positive() { num > 0 && den > 0 }
    /** `null_percentage > 0.3` */
    predicate AboveThreeTenths() { 10 * num > 3 * den }
  }

  /** A finished field record: the running record plus what post-processing
      and the deep analysis add to it. `maxDepth` is the `max_depth` key the
      smart dispatch reads; no analysis ever writes it. */
  datatype FieldAnalysis = FieldAnalysis(
    stats: FieldStats,
    isMixed: bool,
    required: bool,
    nullPercentage: Ratio,
    hasNestedBinary: bool,
    nested: Option<NestedAnalysis>,
    maxDepth: Option<int>)

  /** The field-name -> record dict, with its iteration order. */
  datatype Table<R> = Table(order: seq<string>, fields: map<string, R>)

  // ---- the per-value helpers

  function ObserveLength(a: FieldStats, n: nat): FieldStats {
    a.(minLength := if a.minLength.None? || n < a.minLength.value then Some(n) else a.minLength,
       maxLength := if a.maxLength.None? || n > a.maxLength.value then Some(n) else a.maxLength)
  }

  function ObserveNumber(a: FieldStats, n: Num): FieldStats {
    a.(minValue := if a.minValue.None? || n.Value() < a.minValue.value.Value() then Some(n) else a.minValue,
       maxValue := if a.maxValue.None? || n.Value() > a.maxValue.value.Value() then Some(n) else a.maxValue)
  }

  /** `_analyze_string_field`: length bounds, the binary flag, and at most
      one pattern. */
  function AnalyzeStringField(a: FieldStats, s: string): FieldStats {
    var a1 := ObserveLength(a, |s|);
    var a2 := if IsLikelyBinary(s) then a1.(isBinary := true) else a1;
    match ClassifyPattern(s)
    case Some(p) => a2.(patterns := a2.patterns + {p})
    case None => a2
  }

  /** `_analyze_numeric_field`: a bool reaches it, since Python's bool is an
      int, and is turned away. */
  function AnalyzeNumericField(a: FieldStats, v: JSON): FieldStats
    requires v.JBool? || v.JInt? || v.JFloat?
  {
    match v
    case JInt(i) => ObserveNumber(a, NInt(i))
    case JFloat(f) => ObserveNumber(a, NFloat(f))
    case JBool(_) => a
  }

  /** `_analyze_array_field` */
  function AnalyzeArrayField(a: FieldStats, items: seq<JSON>): FieldStats {
    ObserveLength(a, |items|)
  }

  /** One iteration of the inner loop of `_analyze_fields` on a record. */
  function Observe(a: FieldStats, v: JSON): FieldStats {
    var a1 := a.(totalCount := a.totalCount + 1);
    if v.JNull? then a1.(nullCount := a1.nullCount + 1)
    else
      var a2 := a1.(types := a1.types + {Tag(v)});
      match v
      case JStr(s) => AnalyzeStringField(a2, s)
      case JArr(items) => AnalyzeArrayField(a2, items)
      case JObj(_) => a2
      case JBool(_) => AnalyzeNumericField(a2, v)
      case JInt(_) => AnalyzeNumericField(a2, v)
      case JFloat(_) => AnalyzeNumericField(a2, v)
      case JNull => a2
  }

  /** The record for a field after seeing `vals`, in order. */
  function StatsOf(vals: seq<JSON>): FieldStats {
    if vals == [] then NewStats else Observe(StatsOf(vals[..|vals| - 1]), vals[|vals| - 1])
  }

  /** `_post_process_field_analysis` */
  function PostProcess(a: FieldStats): FieldAnalysis {
    FieldAnalysis(
      a,
      |a.types| > 1,
      a.nullCount == 0,
      if a.totalCount > 0 then Ratio(a.nullCount, a.totalCount) else Ratio(0, 1),
      false,
      None,
      None)
  }

  // ---- the records as one stream of (key, value) entries

  /** Every member of every record, in iteration order. */
  function Entries(objects: seq<Members>): Members {
    if objects == [] then [] else Entries(objects[..|objects| - 1]) + objects[|objects| - 1]
  }

  /** The values seen for key `k`, in order. */
  function ValuesOf(es: Members, k: string): seq<JSON> {
    if es == [] then []
    else
      var rest := ValuesOf(es[..|es| - 1], k);
      if es[|es| - 1].0 == k then rest + [es[|es| - 1].1] else rest
  }

  /** The keys in the order they are first seen. */
  function FieldOrder(es: Members): seq<string> {
    if es == [] then [] else AddUnique(FieldOrder(es[..|es| - 1]), es[|es| - 1].0)
  }

  function RawTable(es: Members): map<string, FieldStats> {
    map k | k in FieldOrder(es) :: StatsOf(ValuesOf(es, k))
  }

  /** `_analyze_fields(objects)` */
  function Profile(objects: seq<Members>): Table<FieldAnalysis> {
    var es := Entries(objects);
    Table(FieldOrder(es), map k | k in FieldOrder(es) :: PostProcess(StatsOf(ValuesOf(es, k))))
  }

  lemma ValuesStep(es: Members, e: (string, JSON), k: string)
    ensures ValuesOf(es + [e], k) == if k == e.0 then ValuesOf(es, k) + [e.1] else ValuesOf(es, k)
  {
    assert (es + [e])[..|es|] == es;
  }

  lemma StatsStep(vals: seq<JSON>, v: JSON)
    ensures StatsOf(vals + [v]) == Observe(StatsOf(vals), v)
  {
    assert (vals + [v])[..|vals|] == vals;
  }

  lemma RawTableStep(es: Members, e: (string, JSON))
    ensures FieldOrder(es + [e]) == AddUnique(FieldOrder(es), e.0)
    ensures RawTable(es + [e]) ==
      RawTable(es)[e.0 := Observe(if e.0 in RawTable(es) then RawTable(es)[e.0] else NewStats, e.1)]
  {
    OrderStep(es, e);
    var t := RawTable(es);
    var t' := RawTable(es + [e]);
    var expected := t[e.0 := Observe(if e.0 in t then t[e.0] else NewStats, e.1)];
    assert t'.Keys == expected.Keys;
    forall k | k in t'.Keys
      ensures t'[k] == expected[k]
    {
      RawTableAt(es, e, k);
    }
  }

  lemma OrderStep(es: Members, e: (string, JSON))
    ensures FieldOrder(es + [e]) == AddUnique(FieldOrder(es), e.0)
  {
    assert (es + [e])[..|es|] == es;
  }

  lemma RawTableAt(es: Members, e: (string, JSON), k: string)
    requires k in FieldOrder(es + [e])
    ensures RawTable(es + [e])[k] ==
      if k == e.0 then Observe(if e.0 in RawTable(es) then RawTable(es)[e.0] else NewStats, e.1)
      else RawTable(es)[k]
  {
    OrderStep(es, e);
    ValuesStep(es, e, k);
    if k == e.0 {
      StatsStep(ValuesOf(es, k), e.1);
      if e.0 !in RawTable(es) {
        OrderValues(es, e.0);
      }
    }
  }

  /** A key is in the order exactly when some value was seen for it. */
  lemma {:induction false} OrderValues(es: Members, k: string)
    ensures k in FieldOrder(es) <==> ValuesOf(es, k) != []
  {
    if es != [] {
      OrderValues(es[..|es| - 1], k);
    }
  }

  /** The inner loop of `_analyze_fields` over the members of one record. */
  method ObserveRecord(ghost seen: Members, order: seq<string>, fields: map<string, FieldStats>, obj: Members)
    returns (order': seq<string>, fields': map<string, FieldStats>)
    requires order == FieldOrder(seen) && fields == RawTable(seen)
    ensures order' == FieldOrder(seen + obj) && fields' == RawTable(seen + obj)
  {
    order', fields' := order, fields;
    var j := 0;
    ghost var es := seen;
    assert seen + obj[..0] == seen;
    while j < |obj|
      invariant 0 <= j <= |obj|
      invariant es == seen + obj[..j]
      invariant order' == FieldOrder(es) && fields' == RawTable(es)
    {
      SnocSlice(seen, obj, j);
      order', fields' := ObserveMember(es, order', fields', obj[j]);
      es := es + [obj[j]];
      j := j + 1;
    }
    assert obj[..|obj|] == obj;
  }

  lemma SnocSlice<T>(s: seq<T>, t: seq<T>, j: nat)
    requires j < |t|
    ensures s + t[..j + 1] == s + t[..j] + [t[j]]
  {
    assert t[..j + 1] == t[..j] + [t[j]];
  }

  /** One iteration of that loop: count `e`'s value under `e`'s key. */
  method ObserveMember(ghost es: Members, order: seq<string>, fields: map<string, FieldStats>, e: (string, JSON))
    returns (order': seq<string>, fields': map<string, FieldStats>)
    requires order == FieldOrder(es) && fields == RawTable(es)
    ensures order' == FieldOrder(es + [e]) && fields' == RawTable(es + [e])
  {
    var (name, value) := e;
    RawTableStep(es, e);
    assert name in fields <==> name in order;
    var current := if name in fields then fields[name] else NewStats;
    order' := order;
    if name !in fields {
      order' := order + [name];
    }
    fields' := fields[name := Observe(current, value)];
  }

  /** The post-processing loop of `_analyze_fields`. */
  method PostProcessAll(order: seq<string>, fields: map<string, FieldStats>) returns (finished: map<string, FieldAnalysis>)
    requires forall n :: n in order ==> n in fields
    ensures finished == map n | n in order :: PostProcess(fields[n])
  {
    finished := map[];
    var i := 0;
    while i < |order|
      invariant 0 <= i <= |order|
      invariant finished == map n | n in order[..i] :: PostProcess(fields[n])
    {
      assert order[..i + 1] == order[..i] + [order[i]];
      finished := finished[order[i] := PostProcess(fields[order[i]])];
      i := i + 1;
    }
    assert order[..i] == order;
  }

  /** `_analyze_fields(objects)` */
  method AnalyzeFields(objects: seq<Members>) returns (t: Table<FieldAnalysis>)
    ensures t == Profile(objects)
  {
    var order: seq<string> := [];
    var fields: map<string, FieldStats> := map[];
    var k := 0;
    while k < |objects|
      invariant 0 <= k <= |objects|
      invariant order == FieldOrder(Entries(objects[..k]))
      invariant fields == RawTable(Entries(objects[..k]))
    {
      assert objects[..k + 1][..k] == objects[..k];
      order, fields := ObserveRecord(Entries(objects[..k]), order, fields, objects[k]);
      k := k + 1;
    }
    assert objects[..k] == objects;
    var finished := PostProcessAll(order, fields);
    t := Table(order, finished);
  }

  // ---- what a finished record says about the values it saw

  /** The length a value contributes to `min_length`/`max_length`: strings
      and lists share the same two bounds. */
  function LengthOf(v: JSON): Option<nat> {
    match v
    case JStr(s) => Some(|s|)
    case JArr(items) => Some(|items|)
    case _ => None
  }

  /** The number a value contributes to `min_value`/`max_value`; a bool
      contributes none. */
  function NumOf(v: JSON): Option<Num> {
    match v
    case JInt(i) => Some(NInt(i))
    case JFloat(f) => Some(NFloat(f))
    case _ => None
  }

  /** What one observation does to each bound and to the pattern set. */
  lemma ObserveParts(a: FieldStats, v: JSON)
    ensures Observe(a, v).patterns ==
      if v.JStr? && ClassifyPattern(v.s).Some? then a.patterns + {ClassifyPattern(v.s).value} else a.patterns
    ensures Observe(a, v).minLength ==
      if LengthOf(v).Some? && (a.minLength.None? || LengthOf(v).value < a.minLength.value) then LengthOf(v) else a.minLength
    ensures Observe(a, v).maxLength ==
      if LengthOf(v).Some? && (a.maxLength.None? || LengthOf(v).value > a.maxLength.value) then LengthOf(v) else a.maxLength
    ensures Observe(a, v).minValue ==
      if NumOf(v).Some? && (a.minValue.None? || NumOf(v).value.Value() < a.minValue.value.Value()) then NumOf(v) else a.minValue
    ensures Observe(a, v).maxValue ==
      if NumOf(v).Some? && (a.maxValue.None? || NumOf(v).value.Value() > a.maxValue.value.Value()) then NumOf(v) else a.maxValue
  {
  }

  /** Every value is counted; a null counts as null, and only a null. */
  lemma {:induction false} StatsCounts(vals: seq<JSON>)
    ensures StatsOf(vals).totalCount == |vals|
    ensures StatsOf(vals).nullCount <= StatsOf(vals).totalCount
    ensures StatsOf(vals).nullCount == 0 <==> forall i :: 0 <= i < |vals| ==> !vals[i].JNull?
    ensures StatsOf(vals).nullCount == |vals| <==> forall i :: 0 <= i < |vals| ==> vals[i].JNull?
  {
    if vals != [] {
      var init := vals[..|vals| - 1];
      var v := vals[|vals| - 1];
      StatsCounts(init);
      ObserveCounts(StatsOf(init), v);
      forall i | 0 <= i < |vals| - 1
        ensures vals[i] == init[i]
      {
      }
    }
  }

  /** One observation counts one value, and one null where the value is null. */
  lemma ObserveCounts(a: FieldStats, v: JSON)
    ensures Observe(a, v).totalCount == a.totalCount + 1
    ensures Observe(a, v).nullCount == if v.JNull? then a.nullCount + 1 else a.nullCount
  {
  }

  /** The type set holds exactly the tags of the non-null values; a null
      adds no tag. */
  lemma {:induction false} StatsTypes(vals: seq<JSON>, t: TypeTag)
    ensures t in StatsOf(vals).types <==> exists i :: 0 <= i < |vals| && !vals[i].JNull? && Tag(vals[i]) == t
    ensures TNone !in StatsOf(vals).types
  {
    if vals != [] {
      var init := vals[..|vals| - 1];
      StatsTypes(init, t);
      assert vals == init + [vals[|vals| - 1]];
    }
  }

  /** The binary flag is set exactly when some string value looks binary. */
  lemma {:induction false} StatsBinary(vals: seq<JSON>)
    ensures StatsOf(vals).isBinary <==> exists i :: 0 <= i < |vals| && vals[i].JStr? && IsLikelyBinary(vals[i].s)
  {
    if vals != [] {
      var init := vals[..|vals| - 1];
      StatsBinary(init);
      assert vals == init + [vals[|vals| - 1]];
    }
  }

  /** The pattern set holds exactly the patterns the string values were
      classified as, one per value at most. */
  lemma {:induction false} StatsPatterns(vals: seq<JSON>, p: Pattern)
    ensures p in StatsOf(vals).patterns <==> exists i :: 0 <= i < |vals| && vals[i].JStr? && ClassifyPattern(vals[i].s) == Some(p)
  {
    if vals != [] {
      var init := vals[..|vals| - 1];
      var v := vals[|vals| - 1];
      StatsPatterns(init, p);
      ObserveParts(StatsOf(init), v);
      if exists i :: 0 <= i < |init| && init[i].JStr? && ClassifyPattern(init[i].s) == Some(p) {
        var i :| 0 <= i < |init| && init[i].JStr? && ClassifyPattern(init[i].s) == Some(p);
        assert vals[i] == init[i];
      }
      forall i | 0 <= i < |vals| - 1
        ensures vals[i] == init[i]
      {
      }
    }
  }

  /** `min_length` and `max_length` are unset until a string or list is
      seen; after that they are the least and the greatest such length. */
  lemma {:induction false} StatsLengths(vals: seq<JSON>)
    ensures StatsOf(vals).minLength.None? <==> forall i :: 0 <= i < |vals| ==> LengthOf(vals[i]).None?
    ensures StatsOf(vals).maxLength.None? <==> StatsOf(vals).minLength.None?
    ensures StatsOf(vals).minLength.Some? ==>
      && (exists i :: 0 <= i < |vals| && LengthOf(vals[i]) == StatsOf(vals).minLength)
      && (forall i :: 0 <= i < |vals| && LengthOf(vals[i]).Some? ==> StatsOf(vals).minLength.value <= LengthOf(vals[i]).value)
    ensures StatsOf(vals).maxLength.Some? ==>
      && (exists i :: 0 <= i < |vals| && LengthOf(vals[i]) == StatsOf(vals).maxLength)
      && (forall i :: 0 <= i < |vals| && LengthOf(vals[i]).Some? ==> LengthOf(vals[i]).value <= StatsOf(vals).maxLength.value)
  {
    if vals != [] {
      var init := vals[..|vals| - 1];
      var v := vals[|vals| - 1];
      var a := StatsOf(init);
      var r := StatsOf(vals);
      StatsLengths(init);
      ObserveParts(a, v);
      forall i | 0 <= i < |vals| - 1
        ensures vals[i] == init[i]
      {
      }
      if a.minLength.Some? {
        var i :| 0 <= i < |init| && LengthOf(init[i]) == a.minLength;
        assert LengthOf(vals[i]) == a.minLength;
      }
      if a.maxLength.Some? {
        var i :| 0 <= i < |init| && LengthOf(init[i]) == a.maxLength;
        assert LengthOf(vals[i]) == a.maxLength;
      }
    }
  }

  /** Once set, `min_length <= max_length`. */
  lemma LengthBoundsOrdered(vals: seq<JSON>)
    requires StatsOf(vals).minLength.Some?
    ensures StatsOf(vals).maxLength.Some? && StatsOf(vals).minLength.value <= StatsOf(vals).maxLength.value
  {
    StatsLengths(vals);
  }

  /** `min_value` and `max_value` are unset until an int or float is seen
      (a bool never sets them); after that they are the first least and
      the first greatest number seen, compared by exact value. */
  lemma StatsValues(vals: seq<JSON>)
    ensures StatsOf(vals).minValue.None? <==> forall i :: 0 <= i < |vals| ==> NumOf(vals[i]).None?
    ensures StatsOf(vals).maxValue.None? <==> StatsOf(vals).minValue.None?
    ensures StatsOf(vals).minValue.Some? ==>
      && (forall i :: 0 <= i < |vals| && NumOf(vals[i]).Some? ==> StatsOf(vals).minValue.value.Value() <= NumOf(vals[i]).value.Value())
      && exists i :: 0 <= i < |vals| && NumOf(vals[i]) == StatsOf(vals).minValue
           && forall j :: 0 <= j < i && NumOf(vals[j]).Some? ==> StatsOf(vals).minValue.value.Value() < NumOf(vals[j]).value.Value()
    ensures StatsOf(vals).maxValue.Some? ==>
      && (forall i :: 0 <= i < |vals| && NumOf(vals[i]).Some? ==> NumOf(vals[i]).value.Value() <= StatsOf(vals).maxValue.value.Value())
      && exists i :: 0 <= i < |vals| && NumOf(vals[i]) == StatsOf(vals).maxValue
           && forall j :: 0 <= j < i && NumOf(vals[j]).Some? ==> NumOf(vals[j]).value.Value() < StatsOf(vals).maxValue.value.Value()
  {
    StatsMinBound(vals);
    StatsMinFirst(vals);
    StatsMaxBound(vals);
    StatsMaxFirst(vals);
  }

  lemma {:induction false} StatsMinBound(vals: seq<JSON>)
    ensures StatsOf(vals).minValue.None? <==> forall i :: 0 <= i < |vals| ==> NumOf(vals[i]).None?
    ensures StatsOf(vals).minValue.Some? ==>
      forall i :: 0 <= i < |vals| && NumOf(vals[i]).Some? ==> StatsOf(vals).minValue.value.Value() <= NumOf(vals[i]).value.Value()
  {
    if vals != [] {
      var init := vals[..|vals| - 1];
      StatsMinBound(init);
      ObserveBounds(StatsOf(init), vals[|vals| - 1]);
      forall i | 0 <= i < |vals| - 1
        ensures vals[i] == init[i]
      {
      }
    }
  }

  lemma {:induction false} StatsMinFirst(vals: seq<JSON>)
    ensures StatsOf(vals).minValue.Some? ==>
      exists i :: 0 <= i < |vals| && NumOf(vals[i]) == StatsOf(vals).minValue
        && forall j :: 0 <= j < i && NumOf(vals[j]).Some? ==> StatsOf(vals).minValue.value.Value() < NumOf(vals[j]).value.Value()
  {
    if vals != [] {
      var init := vals[..|vals| - 1];
      var v := vals[|vals| - 1];
      var a := StatsOf(init);
      StatsMinFirst(init);
      StatsMinBound(init);
      ObserveBounds(a, v);
      forall i | 0 <= i < |vals| - 1
        ensures vals[i] == init[i]
      {
      }
      if StatsOf(vals).minValue == a.minValue && a.minValue.Some? {
        var i :| 0 <= i < |init| && NumOf(init[i]) == a.minValue
          && forall j :: 0 <= j < i && NumOf(init[j]).Some? ==> a.minValue.value.Value() < NumOf(init[j]).value.Value();
        assert NumOf(vals[i]) == a.minValue;
      }
    }
  }

  lemma {:induction false} StatsMaxBound(vals: seq<JSON>)
    ensures StatsOf(vals).maxValue.None? <==> forall i :: 0 <= i < |vals| ==> NumOf(vals[i]).None?
    ensures StatsOf(vals).maxValue.Some? ==>
      forall i :: 0 <= i < |vals| && NumOf(vals[i]).Some? ==> NumOf(vals[i]).value.Value() <= StatsOf(vals).maxValue.value.Value()
  {
    if vals != [] {
      var init := vals[..|vals| - 1];
      StatsMaxBound(init);
      ObserveBounds(StatsOf(init), vals[|vals| - 1]);
      forall i | 0 <= i < |vals| - 1
        ensures vals[i] == init[i]
      {
      }
    }
  }

  lemma {:induction false} StatsMaxFirst(vals: seq<JSON>)
    ensures StatsOf(vals).maxValue.Some? ==>
      exists i :: 0 <= i < |vals| && NumOf(vals[i]) == StatsOf(vals).maxValue
        && forall j :: 0 <= j < i && NumOf(vals[j]).Some? ==> NumOf(vals[j]).value.Value() < StatsOf(vals).maxValue.value.Value()
  {
    if vals != [] {
      var init := vals[..|vals| - 1];
      var v := vals[|vals| - 1];
      var a := StatsOf(init);
      StatsMaxFirst(init);
      StatsMaxBound(init);
      ObserveBounds(a, v);
      forall i | 0 <= i < |vals| - 1
        ensures vals[i] == init[i]
      {
      }
      if StatsOf(vals).maxValue == a.maxValue && a.maxValue.Some? {
        var i :| 0 <= i < |init| && NumOf(init[i]) == a.maxValue
          && forall j :: 0 <= j < i && NumOf(init[j]).Some? ==> NumOf(init[j]).value.Value() < a.maxValue.value.Value();
        assert NumOf(vals[i]) == a.maxValue;
      }
    }
  }

  lemma ObserveBounds(a: FieldStats, v: JSON)
    ensures Observe(a, v).minValue ==
      if NumOf(v).Some? && (a.minValue.None? || NumOf(v).value.Value() < a.minValue.value.Value()) then NumOf(v) else a.minValue
    ensures Observe(a, v).maxValue ==
      if NumOf(v).Some? && (a.maxValue.None? || NumOf(v).value.Value() > a.maxValue.value.Value()) then NumOf(v) else a.maxValue
  {
    ObserveParts(a, v);
  }

  /** Once set, `min_value <= max_value`. */
  lemma ValueBoundsOrdered(vals: seq<JSON>)
    requires StatsOf(vals).minValue.Some?
    ensures StatsOf(vals).maxValue.Some? && StatsOf(vals).minValue.value.Value() <= StatsOf(vals).maxValue.value.Value()
  {
    StatsValues(vals);
  }

  /** A field whose values are all bools keeps no numeric bounds, although
      each of them reaches `_analyze_numeric_field`. */
  lemma BoolsSetNoBounds(vals: seq<JSON>)
    requires forall i :: 0 <= i < |vals| ==> vals[i].JBool?
    ensures StatsOf(vals).minValue.None? && StatsOf(vals).maxValue.None?
    ensures StatsOf(vals).types == (if vals == [] then {} else {TBool})
  {
    StatsValues(vals);
    if vals != [] {
      assert TBool in StatsOf(vals).types by { StatsTypes(vals, TBool); }
      forall t | t in StatsOf(vals).types
        ensures t == TBool
      {
        StatsTypes(vals, t);
      }
    } else {
      forall t ensures t !in StatsOf(vals).types {
        StatsTypes(vals, t);
      }
    }
  }

  // ---- what the finished table says about the records

  lemma {:induction false} ValuesOfMembers(es: Members, k: string, v: JSON)
    ensures v in ValuesOf(es, k) <==> (k, v) in es
  {
    if es != [] {
      var init := es[..|es| - 1];
      ValuesOfMembers(init, k, v);
      assert es == init + [es[|es| - 1]];
    }
  }

  lemma {:induction false} EntriesMembers(objects: seq<Members>, e: (string, JSON))
    ensures e in Entries(objects) <==> exists i :: 0 <= i < |objects| && e in objects[i]
  {
    if objects != [] {
      var init := objects[..|objects| - 1];
      EntriesMembers(init, e);
      if exists i :: 0 <= i < |init| && e in init[i] {
        var i :| 0 <= i < |init| && e in init[i];
        assert objects[i] == init[i];
      }
      if exists i :: 0 <= i < |objects| && e in objects[i] {
        var i :| 0 <= i < |objects| && e in objects[i];
        if i < |init| {
          assert objects[i] == init[i];
        }
      }
    }
  }

  lemma {:induction false} FieldOrderDistinct(es: Members)
    ensures NoDuplicates(FieldOrder(es))
    ensures forall k :: k in FieldOrder(es) <==> exists j :: 0 <= j < |es| && es[j].0 == k
  {
    if es != [] {
      var init := es[..|es| - 1];
      FieldOrderDistinct(init);
      AddUniqueKeepsDistinct(FieldOrder(init), es[|es| - 1].0);
      forall k | k in FieldOrder(es)
        ensures exists j :: 0 <= j < |es| && es[j].0 == k
      {
        if k != es[|es| - 1].0 {
          var j :| 0 <= j < |init| && init[j].0 == k;
          assert es[j] == init[j];
        }
      }
      forall k | exists j :: 0 <= j < |es| && es[j].0 == k
        ensures k in FieldOrder(es)
      {
        var j :| 0 <= j < |es| && es[j].0 == k;
        if j < |init| {
          assert init[j] == es[j];
        }
      }
    }
  }

  /** Keys already seen keep their place as more entries arrive. */
  lemma {:induction false} FieldOrderPrefix(es: Members, n: nat)
    requires n <= |es|
    ensures FieldOrder(es[..n]) <= FieldOrder(es)
    decreases |es| - n
  {
    if n < |es| {
      FieldOrderPrefix(es, n + 1);
      var init := es[..n + 1][..n];
      assert init == es[..n];
      assert FieldOrder(es[..n + 1]) == AddUnique(FieldOrder(es[..n]), es[n].0);
    } else {
      assert es[..n] == es;
    }
  }

  lemma {:induction false} EntriesPrefix(objects: seq<Members>, m: nat)
    requires m <= |objects|
    ensures Entries(objects[..m]) <= Entries(objects)
    decreases |objects| - m
  {
    if m < |objects| {
      EntriesPrefix(objects, m + 1);
      assert objects[..m + 1][..m] == objects[..m];
    } else {
      assert objects[..m] == objects;
    }
  }

  /** `properties` order: one entry per field name seen, with no repeats, in
      first-seen order (the fields of a first part of the records come
      first, in the same order). */
  lemma ProfileOrder(objects: seq<Members>, m: nat)
    requires m <= |objects|
    ensures NoDuplicates(Profile(objects).order)
    ensures forall k :: k in Profile(objects).fields <==> k in Profile(objects).order
    ensures forall k :: k in Profile(objects).order <==> exists i :: 0 <= i < |objects| && Lookup(objects[i], k).Some?
    ensures Profile(objects[..m]).order <= Profile(objects).order
  {
    var es := Entries(objects);
    FieldOrderDistinct(es);
    forall k
      ensures k in Profile(objects).order <==> exists i :: 0 <= i < |objects| && Lookup(objects[i], k).Some?
    {
      if k in FieldOrder(es) {
        var j :| 0 <= j < |es| && es[j].0 == k;
        EntriesMembers(objects, es[j]);
      }
      if exists i :: 0 <= i < |objects| && Lookup(objects[i], k).Some? {
        var i :| 0 <= i < |objects| && Lookup(objects[i], k).Some?;
        var v := Lookup(objects[i], k).value;
        EntriesMembers(objects, (k, v));
        var j :| 0 <= j < |es| && es[j] == (k, v);
      }
    }
    EntriesPrefix(objects, m);
    var n := |Entries(objects[..m])|;
    assert es[..n] == Entries(objects[..m]);
    FieldOrderPrefix(es, n);
  }

  /** `required` holds exactly when no record gives the field a null; a
      record that lacks the field does not affect it. `null_percentage` is
      `null_count / total_count` with `total_count > 0`, and `is_mixed`
      holds exactly when more than one type was seen. */
  lemma ProfileFlags(objects: seq<Members>, k: string)
    requires k in Profile(objects).order
    ensures Profile(objects).fields[k].required <==> forall i :: 0 <= i < |objects| ==> (k, JNull) !in objects[i]
    ensures var a := Profile(objects).fields[k];
      && 0 < a.stats.totalCount
      && a.stats.nullCount <= a.stats.totalCount
      && a.nullPercentage == Ratio(a.stats.nullCount, a.stats.totalCount)
      && (a.isMixed <==> |a.stats.types| > 1)
  {
    var es := Entries(objects);
    var vals := ValuesOf(es, k);
    StatsCounts(vals);
    OrderValues(es, k);
    ValuesOfMembers(es, k, JNull);
    EntriesMembers(objects, (k, JNull));
    if JNull in vals {
      var i :| 0 <= i < |vals| && vals[i] == JNull;
    }
  }

  /** The number of records holding the key `k`. */
  function Holding(objects: seq<Members>, k: string): nat {
    if objects == [] then 0
    else Holding(objects[..|objects| - 1], k) + (if Lookup(objects[|objects| - 1], k).Some? then 1 else 0)
  }

  lemma {:induction false} ValuesOfAppend(es1: Members, es2: Members, k: string)
    ensures ValuesOf(es1 + es2, k) == ValuesOf(es1, k) + ValuesOf(es2, k)
    decreases |es2|
  {
    if es2 != [] {
      var init := es2[..|es2| - 1];
      ValuesOfAppend(es1, init, k);
      assert (es1 + es2)[..|es1 + es2| - 1] == es1 + init;
    } else {
      assert es1 + es2 == es1;
    }
  }

  lemma {:induction false} ValuesOfDistinct(o: Members, k: string)
    requires DistinctKeys(o)
    ensures |ValuesOf(o, k)| == if Lookup(o, k).Some? then 1 else 0
  {
    if o != [] {
      var init := o[..|o| - 1];
      assert DistinctKeys(init);
      ValuesOfDistinct(init, k);
      if o[|o| - 1].0 == k {
        assert Lookup(init, k).None?;
        assert Lookup(o, k).Some?;
      } else if Lookup(init, k).Some? {
        var i :| 0 <= i < |init| && init[i] == (k, Lookup(init, k).value);
        assert o[i] == init[i];
      } else {
        assert forall i :: 0 <= i < |o| ==> o[i].0 != k by {
          forall i | 0 <= i < |o| ensures o[i].0 != k {
            if i < |init| {
              assert o[i] == init[i];
            }
          }
        }
      }
    }
  }

  /** With Python dict records, `total_count` is the number of records that
      hold the field. */
  lemma {:induction false} ProfileTotal(objects: seq<Members>, k: string)
    requires forall i :: 0 <= i < |objects| ==> DistinctKeys(objects[i])
    ensures |ValuesOf(Entries(objects), k)| == Holding(objects, k)
    ensures k in Profile(objects).order ==> Profile(objects).fields[k].stats.totalCount == Holding(objects, k)
  {
    if objects != [] {
      var init := objects[..|objects| - 1];
      ProfileTotal(init, k);
      ValuesOfAppend(Entries(init), objects[|objects| - 1], k);
      ValuesOfDistinct(objects[|objects| - 1], k);
    }
    StatsCounts(ValuesOf(Entries(objects), k));
  }

  /** A key missing from a record is not counted against it: in
      `[{"a": 1, "b": 2}, {"a": 3}]` the field `b` is required. */
  lemma MissingKeyStaysRequired()
    ensures var p := Profile([[("a", JInt(1)), ("b", JInt(2))], [("a", JInt(3))]]);
      "b" in p.fields && p.fields["b"].required && p.fields["b"].stats.totalCount == 1
  {
    var objects := [[("a", JInt(1)), ("b", JInt(2))], [("a", JInt(3))]];
    assert objects[..1][..0] == [];
    assert Entries(objects[..1]) == objects[0];
    var es := Entries(objects);
    assert es == objects[0] + objects[1];
    assert es[..2] == objects[0];
    assert es[..2][..1] == [("a", JInt(1))];
    assert es[..2][..1][..0] == [];
    assert ValuesOf(es[..2][..1], "b") == [];
    assert ValuesOf(es[..2], "b") == [JInt(2)];
    assert ValuesOf(es, "b") == [JInt(2)];
    OrderValues(es, "b");
    assert [JInt(2)][..0] == [];
  }

  // ---- the deep analysis

  /** One iteration of `_analyze_fields_deep_with_depth` on a record: a
      field that held a dict or a list gets the nested analysis merged in;
      a field with binary content anywhere inside is marked binary. */
  function Deepen(objects: seq<Members>, name: string, a: FieldAnalysis, maxDepth: int): FieldAnalysis {
    var a1 :=
      if TDict in a.stats.types || TList in a.stats.types
      then a.(nested := Some(NestedOver(objects, name, maxDepth)))
      else a;
    if FieldHasNestedBinary(objects, name)
    then a1.(hasNestedBinary := true, stats := a1.stats.(isBinary := true))
    else a1
  }

  /** `_analyze_fields_deep_with_depth(objects, max_depth)` */
  function DeepProfile(objects: seq<Members>, maxDepth: int): Table<FieldAnalysis> {
    var t := Profile(objects);
    Table(t.order, map k | k in t.order :: Deepen(objects, k, t.fields[k], maxDepth))
  }

  /** The body of the enhancement loop for one field. */
  method DeepenField(objects: seq<Members>, name: string, a: FieldAnalysis, maxDepth: int) returns (r: FieldAnalysis)
    ensures r == Deepen(objects, name, a, maxDepth)
  {
    r := a;
    if TDict in r.stats.types || TList in r.stats.types {
      var nested := AnalyzeNestedStructuresRecursive(objects, name, maxDepth);
      r := r.(nested := Some(nested));
    }
    var found := HasNestedBinary(objects, name);
    if found {
      r := r.(hasNestedBinary := true, stats := r.stats.(isBinary := true));
    }
  }

  method AnalyzeFieldsDeep(objects: seq<Members>, maxDepth: int) returns (t: Table<FieldAnalysis>)
    ensures t == DeepProfile(objects, maxDepth)
  {
    var flat := AnalyzeFields(objects);
    var deep: map<string, FieldAnalysis> := map[];
    var i := 0;
    while i < |flat.order|
      invariant 0 <= i <= |flat.order|
      invariant deep == map k | k in flat.order[..i] :: Deepen(objects, k, flat.fields[k], maxDepth)
    {
      var name := flat.order[i];
      assert flat.order[..i + 1] == flat.order[..i] + [name];
      var a := DeepenField(objects, name, flat.fields[name], maxDepth);
      deep := deep[name := a];
      i := i + 1;
    }
    assert flat.order[..i] == flat.order;
    t := Table(flat.order, deep);
  }

  /** After the deep analysis, a field is binary exactly when binary content
      was found somewhere inside its values: a binary string value is such
      content itself. So the two flags never differ. */
  lemma DeepBinaryCoincides(objects: seq<Members>, maxDepth: int, k: string)
    requires forall i :: 0 <= i < |objects| ==> DistinctKeys(objects[i])
    requires k in DeepProfile(objects, maxDepth).order
    ensures DeepProfile(objects, maxDepth).fields[k].stats.isBinary <==> DeepProfile(objects, maxDepth).fields[k].hasNestedBinary
    ensures DeepProfile(objects, maxDepth).fields[k].hasNestedBinary <==> FieldHasNestedBinary(objects, k)
  {
    var es := Entries(objects);
    var vals := ValuesOf(es, k);
    StatsBinary(vals);
    if StatsOf(vals).isBinary {
      var i :| 0 <= i < |vals| && vals[i].JStr? && IsLikelyBinary(vals[i].s);
      ValuesOfMembers(es, k, vals[i]);
      EntriesMembers(objects, (k, vals[i]));
      var r :| 0 <= r < |objects| && (k, vals[i]) in objects[r];
      var j :| 0 <= j < |objects[r]| && objects[r][j] == (k, vals[i]);
      var found := Lookup(objects[r], k);
      var j' :| 0 <= j' < |objects[r]| && objects[r][j'] == (k, found.value);
      assert j' == j;
      assert FieldValueHasBinary(objects[r], k);
    }
  }

  /** The deep analysis records `nested_structure` exactly for the fields
      that held a dict or a list. */
  lemma DeepNested(objects: seq<Members>, maxDepth: int, k: string)
    requires k in DeepProfile(objects, maxDepth).order
    ensures var a := DeepProfile(objects, maxDepth).fields[k];
      a.nested.Some? <==> TDict in a.stats.types || TList in a.stats.types
  {
  }

  /** No analysis writes the `max_depth` key the smart dispatch reads; the
      nested analysis it does write keeps the walk's invariant. */
  lemma DeepNeverSetsMaxDepth(objects: seq<Members>, maxDepth: int, k: string)
    requires k in DeepProfile(objects, maxDepth).order
    ensures DeepProfile(objects, maxDepth).fields[k].maxDepth.None?
    ensures DeepProfile(objects, maxDepth).fields[k].nested.Some? ==>
      Inv(DeepProfile(objects, maxDepth).fields[k].nested.value, maxDepth, k)
  {
    NestedOverInv(objects, k, maxDepth);
  }
}
