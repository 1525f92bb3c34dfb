/** `analyze_objects_with_depth`: the per-field report and the summary
    counters built from the deep profile, without generating a schema. */
module Report {
  import opened Json
  import opened Structure
  import opened Profiling

  /** One level of `structure_hierarchy` with its sets turned into lists. */
  datatype LevelReport = LevelReport(
    fields: seq<string>,
    types: seq<string>,
    requiredFields: seq<string>,
    optionalFields: seq<string>)

  /** `nested_structure` of a field that held dicts or lists. */
  datatype NestedReport = NestedReport(maxDepth: int, paths: seq<string>, hierarchy: map<int, LevelReport>)

  /** One entry of `analysis["fields"]`. */
  datatype FieldReport = FieldReport(
    types: seq<string>,
    isRequired: bool,
    nullPercentage: Ratio,
    isBinary: bool,
    isMixed: bool,
    hasNestedBinary: bool,
    nestedStructure: Option<NestedReport>)

  /** The counters of `analysis["summary"]` that the loop updates. */
  datatype Counters = Counters(nesting: nat, binary: nat, mixed: nat, maxNestedDepthFound: int)

  /** `analysis["summary"]`. */
  datatype Summary = Summary(totalFields: nat, counters: Counters)

  datatype DepthReport = DepthReport(
    totalObjects: nat,
    maxDepthAnalyzed: int,
    fields: map<string, FieldReport>,
    summary: Summary)

  function LevelReportOf(l: Level): LevelReport {
    LevelReport(l.fields, TypeNameList(l.types), l.requiredFields, l.optionalFields)
  }

  function NestedReportOf(n: NestedAnalysis): NestedReport {
    NestedReport(n.maxDepthFound, n.paths, map d | d in n.hierarchy :: LevelReportOf(n.hierarchy[d]))
  }

  function FieldReportOf(a: FieldAnalysis): FieldReport {
    FieldReport(TypeNameList(a.stats.types), a.required, a.nullPercentage, a.stats.isBinary, a.isMixed, a.hasNestedBinary,
      if a.nested.Some? then Some(NestedReportOf(a.nested.value)) else None)
  }

  /** One iteration of the summary updates. */
  function Tally(c: Counters, a: FieldAnalysis): Counters {
    Counters(
      c.nesting + (if a.nested.Some? then 1 else 0),
      c.binary + (if a.stats.isBinary || a.hasNestedBinary then 1 else 0),
      c.mixed + (if a.isMixed then 1 else 0),
      if a.nested.Some? then Max(c.maxNestedDepthFound, a.nested.value.maxDepthFound) else c.maxNestedDepthFound)
  }

  /** The counters after the fields `names`, in that order. */
  function CountersOf(t: Table<FieldAnalysis>, names: seq<string>): Counters
    requires forall k :: k in names ==> k in t.fields
  {
    if names == [] then Counters(0, 0, 0, 0)
    else Tally(CountersOf(t, names[..|names| - 1]), t.fields[names[|names| - 1]])
  }

  /** `analysis["fields"]` after the fields `names`. */
  function FieldsOf(t: Table<FieldAnalysis>, names: seq<string>): map<string, FieldReport>
    requires forall k :: k in names ==> k in t.fields
  {
    if names == [] then map[]
    else
      var k := names[|names| - 1];
      FieldsOf(t, names[..|names| - 1])[k := FieldReportOf(t.fields[k])]
  }

  /** The report of `analyze_objects_with_depth` for a non-empty input. */
  function ReportOf(objects: seq<Members>, maxDepth: int): DepthReport {
    var t := DeepProfile(objects, maxDepth);
    DepthReport(|objects|, maxDepth, FieldsOf(t, t.order), Summary(|t.order|, CountersOf(t, t.order)))
  }

  /** `analyze_objects_with_depth(objects, max_depth)` */
  method AnalyzeObjectsWithDepth(objects: seq<Members>, maxDepth: int) returns (r: Result<DepthReport>)
    ensures objects == [] <==> r == Failure(EmptyInput)
    ensures r.Success? ==> r.value == ReportOf(objects, maxDepth)
  {
    if objects == [] {
      return Failure(EmptyInput);
    }
    var t := AnalyzeFieldsDeep(objects, maxDepth);
    var fields: map<string, FieldReport> := map[];
    var nesting, binary, mixed, maxNested := 0, 0, 0, 0;
    for i := 0 to |t.order|
      invariant fields == FieldsOf(t, t.order[..i])
      invariant Counters(nesting, binary, mixed, maxNested) == CountersOf(t, t.order[..i])
    {
      var name := t.order[i];
      var a := t.fields[name];
      PrefixStep(t, i);
      nesting, binary, mixed, maxNested := CountField(nesting, binary, mixed, maxNested, a);
      fields := fields[name := FieldReportOf(a)];
    }
    assert t.order[..|t.order|] == t.order;
    return Success(DepthReport(|objects|, maxDepth, fields, Summary(|t.order|, Counters(nesting, binary, mixed, maxNested))));
  }

  /** The summary updates of one iteration. */
  method CountField(nesting: nat, binary: nat, mixed: nat, maxNested: int, a: FieldAnalysis)
    returns (nesting': nat, binary': nat, mixed': nat, maxNested': int)
    ensures Counters(nesting', binary', mixed', maxNested') == Tally(Counters(nesting, binary, mixed, maxNested), a)
  {
    nesting', binary', mixed', maxNested' := nesting, binary, mixed, maxNested;
    if a.nested.Some? {
      maxNested' := Max(maxNested', a.nested.value.maxDepthFound);
      nesting' := nesting' + 1;
    }
    if a.stats.isBinary || a.hasNestedBinary {
      binary' := binary' + 1;
    }
    if a.isMixed {
      mixed' := mixed' + 1;
    }
  }

  /** The folds over one more field of the table's order. */
  lemma PrefixStep(t: Table<FieldAnalysis>, i: nat)
    requires i < |t.order| && forall k :: k in t.order ==> k in t.fields
    ensures forall k :: k in t.order[..i] ==> k in t.fields
    ensures CountersOf(t, t.order[..i + 1]) == Tally(CountersOf(t, t.order[..i]), t.fields[t.order[i]])
    ensures FieldsOf(t, t.order[..i + 1]) == FieldsOf(t, t.order[..i])[t.order[i] := FieldReportOf(t.fields[t.order[i]])]
  {
    assert t.order[..i + 1][..i] == t.order[..i];
  }

  // ---- properties of the report

  /** The report has one entry per analysed field, carrying that field's
      analysis. */
  lemma {:induction false} FieldsOfEntries(t: Table<FieldAnalysis>, names: seq<string>)
    requires forall k :: k in names ==> k in t.fields
    ensures forall k :: k in FieldsOf(t, names) <==> k in names
    ensures forall k :: k in names ==> FieldsOf(t, names)[k] == FieldReportOf(t.fields[k])
  {
    if names != [] {
      FieldsOfEntries(t, names[..|names| - 1]);
      forall k | k in names ensures k == names[|names| - 1] || k in names[..|names| - 1] {
        var j :| 0 <= j < |names| && names[j] == k;
        if j < |names| - 1 {
          assert names[..|names| - 1][j] == k;
        }
      }
    }
  }

  /** No counter exceeds the number of fields counted, and each is zero
      exactly when no counted field has the property it counts. */
  lemma {:induction false} CountersBounds(t: Table<FieldAnalysis>, names: seq<string>)
    requires forall k :: k in names ==> k in t.fields
    ensures var c := CountersOf(t, names);
      && c.nesting <= |names| && c.binary <= |names| && c.mixed <= |names|
      && (c.nesting == 0 <==> forall k :: k in names ==> t.fields[k].nested.None?)
      && (c.binary == 0 <==> forall k :: k in names ==> !t.fields[k].stats.isBinary && !t.fields[k].hasNestedBinary)
      && (c.mixed == 0 <==> forall k :: k in names ==> !t.fields[k].isMixed)
  {
    if names != [] {
      var init := names[..|names| - 1];
      CountersBounds(t, init);
      assert forall k :: k in names <==> k in init || k == names[|names| - 1] by {
        forall k | k in names ensures k in init || k == names[|names| - 1] {
          var j :| 0 <= j < |names| && names[j] == k;
          if j < |names| - 1 {
            assert init[j] == k;
          }
        }
      }
    }
  }

  /** `max_nested_depth_found` is the largest `max_depth_found` among the
      counted fields with nesting, and zero when there is none. */
  lemma {:induction false} CountersMaxDepth(t: Table<FieldAnalysis>, names: seq<string>)
    requires forall k :: k in names ==> k in t.fields
    ensures var c := CountersOf(t, names);
      && 0 <= c.maxNestedDepthFound
      && (forall k :: k in names && t.fields[k].nested.Some? ==> t.fields[k].nested.value.maxDepthFound <= c.maxNestedDepthFound)
      && (c.maxNestedDepthFound == 0 || exists k :: k in names && t.fields[k].nested.Some? && t.fields[k].nested.value.maxDepthFound == c.maxNestedDepthFound)
  {
    if names != [] {
      var init := names[..|names| - 1];
      var last := names[|names| - 1];
      CountersMaxDepth(t, init);
      assert forall k :: k in names <==> k in init || k == last by {
        forall k | k in names ensures k in init || k == last {
          var j :| 0 <= j < |names| && names[j] == k;
          if j < |names| - 1 {
            assert init[j] == k;
          }
        }
      }
    }
  }

  /** `total_fields` is the number of entries in `fields`. */
  lemma ReportFieldCount(objects: seq<Members>, maxDepth: int)
    ensures ReportOf(objects, maxDepth).summary.totalFields == |ReportOf(objects, maxDepth).fields|
  {
    var t := DeepProfile(objects, maxDepth);
    ProfileOrder(objects, 0);
    FieldsOfEntries(t, t.order);
    DistinctCount(t.order, FieldsOf(t, t.order));
  }

  /** On the deep profile `max_nested_depth_found` stays below the limit. */
  lemma ReportDepthBound(objects: seq<Members>, maxDepth: int)
    ensures var d := ReportOf(objects, maxDepth).summary.counters.maxNestedDepthFound;
      0 <= d && (d == 0 || d < maxDepth)
  {
    var t := DeepProfile(objects, maxDepth);
    assert ReportOf(objects, maxDepth).summary.counters == CountersOf(t, t.order);
    DeepDepthsBelow(objects, maxDepth);
    CountersBelow(t, t.order, maxDepth);
  }

  lemma DeepDepthsBelow(objects: seq<Members>, maxDepth: int)
    ensures var t := DeepProfile(objects, maxDepth);
      forall k :: k in t.order && t.fields[k].nested.Some? ==>
        t.fields[k].nested.value.maxDepthFound == 0 || t.fields[k].nested.value.maxDepthFound < maxDepth
  {
    var t := DeepProfile(objects, maxDepth);
    forall k | k in t.order && t.fields[k].nested.Some?
      ensures t.fields[k].nested.value.maxDepthFound == 0 || t.fields[k].nested.value.maxDepthFound < maxDepth
    {
      assert t.fields[k].nested.value == NestedOver(objects, k, maxDepth);
      NestedDepthBelow(objects, k, maxDepth);
    }
  }

  lemma CountersBelow(t: Table<FieldAnalysis>, names: seq<string>, maxDepth: int)
    requires forall k :: k in names ==> k in t.fields
    requires forall k :: k in names && t.fields[k].nested.Some? ==>
      t.fields[k].nested.value.maxDepthFound == 0 || t.fields[k].nested.value.maxDepthFound < maxDepth
    ensures var d := CountersOf(t, names).maxNestedDepthFound;
      0 <= d && (d == 0 || d < maxDepth)
  {
    CountersMaxDepth(t, names);
  }

  lemma NestedDepthBelow(objects: seq<Members>, k: string, maxDepth: int)
    ensures var d := NestedOver(objects, k, maxDepth).maxDepthFound;
      0 <= d && (d == 0 || d < maxDepth)
  {
    NestedOverInv(objects, k, maxDepth);
  }

  /** A field has `nested_structure` exactly when its `types` name a dict or a list. */
  lemma ReportNesting(objects: seq<Members>, maxDepth: int, k: string)
    requires k in ReportOf(objects, maxDepth).fields
    ensures var f := ReportOf(objects, maxDepth).fields[k];
      f.nestedStructure.Some? <==> "dict" in f.types || "list" in f.types
  {
    ReportTypes(objects, maxDepth, k, TDict);
    ReportTypes(objects, maxDepth, k, TList);
    DeepNested(objects, maxDepth, k);
    NestingByName(DeepProfile(objects, maxDepth).fields[k], ReportOf(objects, maxDepth).fields[k]);
  }

  lemma NestingByName(a: FieldAnalysis, f: FieldReport)
    requires ReportListsTypes(a, f, TDict) && ReportListsTypes(a, f, TList)
    requires a.nested.Some? <==> TDict in a.stats.types || TList in a.stats.types
    ensures f.nestedStructure.Some? <==> "dict" in f.types || "list" in f.types
  {
    assert TagName(TDict) == "dict" && TagName(TList) == "list";
  }

  /** A field's `types` lists the names of exactly the types seen for it;
      each level of its `structure_hierarchy` is reported at the same depth,
      with the names of exactly the types seen at that depth. */
  lemma ReportTypes(objects: seq<Members>, maxDepth: int, k: string, t: TypeTag)
    requires k in ReportOf(objects, maxDepth).fields
    ensures k in DeepProfile(objects, maxDepth).order
    ensures var a := DeepProfile(objects, maxDepth).fields[k];
      ReportListsTypes(a, ReportOf(objects, maxDepth).fields[k], t)
  {
    ReportFieldOf(objects, maxDepth, k);
    FieldReportTypes(DeepProfile(objects, maxDepth).fields[k], t);
  }

  /** `f` names the type `t` exactly where the analysis `a` saw it. */
  ghost predicate ReportListsTypes(a: FieldAnalysis, f: FieldReport, t: TypeTag) {
    && (TagName(t) in f.types <==> t in a.stats.types)
    && (f.nestedStructure.Some? <==> a.nested.Some?)
    && (a.nested.Some? ==>
          a.nested.value.hierarchy.Keys == f.nestedStructure.value.hierarchy.Keys)
    && (a.nested.Some? ==>
          forall d :: d in a.nested.value.hierarchy ==>
            (TagName(t) in f.nestedStructure.value.hierarchy[d].types <==> t in a.nested.value.hierarchy[d].types))
  }

  lemma FieldReportTypes(a: FieldAnalysis, t: TypeTag)
    ensures ReportListsTypes(a, FieldReportOf(a), t)
  {
    TypeNameListExact(a.stats.types, t);
    if a.nested.Some? {
      var h := a.nested.value.hierarchy;
      forall d | d in h
        ensures TagName(t) in FieldReportOf(a).nestedStructure.value.hierarchy[d].types <==> t in h[d].types
      {
        assert FieldReportOf(a).nestedStructure.value.hierarchy[d] == LevelReportOf(h[d]);
        TypeNameListExact(h[d].types, t);
      }
    }
  }

  lemma ReportFieldOf(objects: seq<Members>, maxDepth: int, k: string)
    requires k in ReportOf(objects, maxDepth).fields
    ensures k in DeepProfile(objects, maxDepth).order
    ensures ReportOf(objects, maxDepth).fields[k] == FieldReportOf(DeepProfile(objects, maxDepth).fields[k])
  {
    var t := DeepProfile(objects, maxDepth);
    FieldsOfEntries(t, t.order);
  }

  /** A field is reported binary exactly when binary content was found in
      it, at the top or nested, and then `has_nested_binary` is set too. */
  lemma ReportBinary(objects: seq<Members>, maxDepth: int, k: string)
    requires forall i :: 0 <= i < |objects| ==> DistinctKeys(objects[i])
    requires k in ReportOf(objects, maxDepth).fields
    ensures var f := ReportOf(objects, maxDepth).fields[k];
      && (f.isBinary <==> FieldHasNestedBinary(objects, k))
      && f.hasNestedBinary == f.isBinary
  {
    ReportFieldOf(objects, maxDepth, k);
    DeepBinaryCoincides(objects, maxDepth, k);
  }

  /** A map whose keys are the elements of a sequence without duplicates
      has as many entries as the sequence. */
  lemma {:induction false} DistinctCount<V>(names: seq<string>, m: map<string, V>)
    requires NoDuplicates(names)
    requires forall k :: k in m <==> k in names
    ensures |m| == |names|
  {
    if names != [] {
      var last := names[|names| - 1];
      var init := names[..|names| - 1];
      var m' := map k | k in m && k != last :: m[k];
      NoDuplicatesInit(names);
      InitMembers(names);
      DistinctCount(init, m');
      assert m.Keys == m'.Keys + {last};
    }
  }

  /** The names before the last are the names other than the last, for
      distinct names. */
  lemma InitMembers(names: seq<string>)
    requires names != []
    ensures forall k :: k in names[..|names| - 1] ==> k in names
    ensures forall k :: k in names && k != names[|names| - 1] ==> k in names[..|names| - 1]
  {
    var init := names[..|names| - 1];
    forall k | k in names && k != names[|names| - 1] ensures k in init {
      var j :| 0 <= j < |names| && names[j] == k;
      assert j < |names| - 1 && init[j] == k;
    }
  }
}
