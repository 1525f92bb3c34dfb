/** The deep analysis of nested values: the recursive walk over a field's
    dict values that builds a per-depth hierarchy of keys, and the recursive
    search for binary-looking strings anywhere inside a value. */
module Structure {
  import opened Json
  import opened Classifiers

  /** One entry of `structure_hierarchy`: what the walk saw at one depth. */
  datatype Level = Level(
    fields: seq<string>,
    types: set<TypeTag>,
    requiredFields: seq<string>,
    optionalFields: seq<string>)

  const EmptyLevel := Level([], {}, [], [])

  /** The accumulator that the walk mutates: `max_depth_found`,
      `structure_hierarchy` (depth -> level), `all_possible_paths` and
      `has_binary_at_depth` (depth -> keys). */
  datatype NestedAnalysis = NestedAnalysis(
    maxDepthFound: int,
    hierarchy: map<int, Level>,
    paths: seq<string>,
    binaryAtDepth: map<int, seq<string>>)

  const EmptyNested := NestedAnalysis(0, map[], [], map[])

  function Max(a: int, b: int): int { if a < b then b else a }

  /** `'.'.join(path)` */
  function Join(path: seq<string>): string {
    if path == [] then ""
    else if |path| == 1 then path[0]
    else path[0] + "." + Join(path[1..])
  }

  lemma JoinStartsWithRoot(path: seq<string>)
    requires |path| >= 1
    ensures path[0] <= Join(path)
  {
  }

  function LevelAt(acc: NestedAnalysis, depth: int): Level {
    if depth in acc.hierarchy then acc.hierarchy[depth] else EmptyLevel
  }

  function BinaryAt(acc: NestedAnalysis, depth: int): seq<string> {
    if depth in acc.binaryAtDepth then acc.binaryAtDepth[depth] else []
  }

  /** What the walk does on entering a dict below the depth limit: raise
      `max_depth_found`, record the dotted path, open the level. */
  function EnterLevel(acc: NestedAnalysis, depth: int, path: seq<string>): NestedAnalysis {
    acc.(maxDepthFound := Max(acc.maxDepthFound, depth),
         paths := AddUnique(acc.paths, Join(path)),
         hierarchy := if depth in acc.hierarchy then acc.hierarchy else acc.hierarchy[depth := EmptyLevel])
  }

  /** What the walk records for one key of a dict at `depth`. */
  function RecordKey(acc: NestedAnalysis, depth: int, key: string, value: JSON): NestedAnalysis {
    var lv := LevelAt(acc, depth);
    var lv1 := lv.(fields := AddUnique(lv.fields, key), types := lv.types + {Tag(value)});
    var lv2 :=
      if value.JNull? then lv1.(optionalFields := AddUnique(lv1.optionalFields, key))
      else lv1.(requiredFields := AddUnique(lv1.requiredFields, key));
    var bin :=
      if value.JStr? && IsLikelyBinary(value.s)
      then acc.binaryAtDepth[depth := AddUnique(BinaryAt(acc, depth), key)]
      else acc.binaryAtDepth;
    acc.(hierarchy := acc.hierarchy[depth := lv2], binaryAtDepth := bin)
  }

  /** `_analyze_dict_structure_recursive(data, analysis, depth, max_depth, path)`
      as a function of the accumulator it is given. */
  function WalkDict(acc: NestedAnalysis, data: JSON, depth: int, maxDepth: int, path: seq<string>): NestedAnalysis
    requires data.JObj?
    decreases data, 2, 0
  {
    if depth >= maxDepth then acc
    else WalkMembers(EnterLevel(acc, depth, path), data, |data.members|, depth, maxDepth, path)
  }

  /** The loop over the first `n` members of `data`. */
  function WalkMembers(acc: NestedAnalysis, data: JSON, n: nat, depth: int, maxDepth: int, path: seq<string>): NestedAnalysis
    requires data.JObj? && n <= |data.members|
    decreases data, 1, n
  {
    if n == 0 then acc
    else VisitMember(WalkMembers(acc, data, n - 1, depth, maxDepth, path), data, n - 1, depth, maxDepth, path)
  }

  /** One iteration: record the key, then descend into a dict value, or
      into each dict item of a list value under an extra `[]` segment. */
  function VisitMember(acc: NestedAnalysis, data: JSON, i: nat, depth: int, maxDepth: int, path: seq<string>): NestedAnalysis
    requires data.JObj? && i < |data.members|
    decreases data, 0, 0
  {
    var key := data.members[i].0;
    var value := data.members[i].1;
    var acc1 := RecordKey(acc, depth, key, value);
    match value
    case JObj(_) => WalkDict(acc1, value, depth + 1, maxDepth, path + [key])
    case JArr(items) => WalkItems(acc1, value, |items|, depth + 1, maxDepth, path + [key, "[]"])
    case _ => acc1
  }

  /** The loop over the first `n` items of a list value. */
  function WalkItems(acc: NestedAnalysis, list: JSON, n: nat, depth: int, maxDepth: int, path: seq<string>): NestedAnalysis
    requires list.JArr? && n <= |list.items|
    decreases list, 1, n
  {
    if n == 0 then acc
    else
      var acc1 := WalkItems(acc, list, n - 1, depth, maxDepth, path);
      var item := list.items[n - 1];
      if item.JObj? then WalkDict(acc1, item, depth, maxDepth, path) else acc1
  }

  /** The loop over `n` members is the loop over `n - 1` and one more iteration. */
  lemma WalkMembersStep(acc: NestedAnalysis, data: JSON, n: nat, depth: int, maxDepth: int, path: seq<string>)
    requires data.JObj? && 0 < n <= |data.members|
    ensures WalkMembers(acc, data, n, depth, maxDepth, path) ==
      VisitMember(WalkMembers(acc, data, n - 1, depth, maxDepth, path), data, n - 1, depth, maxDepth, path)
  {
  }

  /** One iteration, by the kind of the member's value. */
  lemma VisitMemberCases(acc: NestedAnalysis, data: JSON, i: nat, depth: int, maxDepth: int, path: seq<string>)
    requires data.JObj? && i < |data.members|
    ensures var key := data.members[i].0;
      var value := data.members[i].1;
      var acc1 := RecordKey(acc, depth, key, value);
      VisitMember(acc, data, i, depth, maxDepth, path) ==
        if value.JObj? then WalkDict(acc1, value, depth + 1, maxDepth, path + [key])
        else if value.JArr? then WalkItems(acc1, value, |value.items|, depth + 1, maxDepth, path + [key, "[]"])
        else acc1
  {
  }

  /** The shared `analysis` dict that `_analyze_dict_structure_recursive`
      updates in place while it recurses. */
  class StructureWalker {
    var maxDepthFound: int
    var hierarchy: map<int, Level>
    var paths: seq<string>
    var binaryAtDepth: map<int, seq<string>>

    function State(): NestedAnalysis
      reads this
    {
      NestedAnalysis(maxDepthFound, hierarchy, paths, binaryAtDepth)
    }

    constructor ()
      ensures State() == EmptyNested
    {
      maxDepthFound := 0;
      hierarchy := map[];
      paths := [];
      binaryAtDepth := map[];
    }

    /** The bookkeeping for one key of a dict at `depth`. */
    method Record(depth: int, key: string, value: JSON)
      modifies this
      ensures State() == RecordKey(old(State()), depth, key, value)
    {
      var level := if depth in hierarchy then hierarchy[depth] else EmptyLevel;
      level := level.(fields := AddUnique(level.fields, key));
      level := level.(types := level.types + {Tag(value)});
      if value.JStr? && IsLikelyBinary(value.s) {
        var keys := if depth in binaryAtDepth then binaryAtDepth[depth] else [];
        binaryAtDepth := binaryAtDepth[depth := AddUnique(keys, key)];
      }
      if !value.JNull? {
        level := level.(requiredFields := AddUnique(level.requiredFields, key));
      } else {
        level := level.(optionalFields := AddUnique(level.optionalFields, key));
      }
      hierarchy := hierarchy[depth := level];
    }

    /** The bookkeeping on entering a dict below the depth limit. */
    method Enter(depth: int, path: seq<string>)
      modifies this
      ensures State() == EnterLevel(old(State()), depth, path)
    {
      maxDepthFound := Max(maxDepthFound, depth);
      paths := AddUnique(paths, Join(path));
      if depth !in hierarchy {
        hierarchy := hierarchy[depth := EmptyLevel];
      }
    }

    method AnalyzeDict(data: JSON, depth: int, maxDepth: int, path: seq<string>)
      requires data.JObj?
      modifies this
      ensures State() == WalkDict(old(State()), data, depth, maxDepth, path)
      decreases data, 1
    {
      if depth >= maxDepth {
        return;
      }
      Enter(depth, path);
      ghost var entered := State();
      var i := 0;
      while i < |data.members|
        invariant 0 <= i <= |data.members|
        invariant State() == WalkMembers(entered, data, i, depth, maxDepth, path)
      {
        Visit(data, i, depth, maxDepth, path);
        i := i + 1;
      }
    }

    /** One iteration of the loop over a dict's members: record the key,
        then descend into a dict value or into the items of a list value. */
    method Visit(data: JSON, i: nat, depth: int, maxDepth: int, path: seq<string>)
      requires data.JObj? && i < |data.members|
      modifies this
      ensures State() == VisitMember(old(State()), data, i, depth, maxDepth, path)
      decreases data, 0
    {
      var key := data.members[i].0;
      var value := data.members[i].1;
      Record(depth, key, value);
      VisitMemberCases(old(State()), data, i, depth, maxDepth, path);
      if value.JObj? {
        AnalyzeDict(value, depth + 1, maxDepth, path + [key]);
      } else if value.JArr? {
        AnalyzeItems(value, depth + 1, maxDepth, path + [key, "[]"]);
      }
    }

    /** The inner loop over a list value: each dict item is walked one level
        deeper; other items are skipped. */
    method AnalyzeItems(list: JSON, depth: int, maxDepth: int, path: seq<string>)
      requires list.JArr?
      modifies this
      ensures State() == WalkItems(old(State()), list, |list.items|, depth, maxDepth, path)
      decreases list, 1
    {
      ghost var start := State();
      var j := 0;
      while j < |list.items|
        invariant 0 <= j <= |list.items|
        invariant State() == WalkItems(start, list, j, depth, maxDepth, path)
      {
        var item := list.items[j];
        if item.JObj? {
          AnalyzeDict(item, depth, maxDepth, path);
        }
        j := j + 1;
      }
    }
  }

  /** `_analyze_nested_structures_recursive(objects, field_name, max_depth)`:
      every dict value of the field is walked from depth 0 under the path
      `[field_name]`, into one shared accumulator. */
  function NestedOver(objects: seq<Members>, name: string, maxDepth: int): NestedAnalysis {
    if objects == [] then EmptyNested
    else
      var acc := NestedOver(objects[..|objects| - 1], name, maxDepth);
      match Lookup(objects[|objects| - 1], name)
      case Some(v) => if v.JObj? then WalkDict(acc, v, 0, maxDepth, [name]) else acc
      case None => acc
  }

  method AnalyzeNestedStructuresRecursive(objects: seq<Members>, name: string, maxDepth: int)
    returns (r: NestedAnalysis)
    ensures r == NestedOver(objects, name, maxDepth)
  {
    var walker := new StructureWalker();
    var k := 0;
    while k < |objects|
      invariant 0 <= k <= |objects|
      invariant walker.State() == NestedOver(objects[..k], name, maxDepth)
    {
      assert objects[..k + 1][..k] == objects[..k];
      var value := Lookup(objects[k], name);
      if value.Some? && value.value.JObj? {
        walker.AnalyzeDict(value.value, 0, maxDepth, [name]);
      }
      k := k + 1;
    }
    assert objects[..k] == objects;
    r := walker.State();
  }

  // ---- invariants of the walk

  ghost predicate LevelPartitioned(lv: Level) {
    forall x :: x in lv.fields <==> x in lv.requiredFields || x in lv.optionalFields
  }

  /** What holds of the accumulator between any two steps of a walk over a
      field `root` with limit `maxDepth`. */
  ghost predicate Inv(acc: NestedAnalysis, maxDepth: int, root: string) {
    // nothing is recorded at or beyond the limit
    && 0 <= acc.maxDepthFound
    && (acc.maxDepthFound == 0 || acc.maxDepthFound < maxDepth)
    && (forall d :: d in acc.hierarchy ==> 0 <= d < maxDepth)
    // the recorded depths are exactly 0 .. max_depth_found, once any is
    && (acc.hierarchy == map[] ==> acc.maxDepthFound == 0)
    && (acc.hierarchy != map[] ==> forall d :: d in acc.hierarchy <==> 0 <= d <= acc.maxDepthFound)
    && (forall d :: d in acc.binaryAtDepth ==> d in acc.hierarchy)
    // every key seen at a depth is required or optional there
    && (forall d :: d in acc.hierarchy ==> LevelPartitioned(acc.hierarchy[d]))
    // every path starts with the field name
    && (forall p :: p in acc.paths ==> root <= p)
  }

  ghost predicate LevelGrows(l: Level, m: Level) {
    && (forall x :: x in l.fields ==> x in m.fields)
    && (forall x :: x in l.requiredFields ==> x in m.requiredFields)
    && (forall x :: x in l.optionalFields ==> x in m.optionalFields)
    && l.types <= m.types
  }

  /** The walk only ever adds to the accumulator. */
  ghost predicate Grows(a: NestedAnalysis, b: NestedAnalysis) {
    && a.maxDepthFound <= b.maxDepthFound
    && a.hierarchy.Keys <= b.hierarchy.Keys
    && (forall d :: d in a.hierarchy ==> LevelGrows(a.hierarchy[d], b.hierarchy[d]))
    && (forall p :: p in a.paths ==> p in b.paths)
  }

  lemma GrowsTrans(a: NestedAnalysis, b: NestedAnalysis, c: NestedAnalysis)
    requires Grows(a, b) && Grows(b, c)
    ensures Grows(a, c)
  {
  }

  ghost predicate Rooted(path: seq<string>, root: string) {
    |path| >= 1 && path[0] == root
  }

  lemma EnterLevelInv(acc: NestedAnalysis, depth: int, maxDepth: int, path: seq<string>, root: string)
    requires Inv(acc, maxDepth, root) && Rooted(path, root)
    requires 0 <= depth < maxDepth && (depth == 0 || depth - 1 in acc.hierarchy)
    ensures Inv(EnterLevel(acc, depth, path), maxDepth, root)
    ensures Grows(acc, EnterLevel(acc, depth, path))
    ensures depth in EnterLevel(acc, depth, path).hierarchy
  {
    JoinStartsWithRoot(path);
  }

  lemma RecordKeyInv(acc: NestedAnalysis, depth: int, key: string, value: JSON, maxDepth: int, root: string)
    requires Inv(acc, maxDepth, root) && depth in acc.hierarchy
    ensures Inv(RecordKey(acc, depth, key, value), maxDepth, root)
    ensures Grows(acc, RecordKey(acc, depth, key, value))
  {
    var r := RecordKey(acc, depth, key, value);
    assert r.hierarchy.Keys == acc.hierarchy.Keys;
  }

  lemma {:induction false} WalkDictInv(acc: NestedAnalysis, data: JSON, depth: int, maxDepth: int, path: seq<string>, root: string)
    requires data.JObj? && Inv(acc, maxDepth, root) && Rooted(path, root)
    requires 0 <= depth && (depth == 0 || depth - 1 in acc.hierarchy)
    ensures Inv(WalkDict(acc, data, depth, maxDepth, path), maxDepth, root)
    ensures Grows(acc, WalkDict(acc, data, depth, maxDepth, path))
    decreases data, 2, 0
  {
    if depth < maxDepth {
      var e := EnterLevel(acc, depth, path);
      EnterLevelInv(acc, depth, maxDepth, path, root);
      WalkMembersInv(e, data, |data.members|, depth, maxDepth, path, root);
      GrowsTrans(acc, e, WalkDict(acc, data, depth, maxDepth, path));
    }
  }

  lemma {:induction false} WalkMembersInv(acc: NestedAnalysis, data: JSON, n: nat, depth: int, maxDepth: int, path: seq<string>, root: string)
    requires data.JObj? && n <= |data.members| && Inv(acc, maxDepth, root) && Rooted(path, root)
    requires 0 <= depth && depth in acc.hierarchy
    ensures Inv(WalkMembers(acc, data, n, depth, maxDepth, path), maxDepth, root)
    ensures Grows(acc, WalkMembers(acc, data, n, depth, maxDepth, path))
    decreases data, 1, n
  {
    if n > 0 {
      var prev := WalkMembers(acc, data, n - 1, depth, maxDepth, path);
      WalkMembersInv(acc, data, n - 1, depth, maxDepth, path, root);
      VisitMemberInv(acc, prev, data, n - 1, depth, maxDepth, path, root);
    }
  }

  /** One iteration keeps the invariant, and the accumulator keeps growing
      from any earlier state `base`. */
  lemma {:induction false} VisitMemberInv(base: NestedAnalysis, acc: NestedAnalysis, data: JSON, i: nat, depth: int, maxDepth: int, path: seq<string>, root: string)
    requires data.JObj? && i < |data.members| && Inv(acc, maxDepth, root) && Rooted(path, root)
    requires 0 <= depth && depth in acc.hierarchy && Grows(base, acc)
    ensures Inv(VisitMember(acc, data, i, depth, maxDepth, path), maxDepth, root)
    ensures Grows(base, VisitMember(acc, data, i, depth, maxDepth, path))
    decreases data, 0, 0
  {
    var key := data.members[i].0;
    var value := data.members[i].1;
    var acc1 := RecordKey(acc, depth, key, value);
    RecordKeyInv(acc, depth, key, value, maxDepth, root);
    GrowsTrans(base, acc, acc1);
    VisitMemberCases(acc, data, i, depth, maxDepth, path);
    if value.JObj? {
      var w := WalkDict(acc1, value, depth + 1, maxDepth, path + [key]);
      WalkDictInv(acc1, value, depth + 1, maxDepth, path + [key], root);
      GrowsTrans(base, acc1, w);
    } else if value.JArr? {
      var w := WalkItems(acc1, value, |value.items|, depth + 1, maxDepth, path + [key, "[]"]);
      WalkItemsInv(acc1, value, |value.items|, depth + 1, maxDepth, path + [key, "[]"], root);
      GrowsTrans(base, acc1, w);
    }
  }

  lemma {:induction false} WalkItemsInv(acc: NestedAnalysis, list: JSON, n: nat, depth: int, maxDepth: int, path: seq<string>, root: string)
    requires list.JArr? && n <= |list.items| && Inv(acc, maxDepth, root) && Rooted(path, root)
    requires 1 <= depth && depth - 1 in acc.hierarchy
    ensures Inv(WalkItems(acc, list, n, depth, maxDepth, path), maxDepth, root)
    ensures Grows(acc, WalkItems(acc, list, n, depth, maxDepth, path))
    decreases list, 1, n
  {
    if n > 0 {
      var prev := WalkItems(acc, list, n - 1, depth, maxDepth, path);
      WalkItemsInv(acc, list, n - 1, depth, maxDepth, path, root);
      var item := list.items[n - 1];
      if item.JObj? {
        WalkDictInv(prev, item, depth, maxDepth, path, root);
        GrowsTrans(acc, prev, WalkItems(acc, list, n, depth, maxDepth, path));
      }
    }
  }

  /** The nested analysis of a field records nothing at any depth at or
      beyond `max_depth`; its depths are exactly 0 .. `max_depth_found`;
      every key seen at a depth is either required or optional there; and
      every recorded path starts with the field name. */
  lemma {:induction false} NestedOverInv(objects: seq<Members>, name: string, maxDepth: int)
    ensures Inv(NestedOver(objects, name, maxDepth), maxDepth, name)
  {
    if objects != [] {
      var prefix := objects[..|objects| - 1];
      NestedOverInv(prefix, name, maxDepth);
      match Lookup(objects[|objects| - 1], name)
      case Some(v) =>
        if v.JObj? {
          WalkDictInv(NestedOver(prefix, name, maxDepth), v, 0, maxDepth, [name], name);
        }
      case None =>
    }
  }

  // ---- what one walk records

  /** After a dict is walked below the limit, its path is recorded, and each
      of its keys is among the level's fields and is required there when its
      value is not null, optional when it is. */
  lemma {:induction false} WalkDictRecords(acc: NestedAnalysis, data: JSON, depth: int, maxDepth: int, path: seq<string>, root: string)
    requires data.JObj? && Inv(acc, maxDepth, root) && Rooted(path, root)
    requires 0 <= depth < maxDepth && (depth == 0 || depth - 1 in acc.hierarchy)
    ensures var r := WalkDict(acc, data, depth, maxDepth, path);
      && depth in r.hierarchy
      && Join(path) in r.paths
      && forall i :: 0 <= i < |data.members| ==>
           && data.members[i].0 in r.hierarchy[depth].fields
           && (data.members[i].1.JNull? ==> data.members[i].0 in r.hierarchy[depth].optionalFields)
           && (!data.members[i].1.JNull? ==> data.members[i].0 in r.hierarchy[depth].requiredFields)
  {
    var e := EnterLevel(acc, depth, path);
    EnterLevelInv(acc, depth, maxDepth, path, root);
    WalkMembersRecords(e, data, |data.members|, depth, maxDepth, path, root);
    WalkMembersInv(e, data, |data.members|, depth, maxDepth, path, root);
  }

  ghost predicate KeyRecorded(r: NestedAnalysis, depth: int, key: string, value: JSON) {
    && depth in r.hierarchy
    && key in r.hierarchy[depth].fields
    && (value.JNull? ==> key in r.hierarchy[depth].optionalFields)
    && (!value.JNull? ==> key in r.hierarchy[depth].requiredFields)
  }

  lemma KeyRecordedGrows(a: NestedAnalysis, b: NestedAnalysis, depth: int, key: string, value: JSON)
    requires KeyRecorded(a, depth, key, value) && Grows(a, b)
    ensures KeyRecorded(b, depth, key, value)
  {
  }

  lemma VisitMemberRecords(acc: NestedAnalysis, data: JSON, i: nat, depth: int, maxDepth: int, path: seq<string>, root: string)
    requires data.JObj? && i < |data.members| && Inv(acc, maxDepth, root) && Rooted(path, root)
    requires 0 <= depth && depth in acc.hierarchy
    ensures KeyRecorded(VisitMember(acc, data, i, depth, maxDepth, path), depth, data.members[i].0, data.members[i].1)
  {
    var key := data.members[i].0;
    var value := data.members[i].1;
    var acc1 := RecordKey(acc, depth, key, value);
    RecordKeyInv(acc, depth, key, value, maxDepth, root);
    assert KeyRecorded(acc1, depth, key, value);
    VisitMemberCases(acc, data, i, depth, maxDepth, path);
    if value.JObj? {
      var w := WalkDict(acc1, value, depth + 1, maxDepth, path + [key]);
      WalkDictInv(acc1, value, depth + 1, maxDepth, path + [key], root);
      KeyRecordedGrows(acc1, w, depth, key, value);
    } else if value.JArr? {
      var w := WalkItems(acc1, value, |value.items|, depth + 1, maxDepth, path + [key, "[]"]);
      WalkItemsInv(acc1, value, |value.items|, depth + 1, maxDepth, path + [key, "[]"], root);
      KeyRecordedGrows(acc1, w, depth, key, value);
    }
  }

  lemma {:induction false} WalkMembersRecords(acc: NestedAnalysis, data: JSON, n: nat, depth: int, maxDepth: int, path: seq<string>, root: string)
    requires data.JObj? && n <= |data.members| && Inv(acc, maxDepth, root) && Rooted(path, root)
    requires 0 <= depth && depth in acc.hierarchy
    ensures forall i :: 0 <= i < n ==>
      KeyRecorded(WalkMembers(acc, data, n, depth, maxDepth, path), depth, data.members[i].0, data.members[i].1)
  {
    if n > 0 {
      var prev := WalkMembers(acc, data, n - 1, depth, maxDepth, path);
      WalkMembersRecords(acc, data, n - 1, depth, maxDepth, path, root);
      WalkMembersInv(acc, data, n - 1, depth, maxDepth, path, root);
      VisitMemberRecords(prev, data, n - 1, depth, maxDepth, path, root);
      forall i | 0 <= i < n - 1
        ensures KeyRecorded(WalkMembers(acc, data, n, depth, maxDepth, path), depth, data.members[i].0, data.members[i].1)
      {
        VisitMemberKeeps(prev, data, n - 1, depth, maxDepth, path, root, data.members[i].0, data.members[i].1);
      }
    }
  }

  /** A later iteration keeps what an earlier one recorded. */
  lemma VisitMemberKeeps(acc: NestedAnalysis, data: JSON, i: nat, depth: int, maxDepth: int, path: seq<string>, root: string, key: string, value: JSON)
    requires data.JObj? && i < |data.members| && Inv(acc, maxDepth, root) && Rooted(path, root)
    requires 0 <= depth && depth in acc.hierarchy && KeyRecorded(acc, depth, key, value)
    ensures KeyRecorded(VisitMember(acc, data, i, depth, maxDepth, path), depth, key, value)
  {
    VisitMemberInv(acc, acc, data, i, depth, maxDepth, path, root);
    KeyRecordedGrows(acc, VisitMember(acc, data, i, depth, maxDepth, path), depth, key, value);
  }

  /** Walking a list whose items include a dict, below the limit, records
      the list's path and opens its depth. */
  lemma {:induction false} WalkItemsPaths(acc: NestedAnalysis, list: JSON, n: nat, depth: int, maxDepth: int, path: seq<string>, root: string)
    requires list.JArr? && n <= |list.items| && Inv(acc, maxDepth, root) && Rooted(path, root)
    requires 1 <= depth < maxDepth && depth - 1 in acc.hierarchy
    requires exists j :: 0 <= j < n && list.items[j].JObj?
    ensures var r := WalkItems(acc, list, n, depth, maxDepth, path);
      Join(path) in r.paths && depth in r.hierarchy
  {
    var prev := WalkItems(acc, list, n - 1, depth, maxDepth, path);
    var item := list.items[n - 1];
    WalkItemsInv(acc, list, n - 1, depth, maxDepth, path, root);
    if item.JObj? {
      WalkDictRecords(prev, item, depth, maxDepth, path, root);
    } else {
      var j :| 0 <= j < n && list.items[j].JObj?;
      assert j < n - 1;
      WalkItemsPaths(acc, list, n - 1, depth, maxDepth, path, root);
    }
  }

  /** A member whose value is a list holding a dict is descended into with
      the extra `[]` path segment, one level deeper. */
  lemma ListMemberPath(acc: NestedAnalysis, data: JSON, i: nat, depth: int, maxDepth: int, path: seq<string>, root: string)
    requires data.JObj? && i < |data.members| && Inv(acc, maxDepth, root) && Rooted(path, root)
    requires 0 <= depth && depth + 1 < maxDepth && depth in acc.hierarchy
    requires data.members[i].1.JArr?
    requires exists j :: 0 <= j < |data.members[i].1.items| && data.members[i].1.items[j].JObj?
    ensures var r := VisitMember(acc, data, i, depth, maxDepth, path);
      Join(path + [data.members[i].0, "[]"]) in r.paths && depth + 1 in r.hierarchy
  {
    var key := data.members[i].0;
    var value := data.members[i].1;
    RecordKeyInv(acc, depth, key, value, maxDepth, root);
    var acc1 := RecordKey(acc, depth, key, value);
    WalkItemsPaths(acc1, value, |value.items|, depth + 1, maxDepth, path + [key, "[]"], root);
  }

  // ---- binary strings anywhere inside a value

  /** `_contains_binary_recursive` */
  function ContainsBinary(v: JSON): bool {
    match v
    case JStr(s) => IsLikelyBinary(s)
    case JObj(ms) => exists i :: 0 <= i < |ms| && ContainsBinary(ms[i].1)
    case JArr(items) => exists i :: 0 <= i < |items| && ContainsBinary(items[i])
    case _ => false
  }

  /** Some record holds the field with a value containing a binary-looking string. */
  predicate FieldHasNestedBinary(objects: seq<Members>, name: string) {
    exists i :: 0 <= i < |objects| && FieldValueHasBinary(objects[i], name)
  }

  predicate FieldValueHasBinary(obj: Members, name: string) {
    match Lookup(obj, name)
    case Some(v) => ContainsBinary(v)
    case None => false
  }

  /** `_has_nested_binary`: the first record whose value holds binary content ends the search. */
  method HasNestedBinary(objects: seq<Members>, name: string) returns (found: bool)
    ensures found <==> exists i :: 0 <= i < |objects| && FieldValueHasBinary(objects[i], name)
  {
    var k := 0;
    while k < |objects|
      invariant 0 <= k <= |objects|
      invariant forall i :: 0 <= i < k ==> !FieldValueHasBinary(objects[i], name)
    {
      var value := Lookup(objects[k], name);
      if value.Some? && ContainsBinary(value.value) {
        return true;
      }
      k := k + 1;
    }
    return false;
  }
}
