/** JSON values as the NDJSON decoder hands them to the schema generator, the
    type names Python gives them, and the dictionary operations the generator
    performs on the schemas it builds. */
module Json {

  datatype Option<+T> = None | Some(value: T) {
    /** Python's `d.get(key, default)` once the lookup has been made. */
    function GetOr(default: T): T {
      match this
      case Some(v) => v
      case None => default
    }
  }

  /** The failures of the entry points: the empty record list they refuse
      themselves, and a generated schema that rejects the record at `index`
      when it is checked against the records it came from. */
  datatype Error = EmptyInput | RejectsInput(index: nat)

  datatype Result<+T> = Success(value: T) | Failure(error: Error)

  /** A decoded JSON value. Objects keep their members in insertion order;
      a float is kept as the exact rational it denotes. */
  datatype JSON =
    | JNull
    | JBool(b: bool)
    | JInt(i: int)
    | JFloat(f: real)
    | JStr(s: string)
    | JArr(items: seq<JSON>)
    | JObj(members: seq<(string, JSON)>)

  /** The members of one object (a Python dict), in insertion order. */
  type Members = seq<(string, JSON)>

  /** `type(value).__name__` for a decoded value. */
  datatype TypeTag = TStr | TInt | TFloat | TBool | TList | TDict | TNone

  function Tag(v: JSON): TypeTag {
    match v
    case JNull => TNone
    case JBool(_) => TBool
    case JInt(_) => TInt
    case JFloat(_) => TFloat
    case JStr(_) => TStr
    case JArr(_) => TList
    case JObj(_) => TDict
  }

  function TagName(t: TypeTag): string {
    match t
    case TStr => "str"
    case TInt => "int"
    case TFloat => "float"
    case TBool => "bool"
    case TList => "list"
    case TDict => "dict"
    case TNone => "NoneType"
  }

  const AllTags: seq<TypeTag> := [TStr, TInt, TFloat, TBool, TList, TDict, TNone]

  /** The tags of `s` in one fixed order; how Python lists a set of type names
      is unspecified, so the model fixes this one. */
  function TagList(s: set<TypeTag>): seq<TypeTag> {
    FilterTags(AllTags, s)
  }

  function FilterTags(ts: seq<TypeTag>, s: set<TypeTag>): (r: seq<TypeTag>)
    ensures forall t :: t in r <==> t in ts && t in s
  {
    if ts == [] then []
    else (if ts[0] in s then [ts[0]] else []) + FilterTags(ts[1..], s)
  }

  lemma TagListExact(s: set<TypeTag>, t: TypeTag)
    ensures t in TagList(s) <==> t in s
  {
    match t
    case TStr => assert AllTags[0] == t;
    case TInt => assert AllTags[1] == t;
    case TFloat => assert AllTags[2] == t;
    case TBool => assert AllTags[3] == t;
    case TList => assert AllTags[4] == t;
    case TDict => assert AllTags[5] == t;
    case TNone => assert AllTags[6] == t;
  }

  /** `list(types)`: the Python type names of a set of tags, in the order
      `TagList` fixes. */
  function TypeNameList(s: set<TypeTag>): seq<string> {
    seq(|TagList(s)|, i requires 0 <= i < |TagList(s)| => TagName(TagList(s)[i]))
  }

  /** Different tags have different Python names. */
  lemma TagNameInjective(t: TypeTag, u: TypeTag)
    requires TagName(t) == TagName(u)
    ensures t == u
  {
    assert TagName(t)[0] == TagName(u)[0] && |TagName(t)| == |TagName(u)|;
  }

  /** The listed names are exactly the names of the tags in the set. */
  lemma TypeNameListExact(s: set<TypeTag>, t: TypeTag)
    ensures TagName(t) in TypeNameList(s) <==> t in s
  {
    TagListExact(s, t);
    var names := TypeNameList(s);
    if t in s {
      var i :| 0 <= i < |TagList(s)| && TagList(s)[i] == t;
      assert names[i] == TagName(t);
    }
    if TagName(t) in names {
      var i :| 0 <= i < |names| && names[i] == TagName(t);
      TagNameInjective(TagList(s)[i], t);
    }
  }

  /** A number as the profiler stores it for `min_value`/`max_value`. */
  datatype Num = NInt(i: int) | NFloat(f: real) {
    /** Python compares ints and floats by their exact values. */
    function Value(): real {
      match this
      case NInt(i) => i as real
      case NFloat(f) => f
    }

    function ToJson(): JSON {
      match this
      case NInt(i) => JInt(i)
      case NFloat(f) => JFloat(f)
    }
  }

  /** A Python dict never holds a key twice. */
  predicate DistinctKeys(ms: Members) {
    forall i, j :: 0 <= i < j < |ms| ==> ms[i].0 != ms[j].0
  }

  function Keys(ms: Members): (r: seq<string>)
    ensures |r| == |ms| && forall i :: 0 <= i < |ms| ==> r[i] == ms[i].0
  {
    if ms == [] then [] else [ms[0].0] + Keys(ms[1..])
  }

  /** `key in d` and `d[key]`: the first member with that key. */
  function Lookup(ms: Members, key: string): (r: Option<JSON>)
    ensures r.None? <==> forall i :: 0 <= i < |ms| ==> ms[i].0 != key
    ensures r.Some? ==> exists i :: 0 <= i < |ms| && ms[i] == (key, r.value)
  {
    if ms == [] then None
    else if ms[0].0 == key then Some(ms[0].1)
    else Lookup(ms[1..], key)
  }

  /** A key first found at position 2 is looked up there. */
  lemma LookupThird(ms: Members, key: string)
    requires |ms| >= 3 && ms[0].0 != key && ms[1].0 != key && ms[2].0 == key
    ensures Lookup(ms, key) == Some(ms[2].1)
  {
    var rest := ms[1..][1..];
    assert rest[0] == ms[2];
    assert Lookup(ms[1..], key) == Lookup(rest, key);
  }

  /** `d[key] = value`: an existing key keeps its position and gets the new
      value; a new key is appended. */
  function SetKey(ms: Members, key: string, value: JSON): Members {
    if ms == [] then [(key, value)]
    else if ms[0].0 == key then [(key, value)] + ms[1..]
    else [ms[0]] + SetKey(ms[1..], key, value)
  }

  /** After `d[key] = value`, `d[key]` is `value`. */
  lemma {:induction false} SetKeyFinds(ms: Members, key: string, value: JSON)
    ensures Lookup(SetKey(ms, key, value), key) == Some(value)
  {
    if ms != [] && ms[0].0 != key {
      SetKeyFinds(ms[1..], key, value);
      assert SetKey(ms, key, value) == [ms[0]] + SetKey(ms[1..], key, value);
    }
  }

  /** `d[key] = value` leaves every other key's value alone. */
  lemma {:induction false} SetKeyKeeps(ms: Members, key: string, value: JSON, other: string)
    requires other != key
    ensures Lookup(SetKey(ms, key, value), other) == Lookup(ms, other)
  {
    if ms != [] && ms[0].0 != key {
      SetKeyKeeps(ms[1..], key, value, other);
      assert SetKey(ms, key, value) == [ms[0]] + SetKey(ms[1..], key, value);
    }
  }

  /** `d[key] = value` keeps the key order and appends a key it did not hold. */
  lemma {:induction false} SetKeyKeys(ms: Members, key: string, value: JSON)
    ensures Keys(SetKey(ms, key, value)) == if Lookup(ms, key).Some? then Keys(ms) else Keys(ms) + [key]
  {
    if ms != [] && ms[0].0 != key {
      SetKeyKeys(ms[1..], key, value);
      assert SetKey(ms, key, value) == [ms[0]] + SetKey(ms[1..], key, value);
    }
  }

  /** Setting a key the dict does not hold yet appends it. */
  lemma {:induction false} SetKeyFresh(ms: Members, key: string, value: JSON)
    requires Lookup(ms, key).None?
    ensures SetKey(ms, key, value) == ms + [(key, value)]
  {
    if ms != [] {
      SetKeyFresh(ms[1..], key, value);
      assert [ms[0]] + (ms[1..] + [(key, value)]) == ms + [(key, value)];
    }
  }

  /** After `d[key] = value` the dict holds the item `(key, value)`, every
      item of another key it held, and nothing it did not hold besides. */
  lemma {:induction false} SetKeyItems(ms: Members, key: string, value: JSON)
    ensures (key, value) in SetKey(ms, key, value)
    ensures forall m :: m in ms && m.0 != key ==> m in SetKey(ms, key, value)
    ensures forall m :: m in SetKey(ms, key, value) ==> m == (key, value) || m in ms
  {
    if ms != [] && ms[0].0 != key {
      SetKeyItems(ms[1..], key, value);
      assert ms == [ms[0]] + ms[1..];
    }
  }

  /** Setting a key absent from a dict whose keys are `keys` appends it. */
  lemma SetKeyAppend(ms: Members, keys: seq<string>, key: string, value: JSON)
    requires Keys(ms) == keys && key !in keys
    ensures SetKey(ms, key, value) == ms + [(key, value)]
    ensures Keys(ms + [(key, value)]) == keys + [key]
  {
    assert Lookup(ms, key).None? by {
      forall i | 0 <= i < |ms| ensures ms[i].0 != key {
        assert ms[i].0 == keys[i];
      }
    }
    SetKeyFresh(ms, key, value);
    var r := ms + [(key, value)];
    assert Keys(r) == keys + [key] by {
      assert |Keys(r)| == |keys + [key]|;
      forall i | 0 <= i < |r| ensures Keys(r)[i] == (keys + [key])[i] {
      }
    }
  }

  /** `schema.get(key)` on a schema that is a dict. */
  function Get(v: JSON, key: string): Option<JSON> {
    if v.JObj? then Lookup(v.members, key) else None
  }

  /** The keys of a JSON object, or none for any other value. */
  function KeysOf(v: JSON): seq<string> {
    if v.JObj? then Keys(v.members) else []
  }

  /** Adding to a Python set whose iteration order the model fixes as
      first-insertion order. */
  function AddUnique(s: seq<string>, x: string): (r: seq<string>)
    ensures x in r && forall y :: y in s ==> y in r
    ensures forall y :: y in r ==> y == x || y in s
  {
    if x in s then s else s + [x]
  }

  predicate NoDuplicates(s: seq<string>) {
    forall i, j :: 0 <= i < j < |s| ==> s[i] != s[j]
  }

  /** Dropping the last name keeps the rest distinct, and the last name is
      not among them. */
  lemma NoDuplicatesInit(s: seq<string>)
    requires NoDuplicates(s) && s != []
    ensures NoDuplicates(s[..|s| - 1]) && s[|s| - 1] !in s[..|s| - 1]
  {
    var init := s[..|s| - 1];
    forall i, j | 0 <= i < j < |init| ensures init[i] != init[j] {
      assert init[i] == s[i] && init[j] == s[j];
    }
    forall i | 0 <= i < |init| ensures init[i] != s[|s| - 1] {
      assert init[i] == s[i];
    }
  }

  lemma AddUniqueKeepsDistinct(s: seq<string>, x: string)
    requires NoDuplicates(s)
    ensures NoDuplicates(AddUnique(s, x))
  {
  }

  /** `str(n)` for an integer. */
  function IntToString(n: int): (r: string)
    ensures |r| > 0
  {
    if n < 0 then "-" + NatToString(-n) else NatToString(n)
  }

  function NatToString(n: nat): (r: string)
    ensures |r| > 0
    ensures forall i :: 0 <= i < |r| ==> '0' <= r[i] <= '9'
    decreases n
  {
    if n < 10 then [DigitChar(n)] else NatToString(n / 10) + [DigitChar(n % 10)]
  }

  function DigitChar(d: nat): (c: char)
    requires d < 10
    ensures '0' <= c <= '9'
  {
    ['0', '1', '2', '3', '4', '5', '6', '7', '8', '9'][d]
  }
}
