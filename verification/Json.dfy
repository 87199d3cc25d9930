/** JSON trees with ordered object keys, as JSON.stringify and structuredClone see them. */
module Json {
  import opened Basics

  // An object lists its keys in insertion order.
  datatype Json =
    | Null
    | Bool(b: bool)
    | Num(n: real)
    | Str(s: string)
    | Arr(items: seq<Json>)
    | Obj(keys: seq<string>, values: map<string, Json>)

  predicate Truthy(j: Json) {
    match j
    case Null => false
    case Bool(b) => b
    case Num(n) => n != 0.0
    case Str(s) => s != ""
    case _ => true
  }

  // ---------- fields of an object ----------

  function Field(j: Json, key: string): Option<Json> {
    if j.Obj? && key in j.values then Some(j.values[key]) else None
  }

  // Assigning a property keeps its place; a new property comes last.
  function Set(j: Json, key: string, value: Json): Json
    requires j.Obj?
  {
    Obj(if key in j.values then j.keys else j.keys + [key], j.values[key := value])
  }

  function Delete(j: Json, key: string): Json
    requires j.Obj?
  {
    Obj(Without(j.keys, key), j.values - {key})
  }

  function Without(keys: seq<string>, key: string): (r: seq<string>)
    ensures Range(r) == Range(keys) - {key}
  {
    if keys == [] then []
    else
      assert Range(keys) == {keys[0]} + Range(keys[1..]) by { assert keys == [keys[0]] + keys[1..]; }
      var rest := Without(keys[1..], key);
      if keys[0] == key then rest
      else
        assert Range([keys[0]] + rest) == {keys[0]} + Range(rest);
        [keys[0]] + rest
  }

  ghost function Range(keys: seq<string>): set<string> { set k | k in keys }

  // The listed keys are exactly the properties.
  ghost predicate WfObject(j: Json) { j.Obj? ==> Range(j.keys) == j.values.Keys }

  lemma SetWf(j: Json, key: string, value: Json)
    requires j.Obj? && WfObject(j)
    ensures WfObject(Set(j, key, value))
  {
    assert Range(j.keys + [key]) == Range(j.keys) + {key};
  }

  // ---------- entities: objects with a truthy id ----------

  predicate HasId(j: Json) { Field(j, "id").Some? && Truthy(Field(j, "id").value) }

  predicate AllHaveIds(s: seq<Json>) { forall j | j in s :: HasId(j) }

  function Key(j: Json): Json { if Field(j, "id").Some? then Field(j, "id").value else Null }

  // A list entry together with its id.
  datatype Entry = Entry(id: Json, value: Json)

  function EntryOf(j: Json): Entry { Entry(Key(j), j) }

  function Keyed(s: seq<Json>): (r: seq<Entry>)
    ensures |r| == |s| && forall i | 0 <= i < |s| :: r[i] == EntryOf(s[i])
  {
    if s == [] then [] else [EntryOf(s[0])] + Keyed(s[1..])
  }

  function Values(s: seq<Entry>): (r: seq<Json>)
    ensures |r| == |s| && forall i | 0 <= i < |s| :: r[i] == s[i].value
  {
    if s == [] then [] else [s[0].value] + Values(s[1..])
  }

  // Well-formed data: lists of entities have distinct ids.
  ghost predicate Wf(j: Json) {
    match j
    case Arr(items) => (AllHaveIds(items) ==> UniqueIds(Keyed(items))) && forall x | x in items :: Wf(x)
    case Obj(keys, values) => WfObject(j) && forall k | k in values :: Wf(values[k])
    case _ => true
  }

  predicate UniqueIds(s: seq<Entry>) { forall i, j | 0 <= i < j < |s| :: s[i].id != s[j].id }
}
