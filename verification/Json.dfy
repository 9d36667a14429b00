/** JSON values as the jansson library presents them: objects keep their members in
    insertion order and are read by key or by iteration position. */
module Json {
  import opened Wrappers

  datatype Json =
    | Null
    | Bool(b: bool)
    | Int(i: int)
    | Real(r: real)
    | Str(s: string)
    | Arr(items: seq<Json>)
    | Obj(members: seq<Member>)

  datatype Member = Member(key: string, value: Json)

  function Find(members: seq<Member>, key: string): Option<Json> {
    if members == [] then None
    else if members[0].key == key then Some(members[0].value)
    else Find(members[1..], key)
  }

  /** `json_object_get`: NULL for anything that is not an object. */
  function Get(json: Option<Json>, key: string): Option<Json> {
    if json.Some? && json.value.Obj? then Find(json.value.members, key) else None
  }

  /** Entry `index` of an array, or the value at iteration position `index` of an object. */
  function Entry(json: Json, index: nat): Option<Json> {
    match json
    case Arr(items) => if index < |items| then Some(items[index]) else None
    case Obj(members) => if index < |members| then Some(members[index].value) else None
    case _ => None
  }

  /** A found member is a structural part of the object it was found in. */
  lemma FindIsPart(members: seq<Member>, key: string)
    requires Find(members, key).Some?
    ensures exists k :: 0 <= k < |members| && members[k].key == key && members[k].value == Find(members, key).value
  {
    if members[0].key != key {
      FindIsPart(members[1..], key);
      var k :| 0 <= k < |members[1..]| && members[1..][k].key == key && members[1..][k].value == Find(members[1..], key).value;
      assert members[k + 1] == members[1..][k];
    }
  }

  lemma GetIsSmaller(json: Json, key: string)
    requires Get(Some(json), key).Some?
    ensures Get(Some(json), key).value < json
  {
    FindIsPart(json.members, key);
  }

  /** `json_object_get_by_index` walks the iterator; it reaches the entry `Entry` names. */
  method GetByIndex(json: Json, index: nat) returns (value: Option<Json>)
    requires json.Obj?
    ensures value == Entry(json, index)
  {
    var iter := 0;
    var i := 0;
    while i < index && iter < |json.members|
      invariant i == iter <= index
      invariant iter <= |json.members|
    {
      iter := iter + 1;
      i := i + 1;
    }
    value := if iter < |json.members| then Some(json.members[iter].value) else None;
  }
}
