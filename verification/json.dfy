/** Parsed JSON values, as the extension's scripts and the Python receivers see them
    after `JSON.parse` / `json.loads`. */
module Json {

  import opened Wrappers

  /** A JSON value. Numbers are integers; object members keep their textual
      order, so two values are equal exactly when `JSON.stringify` renders them
      alike (for objects without repeated keys). */
  datatype Json =
    | JNull
    | JBool(b: bool)
    | JNum(n: int)
    | JStr(s: string)
    | JArr(items: seq<Json>)
    | JObj(fields: seq<(string, Json)>)

  /** The value bound to `key` in an object's member list, or None when the key is absent. */
  function Lookup(fields: seq<(string, Json)>, key: string): (r: Option<Json>)
    ensures r.Some? <==> exists i :: 0 <= i < |fields| && fields[i].0 == key
    ensures r.Some? ==> (key, r.value) in fields
  {
    if fields == [] then None
    else if fields[0].0 == key then Some(fields[0].1)
    else
      var r := Lookup(fields[1..], key);
      assert forall i :: 1 <= i < |fields| ==> fields[i] == fields[1..][i - 1];
      r
  }

  /** `v.key` on a value that is not null or undefined: an object's member, and
      `undefined` for every other kind of value. */
  function Field(v: Json, key: string): Option<Json>
  {
    if v.JObj? then Lookup(v.fields, key) else None
  }

  /** Optional chaining `v?.key`. */
  function Member(v: Option<Json>, key: string): Option<Json>
  {
    if v.Some? then Field(v.value, key) else None
  }

  /** The first defined value bound to `key` in a member list. */
  function FirstDefined(members: seq<(string, Option<Json>)>, key: string): Option<Json>
  {
    if members == [] then None
    else if members[0].0 == key && members[0].1.Some? then members[0].1
    else FirstDefined(members[1..], key)
  }

  /** An object literal after serialisation: members whose value is `undefined`
      are dropped, the others keep their order. */
  function Obj(members: seq<(string, Option<Json>)>): (r: Json)
    ensures r.JObj? && |r.fields| <= |members|
    ensures forall key :: Field(r, key) == FirstDefined(members, key)
  {
    if members == [] then JObj([])
    else
      var rest := Obj(members[1..]);
      if members[0].1.Some? then JObj([(members[0].0, members[0].1.value)] + rest.fields)
      else rest
  }

  /** In an object literal whose member names are distinct, reading a member
      back gives the value it was written with, `undefined` included. */
  lemma {:induction false} ObjFieldReadBack(members: seq<(string, Option<Json>)>, i: nat)
    requires i < |members|
    requires forall j :: 0 <= j < |members| && j != i ==> members[j].0 != members[i].0
    ensures Field(Obj(members), members[i].0) == members[i].1
    decreases |members|
  {
    var key := members[i].0;
    if i == 0 {
      if members[0].1.None? {
        FirstDefinedAbsent(members[1..], key);
      }
    } else {
      assert forall j :: 0 <= j < |members[1..]| && j != i - 1 ==> members[1..][j].0 != key by {
        forall j | 0 <= j < |members[1..]| && j != i - 1 ensures members[1..][j].0 != key {
          assert members[1..][j] == members[j + 1];
        }
      }
      ObjFieldReadBack(members[1..], i - 1);
    }
  }

  /** A key no member carries is undefined. */
  lemma {:induction false} FirstDefinedAbsent(members: seq<(string, Option<Json>)>, key: string)
    requires forall j :: 0 <= j < |members| ==> members[j].0 != key
    ensures FirstDefined(members, key) == None
    decreases |members|
  {
    if members != [] {
      FirstDefinedAbsent(members[1..], key);
    }
  }

  /** Object spread `{...v, key: x}`: an existing member keeps its position and
      takes the new value; a missing one is appended. */
  function SetField(fields: seq<(string, Json)>, key: string, x: Json): (r: seq<(string, Json)>)
    ensures Lookup(r, key) == Some(x)
    ensures forall k :: k != key ==> Lookup(r, k) == Lookup(fields, k)
    ensures (exists i :: 0 <= i < |fields| && fields[i].0 == key) ==> |r| == |fields|
  {
    if fields == [] then [(key, x)]
    else if fields[0].0 == key then [(key, x)] + fields[1..]
    else [fields[0]] + SetField(fields[1..], key, x)
  }

  /** Setting a member to the value it already reads as changes nothing. */
  lemma {:induction false} SetFieldSame(fields: seq<(string, Json)>, key: string, x: Json)
    requires Lookup(fields, key) == Some(x)
    ensures SetField(fields, key, x) == fields
    decreases |fields|
  {
    if fields[0].0 != key {
      SetFieldSame(fields[1..], key, x);
    }
  }
}
