/** The slice of `serde_json::Value` the installer inspects. Numbers are kept as
    integers; an object's members are listed in the map's iteration order. */
module Json {
  import opened Wrappers

  datatype Value =
    | Null
    | Bool(b: bool)
    | Number(n: int)
    | Str(s: string)
    | Array(items: seq<Value>)
    | Object(members: seq<(string, Value)>)

  /** The first member named `key`, `Null` when there is none. */
  function Lookup(members: seq<(string, Value)>, key: string): (r: Value)
    ensures r != Null ==> exists i :: 0 <= i < |members| && members[i] == (key, r)
    decreases |members|
  {
    if members == [] then Null
    else if members[0].0 == key then members[0].1
    else
      var r := Lookup(members[1..], key);
      assert r != Null ==> exists i :: 0 <= i < |members| - 1 && members[1..][i] == (key, r);
      r
  }

  /** A key no member has gives `Null`. */
  lemma {:induction false} LookupMissingKey(members: seq<(string, Value)>, key: string)
    requires forall i :: 0 <= i < |members| ==> members[i].0 != key
    ensures Lookup(members, key) == Null
    decreases |members|
  {
    if members != [] {
      assert forall i :: 0 <= i < |members| - 1 ==> members[1..][i] == members[i + 1];
      LookupMissingKey(members[1..], key);
    }
  }

  /** A present key gives the value of its first member. */
  lemma {:induction false} LookupFirstMember(members: seq<(string, Value)>, key: string, i: nat)
    requires i < |members| && members[i].0 == key
    requires forall j :: 0 <= j < i ==> members[j].0 != key
    ensures Lookup(members, key) == members[i].1
    decreases i
  {
    if i > 0 {
      assert members[0].0 != key;
      assert forall j :: 0 <= j < i - 1 ==> members[1..][j] == members[j + 1];
      LookupFirstMember(members[1..], key, i - 1);
    }
  }

  /** `value[key]`: indexing never fails; a non-object or a missing key gives `Null`. */
  function Get(v: Value, key: string): (r: Value)
    ensures !v.Object? ==> r == Null
  {
    match v
    case Object(members) => Lookup(members, key)
    case _ => Null
  }

  /** `Value::as_object`. */
  function AsObject(v: Value): Option<seq<(string, Value)>>
  {
    if v.Object? then Some(v.members) else None
  }

  /** `Value::as_str`. */
  function AsStr(v: Value): Option<string>
  {
    if v.Str? then Some(v.s) else None
  }

  /** Indexing an object: a missing key gives `Null`, a present key the value of its
      first member. */
  lemma GetMember(members: seq<(string, Value)>, key: string)
    ensures (forall i :: 0 <= i < |members| ==> members[i].0 != key) ==> Get(Object(members), key) == Null
    ensures forall i :: 0 <= i < |members| && members[i].0 == key && (forall j :: 0 <= j < i ==> members[j].0 != key)
                        ==> Get(Object(members), key) == members[i].1
  {
    if forall i :: 0 <= i < |members| ==> members[i].0 != key {
      LookupMissingKey(members, key);
    }
    forall i | 0 <= i < |members| && members[i].0 == key && (forall j :: 0 <= j < i ==> members[j].0 != key)
      ensures Get(Object(members), key) == members[i].1
    {
      LookupFirstMember(members, key, i);
    }
  }
}
