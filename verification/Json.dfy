/**
 Decoded JSON values, as frames and tool schemas arrive. An object keeps its members in
 order, as a Python dict does; its keys are those of a dict, so a lookup takes the only one.
 */
module Json {
  datatype Value =
    | Null
    | Bool(b: bool)
    | Int(n: int)
    | Float(r: real)
    | Str(s: string)
    | Array(items: seq<Value>)
    | Object(members: seq<Member>)

  datatype Member = Member(key: string, value: Value)

  /** `dict.get(key)`, where an absent member reads as null. */
  function Lookup(members: seq<Member>, key: string): Value {
    if members == [] then Null
    else if members[0].key == key then members[0].value
    else Lookup(members[1..], key)
  }

  predicate DistinctKeys(members: seq<Member>) {
    forall i, j :: 0 <= i < j < |members| ==> members[i].key != members[j].key
  }

  /** With the distinct keys of a dict, a lookup gives the value under the key, or null when there is none. */
  lemma {:induction false} LookupFinds(members: seq<Member>, key: string)
    requires DistinctKeys(members)
    ensures forall m :: m in members && m.key == key ==> Lookup(members, key) == m.value
    ensures (forall m :: m in members ==> m.key != key) ==> Lookup(members, key) == Null
  {
    if members != [] {
      LookupFinds(members[1..], key);
      assert members == [members[0]] + members[1..];
    }
  }

  /** Python's `== 1`, which also holds of `True` and `1.0`. */
  predicate EqualsOne(v: Value) {
    v == Int(1) || v == Bool(true) || v == Float(1.0)
  }
}
