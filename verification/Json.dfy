/** JSON values. An object keeps its members in a fixed order, as `serde_json::Map` iterates them. */
module Json {
  import opened Wrappers

  datatype Member = Member(key: string, value: Value)

  datatype Value =
    | Null
    | Bool(bit: bool)
    | Number(token: string)
    | Text(text: string)
    | Array(elements: seq<Value>)
    | Object(members: seq<Member>)

  function Get(members: seq<Member>, key: string): Option<Value> {
    if members == [] then None
    else if members[0].key == key then Some(members[0].value)
    else Get(members[1..], key)
  }

  function AsText(value: Option<Value>): Option<string> {
    if value.Some? && value.value.Text? then Some(value.value.text) else None
  }

  // Drops every member called `key`; the others keep their order.
  function Remove(members: seq<Member>, key: string): seq<Member> {
    if members == [] then []
    else if members[0].key == key then Remove(members[1..], key)
    else [members[0]] + Remove(members[1..], key)
  }

  // Every string value at any depth of `value` (object keys are not values).
  function Strings(value: Value): set<string> {
    match value
    case Text(text) => {text}
    case Array(elements) => set i, s | 0 <= i < |elements| && s in Strings(elements[i]) :: s
    case Object(members) => set i, s | 0 <= i < |members| && s in Strings(members[i].value) :: s
    case _ => {}
  }

  lemma {:induction false} RemoveKeepsOthers(members: seq<Member>, key: string, other: string)
    ensures Get(Remove(members, key), other) == if other == key then None else Get(members, other)
  {
    if members != [] {
      RemoveKeepsOthers(members[1..], key, other);
      if members[0].key != key {
        assert ([members[0]] + Remove(members[1..], key))[1..] == Remove(members[1..], key);
      }
    }
  }

  // Members of the result are members of the source.
  lemma {:induction false} RemoveSelects(members: seq<Member>, key: string)
    ensures forall m :: m in Remove(members, key) <==> m in members && m.key != key
  {
    if members != [] { RemoveSelects(members[1..], key); }
  }

  lemma StringsOfMember(members: seq<Member>, m: Member)
    requires m in members
    ensures Strings(m.value) <= Strings(Object(members))
  {
    var i :| 0 <= i < |members| && members[i] == m;
  }

  lemma RemoveKeepsStrings(members: seq<Member>, key: string)
    ensures Strings(Object(Remove(members, key))) <= Strings(Object(members))
  {
    RemoveSelects(members, key);
    var kept := Remove(members, key);
    forall s | s in Strings(Object(kept)) ensures s in Strings(Object(members)) {
      var i :| 0 <= i < |kept| && s in Strings(kept[i].value);
      assert kept[i] in kept;
      StringsOfMember(members, kept[i]);
    }
  }
}
