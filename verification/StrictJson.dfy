/** The strict visitor over a JSON text as the deserializer presents it: objects may still repeat keys
  here, and strings may hold U+0000. */
module StrictJson {
  import opened Wrappers
  import Binary64

  datatype Float = Finite(bits: nat) | NegativeZero | NotFinite

  datatype Raw =
    | Null
    | Bool(bit: bool)
    | Signed(i: Binary64.I64)
    | Unsigned(n: Binary64.U64)
    | Fraction(float: Float)
    | Text(text: string)
    | Array(elements: seq<Raw>)
    | Object(members: seq<RawMember>)

  datatype RawMember = RawMember(key: string, value: Raw)

  datatype Value =
    | NullValue
    | BoolValue(bit: bool)
    | IntValue(n: int)
    | FloatValue(bits: nat)
    | TextValue(text: string)
    | ArrayValue(elements: seq<Value>)
    | ObjectValue(members: map<string, Value>)

  datatype Error = NotExact | OutsideDomain | NulInText | NulInKey | DuplicateKey(key: string)

  // What the canonical JSON domain admits, at any depth.
  ghost predicate Strict(raw: Raw) {
    match raw
    case Signed(i) => Binary64.Held(i)
    case Unsigned(n) => Binary64.Held(n)
    case Fraction(float) => float.Finite?
    case Text(text) => '\0' !in text
    case Array(elements) => forall i :: 0 <= i < |elements| ==> Strict(elements[i])
    case Object(members) =>
      && (forall i :: 0 <= i < |members| ==> '\0' !in members[i].key && Strict(members[i].value))
      && (forall i, j :: 0 <= i < j < |members| ==> members[i].key != members[j].key)
    case _ => true
  }

  // `value` is `raw` read as a tree: the same elements in order, and one entry for every member.
  ghost predicate Reads(value: Value, raw: Raw)
    decreases raw
  {
    match raw
    case Null => value == NullValue
    case Bool(bit) => value == BoolValue(bit)
    case Signed(i) => value == IntValue(i)
    case Unsigned(n) => value == IntValue(n)
    case Fraction(float) => float.Finite? && value == FloatValue(float.bits)
    case Text(text) => value == TextValue(text)
    case Array(elements) =>
      && value.ArrayValue? && |value.elements| == |elements|
      && forall i :: 0 <= i < |elements| ==> Reads(value.elements[i], elements[i])
    case Object(members) =>
      && value.ObjectValue? && ReadsMembers(value.members, members)
  }

  ghost predicate ReadsMembers(values: map<string, Value>, members: seq<RawMember>)
    decreases members
  {
    && (forall key :: key in values <==> exists i :: 0 <= i < |members| && members[i].key == key)
    && (forall i :: 0 <= i < |members| ==> members[i].key in values && Reads(values[members[i].key], members[i].value))
  }

  // One more member under a new key.
  lemma ReadsNext(values: map<string, Value>, members: seq<RawMember>, i: nat, value: Value)
    requires i < |members| && ReadsMembers(values, members[..i]) && members[i].key !in values
    requires Reads(value, members[i].value)
    ensures ReadsMembers(values[members[i].key := value], members[..i + 1])
    ensures forall j :: 0 <= j < i ==> members[j].key != members[i].key
  {
    hide Reads;
    var shorter, longer, after := members[..i], members[..i + 1], values[members[i].key := value];
    forall j | 0 <= j < i ensures members[j].key in values && members[j].key != members[i].key {
      assert shorter[j] == members[j];
    }
    forall j | 0 <= j < |longer| ensures longer[j].key in after && Reads(after[longer[j].key], longer[j].value) {
      if j < i { assert shorter[j] == longer[j]; }
    }
    forall key | key in after ensures exists j :: 0 <= j < |longer| && longer[j].key == key {
      if key in values {
        var j :| 0 <= j < |shorter| && shorter[j].key == key;
        assert longer[j].key == key;
      } else {
        assert longer[i].key == key;
      }
    }
  }

  lemma NoMembers(members: seq<RawMember>)
    ensures ReadsMembers(map[], members[..0])
  {
  }

  lemma ObjectRead(values: map<string, Value>, members: seq<RawMember>)
    requires ReadsMembers(values, members)
    ensures Reads(ObjectValue(values), Object(members))
  {
  }

  lemma MapKeys(values: map<string, Value>, members: seq<RawMember>, i: nat)
    requires i <= |members| && ReadsMembers(values, members[..i])
    ensures forall key :: key in values ==> exists j :: 0 <= j < i && members[j].key == key
  {
    hide Reads;
    forall key | key in values ensures exists j :: 0 <= j < i && members[j].key == key {
      var j :| 0 <= j < |members[..i]| && members[..i][j].key == key;
      assert members[j].key == key;
    }
  }

  // The visitor accepts exactly the strict texts, and yields what it read.
  method Visit(raw: Raw) returns (r: Result<Value, Error>)
    ensures r.Success? <==> Strict(raw)
    ensures r.Success? ==> Reads(r.value, raw)
    decreases raw, 1
  {
    match raw
    case Null => r := Success(NullValue);
    case Bool(bit) => r := Success(BoolValue(bit));
    case Signed(i) =>
      var exact := Binary64.VisitI64(i);
      r := if exact.Success? then Success(IntValue(exact.value)) else Failure(NotExact);
    case Unsigned(n) =>
      var exact := Binary64.VisitU64(n);
      r := if exact.Success? then Success(IntValue(exact.value)) else Failure(NotExact);
    case Fraction(float) => r := if float.Finite? then Success(FloatValue(float.bits)) else Failure(OutsideDomain);
    case Text(text) => r := if '\0' in text then Failure(NulInText) else Success(TextValue(text));
    case Array(elements) => r := VisitSeq(elements);
    case Object(members) => r := VisitMap(members);
  }

  method VisitSeq(elements: seq<Raw>) returns (r: Result<Value, Error>)
    ensures r.Success? <==> forall i :: 0 <= i < |elements| ==> Strict(elements[i])
    ensures r.Success? ==> Reads(r.value, Array(elements))
    decreases elements, 0
  {
    var values: seq<Value> := [];
    for i := 0 to |elements|
      invariant |values| == i
      invariant forall j :: 0 <= j < i ==> Strict(elements[j]) && Reads(values[j], elements[j])
    {
      var element := Visit(elements[i]);
      if element.Failure? { return Failure(element.error); }
      values := values + [element.value];
    }
    r := Success(ArrayValue(values));
  }

  method VisitMap(members: seq<RawMember>) returns (r: Result<Value, Error>)
    ensures r.Success? <==> Strict(Object(members))
    ensures r.Success? ==> Reads(r.value, Object(members))
    decreases members, 0
  {
    hide Reads, ReadsMembers;
    var values: map<string, Value> := map[];
    NoMembers(members);
    for i := 0 to |members|
      invariant forall j :: 0 <= j < i ==> '\0' !in members[j].key && Strict(members[j].value)
      invariant forall j, k :: 0 <= j < k < i ==> members[j].key != members[k].key
      invariant ReadsMembers(values, members[..i])
    {
      var key := members[i].key;
      if '\0' in key { return Failure(NulInKey); }
      if key in values {
        MapKeys(values, members, i);
        return Failure(DuplicateKey(key));
      }
      var value := Visit(members[i].value);
      if value.Failure? { return Failure(value.error); }
      ReadsNext(values, members, i, value.value);
      values := values[key := value.value];
    }
    assert members[..|members|] == members;
    r := Success(ObjectValue(values));
    ObjectRead(values, members);
  }
}
