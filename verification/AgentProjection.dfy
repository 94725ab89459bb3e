/** The bounded text projection that an agent replay returns. */
module AgentProjection {
  import opened Wrappers
  import opened Json
  import FileUri

  datatype Error = ContextLimit | UnsupportedItem

  // `bytes` stands for the length of the serialised JSON array.
  datatype Config = Config(strip: seq<string>, maxItems: nat, maxBytes: nat, bytes: seq<Value> -> nat)

  // The text part that goes with a message role.
  function PartFor(role: Option<string>): Option<string> {
    if role == Some("user") then Some("input_text")
    else if role == Some("assistant") then Some("output_text")
    else None
  }

  function AllowedFields(part: string): set<string> {
    if part == "input_text" then {"type", "text"} else {"type", "text", "annotations"}
  }

  predicate PartOk(value: Value, part: string) {
    && value.Object?
    && (forall i :: 0 <= i < |value.members| ==> value.members[i].key in AllowedFields(part))
    && AsText(Get(value.members, "type")) == Some(part)
    && AsText(Get(value.members, "text")).Some?
  }

  // What an item must be to be replayed to an agent.
  predicate Replayable(item: Value) {
    && !FileUri.ContainsUri(item)
    && item.Object?
    && AsText(Get(item.members, "type")) == Some("message")
    && var part := PartFor(AsText(Get(item.members, "role")));
       && part.Some?
       && var content := Get(item.members, "content");
          && content.Some? && content.value.Array? && content.value.elements != []
          && forall i :: 0 <= i < |content.value.elements| ==> PartOk(content.value.elements[i], part.value)
  }

  function StripFields(members: seq<Member>, fields: seq<string>): seq<Member>
    decreases |fields|
  {
    if fields == [] then members else StripFields(Remove(members, fields[0]), fields[1..])
  }

  function Strip(item: Value, fields: seq<string>): Value {
    if item.Object? then Object(StripFields(item.members, fields)) else item
  }

  function StripAll(items: seq<Value>, fields: seq<string>): (r: seq<Value>)
    ensures |r| == |items|
    ensures forall i :: 0 <= i < |items| ==> r[i] == Strip(items[i], fields)
  {
    if items == [] then [] else [Strip(items[0], fields)] + StripAll(items[1..], fields)
  }

  // The whole decision: too many items, an item that is no text message, too many bytes, or success.
  function Project(items: seq<Value>, config: Config): Result<seq<Value>, Error> {
    if |items| > config.maxItems then Failure(ContextLimit)
    else if exists i :: 0 <= i < |items| && !Replayable(items[i]) then Failure(UnsupportedItem)
    else if config.bytes(StripAll(items, config.strip)) > config.maxBytes then Failure(ContextLimit)
    else Success(StripAll(items, config.strip))
  }

  // Several fields: a member survives exactly when its key is not configured.
  lemma {:induction false} StripFieldsGet(members: seq<Member>, fields: seq<string>, key: string)
    ensures Get(StripFields(members, fields), key) == if key in fields then None else Get(members, key)
    decreases |fields|
  {
    if fields != [] {
      StripFieldsGet(Remove(members, fields[0]), fields[1..], key);
      RemoveKeepsOthers(members, fields[0], key);
    }
  }

  lemma {:induction false} StripFieldsStrings(members: seq<Member>, fields: seq<string>)
    ensures Strings(Object(StripFields(members, fields))) <= Strings(Object(members))
    decreases |fields|
  {
    if fields != [] {
      RemoveKeepsStrings(members, fields[0]);
      StripFieldsStrings(Remove(members, fields[0]), fields[1..]);
    }
  }

  // Exactly the configured top-level fields go; nothing below the top level changes.
  lemma StripIsExact(item: Value, fields: seq<string>, key: string)
    requires item.Object?
    ensures Get(Strip(item, fields).members, key) == if key in fields then None else Get(item.members, key)
  {
    StripFieldsGet(item.members, fields, key);
  }

  // A successful projection is in order, of the same length, within both limits, made of text
  // messages without a single file reference, and no string at any depth of it is a file URI.
  lemma ProjectionIsExact(items: seq<Value>, config: Config)
    requires Project(items, config).Success?
    ensures var out := Project(items, config).value;
            && |out| == |items| <= config.maxItems
            && config.bytes(out) <= config.maxBytes
            && (forall i :: 0 <= i < |out| ==> out[i] == Strip(items[i], config.strip))
            && (forall i :: 0 <= i < |out| ==> FileUri.References(items[i]) == {})
            && (forall i, s :: 0 <= i < |out| && s in Strings(out[i]) ==> FileUri.ParseUri(s) == None)
  {
    var out := Project(items, config).value;
    forall i | 0 <= i < |items|
      ensures FileUri.References(items[i]) == {}
      ensures forall s :: s in Strings(out[i]) ==> FileUri.ParseUri(s) == None
    {
      assert Replayable(items[i]);
      FileUri.ContainsIffReferences(items[i]);
      FileUri.ReferencesAreUris(items[i]);
      StripFieldsStrings(items[i].members, config.strip);
      forall s | s in Strings(out[i]) ensures FileUri.ParseUri(s) == None {
        if FileUri.ParseUri(s).Some? {
          FileUri.ParseInvertsUri(s, FileUri.ParseUri(s).value);
        }
      }
    }
  }

  // A part of the given kind: an object with that type and a text, and with no field but those named.
  predicate TextPart(part: Value, kind: string, fields: seq<string>) {
    && part.Object?
    && Get(part.members, "type") == Some(Text(kind))
    && Get(part.members, "text").Some? && Get(part.members, "text").value.Text?
    && forall m :: m in part.members ==> m.key in fields
  }

  // A message of the given role with at least one part, each of the kind that belongs to the role.
  predicate MessageOf(item: Value, role: string, kind: string, fields: seq<string>) {
    && item.Object?
    && Get(item.members, "type") == Some(Text("message"))
    && Get(item.members, "role") == Some(Text(role))
    && Get(item.members, "content").Some? && Get(item.members, "content").value.Array?
    && Get(item.members, "content").value.elements != []
    && forall part :: part in Get(item.members, "content").value.elements ==> TextPart(part, kind, fields)
  }

  // What is replayed: a user's message of input texts, or an assistant's of output texts, which may carry
  // annotations, and in either no file URI at any depth.
  lemma ReplayableExactly(item: Value)
    ensures Replayable(item) <==>
              && (MessageOf(item, "user", "input_text", ["type", "text"])
                  || MessageOf(item, "assistant", "output_text", ["type", "text", "annotations"]))
              && forall id :: FileUri.CanonicalId(id) ==> FileUri.UriOf(id) !in Strings(item)
  {
    hide FileUri.References, FileUri.ContainsUri, FileUri.CanonicalId, FileUri.UriOf, Strings, TextPart, PartOk, Get;
    FileUri.ContainsIffReferences(item);
    FileUri.ReferencesAreUris(item);
    if item.Object? {
      var content := Get(item.members, "content");
      if content.Some? && content.value.Array? {
        forall part | part in content.value.elements
          ensures PartOk(part, "input_text") <==> TextPart(part, "input_text", ["type", "text"])
          ensures PartOk(part, "output_text") <==> TextPart(part, "output_text", ["type", "text", "annotations"])
        {
          PartExactly(part);
        }
      }
    }
  }

  lemma PartExactly(part: Value)
    ensures PartOk(part, "input_text") <==> TextPart(part, "input_text", ["type", "text"])
    ensures PartOk(part, "output_text") <==> TextPart(part, "output_text", ["type", "text", "annotations"])
  {
    hide Get;
    if part.Object? {
      assert forall i :: 0 <= i < |part.members| ==> part.members[i] in part.members;
    }
  }

  // Why a projection fails: too many items, or too many bytes though every item is plain; or, the
  // number being within the limit, some item that is not.
  lemma ProjectOutcome(items: seq<Value>, config: Config)
    ensures var plain := forall item :: item in items ==> Replayable(item);
            var long := config.bytes(StripAll(items, config.strip)) > config.maxBytes;
            && (Project(items, config) == Failure(ContextLimit) <==> |items| > config.maxItems || (plain && long))
            && (Project(items, config) == Failure(UnsupportedItem) <==> |items| <= config.maxItems && !plain)
  {
    hide Replayable;
    forall i | 0 <= i < |items| ensures items[i] in items { }
  }

  // Scans the parts as `content.iter().any` does.
  method ValidateAgentTextItem(item: Value) returns (ok: bool)
    ensures ok == Replayable(item)
  {
    if FileUri.ContainsUri(item) || !item.Object? { return false; }
    if AsText(Get(item.members, "type")) != Some("message") { return false; }
    var part := PartFor(AsText(Get(item.members, "role")));
    if part.None? { return false; }
    var content := Get(item.members, "content");
    if content.None? || !content.value.Array? || content.value.elements == [] { return false; }
    for i := 0 to |content.value.elements|
      invariant forall k :: 0 <= k < i ==> PartOk(content.value.elements[k], part.value)
    {
      if !PartOk(content.value.elements[i], part.value) { return false; }
    }
    return true;
  }

  method BuildAgentProjection(rows: seq<Value>, config: Config) returns (r: Result<seq<Value>, Error>)
    ensures r == Project(rows, config)
  {
    if |rows| > config.maxItems { return Failure(ContextLimit); }
    var input: seq<Value> := [];
    for i := 0 to |rows|
      invariant |input| == i
      invariant forall k :: 0 <= k < i ==> Replayable(rows[k]) && input[k] == Strip(rows[k], config.strip)
    {
      var ok := ValidateAgentTextItem(rows[i]);
      if !ok { return Failure(UnsupportedItem); }
      var members := rows[i].members;
      for j := 0 to |config.strip|
        invariant StripFields(members, config.strip[j..]) == StripFields(rows[i].members, config.strip)
      {
        assert config.strip[j..][1..] == config.strip[j + 1..];
        members := Remove(members, config.strip[j]);
      }
      input := input + [Object(members)];
    }
    assert input == StripAll(rows, config.strip);
    if config.bytes(input) > config.maxBytes { return Failure(ContextLimit); }
    return Success(input);
  }
}
