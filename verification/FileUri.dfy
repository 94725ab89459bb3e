/** Canonical file URIs and the file references found inside an opaque payload. */
module FileUri {
  import opened Wrappers
  import opened Json

  const PREFIX := "threadmark://files/"

  predicate IdChar(c: char) {
    '0' <= c <= '9' || 'A' <= c <= 'Z' || 'a' <= c <= 'z' || c == '_' || c == '-'
  }

  predicate CanonicalId(id: string) {
    id != "" && forall i :: 0 <= i < |id| ==> IdChar(id[i])
  }

  function ParseUri(text: string): Option<string> {
    if PREFIX <= text && CanonicalId(text[|PREFIX|..]) then Some(text[|PREFIX|..]) else None
  }

  // The URI of a file, as `FileRecord::uri` writes it.
  function UriOf(id: string): string {
    PREFIX + id
  }

  // Parsing inverts the URI of a file, and accepts no other text.
  lemma ParseInvertsUri(text: string, id: string)
    ensures ParseUri(text) == Some(id) <==> text == UriOf(id) && CanonicalId(id)
  {
    if ParseUri(text) == Some(id) {
      assert text == text[..|PREFIX|] + text[|PREFIX|..];
    }
    if text == UriOf(id) {
      assert text[|PREFIX|..] == id;
    }
  }

  const UPPER := "ABCDEFGHIJKLMNOPQRSTUVWXYZ"
  const LOWER := "abcdefghijklmnopqrstuvwxyz"
  const DIGITS := "0123456789"

  // The texts accepted, spelled out: the scheme, then one or more characters of the alphabet.
  lemma UriShape(text: string, id: string)
    ensures ParseUri(text) == Some(id) <==>
            text == "threadmark://files/" + id && id != "" && forall c :: c in id ==> c in UPPER + LOWER + DIGITS + "_-"
  {
    ParseInvertsUri(text, id);
    forall i | 0 <= i < |id| ensures IdChar(id[i]) <==> id[i] in UPPER + LOWER + DIGITS + "_-" {
      InAlphabet(id[i]);
    }
    assert CanonicalId(id) <==> id != "" && forall i :: 0 <= i < |id| ==> id[i] in UPPER + LOWER + DIGITS + "_-";
  }

  lemma InAlphabet(c: char)
    ensures IdChar(c) <==> c in UPPER + LOWER + DIGITS + "_-"
  {
    InUpper(c);
    InLower(c);
    InDigits(c);
  }

  lemma InUpper(c: char)
    ensures 'A' <= c <= 'Z' <==> c in UPPER
  {
    if 'A' <= c <= 'Z' { assert UPPER[c as int - 'A' as int] == c; }
  }

  lemma InLower(c: char)
    ensures 'a' <= c <= 'z' <==> c in LOWER
  {
    if 'a' <= c <= 'z' { assert LOWER[c as int - 'a' as int] == c; }
  }

  lemma InDigits(c: char)
    ensures '0' <= c <= '9' <==> c in DIGITS
  {
    if '0' <= c <= '9' { assert DIGITS[c as int - '0' as int] == c; }
  }

  function References(value: Value): set<string> {
    match value
    case Text(text) => if ParseUri(text).Some? then {ParseUri(text).value} else {}
    case Array(elements) => set i, id | 0 <= i < |elements| && id in References(elements[i]) :: id
    case Object(members) => set i, id | 0 <= i < |members| && id in References(members[i].value) :: id
    case _ => {}
  }

  predicate ContainsUri(value: Value) {
    match value
    case Text(text) => ParseUri(text).Some?
    case Array(elements) => exists i :: 0 <= i < |elements| && ContainsUri(elements[i])
    case Object(members) => exists i :: 0 <= i < |members| && ContainsUri(members[i].value)
    case _ => false
  }

  // The reference set is exactly the canonical URIs among the string values at every depth.
  lemma {:induction false} ReferencesAreUris(value: Value)
    ensures forall id :: id in References(value) <==> CanonicalId(id) && UriOf(id) in Strings(value)
  {
    forall id ensures id in References(value) <==> CanonicalId(id) && UriOf(id) in Strings(value) {
      match value {
        case Text(text) =>
          ParseInvertsUri(text, id);
        case Array(elements) =>
          forall i | 0 <= i < |elements| { ReferencesAreUris(elements[i]); }
        case Object(members) =>
          forall i | 0 <= i < |members| { ReferencesAreUris(members[i].value); }
        case _ =>
      }
    }
  }

  // The boolean test and the collector look at the same strings.
  lemma {:induction false} ContainsIffReferences(value: Value)
    ensures ContainsUri(value) <==> References(value) != {}
  {
    match value {
      case Text(text) =>
      case Array(elements) =>
        forall i | 0 <= i < |elements| { ContainsIffReferences(elements[i]); }
        if ContainsUri(value) {
          var i :| 0 <= i < |elements| && ContainsUri(elements[i]);
          var id :| id in References(elements[i]);
          assert id in References(value);
        }
      case Object(members) =>
        forall i | 0 <= i < |members| { ContainsIffReferences(members[i].value); }
        if ContainsUri(value) {
          var i :| 0 <= i < |members| && ContainsUri(members[i].value);
          var id :| id in References(members[i].value);
          assert id in References(value);
        }
      case _ =>
    }
  }

  // The files referenced anywhere in a batch of payloads.
  function BatchReferences(payloads: seq<Value>): set<string> {
    set i, id | 0 <= i < |payloads| && id in References(payloads[i]) :: id
  }

  // The recursive walk: pushes every reference found, in order, onto the accumulator.
  method Visit(value: Value, ids: seq<string>) returns (out: seq<string>)
    ensures ids <= out
    ensures forall id :: id in out <==> id in ids || id in References(value)
  {
    out := ids;
    match value {
      case Text(text) =>
        if ParseUri(text).Some? { out := out + [ParseUri(text).value]; }
      case Array(elements) =>
        for i := 0 to |elements|
          invariant ids <= out
          invariant forall id :: id in out <==> id in ids || exists j :: 0 <= j < i && id in References(elements[j])
        {
          out := Visit(elements[i], out);
        }
      case Object(members) =>
        for i := 0 to |members|
          invariant ids <= out
          invariant forall id :: id in out <==> id in ids || exists j :: 0 <= j < i && id in References(members[j].value)
        {
          out := Visit(members[i].value, out);
        }
      case _ =>
    }
  }

  // The collected references of one payload without duplicates.
  method ReferencedFileIds(value: Value) returns (ids: seq<string>)
    ensures forall id :: id in ids <==> id in References(value)
    ensures forall i, j :: 0 <= i < j < |ids| ==> ids[i] != ids[j]
  {
    var all := Visit(value, []);
    ids := [];
    for i := 0 to |all|
      invariant forall id :: id in ids <==> id in all[..i]
      invariant forall j, k :: 0 <= j < k < |ids| ==> ids[j] != ids[k]
    {
      if all[i] !in ids { ids := ids + [all[i]]; }
      assert all[..i + 1] == all[..i] + [all[i]];
    }
    assert all[..|all|] == all;
  }
}
