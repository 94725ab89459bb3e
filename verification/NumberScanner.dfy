/** The byte loop that finds the number tokens of a JSON text, and the grammar it must agree with
  (sections 2 to 7 of RFC 8259). */
module NumberScanner {
  import opened Wrappers

  type Byte = c: char | c < '\U{100}' witness ' '

  type Bytes = seq<Byte>

  // ---- The scanner ----

  predicate Digit(b: Byte) {
    '0' <= b <= '9'
  }

  predicate StartsNumber(b: Byte) {
    b == '-' || Digit(b)
  }

  predicate NumberByte(b: Byte) {
    Digit(b) || b == '.' || b == 'e' || b == 'E' || b == '+' || b == '-'
  }

  function RunLength(s: Bytes): (n: nat)
    ensures n <= |s|
  {
    if s == [] || !NumberByte(s[0]) then 0 else 1 + RunLength(s[1..])
  }

  // The tokens met when scanning s outside a string.
  function Tokens(s: Bytes): seq<Bytes>
    decreases |s|
  {
    if s == [] then []
    else if s[0] == '"' then InText(s[1..], false)
    else if StartsNumber(s[0]) then
      var n := 1 + RunLength(s[1..]);
      [s[..n]] + Tokens(s[n..])
    else Tokens(s[1..])
  }

  // The same inside a string, after a backslash or not.
  function InText(s: Bytes, escaped: bool): seq<Bytes>
    decreases |s|
  {
    if s == [] then []
    else if escaped then InText(s[1..], false)
    else if s[0] == '\\' then InText(s[1..], true)
    else if s[0] == '"' then Tokens(s[1..])
    else InText(s[1..], false)
  }

  // What is still to be found from the loop's position and flags.
  function Rest(s: Bytes, inText: bool, escaped: bool): seq<Bytes> {
    if inText then InText(s, escaped) else Tokens(s)
  }

  // One byte inside a string.
  lemma StepInText(s: Bytes, escaped: bool)
    requires s != []
    ensures InText(s, escaped) ==
              if escaped then InText(s[1..], false)
              else if s[0] == '\\' then InText(s[1..], true)
              else if s[0] == '"' then Tokens(s[1..])
              else InText(s[1..], false)
  {
  }

  // One byte or one token outside a string.
  lemma StepOutside(s: Bytes)
    requires s != []
    ensures Tokens(s) ==
              if s[0] == '"' then InText(s[1..], false)
              else if StartsNumber(s[0]) then [s[..1 + RunLength(s[1..])]] + Tokens(s[1 + RunLength(s[1..])..])
              else Tokens(s[1..])
  {
  }

  lemma StepRun(s: Bytes)
    ensures RunLength(s) == if s == [] || !NumberByte(s[0]) then 0 else 1 + RunLength(s[1..])
  {
  }

  // The loop. `accept` stands for the check of one token; `visited` lists the tokens handed to it.
  // It succeeds exactly when every token passes; otherwise it stops at the first that does not.
  // The tokens seen so far and those still to come.
  predicate Splits(all: seq<Bytes>, seen: seq<Bytes>, left: seq<Bytes>) {
    all == seen + left
  }

  lemma SplitEnds(all: seq<Bytes>)
    ensures Splits(all, [], all)
    ensures forall seen :: Splits(all, seen, []) ==> seen == all
  {
  }

  lemma SplitMoves(all: seq<Bytes>, seen: seq<Bytes>, token: Bytes, left: seq<Bytes>)
    requires Splits(all, seen, [token] + left)
    ensures Splits(all, seen + [token], left) && token in all && seen + [token] <= all
  {
    assert all[|seen|] == token;
  }

  method ValidateNumberTokens(input: Bytes, accept: Bytes -> bool) returns (ok: bool, ghost visited: seq<Bytes>)
    ensures ok <==> forall t :: t in Tokens(input) ==> accept(t)
    ensures ok ==> visited == Tokens(input)
    ensures !ok ==> visited != [] && visited <= Tokens(input) && !accept(visited[|visited| - 1])
    ensures forall i :: 0 <= i < |visited| - 1 ==> accept(visited[i])
  {
    hide Tokens, InText, RunLength, StartsNumber, NumberByte, Splits;
    var index := 0;
    var inText, escaped := false, false;
    visited := [];
    assert input[0..] == input;
    SplitEnds(Tokens(input));
    while index < |input|
      invariant 0 <= index <= |input|
      invariant Splits(Tokens(input), visited, Rest(input[index..], inText, escaped))
      invariant forall t :: t in visited ==> accept(t)
      decreases |input| - index
    {
      var byte := input[index];
      var rest := input[index..];
      assert rest[0] == byte && rest[1..] == input[index + 1..];
      if inText {
        StepInText(rest, escaped);
        if escaped {
          escaped := false;
        } else if byte == '\\' {
          escaped := true;
        } else if byte == '"' {
          inText := false;
        }
        index := index + 1;
        continue;
      }
      StepOutside(rest);
      if byte == '"' {
        inText, escaped := true, false;
        index := index + 1;
        continue;
      }
      if StartsNumber(byte) {
        var start := index;
        index := index + 1;
        index := SkipRun(input, index);
        var token := input[start..index];
        assert token == rest[..index - start] && rest[index - start..] == input[index..];
        SplitMoves(Tokens(input), visited, token, Rest(input[index..], false, false));
        visited := visited + [token];
        if !accept(token) {
          ok := false;
          return;
        }
        continue;
      }
      index := index + 1;
    }
    assert input[index..] == [];
    assert Rest([], inText, escaped) == [] by { RestOfNothing(inText, escaped); }
    ok := true;
  }

  lemma RestOfNothing(inText: bool, escaped: bool)
    ensures Rest([], inText, escaped) == []
  {
  }

  // The inner loop: past every byte that may continue a number.
  method SkipRun(input: Bytes, from: nat) returns (index: nat)
    requires from <= |input|
    ensures index == from + RunLength(input[from..])
  {
    hide RunLength, NumberByte;
    index := from;
    StepRun(input[index..]);
    while index < |input| && NumberByte(input[index])
      invariant from <= index <= |input|
      invariant index + RunLength(input[index..]) == from + RunLength(input[from..])
      decreases |input| - index
    {
      StepRun(input[index..]);
      assert input[index..][1..] == input[index + 1..];
      index := index + 1;
    }
    StepRun(input[index..]);
  }

  // ---- The grammar ----

  // ws on both sides of a structural character.
  datatype Structural = Structural(before: Bytes, after: Bytes)

  datatype Piece =
    | Unescaped(byte: Byte)
    | Escape(letter: Byte)
    | Unicode(hex: Bytes)

  datatype Exponent = Exponent(e: Byte, sign: Option<Byte>, digits: Bytes)

  datatype NumberLiteral = NumberLiteral(minus: bool, integer: Bytes, fraction: Option<Bytes>, exponent: Option<Exponent>)

  datatype Value =
    | Word(word: Bytes)
    | Number(literal: NumberLiteral)
    | Text(pieces: seq<Piece>)
    | Array(begin: Structural, elements: seq<Value>, commas: seq<Structural>, end: Structural)
    | Object(begin: Structural, members: seq<Member>, commas: seq<Structural>, end: Structural)

  datatype Member = Member(name: seq<Piece>, colon: Structural, value: Value)

  predicate Blank(s: Bytes) {
    forall i :: 0 <= i < |s| ==> s[i] == ' ' || s[i] == '\t' || s[i] == '\n' || s[i] == '\r'
  }

  predicate StructuralOk(c: Structural) {
    Blank(c.before) && Blank(c.after)
  }

  predicate StructuralsOk(cs: seq<Structural>) {
    forall i :: 0 <= i < |cs| ==> StructuralOk(cs[i])
  }

  predicate Hex(b: Byte) {
    Digit(b) || 'A' <= b <= 'F' || 'a' <= b <= 'f'
  }

  // char of section 7; bytes from 0x80 on belong to multi-byte characters.
  predicate PieceOk(p: Piece) {
    match p
    case Unescaped(b) => b >= ' ' && b != '"' && b != '\\'
    case Escape(c) => c in {'"', '\\', '/', 'b', 'f', 'n', 'r', 't'}
    case Unicode(h) => |h| == 4 && forall i :: 0 <= i < 4 ==> Hex(h[i])
  }

  predicate TextOk(pieces: seq<Piece>) {
    forall i :: 0 <= i < |pieces| ==> PieceOk(pieces[i])
  }

  predicate Digits(s: Bytes) {
    s != [] && forall i :: 0 <= i < |s| ==> Digit(s[i])
  }

  predicate NumberOk(n: NumberLiteral) {
    && Digits(n.integer) && (n.integer[0] == '0' ==> |n.integer| == 1)
    && (n.fraction.Some? ==> Digits(n.fraction.value))
    && (n.exponent.Some? ==>
          && n.exponent.value.e in {'e', 'E'} && Digits(n.exponent.value.digits)
          && (n.exponent.value.sign.Some? ==> n.exponent.value.sign.value in {'+', '-'}))
  }

  predicate ValueOk(v: Value) {
    match v
    case Word(w) => w in {"true", "false", "null"}
    case Number(n) => NumberOk(n)
    case Text(pieces) => TextOk(pieces)
    case Array(b, elements, commas, e) =>
      && StructuralOk(b) && StructuralOk(e) && StructuralsOk(commas)
      && |commas| == (if elements == [] then 0 else |elements| - 1)
      && forall i :: 0 <= i < |elements| ==> ValueOk(elements[i])
    case Object(b, members, commas, e) =>
      && StructuralOk(b) && StructuralOk(e) && StructuralsOk(commas)
      && |commas| == (if members == [] then 0 else |members| - 1)
      && forall i :: 0 <= i < |members| ==>
           TextOk(members[i].name) && StructuralOk(members[i].colon) && ValueOk(members[i].value)
  }

  function WriteStructural(c: Structural, mark: Byte): Bytes {
    c.before + [mark] + c.after
  }

  function WritePiece(p: Piece): Bytes {
    match p
    case Unescaped(b) => [b]
    case Escape(c) => ['\\', c]
    case Unicode(h) => ['\\', 'u'] + h
  }

  function WritePieces(pieces: seq<Piece>): Bytes {
    if pieces == [] then [] else WritePiece(pieces[0]) + WritePieces(pieces[1..])
  }

  function WriteText(pieces: seq<Piece>): Bytes {
    ['"'] + WritePieces(pieces) + ['"']
  }

  function WriteNumber(n: NumberLiteral): Bytes {
    (if n.minus then ['-'] else []) + n.integer
    + (if n.fraction.Some? then ['.'] + n.fraction.value else [])
    + (if n.exponent.None? then []
       else [n.exponent.value.e] + (if n.exponent.value.sign.Some? then [n.exponent.value.sign.value] else [])
            + n.exponent.value.digits)
  }

  function Write(v: Value): Bytes
    requires ValueOk(v)
    decreases v, 0
  {
    match v
    case Word(w) => w
    case Number(n) => WriteNumber(n)
    case Text(pieces) => WriteText(pieces)
    case Array(b, elements, commas, e) =>
      WriteStructural(b, '[') + WriteElements(elements, commas) + WriteStructural(e, ']')
    case Object(b, members, commas, e) =>
      WriteStructural(b, '{') + WriteMembers(members, commas) + WriteStructural(e, '}')
  }

  function WriteElements(elements: seq<Value>, commas: seq<Structural>): Bytes
    requires |commas| == (if elements == [] then 0 else |elements| - 1)
    requires forall i :: 0 <= i < |elements| ==> ValueOk(elements[i])
    decreases elements, 1
  {
    if elements == [] then []
    else if |elements| == 1 then Write(elements[0])
    else Write(elements[0]) + WriteStructural(commas[0], ',') + WriteElements(elements[1..], commas[1..])
  }

  function WriteMember(m: Member): Bytes
    requires ValueOk(m.value)
    decreases m, 1
  {
    WriteText(m.name) + WriteStructural(m.colon, ':') + Write(m.value)
  }

  function WriteMembers(members: seq<Member>, commas: seq<Structural>): Bytes
    requires |commas| == (if members == [] then 0 else |members| - 1)
    requires forall i :: 0 <= i < |members| ==> ValueOk(members[i].value)
    decreases members, 2
  {
    if members == [] then []
    else if |members| == 1 then WriteMember(members[0])
    else WriteMember(members[0]) + WriteStructural(commas[0], ',') + WriteMembers(members[1..], commas[1..])
  }

  // The number literals of a value, in the order they are written.
  function Numbers(v: Value): seq<Bytes> {
    match v
    case Number(n) => [WriteNumber(n)]
    case Array(_, elements, _, _) => ElementNumbers(elements)
    case Object(_, members, _, _) => MemberNumbers(members)
    case _ => []
  }

  function ElementNumbers(elements: seq<Value>): seq<Bytes> {
    if elements == [] then [] else Numbers(elements[0]) + ElementNumbers(elements[1..])
  }

  function MemberNumbers(members: seq<Member>): seq<Bytes> {
    if members == [] then [] else Numbers(members[0].value) + MemberNumbers(members[1..])
  }

  // ---- Agreement ----

  // Nothing that could prolong a number follows.
  predicate Ends(rest: Bytes) {
    rest != [] ==> !NumberByte(rest[0])
  }

  predicate Neutral(s: Bytes) {
    forall i :: 0 <= i < |s| ==> s[i] != '"' && !StartsNumber(s[i])
  }

  lemma {:induction false} SkipNeutral(s: Bytes, rest: Bytes)
    requires Neutral(s)
    ensures Tokens(s + rest) == Tokens(rest)
  {
    if s == [] {
      assert s + rest == rest;
    } else {
      assert (s + rest)[1..] == s[1..] + rest;
      SkipNeutral(s[1..], rest);
    }
  }

  lemma SkipStructural(c: Structural, mark: Byte, rest: Bytes)
    requires StructuralOk(c) && mark in {'[', ']', '{', '}', ':', ','}
    ensures Tokens(WriteStructural(c, mark) + rest) == Tokens(rest)
    ensures Ends(WriteStructural(c, mark) + rest)
  {
    SkipNeutral(WriteStructural(c, mark), rest);
  }

  lemma SkipPiece(p: Piece, tail: Bytes)
    requires PieceOk(p)
    ensures InText(WritePiece(p) + tail, false) == InText(tail, false)
  {
    match p
    case Unescaped(b) =>
      assert ([b] + tail)[1..] == tail;
    case Escape(c) => SkipEscape(c, tail);
    case Unicode(h) =>
      assert WritePiece(p) + tail == ['\\', 'u'] + (h + tail);
      SkipEscape('u', h + tail);
      SkipHex(h, tail);
  }

  // A written string leads from its opening quote past its closing one, whatever it contains.
  lemma {:induction false} SkipPieces(pieces: seq<Piece>, rest: Bytes)
    requires TextOk(pieces)
    ensures InText(WritePieces(pieces) + ['"'] + rest, false) == Tokens(rest)
  {
    hide PieceOk, Tokens, WritePiece;
    if pieces == [] {
      assert WritePieces(pieces) + ['"'] + rest == ['"'] + rest && (['"'] + rest)[1..] == rest;
      StepInText(['"'] + rest, false);
    } else {
      var tail := WritePieces(pieces[1..]) + ['"'] + rest;
      SkipPieces(pieces[1..], rest);
      assert WritePieces(pieces) + ['"'] + rest == WritePiece(pieces[0]) + tail;
      SkipPiece(pieces[0], tail);
    }
  }

  lemma SkipEscape(c: Byte, tail: Bytes)
    ensures InText(['\\', c] + tail, false) == InText(tail, false)
  {
    assert (['\\', c] + tail)[1..] == [c] + tail;
    assert ([c] + tail)[1..] == tail;
  }

  lemma {:induction false} SkipHex(h: Bytes, tail: Bytes)
    requires forall i :: 0 <= i < |h| ==> Hex(h[i])
    ensures InText(h + tail, false) == InText(tail, false)
  {
    if h == [] {
      assert h + tail == tail;
    } else {
      assert (h + tail)[1..] == h[1..] + tail;
      SkipHex(h[1..], tail);
    }
  }

  lemma SkipText(pieces: seq<Piece>, rest: Bytes)
    requires TextOk(pieces)
    ensures Tokens(WriteText(pieces) + rest) == Tokens(rest)
  {
    assert (WriteText(pieces) + rest)[1..] == WritePieces(pieces) + ['"'] + rest;
    SkipPieces(pieces, rest);
  }

  lemma {:induction false} RunOf(s: Bytes, rest: Bytes)
    requires Ends(rest) && forall i :: 0 <= i < |s| ==> NumberByte(s[i])
    ensures RunLength(s + rest) == |s|
  {
    if s == [] {
      assert s + rest == rest;
    } else {
      assert (s + rest)[1..] == s[1..] + rest;
      RunOf(s[1..], rest);
    }
  }

  // A written number is taken whole and as one token.
  lemma TakeNumber(n: NumberLiteral, rest: Bytes)
    requires NumberOk(n) && Ends(rest)
    ensures Tokens(WriteNumber(n) + rest) == [WriteNumber(n)] + Tokens(rest)
  {
    var s := WriteNumber(n);
    assert forall i :: 0 <= i < |s| ==> NumberByte(s[i]);
    assert StartsNumber(s[0]);
    RunOf(s[1..], rest);
    assert (s + rest)[1..] == s[1..] + rest;
    assert (s + rest)[..|s|] == s && (s + rest)[|s|..] == rest;
  }

  lemma {:induction false} ScanValue(v: Value, rest: Bytes)
    requires ValueOk(v) && Ends(rest)
    ensures Tokens(Write(v) + rest) == Numbers(v) + Tokens(rest)
    decreases v, 0
  {
    hide Tokens, Ends, WriteElements, WriteMembers, ElementNumbers, MemberNumbers, WriteNumber, WriteText, NumberOk, TextOk,
      WriteStructural, StructuralOk, StructuralsOk;
    match v
    case Word(w) => SkipNeutral(w, rest);
    case Number(n) => TakeNumber(n, rest);
    case Text(pieces) => SkipText(pieces, rest);
    case Array(b, elements, commas, e) =>
      var tail := WriteStructural(e, ']') + rest;
      Regroup(WriteStructural(b, '['), WriteElements(elements, commas), WriteStructural(e, ']'), rest);
      SkipStructural(b, '[', WriteElements(elements, commas) + tail);
      SkipStructural(e, ']', rest);
      ScanElements(elements, commas, tail);
    case Object(b, members, commas, e) =>
      var tail := WriteStructural(e, '}') + rest;
      Regroup(WriteStructural(b, '{'), WriteMembers(members, commas), WriteStructural(e, '}'), rest);
      SkipStructural(b, '{', WriteMembers(members, commas) + tail);
      SkipStructural(e, '}', rest);
      ScanMembers(members, commas, tail);
  }

  lemma Regroup(a: Bytes, b: Bytes, c: Bytes, d: Bytes)
    ensures a + b + c + d == a + (b + (c + d))
    ensures a + b + c + d == a + (b + c + d)
  {
  }

  lemma ElementsUnfold(elements: seq<Value>, commas: seq<Structural>)
    requires |elements| >= 2 && |commas| == |elements| - 1
    requires forall i :: 0 <= i < |elements| ==> ValueOk(elements[i])
    ensures WriteElements(elements, commas)
         == Write(elements[0]) + WriteStructural(commas[0], ',') + WriteElements(elements[1..], commas[1..])
    ensures ElementNumbers(elements) == Numbers(elements[0]) + ElementNumbers(elements[1..])
  {
    hide Write, Numbers, ValueOk, WriteStructural;
  }

  lemma Flatten(a: Bytes, b: Bytes, c: Bytes, d: Bytes)
    ensures a + b + c + d == a + (b + (c + d))
  {
  }

  lemma FlattenNumbers(a: seq<Bytes>, b: seq<Bytes>, c: seq<Bytes>)
    ensures a + (b + c) == a + b + c
  {
  }

  // One piece, a comma and the rest: their numbers follow each other. `comma` is the comma as written.
  lemma ScanNext(piece: Bytes, comma: Bytes, others: Bytes, rest: Bytes, found: seq<Bytes>, numbers: seq<Bytes>)
    requires Tokens(piece + (comma + (others + rest))) == found + Tokens(comma + (others + rest))
    requires Tokens(comma + (others + rest)) == Tokens(others + rest)
    requires Tokens(others + rest) == numbers + Tokens(rest)
    ensures Tokens(piece + comma + others + rest) == found + numbers + Tokens(rest)
  {
    hide Tokens;
    Flatten(piece, comma, others, rest);
    FlattenNumbers(found, numbers, Tokens(rest));
  }

  lemma {:induction false} ScanElements(elements: seq<Value>, commas: seq<Structural>, rest: Bytes)
    requires |commas| == (if elements == [] then 0 else |elements| - 1) && StructuralsOk(commas) && Ends(rest)
    requires forall i :: 0 <= i < |elements| ==> ValueOk(elements[i])
    ensures Tokens(WriteElements(elements, commas) + rest) == ElementNumbers(elements) + Tokens(rest)
    decreases elements, 1
  {
    hide Tokens, Ends, Write, Numbers, ValueOk, WriteStructural, StructuralOk;
    if elements == [] {
      assert WriteElements(elements, commas) + rest == rest;
    } else if |elements| == 1 {
      ScanValue(elements[0], rest);
      assert ElementNumbers(elements) == Numbers(elements[0]) + ElementNumbers([]);
    } else {
      ScanMoreElements(elements, commas, rest);
    }
  }

  lemma {:induction false} ScanMoreElements(elements: seq<Value>, commas: seq<Structural>, rest: Bytes)
    requires |elements| >= 2 && |commas| == |elements| - 1 && StructuralsOk(commas) && Ends(rest)
    requires forall i :: 0 <= i < |elements| ==> ValueOk(elements[i])
    ensures Tokens(WriteElements(elements, commas) + rest) == ElementNumbers(elements) + Tokens(rest)
    decreases elements, 0
  {
    hide Tokens, Ends, Write, Numbers, ValueOk, WriteStructural, StructuralOk, WriteElements, ElementNumbers;
    var others := WriteElements(elements[1..], commas[1..]);
    ElementsUnfold(elements, commas);
    SkipStructural(commas[0], ',', others + rest);
    ScanValue(elements[0], WriteStructural(commas[0], ',') + (others + rest));
    ScanElements(elements[1..], commas[1..], rest);
    ScanNext(Write(elements[0]), WriteStructural(commas[0], ','), others, rest, Numbers(elements[0]), ElementNumbers(elements[1..]));
  }

  lemma ScanMember(m: Member, rest: Bytes)
    requires TextOk(m.name) && StructuralOk(m.colon) && ValueOk(m.value) && Ends(rest)
    ensures Tokens(WriteMember(m) + rest) == Numbers(m.value) + Tokens(rest)
    decreases m, 1
  {
    hide Tokens, Ends, Write, Numbers, ValueOk, WriteStructural, StructuralOk, TextOk, WriteText;
    var tail := Write(m.value) + rest;
    Regroup(WriteText(m.name), WriteStructural(m.colon, ':'), Write(m.value), rest);
    SkipText(m.name, WriteStructural(m.colon, ':') + tail);
    SkipStructural(m.colon, ':', tail);
    ScanValue(m.value, rest);
  }

  lemma MembersUnfold(members: seq<Member>, commas: seq<Structural>)
    requires |members| >= 2 && |commas| == |members| - 1
    requires forall i :: 0 <= i < |members| ==> ValueOk(members[i].value)
    ensures WriteMembers(members, commas)
         == WriteMember(members[0]) + WriteStructural(commas[0], ',') + WriteMembers(members[1..], commas[1..])
    ensures MemberNumbers(members) == Numbers(members[0].value) + MemberNumbers(members[1..])
  {
    hide WriteMember, Numbers, ValueOk, WriteStructural;
  }

  lemma {:induction false} ScanMembers(members: seq<Member>, commas: seq<Structural>, rest: Bytes)
    requires |commas| == (if members == [] then 0 else |members| - 1) && StructuralsOk(commas) && Ends(rest)
    requires forall i :: 0 <= i < |members| ==>
               TextOk(members[i].name) && StructuralOk(members[i].colon) && ValueOk(members[i].value)
    ensures Tokens(WriteMembers(members, commas) + rest) == MemberNumbers(members) + Tokens(rest)
    decreases members, 3
  {
    hide Tokens, Ends, Write, WriteMember, Numbers, ValueOk, WriteStructural, StructuralOk, TextOk;
    if members == [] {
      assert WriteMembers(members, commas) + rest == rest;
    } else if |members| == 1 {
      ScanMember(members[0], rest);
      assert MemberNumbers(members) == Numbers(members[0].value) + MemberNumbers([]);
    } else {
      ScanMoreMembers(members, commas, rest);
    }
  }

  lemma {:induction false} ScanMoreMembers(members: seq<Member>, commas: seq<Structural>, rest: Bytes)
    requires |members| >= 2 && |commas| == |members| - 1 && StructuralsOk(commas) && Ends(rest)
    requires forall i :: 0 <= i < |members| ==>
               TextOk(members[i].name) && StructuralOk(members[i].colon) && ValueOk(members[i].value)
    ensures Tokens(WriteMembers(members, commas) + rest) == MemberNumbers(members) + Tokens(rest)
    decreases members, 2
  {
    hide Tokens, Ends, WriteMember, Numbers, ValueOk, WriteStructural, StructuralOk, TextOk, WriteMembers, MemberNumbers;
    var others := WriteMembers(members[1..], commas[1..]);
    MembersUnfold(members, commas);
    SkipStructural(commas[0], ',', others + rest);
    ScanMember(members[0], WriteStructural(commas[0], ',') + (others + rest));
    ScanMembers(members[1..], commas[1..], rest);
    ScanNext(WriteMember(members[0]), WriteStructural(commas[0], ','), others, rest, Numbers(members[0].value), MemberNumbers(members[1..]));
  }

  // The scanner agrees with the grammar: on every JSON text, with any whitespace and any escapes in
  // strings, it finds exactly the number literals outside strings, in order, each whole.
  lemma ScannerAgreesWithGrammar(before: Bytes, v: Value, after: Bytes)
    requires Blank(before) && ValueOk(v) && Blank(after)
    ensures Tokens(before + Write(v) + after) == Numbers(v)
  {
    assert before + Write(v) + after == before + (Write(v) + after);
    SkipNeutral(before, Write(v) + after);
    ScanValue(v, after);
    SkipNeutral(after, []);
    assert after + [] == after;
  }
}
