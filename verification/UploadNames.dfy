/** Normalisation of upload requests. `initiate` normalises what it was given, and again when it calls
  itself, so normalising must not change what is normal already. */
module UploadNames {
  import opened Wrappers
  import opened Text

  const FILENAME_MAX := 300
  const MIME_MAX := 200

  // `bounded_trimmed`: None is the error "must contain 1 to maximum characters".
  function BoundedTrimmed(value: string, maximum: nat): (r: Option<string>)
    ensures r.Some? ==> Trimmed(r.value) && 0 < |r.value| <= maximum && '\0' !in r.value
  {
    TrimFixes(value);
    TrimFixes(Trim(value));
    var trimmed := Trim(value);
    if trimmed == [] || '\0' in trimmed || |trimmed| > maximum then None else Some(trimmed)
  }

  predicate InFilename(c: char) {
    !IsControl(c) && c != '/' && c != '\\'
  }

  function Filtered(value: string): (kept: string)
    ensures forall c :: c in kept <==> c in value && InFilename(c)
    ensures (forall c :: c in value ==> InFilename(c)) ==> kept == value
  {
    if value == [] then []
    else if InFilename(value[0]) then [value[0]] + Filtered(value[1..])
    else Filtered(value[1..])
  }

  function Take(value: string, n: nat): string {
    if |value| <= n then value else value[..n]
  }

  function NormalizedFilename(value: string): Option<string> {
    BoundedTrimmed(Take(Filtered(value), FILENAME_MAX), FILENAME_MAX)
  }

  predicate CanonicalFilename(s: string) {
    0 < |s| <= FILENAME_MAX && Trimmed(s) && forall c :: c in s ==> InFilename(c)
  }

  // `split('/')`.
  function Split(value: string): (parts: seq<string>)
    ensures |parts| >= 1
  {
    if value == [] then [[]]
    else
      var rest := Split(value[1..]);
      if value[0] == '/' then [[]] + rest else [[value[0]] + rest[0]] + rest[1..]
  }

  predicate IsAscii(c: char) {
    c < '\U{80}'
  }

  function LowerChar(c: char): char {
    if 'A' <= c <= 'Z' then c - 'A' + 'a' else c
  }

  function Lower(value: string): (r: string)
    ensures |r| == |value| && forall i :: 0 <= i < |r| ==> r[i] == LowerChar(value[i])
  {
    seq(|value|, i requires 0 <= i < |value| => LowerChar(value[i]))
  }

  predicate IsAsciiControl(c: char) {
    c < ' ' || c == '\U{7F}'
  }

  predicate TwoParts(value: string) {
    var parts := Split(value);
    |parts| == 2 && parts[0] != [] && parts[1] != []
  }

  predicate MediaType(value: string) {
    (forall c :: c in value ==> IsAscii(c) && c != ';' && !IsAsciiControl(c)) && TwoParts(value)
  }

  function NormalizedMimeType(value: string): Option<string> {
    var v := BoundedTrimmed(value, MIME_MAX);
    if v.None? || !MediaType(v.value) then None else Some(Lower(v.value))
  }

  predicate CanonicalMimeType(s: string) {
    |s| <= MIME_MAX && Trimmed(s) && MediaType(s) && forall c :: c in s ==> !('A' <= c <= 'Z')
  }

  // Normal filenames are exactly those that normalisation leaves alone, and it yields no others.
  lemma FilenameNormal(value: string)
    ensures NormalizedFilename(value) == Some(value) <==> CanonicalFilename(value)
    ensures var r := NormalizedFilename(value);
            r.Some? ==> CanonicalFilename(r.value) && NormalizedFilename(r.value) == r
  {
    FilenameCanonical(value);
    if CanonicalFilename(value) { FilenameFixed(value); }
    if NormalizedFilename(value).Some? { FilenameFixed(NormalizedFilename(value).value); }
  }

  lemma FilenameFixed(s: string)
    requires CanonicalFilename(s)
    ensures NormalizedFilename(s) == Some(s)
  {
    TrimmedFixed(s);
    assert Filtered(s) == s;
    assert !InFilename('\0');
  }

  lemma FilenameCanonical(value: string)
    ensures var r := NormalizedFilename(value); r.Some? ==> CanonicalFilename(r.value)
  {
    var taken := Take(Filtered(value), FILENAME_MAX);
    var i, j := TrimCuts(taken);
    if NormalizedFilename(value).Some? {
      forall c | c in taken[i..j] ensures InFilename(c) { assert c in Filtered(value); }
    }
  }

  // Two parts means one slash, with something on either side of it.
  lemma {:induction false} SplitTwo(value: string)
    ensures |Split(value)| == 1 <==> '/' !in value
    ensures '/' !in value ==> Split(value) == [value]
  {
    if value != [] {
      SplitTwo(value[1..]);
      assert value == [value[0]] + value[1..];
    }
  }

  lemma {:induction false} SplitLower(value: string)
    ensures |Split(Lower(value))| == |Split(value)|
    ensures forall i :: 0 <= i < |Split(value)| ==> (Split(Lower(value))[i] == [] <==> Split(value)[i] == [])
  {
    hide IsAscii;
    if value != [] {
      SplitLower(value[1..]);
      assert Lower(value)[1..] == Lower(value[1..]);
      assert LowerChar(value[0]) == '/' <==> value[0] == '/';
    }
  }

  lemma LowerKeepsClasses(c: char)
    ensures IsAscii(c) ==> IsAscii(LowerChar(c))
    ensures LowerChar(c) == ';' <==> c == ';'
    ensures IsAsciiControl(LowerChar(c)) <==> IsAsciiControl(c)
    ensures IsWhitespace(LowerChar(c)) <==> IsWhitespace(c)
    ensures !('A' <= LowerChar(c) <= 'Z')
  {
  }

  lemma LowerCanonical(value: string)
    requires |value| <= MIME_MAX && Trimmed(value) && MediaType(value)
    ensures CanonicalMimeType(Lower(value))
  {
    SplitLower(value);
    forall c | c in Lower(value)
      ensures IsAscii(c) && c != ';' && !IsAsciiControl(c) && !('A' <= c <= 'Z')
    {
      var i :| 0 <= i < |value| && Lower(value)[i] == c;
      LowerKeepsClasses(value[i]);
      assert value[i] in value;
    }
    if value != [] {
      LowerKeepsClasses(value[0]);
      LowerKeepsClasses(value[|value| - 1]);
    }
  }

  lemma MimeFixed(s: string)
    requires CanonicalMimeType(s)
    ensures NormalizedMimeType(s) == Some(s)
  {
    TrimmedFixed(s);
    assert Split([]) == [[]];
    assert IsAsciiControl('\0');
    forall i | 0 <= i < |s| ensures LowerChar(s[i]) == s[i] { assert s[i] in s; }
    assert Lower(s) == s;
  }

  // The same for media types.
  lemma MimeTypeNormal(value: string)
    ensures NormalizedMimeType(value) == Some(value) <==> CanonicalMimeType(value)
    ensures var r := NormalizedMimeType(value);
            r.Some? ==> CanonicalMimeType(r.value) && NormalizedMimeType(r.value) == r
  {
    hide MediaType, CanonicalMimeType, BoundedTrimmed, Trimmed;
    if NormalizedMimeType(value).Some? {
      LowerCanonical(BoundedTrimmed(value, MIME_MAX).value);
      MimeFixed(NormalizedMimeType(value).value);
    }
    if CanonicalMimeType(value) { MimeFixed(value); }
  }

  lemma {:induction false} SplitAt(value: string, i: nat)
    requires i < |value| && value[i] == '/' && '/' !in value[..i]
    ensures Split(value) == [value[..i]] + Split(value[i + 1..])
  {
    if i == 0 {
      assert value[..0] == [];
    } else {
      assert value[0] != '/' by { assert value[0] in value[..i]; }
      assert value[1..][..i - 1] == value[..i][1..];
      SplitAt(value[1..], i - 1);
      assert value[1..][i..] == value[i + 1..];
      assert [value[0]] + value[1..][..i - 1] == value[..i];
    }
  }

  lemma {:induction false} FirstSlash(value: string) returns (i: nat)
    requires '/' in value
    ensures i < |value| && value[i] == '/' && '/' !in value[..i]
  {
    if value[0] == '/' {
      i := 0;
    } else {
      assert value == [value[0]] + value[1..];
      var j := FirstSlash(value[1..]);
      i := j + 1;
      assert value[..i] == [value[0]] + value[1..][..j];
    }
  }

  predicate OneSlashAt(value: string, i: int) {
    0 < i < |value| - 1 && value[i] == '/' && '/' !in value[..i] && '/' !in value[i + 1..]
  }

  // What two parts mean, without splitting: one slash only, with something on either side of it.
  lemma TwoPartsMeans(value: string)
    ensures TwoParts(value) <==> exists i :: OneSlashAt(value, i)
  {
    if '/' in value {
      var i := FirstSlash(value);
      SplitAt(value, i);
      SplitTwo(value[i + 1..]);
      if TwoParts(value) { assert OneSlashAt(value, i); }
      if k :| OneSlashAt(value, k) {
        SplitAt(value, k);
        SplitTwo(value[k + 1..]);
      }
    } else {
      SplitTwo(value);
      forall k | 0 <= k < |value| ensures value[k] != '/' { assert value[k] in value; }
    }
  }

  // ---- What normalisation yields ----

  // `core` is what is left of the text when the whitespace at both ends is cut off, and it is not empty.
  predicate IsCore(value: string, core: string) {
    exists i, j :: 0 <= i < j <= |value| && CoreAt(value, i, j) && value[i..j] == core
  }

  predicate CoreAt(value: string, i: int, j: int)
    requires 0 <= i < j <= |value|
  {
    && !IsWhitespace(value[i]) && !IsWhitespace(value[j - 1])
    && (forall k :: 0 <= k < i ==> IsWhitespace(value[k]))
    && (forall k :: j <= k < |value| ==> IsWhitespace(value[k]))
  }

  lemma CoreIsTrim(value: string, core: string)
    ensures IsCore(value, core) <==> core == Trim(value) && core != []
  {
    var i, j := TrimCuts(value);
    if i < j {
      assert Trim(value)[0] == value[i] && Trim(value)[j - i - 1] == value[j - 1];
      assert CoreAt(value, i, j);
    }
    if i', j' :| 0 <= i' < j' <= |value| && CoreAt(value, i', j') && value[i'..j'] == core {
      assert i <= i' < j && i <= j' - 1 < j;
      assert i' <= i && j <= j';
    }
  }

  // A bounded text is the core of what was given, if that has 1 to `maximum` characters and no U+0000.
  lemma BoundedTrimmedExactly(value: string, maximum: nat, core: string)
    ensures BoundedTrimmed(value, maximum) == Some(core) <==> IsCore(value, core) && |core| <= maximum && '\0' !in core
  {
    hide IsCore, Trim, IsWhitespace;
    CoreIsTrim(value, core);
  }

  lemma Regroup(a: string, b: string, c: string)
    ensures a + (b + c) == a + b + c
  {
  }

  lemma FilteredFirst(value: string)
    requires value != []
    ensures Filtered(value) == Filtered([value[0]]) + Filtered(value[1..])
  {
    assert [value[0]][1..] == [];
  }

  // Filtering takes the characters one after the other, in order, ...
  lemma {:induction false} FilteredAppends(before: string, after: string)
    ensures Filtered(before + after) == Filtered(before) + Filtered(after)
  {
    hide InFilename, Filtered;
    if before == [] {
      assert before + after == after;
      assert Filtered([]) == [];
    } else {
      FilteredAppends(before[1..], after);
      assert (before + after)[1..] == before[1..] + after;
      FilteredFirst(before);
      FilteredFirst(before + after);
      Regroup(Filtered([before[0]]), Filtered(before[1..]), Filtered(after));
    }
  }

  // ... and drops control characters and slashes of either kind.
  lemma FilteredOne(c: char)
    ensures Filtered([c]) == if IsControl(c) || c == '/' || c == '\\' then [] else [c]
  {
    assert [c][1..] == [];
  }

  // A filename is the core of the first 300 characters that filtering leaves.
  lemma FilenameExactly(value: string, name: string)
    ensures NormalizedFilename(value) == Some(name) <==>
              IsCore(if |Filtered(value)| <= 300 then Filtered(value) else Filtered(value)[..300], name)
  {
    hide IsCore, BoundedTrimmed;
    var taken := Take(Filtered(value), FILENAME_MAX);
    BoundedTrimmedExactly(taken, FILENAME_MAX, name);
    if IsCore(taken, name) { CoreOfTaken(value, name); }
  }

  lemma CoreOfTaken(value: string, name: string)
    requires IsCore(Take(Filtered(value), FILENAME_MAX), name)
    ensures |name| <= 300 && '\0' !in name
  {
    var taken := Take(Filtered(value), FILENAME_MAX);
    var i, j :| 0 <= i < j <= |taken| && CoreAt(taken, i, j) && taken[i..j] == name;
    forall c | c in name ensures c != '\0' {
      assert c in taken;
      assert c in Filtered(value);
    }
  }

  // Lower-casing maps the 26 capital letters to the small ones and nothing else.
  lemma LowerExactly(c: char)
    ensures var capitals, small := "ABCDEFGHIJKLMNOPQRSTUVWXYZ", "abcdefghijklmnopqrstuvwxyz";
            && (forall i :: 0 <= i < 26 && capitals[i] == c ==> LowerChar(c) == small[i])
            && (c !in capitals ==> LowerChar(c) == c)
  {
    var capitals := "ABCDEFGHIJKLMNOPQRSTUVWXYZ";
    if 'A' <= c <= 'Z' {
      var i := (c - 'A') as int;
      assert capitals[i] == c;
    }
  }

  // A media type is the core of what was given, in lower case: at most 200 ASCII characters, no control
  // character and no semicolon, one slash with something on either side.
  lemma MimeTypeExactly(value: string, mime: string)
    ensures NormalizedMimeType(value) == Some(mime) <==>
              exists core ::
                && IsCore(value, core) && |core| <= 200 && mime == Lower(core)
                && (forall c :: c in core ==> IsAscii(c) && c != ';' && !IsAsciiControl(c))
                && (exists i :: OneSlashAt(core, i))
  {
    hide IsCore, BoundedTrimmed, Lower, OneSlashAt, TwoParts;
    var v := BoundedTrimmed(value, MIME_MAX);
    if v.Some? {
      BoundedTrimmedExactly(value, MIME_MAX, v.value);
      TwoPartsMeans(v.value);
    }
    assert IsAsciiControl('\0');
    forall core | IsCore(value, core) && |core| <= 200 && (forall c :: c in core ==> !IsAsciiControl(c))
      ensures v == Some(core)
    {
      BoundedTrimmedExactly(value, MIME_MAX, core);
    }
    forall core { TwoPartsMeans(core); }
  }
}
