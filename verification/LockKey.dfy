/** The pre-image of the advisory lock key of a turn start. */
module LockKey {

  type Byte = x: int | 0 <= x < 256

  const WORD: int := 0x1_0000_0000

  // `(len as u32).to_be_bytes()`: the cast drops everything above 32 bits.
  function Frame(n: nat): (b: seq<Byte>)
    ensures |b| == 4
  {
    var w := n % WORD;
    [w / 0x100_0000, w / 0x1_0000 % 0x100, w / 0x100 % 0x100, w % 0x100]
  }

  function Framed(value: seq<Byte>): seq<Byte> {
    Frame(|value|) + value
  }

  function PreImage(values: seq<seq<Byte>>): seq<Byte> {
    if values == [] then [] else Framed(values[0]) + PreImage(values[1..])
  }

  predicate Fits(values: seq<seq<Byte>>) {
    forall i :: 0 <= i < |values| ==> |values[i]| < WORD
  }

  // Reading the four bytes back gives the length, reduced to 32 bits.
  lemma FrameValue(n: nat)
    ensures (((Frame(n)[0] as int) * 0x100 + Frame(n)[1]) * 0x100 + Frame(n)[2]) * 0x100 + Frame(n)[3] == n % WORD
  {
    var w := n % WORD;
    var high := w / 0x100;
    var top := high / 0x100;
    assert w == high * 0x100 + w % 0x100;
    assert high == top * 0x100 + high % 0x100;
    assert top == top / 0x100 * 0x100 + top % 0x100;
    assert top == w / 0x1_0000 && top / 0x100 == w / 0x100_0000;
  }

  lemma FrameInjective(n: nat, m: nat)
    requires n < WORD && m < WORD && Frame(n) == Frame(m)
    ensures n == m
  {
    hide Frame;
    FrameValue(n);
    FrameValue(m);
    assert n % WORD == n && m % WORD == m;
  }

  lemma FramedInjective(a: seq<Byte>, b: seq<Byte>, restA: seq<Byte>, restB: seq<Byte>)
    requires |a| < WORD && |b| < WORD
    requires Framed(a) + restA == Framed(b) + restB
    ensures a == b && restA == restB
  {
    var left, right := Framed(a) + restA, Framed(b) + restB;
    assert left[..4] == Frame(|a|) && right[..4] == Frame(|b|);
    FrameInjective(|a|, |b|);
    assert left[4..][..|a|] == a && right[4..][..|b|] == b;
    assert left[4..][|a|..] == restA && right[4..][|b|..] == restB;
  }

  // The framing is injective as long as every part is shorter than 2^32 bytes.
  lemma {:induction false} PreImageInjective(a: seq<seq<Byte>>, b: seq<seq<Byte>>)
    requires |a| == |b| && Fits(a) && Fits(b)
    ensures PreImage(a) == PreImage(b) <==> a == b
  {
    if a != [] && PreImage(a) == PreImage(b) {
      FramedInjective(a[0], b[0], PreImage(a[1..]), PreImage(b[1..]));
      PreImageInjective(a[1..], b[1..]);
      assert a == [a[0]] + a[1..] && b == [b[0]] + b[1..];
    }
  }

  // A part of 2^32 bytes is framed like an empty one, and two different requests collide.
  lemma LongPartsCollide() returns (a: seq<seq<Byte>>, b: seq<seq<Byte>>)
    ensures |a| == |b| == 4 && a != b && PreImage(a) == PreImage(b)
  {
    var long: seq<Byte> := seq(WORD, i => 0);
    a, b := [long, [], [], []], [[], long, [], []];
    assert a[0] != b[0];
    assert Frame(WORD) == [0, 0, 0, 0] == Frame(0);
    PreImageOfFour(long, [], [], []);
    PreImageOfFour([], long, [], []);
    var zeros: seq<Byte> := seq(WORD + 16, i => 0);
    assert PreImage(a) == zeros;
    assert PreImage(b) == zeros;
  }

  lemma PreImageOfFour(w: seq<Byte>, x: seq<Byte>, y: seq<Byte>, z: seq<Byte>)
    ensures PreImage([w, x, y, z]) == Framed(w) + Framed(x) + Framed(y) + Framed(z)
  {
    assert [w, x, y, z][1..] == [x, y, z] && [x, y, z][1..] == [y, z] && [y, z][1..] == [z];
    assert PreImage([z]) == Framed(z) + [];
    assert PreImage([y, z]) == Framed(y) + PreImage([z]);
    assert PreImage([x, y, z]) == Framed(x) + PreImage([y, z]);
  }
}
