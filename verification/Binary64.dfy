/** Integers and binary64: the conversion `as f64`, the conversion back, and the test made of the two.

  Only integers of at most 64 bits are converted, so the exponent of a binary64 number never matters:
  its integers are the m * 2^k with |m| < 2^53 (section 3.3 of IEEE 754-2019). */
module Binary64 {
  import opened Wrappers

  type I64 = n: int | -0x8000_0000_0000_0000 <= n < 0x8000_0000_0000_0000
  type U64 = n: int | 0 <= n < 0x1_0000_0000_0000_0000

  const SIGNIFICANDS: int := 0x20_0000_0000_0000

  function Pow2(k: nat): (p: int)
    ensures p > 0
  {
    if k == 0 then 1 else 2 * Pow2(k - 1)
  }

  ghost predicate Held(n: int) {
    exists m: int, k: nat :: Writes(n, m, k)
  }

  predicate Writes(n: int, m: int, k: nat) {
    n == m * Pow2(k) && -SIGNIFICANDS < m < SIGNIFICANDS
  }

  function Abs(n: int): nat {
    if n < 0 then -n else n
  }

  // The exponent of the last place of a 53-bit significand for `a`.
  function LastPlace(a: nat): nat {
    if a < SIGNIFICANDS then 0 else 1 + LastPlace(a / 2)
  }

  // Round to nearest, ties to even (section 4.3.1 of IEEE 754-2019).
  function RoundAbs(a: nat): (r: int)
    ensures r >= 0
  {
    Divided(a, Pow2(LastPlace(a)));
    var unit := Pow2(LastPlace(a));
    var low, rest := a / unit, a % unit;
    if 2 * rest < unit || (2 * rest == unit && low % 2 == 0) then low * unit else (low + 1) * unit
  }

  function ToFloat(n: int): int {
    if n < 0 then -RoundAbs(-n) else RoundAbs(n)
  }

  // `as i128` and `as u128` from a float saturate.
  function ToI128(x: int): int {
    if x < -Pow2(127) then -Pow2(127) else if x >= Pow2(127) then Pow2(127) - 1 else x
  }

  function ToU128(x: int): int {
    if x < 0 then 0 else if x >= Pow2(128) then Pow2(128) - 1 else x
  }

  datatype Error = NotExact

  // Acceptance is exact: a 64-bit integer passes precisely when binary64 holds it.
  function VisitI64(value: I64): (r: Result<I64, Error>)
    ensures r.Success? <==> Held(value)
    ensures r.Success? ==> r.value == value
  {
    CastIsExact(value);
    if ToI128(ToFloat(value)) != value then Failure(NotExact) else Success(value)
  }

  function VisitU64(value: U64): (r: Result<U64, Error>)
    ensures r.Success? <==> Held(value)
    ensures r.Success? ==> r.value == value
  {
    CastIsExact(value);
    if ToU128(ToFloat(value)) != value then Failure(NotExact) else Success(value)
  }

  lemma {:induction false} PowAdds(j: nat, k: nat)
    ensures Pow2(j + k) == Pow2(j) * Pow2(k)
  {
    if j > 0 {
      PowAdds(j - 1, k);
      Regrouped(2, Pow2(j - 1), Pow2(k));
      assert Pow2(j + k) == 2 * Pow2(j - 1 + k);
    }
  }

  lemma {:induction false} PowGrows(j: nat, k: nat)
    requires j <= k
    ensures Pow2(j) <= Pow2(k)
    decreases k - j
  {
    if j < k { PowGrows(j, k - 1); }
  }

  // The significand in units of the last place has exactly 53 bits, or the last place is the units place.
  lemma {:induction false} LastPlaceFits(a: nat)
    ensures a < SIGNIFICANDS * Pow2(LastPlace(a))
    ensures LastPlace(a) > 0 ==> SIGNIFICANDS / 2 * Pow2(LastPlace(a)) <= a
  {
    if a >= SIGNIFICANDS {
      LastPlaceFits(a / 2);
      var p := Pow2(LastPlace(a / 2));
      assert Pow2(LastPlace(a)) == 2 * p;
      if LastPlace(a / 2) == 0 { assert p == 1; }
    }
  }

  lemma Divided(a: nat, unit: int)
    requires unit > 0
    ensures a == a / unit * unit + a % unit && 0 <= a % unit < unit && a / unit >= 0
  {
  }

  lemma Ordered(i: int, j: int, unit: int)
    requires unit > 0
    ensures i <= j <==> i * unit <= j * unit
    ensures (i + 1) * unit == i * unit + unit
  {
    if i <= j {
      assert (j - i) * unit >= 0;
    } else {
      assert (i - j) * unit > 0;
    }
  }

  // The two multiples of the last place around `a`; rounding returns one of them.
  lemma Neighbours(a: nat) returns (unit: int, low: int, rest: int)
    ensures unit == Pow2(LastPlace(a)) && low == a / unit && rest == a % unit
    ensures a == low * unit + rest && 0 <= rest < unit && 0 <= low < SIGNIFICANDS
    ensures LastPlace(a) > 0 ==> SIGNIFICANDS / 2 <= low
  {
    hide Pow2, LastPlace;
    unit := Pow2(LastPlace(a));
    low, rest := a / unit, a % unit;
    Divided(a, unit);
    LastPlaceFits(a);
    Ordered(SIGNIFICANDS, low, unit);
    Ordered(low, low + 1, unit);
    Ordered(low + 1, SIGNIFICANDS / 2, unit);
  }

  lemma Rounds(a: nat, unit: int, low: int, rest: int) returns (q: int)
    requires unit == Pow2(LastPlace(a)) && low == a / unit && rest == a % unit && low >= 0
    ensures q == (if 2 * rest < unit || (2 * rest == unit && low % 2 == 0) then low else low + 1)
    ensures RoundAbs(a) == q * unit && RoundAbs(a) == low * unit + (if q == low then 0 else unit)
  {
    hide Pow2, LastPlace;
    q := if 2 * rest < unit || (2 * rest == unit && low % 2 == 0) then low else low + 1;
    Ordered(low, low + 1, unit);
  }

  // No number that binary64 holds lies strictly between the two neighbours of `a`.
  lemma HeldOutside(h: int, a: nat, unit: int, low: int)
    requires Held(h) && unit == Pow2(LastPlace(a))
    requires low >= 0 && (LastPlace(a) > 0 ==> SIGNIFICANDS / 2 <= low)
    ensures h <= low * unit || h >= low * unit + unit
  {
    hide Pow2, LastPlace;
    var e := LastPlace(a);
    var m: int, k: nat :| Writes(h, m, k);
    if k >= e {
      PowAdds(k - e, e);
      Regrouped(m, Pow2(k - e), unit);
      MultiplesApart(m * Pow2(k - e), low, unit);
    } else {
      SmallPlace(m, k, e);
      Ordered(SIGNIFICANDS / 2, low, unit);
    }
  }

  lemma Regrouped(m: int, p: int, unit: int)
    ensures m * (p * unit) == m * p * unit
  {
  }

  lemma SmallPlace(m: int, k: nat, e: nat)
    requires k < e && m < SIGNIFICANDS
    ensures m * Pow2(k) <= SIGNIFICANDS / 2 * Pow2(e)
  {
    PowGrows(k, e - 1);
    Scaled(m, SIGNIFICANDS, Pow2(k), Pow2(e - 1));
    Halved(SIGNIFICANDS, e - 1);
  }

  lemma Scaled(m: int, s: int, p: int, q: int)
    requires m <= s && 0 <= s && 0 < p <= q
    ensures m * p <= s * q
  {
    Ordered(m, s, p);
    assert s * (q - p) >= 0;
  }

  lemma MultiplesApart(j: int, low: int, unit: int)
    requires unit > 0
    ensures j * unit <= low * unit || j * unit >= low * unit + unit
  {
    Ordered(j, low, unit);
    Ordered(low + 1, j, unit);
    Ordered(low, low, unit);
  }

  // Rounding is to a held number, to a nearest one, and on a tie to the one with the even significand.
  lemma RoundAbsNearest(a: nat, h: int)
    requires Held(h)
    ensures Held(RoundAbs(a)) && Abs(a - RoundAbs(a)) <= Abs(a - h)
    ensures Abs(a - RoundAbs(a)) == Abs(a - h) && h != RoundAbs(a) ==>
              RoundAbs(a) / Pow2(LastPlace(a)) % 2 == 0
  {
    hide Pow2, LastPlace, Held, RoundAbs;
    var unit, low, rest := Neighbours(a);
    var q := Rounds(a, unit, low, rest);
    HeldOutside(h, a, unit, low);
    RoundHeld(q, LastPlace(a));
    Quotient(q, unit);
  }

  lemma Quotient(q: int, unit: int)
    requires unit > 0 && q >= 0
    ensures q * unit / unit == q
  {
    assert q * unit >= 0;
    Divided(q * unit, unit);
    var d := q * unit / unit;
    Ordered(d, q, unit);
    Ordered(d + 1, q, unit);
    Ordered(q, d, unit);
  }

  lemma RoundHeld(q: int, e: nat)
    requires 0 <= q <= SIGNIFICANDS
    ensures Held(q * Pow2(e))
  {
    if q < SIGNIFICANDS {
      assert Writes(q * Pow2(e), q, e);
    } else {
      Halved(q, e);
      assert Writes(q * Pow2(e), SIGNIFICANDS / 2, e + 1);
    }
  }

  lemma Halved(q: int, e: nat)
    requires q % 2 == 0
    ensures q * Pow2(e) == q / 2 * Pow2(e + 1)
  {
    assert Pow2(e + 1) == 2 * Pow2(e);
    assert q / 2 * (2 * Pow2(e)) == q / 2 * 2 * Pow2(e);
  }

  lemma HeldNegates(n: int)
    requires Held(n)
    ensures Held(-n)
  {
    var m: int, k: nat :| Writes(n, m, k);
    assert Writes(-n, -m, k) by { assert -(m * Pow2(k)) == (-m) * Pow2(k); }
  }

  lemma FloatNearest(n: int, h: int)
    requires Held(h)
    ensures Held(ToFloat(n)) && Abs(n - ToFloat(n)) <= Abs(n - h)
    ensures Abs(n - ToFloat(n)) == Abs(n - h) && h != ToFloat(n) ==>
              Abs(ToFloat(n)) / Pow2(LastPlace(Abs(n))) % 2 == 0
  {
    hide RoundAbs, Held, LastPlace, Pow2;
    if n < 0 {
      HeldNegates(h);
      RoundAbsNearest(-n, -h);
      HeldNegates(RoundAbs(-n));
    } else {
      RoundAbsNearest(n, h);
    }
  }

  lemma PowersOfInterest()
    ensures Pow2(64) == 0x1_0000_0000_0000_0000 && Pow2(127) > Pow2(64) && Pow2(128) > Pow2(64)
    ensures Held(0) && Held(Pow2(64)) && Held(-Pow2(64))
  {
    PowByteSteps();
    PowGrows(65, 127);
    PowGrows(65, 128);
    assert Writes(0, 0, 0) && Writes(Pow2(64), 1, 64) && Writes(-Pow2(64), -1, 64);
  }

  lemma PowByteSteps()
    ensures Pow2(16) == 0x1_0000 && Pow2(32) == 0x1_0000_0000 && Pow2(64) == 0x1_0000_0000_0000_0000
    ensures Pow2(65) == 2 * Pow2(64)
  {
    assert Pow2(8) == 0x100;
    Doubled(8, 0x100);
    Doubled(16, 0x1_0000);
    Doubled(32, 0x1_0000_0000);
  }

  lemma Doubled(k: nat, p: int)
    requires Pow2(k) == p
    ensures Pow2(k + k) == p * p
  {
    hide Pow2;
    PowAdds(k, k);
  }

  // The 128-bit casts never saturate on a 64-bit integer, so the comparison after them is exact.
  lemma CastIsExact(n: int)
    requires -0x8000_0000_0000_0000 <= n < 0x1_0000_0000_0000_0000
    ensures ToI128(ToFloat(n)) == ToFloat(n) && (n >= 0 ==> ToU128(ToFloat(n)) == ToFloat(n))
    ensures ToFloat(n) == n <==> Held(n)
  {
    hide Held, ToFloat, Pow2;
    PowersOfInterest();
    FloatNearest(n, Pow2(64));
    FloatNearest(n, -Pow2(64));
    FloatNearest(n, 0);
    if Held(n) { FloatNearest(n, n); }
  }

  // A 64-bit cast would not do: the largest i64 rounds up to 2^63, and saturating that at the
  // largest i64 gives the integer back although binary64 does not hold it.
  lemma NarrowCastAccepts()
    ensures var n: I64 := 0x7FFF_FFFF_FFFF_FFFF;
            !Held(n) && ToFloat(n) == n + 1 && VisitI64(n) == Failure(NotExact)
  {
    hide Held;
    var n: I64 := 0x7FFF_FFFF_FFFF_FFFF;
    PlaceOf(n, 10);
    assert Pow2(10) == 1024;
    CastIsExact(n);
  }

  lemma {:induction false} PlaceOf(a: nat, e: nat)
    requires SIGNIFICANDS / 2 * Pow2(e) <= a < SIGNIFICANDS * Pow2(e)
    ensures LastPlace(a) == e
  {
    if e > 0 {
      Halved(SIGNIFICANDS, e - 1);
      assert Pow2(e) == 2 * Pow2(e - 1);
      PlaceOf(a / 2, e - 1);
    }
  }
}
