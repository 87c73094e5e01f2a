/**
 Finite double-precision arithmetic on exact numbers: a double is the number it stands for, and an
 operation gives the exact result rounded to 53 significant bits, ties to even (sections 3.4 and
 4.3 of IEEE 754). Overflow to infinity is not modelled.
 */
module Doubles {

  function Pow2(k: int): (r: real)
    ensures r > 0.0
    decreases if k < 0 then -k else k
  {
    if k == 0 then 1.0 else if k > 0 then 2.0 * Pow2(k - 1) else Pow2(k + 1) / 2.0
  }

  function Abs(x: real): real {
    if x < 0.0 then -x else x
  }

  /** The nearest integer, ties to even. */
  function Nearest(x: real): int {
    var below := x.Floor;
    var rest := x - below as real;
    if rest < 0.5 then below
    else if rest > 0.5 then below + 1
    else if below % 2 == 0 then below else below + 1
  }

  const MinExponent: int := -1074
  const MaxExponent: int := 971

  /** The least exponent from k on at which 53 bits hold x. */
  function Exponent(x: real, k: int): (e: int)
    requires k <= MaxExponent
    ensures k <= e <= MaxExponent
    decreases MaxExponent - k
  {
    if k == MaxExponent || Abs(x) < Pow2(k + 53) then k else Exponent(x, k + 1)
  }

  /** The distance between neighbouring doubles around x. */
  function Ulp(x: real): (u: real)
    ensures u > 0.0
  {
    Pow2(Exponent(x, MinExponent))
  }

  /** The nearest multiple of a unit. */
  function Rounded(x: real, unit: real): real
    requires unit > 0.0
  {
    Nearest(x / unit) as real * unit
  }

  function Double(x: real): real {
    Rounded(x, Ulp(x))
  }

  predicate IsInteger(x: real) {
    x.Floor as real == x
  }

  // ----- Powers of two -----

  lemma {:induction false} Pow2Next(k: int)
    ensures Pow2(k + 1) == 2.0 * Pow2(k)
  {
  }

  lemma {:induction false} Pow2Grows(a: int, b: int)
    requires a <= b
    ensures Pow2(a) <= Pow2(b)
    decreases b - a
  {
    if a < b {
      Pow2Next(b - 1);
      Pow2Grows(a, b - 1);
    }
  }

  lemma {:induction false} Pow2Add(a: int, n: nat)
    ensures Pow2(a + n) == Pow2(a) * Pow2(n)
    decreases n
  {
    if n > 0 {
      Pow2Add(a, n - 1);
      Pow2Next(a + n - 1);
    }
  }

  lemma {:induction false} Pow2IsWhole(n: nat) returns (z: nat)
    ensures Pow2(n) == z as real && z > 0 && (n > 0 ==> z % 2 == 0)
  {
    if n == 0 { z := 1; } else {
      var half := Pow2IsWhole(n - 1);
      z := 2 * half;
    }
  }

  lemma Associate(a: real, b: real, c: real)
    ensures (a * b) * c == a * (b * c)
  {
  }

  /** An integer is a multiple of any unit 2^-n, by an even factor when n > 0. */
  lemma WholeIsMultiple(k: int, n: int) returns (m: int)
    requires n >= 0
    ensures k as real == m as real * Pow2(-n) && (n > 0 ==> m % 2 == 0)
  {
    var z := Pow2IsWhole(n);
    Pow2Add(-n, n);
    m := k * z;
    EvenFactor(k, z);
    Associate(k as real, z as real, Pow2(-n));
    assert z as real * Pow2(-n) == Pow2(0);
  }

  lemma EvenFactor(k: int, z: int)
    ensures z % 2 == 0 ==> (k * z) % 2 == 0
    ensures (k * z) as real == k as real * z as real
  {
    if z % 2 == 0 {
      assert k * z == 2 * (k * (z / 2));
    }
  }

  // ----- Exponents -----

  lemma {:induction false} ExponentAtMost(x: real, k: int, m: int)
    requires k <= m <= MaxExponent && Abs(x) < Pow2(m + 53)
    ensures Exponent(x, k) <= m
    decreases m - k
  {
    if k < m { ExponentAtMost(x, k + 1, m); }
  }

  lemma {:induction false} ExponentAtLeast(x: real, k: int, m: int)
    requires k <= m <= MaxExponent && Pow2(m + 52) <= Abs(x)
    ensures Exponent(x, k) >= m
    decreases m - k
  {
    if k < m {
      Pow2Grows(k + 53, m + 52);
      ExponentAtLeast(x, k + 1, m);
    }
  }

  lemma UlpIs(x: real, e: int)
    requires MinExponent <= e <= MaxExponent && Pow2(e + 52) <= Abs(x) < Pow2(e + 53)
    ensures Ulp(x) == Pow2(e)
  {
    ExponentAtMost(x, MinExponent, e);
    ExponentAtLeast(x, MinExponent, e);
  }

  /** Below 2^j the unit is at most 2^(j - 53). */
  lemma UlpAtMost(x: real, j: int)
    requires MinExponent + 53 <= j <= MaxExponent + 53 && Abs(x) < Pow2(j)
    ensures Ulp(x) <= Pow2(j - 53)
    ensures Exponent(x, MinExponent) <= j - 53
  {
    ExponentAtMost(x, MinExponent, j - 53);
    Pow2Grows(Exponent(x, MinExponent), j - 53);
  }

  lemma {:induction false} ExponentIsLeast(x: real, k: int)
    requires k <= MaxExponent
    ensures Exponent(x, k) > k ==> Pow2(Exponent(x, k) + 52) <= Abs(x)
    decreases MaxExponent - k
  {
    if k < MaxExponent && Abs(x) >= Pow2(k + 53) { ExponentIsLeast(x, k + 1); }
  }

  lemma Pow2Plus4(k: int)
    ensures Pow2(k + 4) == 16.0 * Pow2(k)
  {
    Pow2Next(k);
    Pow2Next(k + 1);
    Pow2Next(k + 2);
    Pow2Next(k + 3);
  }

  lemma Pow2Plus16(k: int)
    ensures Pow2(k + 16) == 65536.0 * Pow2(k)
  {
    Pow2Plus4(k);
    Pow2Plus4(k + 4);
    Pow2Plus4(k + 8);
    Pow2Plus4(k + 12);
  }

  lemma Pow2Plus52(k: int)
    ensures Pow2(k + 52) == 4503599627370496.0 * Pow2(k)
  {
    Pow2Plus16(k);
    Pow2Plus16(k + 16);
    Pow2Plus16(k + 32);
    Pow2Plus4(k + 48);
  }

  lemma Pow2At52(p: int)
    requires p == 52
    ensures Pow2(p) == 4503599627370496.0
  {
    Pow2Plus52(0);
  }

  lemma SpansThousandth(e: int)
    requires e <= -62
    ensures Pow2(e + 52) <= 0.001
  {
    Pow2Grows(e + 52, -10);
    Pow2Add(-10, 10);
  }

  /** From a thousandth on, and far below, the unit is at most x / 2^52. */
  lemma UlpIsRelative(x: real)
    requires x >= 0.001
    ensures Ulp(x) * 4503599627370496.0 <= x
  {
    var e := Exponent(x, MinExponent);
    Pow2Plus52(e);
    if e <= -62 { SpansThousandth(e); } else { ExponentIsLeast(x, MinExponent); }
  }

  // ----- Rounding -----

  lemma NearestKeepsOrder(y: real, n: int)
    ensures y <= n as real ==> Nearest(y) <= n
    ensures y >= n as real ==> Nearest(y) >= n
    ensures n % 2 == 0 ==> (Nearest(y) == n <==> Abs(y - n as real) <= 0.5)
  {
  }

  lemma Scale(y: real, z: real, u: real)
    requires u > 0.0
    ensures y <= z <==> y * u <= z * u
  {
  }

  lemma ScaleDistance(y: real, z: real, u: real, d: real)
    requires u > 0.0
    ensures Abs(y - z) <= d <==> Abs(y * u - z * u) <= d * u
  {
    Scale(y - z, d, u);
    Scale(z - y, d, u);
    assert (y - z) * u == y * u - z * u && (z - y) * u == z * u - y * u;
  }

  lemma Quotient(x: real, u: real)
    requires u > 0.0
    ensures (x / u) * u == x
  {
  }

  lemma RoundedError(x: real, u: real)
    requires u > 0.0
    ensures Abs(Rounded(x, u) - x) <= 0.5 * u
  {
    var y := x / u;
    var z := Nearest(y) as real;
    ScaleDistance(z, y, u, 0.5);
    Quotient(x, u);
    assert y * u == x;
    assert Rounded(x, u) == z * u;
  }

  lemma RoundedAt(x: real, u: real, n: int)
    requires u > 0.0
    ensures x <= n as real * u ==> Rounded(x, u) <= n as real * u
    ensures x >= n as real * u ==> Rounded(x, u) >= n as real * u
    ensures n % 2 == 0 ==> (Rounded(x, u) == n as real * u <==> Abs(x - n as real * u) <= 0.5 * u)
  {
    var y := x / u;
    Quotient(x, u);
    assert y * u == x;
    ScaledAt(y, Nearest(y), n, u);
    assert Rounded(x, u) == Nearest(y) as real * u;
  }

  lemma ScaledAt(y: real, z: int, n: int, u: real)
    requires u > 0.0 && z == Nearest(y)
    ensures y * u <= n as real * u ==> z as real * u <= n as real * u
    ensures y * u >= n as real * u ==> z as real * u >= n as real * u
    ensures n % 2 == 0 ==> (z as real * u == n as real * u <==> Abs(y * u - n as real * u) <= 0.5 * u)
  {
    NearestKeepsOrder(y, n);
    Scale(y, n as real, u);
    Scale(n as real, y, u);
    Scale(z as real, n as real, u);
    Scale(n as real, z as real, u);
    ScaleDistance(y, n as real, u, 0.5);
  }

  /** Rounding moves a number by half a unit at most. */
  lemma RoundingError(x: real)
    ensures Abs(Double(x) - x) <= 0.5 * Ulp(x)
  {
    RoundedError(x, Ulp(x));
  }

  /** Rounding never crosses a multiple of the unit, and reaches an even one from half a unit away. */
  lemma RoundingAt(x: real, h: real, n: int)
    requires h == n as real * Ulp(x)
    ensures x <= h ==> Double(x) <= h
    ensures x >= h ==> Double(x) >= h
    ensures n % 2 == 0 ==> (Double(x) == h <==> Abs(x - h) <= 0.5 * Ulp(x))
  {
    RoundedAt(x, Ulp(x), n);
  }

  /** An integer near x, where the units are below one half. */
  lemma RoundingToInteger(x: real, k: int)
    requires Exponent(x, MinExponent) <= -1
    ensures x <= k as real ==> Double(x) <= k as real
    ensures x >= k as real ==> Double(x) >= k as real
    ensures Double(x) == k as real <==> Abs(x - k as real) <= 0.5 * Ulp(x)
  {
    var m := WholeIsMultiple(k, -Exponent(x, MinExponent));
    RoundingAt(x, k as real, m);
  }

  /** The same for k + 1/2, where the units are below one quarter. */
  lemma RoundingToHalf(x: real, k: int)
    requires Exponent(x, MinExponent) <= -2
    ensures var h := k as real + 0.5;
            && (x <= h ==> Double(x) <= h)
            && (x >= h ==> Double(x) >= h)
            && (Double(x) == h <==> Abs(x - h) <= 0.5 * Ulp(x))
  {
    var e := Exponent(x, MinExponent);
    var m := WholeIsMultiple(2 * k + 1, -e - 1);
    Pow2Next(e);
    RoundingAt(x, k as real + 0.5, m);
  }
}
