/**
 Quantities and amounts of billing lines in double precision: which three-decimal quantities the
 check lets through, and when the cents of a line are those of the decimal amount.
 */
module BillingAmounts {
  import opened Wrappers
  import opened Doubles

  /** Half-way values go up, as Math.round has it. */
  function Round(x: real): int {
    (x + 0.5).Floor
  }

  /** The check on a quantity: its product with 1000, in doubles, is its own rounding. */
  predicate AcceptsQuantity(qty: real) {
    0.0 < qty <= 1_000_000.0 && Round(Double(qty * 1000.0)) as real == Double(qty * 1000.0)
  }

  /** The cents of a line, from doubles. */
  function LineCents(qty: real, unitPrice: real): int {
    Round(Double(qty * unitPrice))
  }

  /** The double that a decimal with three places is read as. */
  function Thousandths(k: int): real {
    Double(k as real / 1000.0)
  }

  // ----- Sizes -----

  lemma Pow2Values()
    ensures Pow2(20) == 1048576.0 && Pow2(30) == 1073741824.0 && Pow2(31) == 2147483648.0
    ensures Pow2(-33) < 0.000_000_000_2 && Pow2(-23) < 0.000_000_2 && Pow2(-22) < 0.000_000_3
  {
    Pow2Add(10, 10);
    Pow2Add(20, 10);
    Pow2Add(30, 3);
    Pow2Add(-33, 33);
    Pow2Add(-33, 10);
    Pow2Add(-23, 1);
  }

  /** A decimal with three places and its double, up to a million. */
  lemma ThousandthsAreNear(k: int)
    requires 0 < k <= 1_000_000_000
    ensures var x := k as real / 1000.0;
            && Abs(Thousandths(k) - x) <= 0.5 * Ulp(x)
            && Ulp(x) < 0.000_000_000_2
            && 0.0 < Thousandths(k) <= 1_000_000.0
  {
    var x := k as real / 1000.0;
    Pow2Values();
    UlpAtMost(x, 20);
    RoundingError(x);
    RoundingToInteger(x, 1_000_000);
  }

  // ----- Quantities -----

  /**
   A quantity with three decimals passes the check exactly when a thousand times its double is
   within half a unit of the number of thousandths.
   */
  lemma QuantityIsAcceptedIff(k: int, qty: real)
    requires 0 < k <= 1_000_000_000 && qty == Thousandths(k)
    ensures AcceptsQuantity(qty) <==> Abs(qty * 1000.0 - k as real) <= 0.5 * Ulp(qty * 1000.0)
  {
    ThousandthsAreNear(k);
    AcceptedNear(qty, k);
  }

  lemma AcceptedNear(t: real, k: int)
    requires 0 < k <= 1_000_000_000 && 0.0 < t <= 1_000_000.0 && Abs(t - k as real / 1000.0) <= 0.000_000_000_1
    ensures AcceptsQuantity(t) <==> Abs(t * 1000.0 - k as real) <= 0.5 * Ulp(t * 1000.0)
  {
    var y := t * 1000.0;
    Pow2Values();
    UlpAtMost(y, 30);
    RoundingError(y);
    RoundingToInteger(y, k);
    WholeNear(Double(y), k);
  }

  /** Only one integer is that near. */
  lemma WholeNear(z: real, k: int)
    requires Abs(z - k as real) < 0.4
    ensures Round(z) as real == z <==> z == k as real
  {
    assert k as real <= z + 0.5 < (k + 1) as real;
    assert Round(z) == k;
  }

  /**
   In particular whenever the unit of the product is at least a thousand times that of the
   quantity: only the first 2.4 percent above each power of two are at risk.
   */
  lemma AcceptedUnlessLow(k: int, qty: real)
    requires 0 < k <= 1_000_000_000 && qty == Thousandths(k)
    requires 1000.0 * Ulp(k as real / 1000.0) <= Ulp(qty * 1000.0)
    ensures AcceptsQuantity(qty)
  {
    ThousandthsAreNear(k);
    QuantityIsAcceptedIff(k, qty);
  }

  /** Whatever passes is within half a unit of a number of thousandths. */
  lemma AcceptedIsNear(qty: real) returns (k: int)
    requires AcceptsQuantity(qty)
    ensures Abs(qty * 1000.0 - k as real) <= 0.5 * Ulp(qty * 1000.0)
  {
    k := Round(Double(qty * 1000.0));
    RoundingError(qty * 1000.0);
  }

  // ----- Amounts -----

  /** Cents of an amount of n thousandths of a cent, half a cent going up. */
  function DecimalCents(n: int): int {
    (n + 500) / 1000
  }

  /** A relative error in one factor is the same relative error in the product. */
  lemma ScaleError(t: real, x: real, c: real, d: real)
    requires Abs(t - x) <= d * x && c >= 0.0
    ensures Abs(t * c - x * c) <= d * (x * c)
  {
    if c > 0.0 {
      ScaleDistance(t, x, c, d * x);
      Associate(d, x, c);
    }
  }

  lemma NearProduct(t: real, x: real, u: real, c: real, d: real)
    requires Abs(t - x) <= 0.5 * u && u * 4503599627370496.0 <= x && c >= 0.0
    requires x * c == d && d <= 1_500_000_000.0
    ensures Abs(t * c - d) <= 0.000_000_2
  {
    ScaleError(t, x, c, 0.5 / 4503599627370496.0);
  }

  lemma ThousandthsUlp(k: int)
    requires 0 < k <= 1_000_000_000
    ensures var x := k as real / 1000.0;
            Abs(Thousandths(k) - x) <= 0.5 * Ulp(x) && Ulp(x) * 4503599627370496.0 <= x
  {
    Pow2Values();
    ThousandthsAreNear(k);
    UlpIsRelative(k as real / 1000.0);
  }

  lemma ThousandthsTimes(k: real, c: real)
    ensures (k / 1000.0) * c == (k * c) / 1000.0
  {
  }

  /**
   For an amount of n thousandths of a cent, up to the ceiling on amounts: the cents computed in
   doubles are those of the decimal amount, except on an exact half cent whose product in doubles
   falls short of it by more than half a unit.
   */
  lemma CentsAreDecimalIff(k: int, price: real, n: int, qty: real)
    requires 0 < k <= 1_000_000_000 && price >= 0.0 && k as real * price == n as real
    requires 0 <= n <= 1_500_000_000_000 && qty == Thousandths(k)
    ensures LineCents(qty, price) == DecimalCents(n) <==>
            n % 1000 != 500 || n as real / 1000.0 - 0.5 * Ulp(qty * price) <= qty * price
  {
    var x, u := FactorIsNear(k, price, n, qty);
    CentsOfProduct(qty, x, u, price, n);
  }

  lemma FactorIsNear(k: int, price: real, n: int, qty: real) returns (x: real, u: real)
    requires 0 < k <= 1_000_000_000 && k as real * price == n as real && qty == Thousandths(k)
    ensures Abs(qty - x) <= 0.5 * u && u * 4503599627370496.0 <= x && x * price == n as real / 1000.0
  {
    x, u := k as real / 1000.0, Ulp(k as real / 1000.0);
    ThousandthsTimes(k as real, price);
    ThousandthsUlp(k);
  }

  lemma CentsOfProduct(t: real, x: real, u: real, c: real, n: int)
    requires Abs(t - x) <= 0.5 * u && u * 4503599627370496.0 <= x && c >= 0.0
    requires x * c == n as real / 1000.0 && 0 <= n <= 1_500_000_000_000
    ensures LineCents(t, c) == DecimalCents(n) <==>
            n % 1000 != 500 || n as real / 1000.0 - 0.5 * Ulp(t * c) <= t * c
  {
    NearProduct(t, x, u, c, n as real / 1000.0);
    HalfCents(t * c, n);
  }

  /** For a number near n thousandths, instead of the product. */
  lemma HalfCents(y: real, n: int)
    requires 0 <= n <= 1_500_000_000_000 && Abs(y - n as real / 1000.0) <= 0.000_000_2
    ensures Round(Double(y)) == (n + 500) / 1000 <==> n % 1000 != 500 || n as real / 1000.0 - 0.5 * Ulp(y) <= y
  {
    Pow2Values();
    UlpAtMost(y, 31);
    RoundingError(y);
    RoundingToHalf(y, n / 1000);
    CentsOf(Double(y), n);
    if n % 1000 == 500 {
      assert n as real / 1000.0 == (n / 1000) as real + 0.5;
    }
  }

  /** Near n thousandths, only a half cent can be rounded to either side. */
  lemma CentsOf(z: real, n: int)
    requires Abs(z - n as real / 1000.0) < 0.000_4
    ensures n % 1000 != 500 ==> Round(z) == (n + 500) / 1000
    ensures n % 1000 == 500 ==> (Round(z) == (n + 500) / 1000 <==> z >= (n / 1000) as real + 0.5)
  {
    assert n == n / 1000 * 1000 + n % 1000;
  }

  // ----- Two decimals that doubles get wrong -----

  lemma Units()
    ensures Pow2(-52) * 4503599627370496.0 == 1.0 && Pow2(-55) * 36028797018963968.0 == 1.0
    ensures Pow2(-43) * 8796093022208.0 == 1.0 && Pow2(-49) * 562949953421312.0 == 1.0
  {
    Pow2At52(52);
    Pow2Add(-52, 52);
    Pow2Add(-55, 3);
    Pow2Add(-52, 9);
    Pow2Add(-52, 3);
  }

  lemma RoundedBy(x: real, u: real, c: real, n: int)
    requires u > 0.0 && u * c == 1.0 && Nearest(x * c) == n
    ensures Rounded(x, u) * c == n as real
  {
    Quotient(x, u);
    Associate(x / u, u, c);
    Associate(n as real, u, c);
    assert x / u == x * c;
  }

  /** 1.001 as a double, and the unit of its product with 1000. */
  lemma OneAndAThousandth(qty: real)
    requires qty == Thousandths(1001)
    ensures qty * 4503599627370496.0 == 4508103226997866.0
    ensures Ulp(qty * 1000.0) * 8796093022208.0 == 1.0
  {
    Units();
    UlpIs(1.001, -52);
    RoundedBy(1.001, Pow2(-52), 4503599627370496.0, 4508103226997866);
    assert Pow2(9) == 512.0 && Pow2(10) == 1024.0;
    UlpIs(qty * 1000.0, -43);
  }

  /** The check refuses the quantity 1.001. */
  lemma OneAndAThousandthIsRefused()
    ensures !AcceptsQuantity(Thousandths(1001))
  {
    var qty := Thousandths(1001);
    OneAndAThousandth(qty);
    QuantityIsAcceptedIff(1001, qty);
  }

  /** 0.145 as a double, and the unit of its product with 100. */
  lemma HundredFortyFive(qty: real)
    requires qty == Thousandths(145)
    ensures qty * 36028797018963968.0 == 5224175567749775.0
    ensures Ulp(qty * 100.0) * 562949953421312.0 == 1.0
  {
    Units();
    assert Pow2(-3) == 0.125 && Pow2(-2) == 0.25;
    UlpIs(0.145, -55);
    RoundedBy(0.145, Pow2(-55), 36028797018963968.0, 5224175567749775);
    assert Pow2(3) == 8.0 && Pow2(4) == 16.0;
    UlpIs(qty * 100.0, -49);
  }

  /** 0.145 at a price of 100 cents is 14.5 cents, and not charged as 15. */
  lemma HalfCentIsLost()
    ensures DecimalCents(14_500) == 15 && LineCents(Thousandths(145), 100.0) != 15
  {
    var qty := Thousandths(145);
    HundredFortyFive(qty);
    FallsShort(qty, Ulp(qty * 100.0));
    CentsAreDecimalIff(145, 100.0, 14_500, qty);
  }

  lemma FallsShort(qty: real, u: real)
    requires qty * 36028797018963968.0 == 5224175567749775.0 && u * 562949953421312.0 == 1.0
    ensures qty * 100.0 < 14_500.0 / 1000.0 - 0.5 * u
  {
  }

  // ----- The running total -----

  /** An integer is a double up to 2^53; beyond, it becomes another integer no less than half of it. */
  lemma WholeInDoubles(z: int) returns (w: int)
    requires z >= 0
    ensures w as real == Double(z as real)
    ensures z < 9007199254740992 ==> w == z
    ensures z >= 9007199254740992 ==> w >= 4503599627370496
  {
    if Exponent(z as real, MinExponent) <= 0 {
      SmallWhole(z);
      w := z;
    } else {
      WholeIsLarge(z as real);
      w := LargeWhole(z as real);
    }
  }

  lemma WholeIsMultipleOf(z: int, e: int, u: real) returns (m: int)
    requires e <= 0 && u == Pow2(e)
    ensures z as real == m as real * u
  {
    m := WholeIsMultiple(z, -e);
  }

  lemma MultipleIsRounded(x: real, u: real, m: int)
    requires u > 0.0 && x == m as real * u
    ensures Rounded(x, u) == x
  {
    RoundedAt(x, u, m);
  }

  lemma SmallWhole(z: int)
    requires Exponent(z as real, MinExponent) <= 0
    ensures Double(z as real) == z as real
  {
    var u := Ulp(z as real);
    var m := WholeIsMultipleOf(z, Exponent(z as real, MinExponent), u);
    MultipleIsRounded(z as real, u, m);
  }

  lemma LargeWhole(x: real) returns (w: int)
    requires Exponent(x, MinExponent) > 0
    ensures w as real == Double(x)
  {
    var unit := Pow2IsWhole(Exponent(x, MinExponent));
    w := Nearest(x / Ulp(x)) * unit;
    EvenFactor(Nearest(x / Ulp(x)), unit);
  }

  lemma WholeIsLarge(x: real)
    requires Exponent(x, MinExponent) > 0 && x >= 0.0
    ensures x >= 9007199254740992.0 && Double(x) >= 4503599627370496.0
  {
    Pow2At53(53);
    if x < 9007199254740992.0 { UlpAtMost(x, 53); }
    RoundingError(x);
    Pow2Values();
    UlpIsRelative(x);
  }

  lemma Pow2At53(p: int)
    requires p == 53
    ensures Pow2(p) == 9007199254740992.0
  {
    Pow2At52(52);
    Pow2Next(52);
  }

  /** The total as the loop keeps it, rounded after every line. */
  function RunningTotal(cents: seq<int>): real {
    if cents == [] then 0.0 else Double(RunningTotal(cents[..|cents| - 1]) + cents[|cents| - 1] as real)
  }

  /** One more line, which may add its cents or nothing. */
  lemma RunningTotalNext(before: seq<int>, cents: Option<int>, after: seq<int>)
    requires after == before + if cents.Some? then [cents.value] else []
    ensures RunningTotal(after) ==
            if cents.Some? then Double(RunningTotal(before) + cents.value as real) else RunningTotal(before)
  {
    if cents.Some? {
      assert after[..|before|] == before;
    } else {
      assert after == before;
    }
  }

  method AddToTotal(total: real, cents: Option<int>, ghost before: seq<int>, ghost after: seq<int>) returns (r: real)
    requires total == RunningTotal(before) && after == before + if cents.Some? then [cents.value] else []
    ensures r == RunningTotal(after)
  {
    RunningTotalNext(before, cents, after);
    r := if cents.Some? then Double(total + cents.value as real) else total;
  }

  function Sum(cents: seq<int>): int {
    if cents == [] then 0 else Sum(cents[..|cents| - 1]) + cents[|cents| - 1]
  }

  /** The running total is a whole number, and is the exact one unless both are past any ceiling. */
  lemma {:induction false} RunningTotalIsSum(cents: seq<int>) returns (w: int)
    requires forall i :: 0 <= i < |cents| ==> cents[i] >= 0
    ensures w as real == RunningTotal(cents) && w >= 0 && Sum(cents) >= 0
    ensures w == Sum(cents) || (w >= 4503599627370496 && Sum(cents) >= 4503599627370496)
  {
    if cents == [] { w := 0; } else {
      var n := |cents| - 1;
      var before := RunningTotalIsSum(cents[..n]);
      w := WholeInDoubles(before + cents[n]);
      assert (before + cents[n]) as real == RunningTotal(cents[..n]) + cents[n] as real;
    }
  }

  /** So comparing the running total with a ceiling is comparing the exact sum. */
  lemma RoundedTotalKeepsTheGuard(cents: seq<int>, ceiling: int)
    requires (forall i :: 0 <= i < |cents| ==> cents[i] >= 0) && ceiling < 4503599627370496
    ensures RunningTotal(cents) > ceiling as real <==> Sum(cents) > ceiling
  {
    var w := RunningTotalIsSum(cents);
  }

  function SumOf(amounts: seq<real>): real {
    if amounts == [] then 0.0 else SumOf(amounts[..|amounts| - 1]) + amounts[|amounts| - 1]
  }

  /** Every line within 5/8 of a cent. */
  predicate NearBy(cents: seq<int>, amounts: seq<real>) {
    |cents| == |amounts| && forall i :: 0 <= i < |cents| ==> -0.625 <= cents[i] as real - amounts[i] <= 0.625
  }

  lemma {:induction false} SumIsNear(cents: seq<int>, amounts: seq<real>)
    requires NearBy(cents, amounts)
    ensures -0.625 * |cents| as real <= Sum(cents) as real - SumOf(amounts) <= 0.625 * |cents| as real
  {
    if cents != [] {
      var n := |cents| - 1;
      SumIsNear(cents[..n], amounts[..n]);
      assert Sum(cents) == Sum(cents[..n]) + cents[n] && SumOf(amounts) == SumOf(amounts[..n]) + amounts[n];
    }
  }
}
