/**
 The median dollar volume in decimal arithmetic with a chosen precision: every product, the
 sum and its half are computed without rounding, so the result is the exact median.
 */
module DollarVolume {
  import opened Ordering
  import opened PacketSize

  /** A non-negative decimal number: coefficient * 10^exponent. */
  datatype Number = Number(coefficient: nat, exponent: int)

  /** One completed daily bar: its close and its volume. */
  datatype Bar = Bar(close: Number, volume: nat)

  const MAX_PREC: nat := 999_999_999_999_999_999

  function Power10(k: nat): (r: nat)
    ensures r >= 1
  {
    if k == 0 then 1 else 10 * Power10(k - 1)
  }

  // ---- Decimal digits and powers of ten ----

  lemma {:induction false} PowerAdds(j: nat, k: nat)
    ensures Power10(j + k) == Power10(j) * Power10(k)
  {
    if j > 0 { PowerAdds(j - 1, k); }
  }

  lemma {:induction false} PowerGrows(j: nat, k: nat)
    requires j <= k
    ensures Power10(j) <= Power10(k)
  {
    if j < k { PowerGrows(j, k - 1); }
  }

  lemma {:induction false} BelowItsPower(n: nat)
    ensures n < Power10(Digits(n))
  {
    if n >= 10 {
      BelowItsPower(n / 10);
    } else {
      assert Power10(1) == 10;
    }
  }

  lemma {:induction false} DigitsBelow(n: nat, k: nat)
    requires k > 0 && n < Power10(k)
    ensures Digits(n) <= k
  {
    if n >= 10 {
      assert Power10(1) == 10;
      DigitsBelow(n / 10, k - 1);
    }
  }

  lemma ProductBelow(a: nat, b: nat, j: nat, k: nat)
    requires a < Power10(j) && b < Power10(k)
    ensures a * b < Power10(j + k)
  {
    hide Power10;
    PowerAdds(j, k);
    MultipliesStrictly(a, b, Power10(j), Power10(k));
  }

  lemma MultipliesStrictly(a: nat, b: nat, m: nat, n: nat)
    requires a < m && b < n
    ensures a * b < m * n
  {
    assert m * n == m * b + m * (n - b);
    assert m * b == a * b + (m - a) * b;
  }

  // ---- Contexts ----

  /** The quotient, rounded half to even. */
  function HalfEven(n: nat, unit: nat): nat
    requires unit > 0
  {
    var q, r := n / unit, n % unit;
    if 2 * r > unit || (2 * r == unit && q % 2 == 1) then q + 1 else q
  }

  /** Round half to even at `precision` digits; a coefficient that fits is left alone. */
  function Rounded(x: Number, precision: nat): Number
    requires precision > 0
  {
    var excess := Digits(x.coefficient) - precision;
    if excess <= 0 then x
    else
      Number(HalfEven(x.coefficient, Power10(excess)), x.exponent + excess)
  }

  function Adjusted(x: Number): int {
    x.exponent + Digits(x.coefficient) - 1
  }

  /** The value in units of 10^scale. */
  function Scaled(x: Number, scale: int): nat
    requires scale <= x.exponent
  {
    x.coefficient * Power10(x.exponent - scale)
  }

  function Product(b: Bar): Number {
    Number(b.close.coefficient * b.volume, b.close.exponent)
  }

  function Min(a: int, b: int): int {
    if a <= b then a else b
  }

  function Max(a: int, b: int): int {
    if a >= b then a else b
  }

  function Sum(x: Number, y: Number): Number {
    var exponent := Min(x.exponent, y.exponent);
    Number(Scaled(x, exponent) + Scaled(y, exponent), exponent)
  }

  function Half(x: Number): Number {
    if x.coefficient % 2 == 0 then Number(x.coefficient / 2, x.exponent)
    else Number(x.coefficient * 5, x.exponent - 1)
  }

  function PairPrecision(b: Bar): nat {
    Digits(b.close.coefficient) + Digits(b.volume) + 1
  }

  function ProductPrecision(bars: seq<Bar>): nat
    requires bars != []
  {
    if |bars| == 1 then PairPrecision(bars[0])
    else Max(ProductPrecision(bars[..|bars| - 1]), PairPrecision(bars[|bars| - 1]))
  }

  function AveragePrecision(x: Number, y: Number): int {
    Max(Adjusted(x), Adjusted(y)) - Min(x.exponent, y.exponent) + 2
  }

  // ---- Nothing is rounded ----

  lemma {:induction false} EnoughForEach(bars: seq<Bar>, i: nat)
    requires i < |bars|
    ensures PairPrecision(bars[i]) <= ProductPrecision(bars)
  {
    if |bars| > 1 && i < |bars| - 1 { EnoughForEach(bars[..|bars| - 1], i); }
  }

  lemma ProductsAreExact(b: Bar, precision: nat)
    requires PairPrecision(b) <= precision
    ensures Rounded(Product(b), precision) == Product(b)
  {
    BelowItsPower(b.close.coefficient);
    BelowItsPower(b.volume);
    ProductBelow(b.close.coefficient, b.volume, Digits(b.close.coefficient), Digits(b.volume));
    DigitsBelow(Product(b).coefficient, Digits(b.close.coefficient) + Digits(b.volume));
  }

  lemma ScaledBelow(x: Number, scale: int, top: int)
    requires scale <= x.exponent && Adjusted(x) <= top
    ensures 0 <= top + 1 - scale && Scaled(x, scale) < Power10(top + 1 - scale)
  {
    BelowItsPower(x.coefficient);
    var k := x.exponent - scale;
    PowerAdds(Digits(x.coefficient), k);
    assert Scaled(x, scale) < Power10(Digits(x.coefficient)) * Power10(k) by {
      ScalesStrictly(x.coefficient, Power10(Digits(x.coefficient)), Power10(k));
    }
    PowerGrows(Digits(x.coefficient) + k, top + 1 - scale);
  }

  lemma ScalesStrictly(a: nat, b: nat, m: nat)
    requires a < b && m > 0
    ensures a * m < b * m
  {
  }

  /** The chosen precision holds the sum and its half. */
  lemma AverageIsExact(x: Number, y: Number)
    ensures AveragePrecision(x, y) >= 2
    ensures Rounded(Sum(x, y), AveragePrecision(x, y)) == Sum(x, y)
    ensures Rounded(Half(Sum(x, y)), AveragePrecision(x, y)) == Half(Sum(x, y))
  {
    var scale, top := Min(x.exponent, y.exponent), Max(Adjusted(x), Adjusted(y));
    ScaledBelow(x, scale, top);
    ScaledBelow(y, scale, top);
    var k := top + 1 - scale;
    var sum := Sum(x, y).coefficient;
    assert Power10(k + 1) == 10 * Power10(k);
    assert sum < 2 * Power10(k);
    DigitsBelow(sum, k + 1);
    DigitsBelow(sum / 2, k + 1);
    DigitsBelow(sum * 5, k + 1);
  }

  lemma HalfIsHalf(x: Number)
    ensures Half(x).exponent >= x.exponent - 1
    ensures 2 * Scaled(Half(x), x.exponent - 1) == Scaled(x, x.exponent - 1)
  {
    assert Power10(1) == 10;
  }

  // ---- The median ----

  /** A scale that every close, and so every product, is a multiple of. */
  function FinestExponent(bars: seq<Bar>): int
    requires bars != []
  {
    if |bars| == 1 then bars[0].close.exponent
    else Min(FinestExponent(bars[..|bars| - 1]), bars[|bars| - 1].close.exponent)
  }

  lemma {:induction false} FinestIsFinest(bars: seq<Bar>, i: nat)
    requires i < |bars|
    ensures FinestExponent(bars) <= bars[i].close.exponent
  {
    if |bars| > 1 && i < |bars| - 1 { FinestIsFinest(bars[..|bars| - 1], i); }
  }

  function Products(bars: seq<Bar>): (r: seq<Number>)
    ensures |r| == |bars|
  {
    seq(|bars|, i requires 0 <= i < |bars| => Product(bars[i]))
  }

  /** The exact dollar volumes in units of 10^scale. */
  function DollarsAt(bars: seq<Bar>, scale: int): (r: seq<nat>)
    requires forall i :: 0 <= i < |bars| ==> scale <= bars[i].close.exponent
    ensures |r| == |bars|
  {
    seq(|bars|, i requires 0 <= i < |bars| => Scaled(Product(bars[i]), scale))
  }

  ghost predicate Ascending(s: seq<nat>) {
    forall i, j :: 0 <= i < j < |s| ==> s[i] <= s[j]
  }

  /** `twice` is twice the median of the values: of some ascending arrangement of them. */
  ghost predicate IsTwiceMedian(values: seq<nat>, twice: nat)
    requires values != []
  {
    exists s: seq<nat> :: |s| == |values| && multiset(s) == multiset(values) && Ascending(s) && twice == MiddleTwice(s)
  }

  function MiddleTwice(s: seq<nat>): nat
    requires s != []
  {
    var middle := |s| / 2;
    if |s| % 2 == 1 then 2 * s[middle] else s[middle - 1] + s[middle]
  }

  /** Numeric comparison at a common scale; finer exponents do not occur. */
  function ValueKey(scale: int): Number -> Word {
    (x: Number) => if scale <= x.exponent then [Scaled(x, scale)] else []
  }

  function AtScale(s: seq<Number>, scale: int): (r: seq<nat>)
    requires forall i :: 0 <= i < |s| ==> scale <= s[i].exponent
    ensures |r| == |s|
  {
    seq(|s|, i requires 0 <= i < |s| => Scaled(s[i], scale))
  }

  predicate AtLeast(s: seq<Number>, scale: int) {
    forall i :: 0 <= i < |s| ==> scale <= s[i].exponent
  }

  lemma ScaleSplits(a: seq<Number>, x: Number, b: seq<Number>, scale: int)
    requires AtLeast(a, scale) && AtLeast(b, scale) && scale <= x.exponent
    ensures AtLeast(a + [x] + b, scale) && AtLeast(a + b, scale)
    ensures multiset(AtScale(a + [x] + b, scale)) == multiset(AtScale(a + b, scale)) + multiset{Scaled(x, scale)}
  {
    hide Scaled;
    assert AtScale(a + [x] + b, scale) == AtScale(a, scale) + [Scaled(x, scale)] + AtScale(b, scale);
    assert AtScale(a + b, scale) == AtScale(a, scale) + AtScale(b, scale);
  }

  lemma AtLeastParts(a: seq<Number>, rest: seq<Number>, b: seq<Number>, before: seq<Number>, after: seq<Number>, scale: int)
    requires AtLeast(a, scale) && AtLeast(b, scale) && rest <= a && before <= b && |before| + 1 + |after| == |b|
    requires after == b[|before| + 1..]
    ensures AtLeast(rest, scale) && AtLeast(before, scale) && AtLeast(after, scale) && AtLeast(before + after, scale)
    ensures |rest| < |a| ==> scale <= a[|rest|].exponent
    ensures AtLeast([], scale)
  {
  }

  lemma {:induction false} ScaleKeepsMultiset(a: seq<Number>, b: seq<Number>, scale: int)
    requires multiset(a) == multiset(b) && AtLeast(a, scale) && AtLeast(b, scale)
    ensures multiset(AtScale(a, scale)) == multiset(AtScale(b, scale))
    decreases |a|
  {
    hide Scaled, AtScale, AtLeast;
    assert |a| == |multiset(a)| == |b|;
    if a == [] {
      assert a == b;
    } else {
      var n := |a| - 1;
      var k := MemberIndex(b, a[n]);
      var rest, before, after := a[..n], b[..k], b[k + 1..];
      assert a == rest + [a[n]] + [] && b == before + [a[n]] + after;
      AtLeastParts(a, rest, b, before, after, scale);
      assert a == rest + [a[n]];
      RemoveOne(rest, a[n], before, after);
      ScaleSplits(rest, a[n], [], scale);
      ScaleSplits(before, b[k], after, scale);
      assert rest + [] == rest;
      ScaleKeepsMultiset(rest, before + after, scale);
    }
  }

  lemma ProductsAtScale(bars: seq<Bar>, scale: int)
    requires forall i :: 0 <= i < |bars| ==> scale <= bars[i].close.exponent
    ensures AtLeast(Products(bars), scale)
    ensures AtScale(Products(bars), scale) == DollarsAt(bars, scale)
  {
    hide Scaled;
  }

  lemma SortedAtLeast(products: seq<Number>, scale: int)
    requires AtLeast(products, scale)
    ensures var dollars := Sort(products, ValueKey(scale));
            |dollars| == |products| && AtLeast(dollars, scale) && multiset(dollars) == multiset(products)
  {
    hide Scaled, Sort;
    var dollars := Sort(products, ValueKey(scale));
    SortSorts(products, ValueKey(scale));
    forall i | 0 <= i < |dollars| ensures scale <= dollars[i].exponent {
      var k := MemberIndex(products, dollars[i]);
    }
  }

  lemma DollarsAscend(products: seq<Number>, scale: int)
    requires AtLeast(Sort(products, ValueKey(scale)), scale)
    ensures Ascending(AtScale(Sort(products, ValueKey(scale)), scale))
  {
    hide Scaled, Sort;
    var dollars := Sort(products, ValueKey(scale));
    SortSorts(products, ValueKey(scale));
    forall i, j | 0 <= i < j < |dollars| ensures Scaled(dollars[i], scale) <= Scaled(dollars[j], scale) {
      assert !Less(ValueKey(scale)(dollars[j]), ValueKey(scale)(dollars[i]));
    }
  }

  lemma SortedDollars(bars: seq<Bar>, scale: int)
    requires forall i :: 0 <= i < |bars| ==> scale <= bars[i].close.exponent
    ensures var dollars := Sort(Products(bars), ValueKey(scale));
            && |dollars| == |bars|
            && (forall i :: 0 <= i < |dollars| ==> scale <= dollars[i].exponent)
            && Ascending(AtScale(dollars, scale))
            && multiset(AtScale(dollars, scale)) == multiset(DollarsAt(bars, scale))
  {
    hide Sort, Scaled, AtScale, DollarsAt, Ascending, Products;
    ProductsAtScale(bars, scale);
    SortedAtLeast(Products(bars), scale);
    DollarsAscend(Products(bars), scale);
    ScaleKeepsMultiset(Sort(Products(bars), ValueKey(scale)), Products(bars), scale);
  }

  /** The two middle values of the sorted products can be averaged at an allowed precision. */
  predicate AverageHolds(bars: seq<Bar>)
    requires bars != []
  {
    var dollars := Sort(Products(bars), ValueKey(FinestExponent(bars)));
    var middle := |dollars| / 2;
    0 < middle < |dollars| ==> AveragePrecision(dollars[middle - 1], dollars[middle]) <= MAX_PREC
  }

  /** `_median_dollar_volume` */
  method MedianDollarVolume(bars: seq<Bar>) returns (median: Number)
    requires bars != []
    requires ProductPrecision(bars) <= MAX_PREC
    requires |bars| % 2 == 0 ==> AverageHolds(bars)
    ensures var scale := FinestExponent(bars);
            && (forall i :: 0 <= i < |bars| ==> scale <= bars[i].close.exponent)
            && scale - 1 <= median.exponent
            && exists twice :: 10 * twice == 2 * Scaled(median, scale - 1) && IsTwiceMedian(DollarsAt(bars, scale), twice)
  {
    hide Sort, Scaled, Rounded, Sum, Half, Power10, Digits;
    var scale := FinestExponent(bars);
    forall i | 0 <= i < |bars| ensures scale <= bars[i].close.exponent { FinestIsFinest(bars, i); }
    var precision := Min(MAX_PREC, ProductPrecision(bars));
    EnoughForEach(bars, 0);
    var products: seq<Number> := [];
    for i := 0 to |bars|
      invariant products == Products(bars)[..i]
    {
      EnoughForEach(bars, i);
      ProductsAreExact(bars[i], precision);
      products := products + [Rounded(Product(bars[i]), precision)];
    }
    assert products == Products(bars);
    var dollars := Sort(products, ValueKey(scale));
    SortedDollars(bars, scale);
    var middle := |dollars| / 2;
    ghost var twice := MiddleTwice(AtScale(dollars, scale));
    assert IsTwiceMedian(DollarsAt(bars, scale), twice);
    if |dollars| % 2 == 1 {
      FinerByTen(dollars[middle], scale);
      return dollars[middle];
    }
    var lower, upper := dollars[middle - 1], dollars[middle];
    AverageIsExact(lower, upper);
    var exact := Min(MAX_PREC, Max(1, AveragePrecision(lower, upper)));
    var sum := Rounded(Sum(lower, upper), exact);
    median := Rounded(Half(sum), exact);
    AverageAtScale(lower, upper, scale);
  }

  lemma FinerByTen(x: Number, scale: int)
    requires scale <= x.exponent
    ensures Scaled(x, scale - 1) == 10 * Scaled(x, scale)
  {
  }

  lemma CoarserScale(x: Number, middle: int, scale: int)
    requires scale <= middle <= x.exponent
    ensures Scaled(x, scale) == Scaled(x, middle) * Power10(middle - scale)
  {
    PowerAdds(x.exponent - middle, middle - scale);
  }

  lemma AverageAtScale(x: Number, y: Number, scale: int)
    requires scale <= x.exponent && scale <= y.exponent
    ensures scale - 1 <= Half(Sum(x, y)).exponent
    ensures 2 * Scaled(Half(Sum(x, y)), scale - 1) == 10 * (Scaled(x, scale) + Scaled(y, scale))
  {
    hide Scaled, Power10, Half;
    var s := Sum(x, y);
    HalfIsHalf(s);
    CoarserScale(Half(s), s.exponent - 1, scale - 1);
    CoarserScale(s, s.exponent - 1, scale - 1);
    CoarserScale(x, s.exponent, scale);
    CoarserScale(y, s.exponent, scale);
    FinerByTen(s, scale);
    ScaledToItself(s);
    CoarserScale(s, s.exponent, scale);
    Distributes(Scaled(x, s.exponent), Scaled(y, s.exponent), Power10(s.exponent - scale));
  }

  lemma ScaledToItself(x: Number)
    ensures Scaled(x, x.exponent) == x.coefficient
  {
  }

  lemma Distributes(a: nat, b: nat, m: nat)
    ensures (a + b) * m == a * m + b * m
  {
  }
}
