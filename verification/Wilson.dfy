/**
 The Wilson score interval: the numbers the release gate and the engine compute are exactly the
 rates that the score test does not reject.
 */
module Wilson {
  import opened Outcomes
  import opened RealFacts

  datatype Bounds = Bounds(low: real, high: real)

  predicate IsInteger(x: real) {
    x.Floor as real == x
  }

  const MAX_SAFE_INTEGER: real := 9007199254740991.0

  predicate IsSafeInteger(x: real) {
    IsInteger(x) && -MAX_SAFE_INTEGER <= x <= MAX_SAFE_INTEGER
  }

  /** `Math.round` rounds halves up. */
  function Round(x: real): int {
    (x + 0.5).Floor
  }

  /** `WILSON_Z[Math.round(confidence * 100) / 100]` */
  function WilsonZ(confidence: real): Option<real> {
    var percent := Round(confidence * 100.0);
    if percent == 90 then Some(1.644854)
    else if percent == 95 then Some(1.959964)
    else if percent == 99 then Some(2.575829)
    else None
  }

  /** What both programs compute, `d` being `1 + z * z / n`. */
  function Center(z: real, s: real, n: real): real
    requires n >= 1.0
  {
    (s / n + z * z / (2.0 * n)) / (1.0 + z * z / n)
  }

  function Spread(sqrt: real -> real, z: real, s: real, n: real): real
    requires n >= 1.0
  {
    var p := s / n;
    z * sqrt(p * (1.0 - p) / n + z * z / (4.0 * n * n)) / (1.0 + z * z / n)
  }

  /** The release gate's function. */
  function WilsonBounds(sqrt: real -> real, successes: real, total: real, confidence: real): Option<Bounds> {
    if !IsSafeInteger(successes) || !IsSafeInteger(total) || total <= 0.0 || successes < 0.0 || successes > total then
      None
    else
      match WilsonZ(confidence)
      case None => None
      case Some(z) =>
        WholeIsOne(total);
        var center, spread := Center(z, successes, total), Spread(sqrt, z, successes, total);
        Some(Bounds(center - spread, center + spread))
  }

  lemma WholeIsOne(x: real)
    requires IsInteger(x) && x > 0.0
    ensures x >= 1.0
  {
  }

  /** The engine's copy: another table for `z`, and clamps. */
  function EngineBounds(sqrt: real -> real, successes: real, total: real, confidence: real): Bounds
    requires IsInteger(total)
  {
    if total <= 0.0 then Bounds(0.0, 0.0)
    else
      WholeIsOne(total);
      var z := if confidence >= 0.95 then 1.959963984540054 else 1.6448536269514722;
      var low := Center(z, successes, total) - Spread(sqrt, z, successes, total);
      var high := Center(z, successes, total) + Spread(sqrt, z, successes, total);
      Bounds(if low > 0.0 then low else 0.0, if high < 1.0 then high else 1.0)
  }

  // ----- The score test -----

  /** The test of rate `x` on `s` successes in `n` trials does not reject at `z` standard errors. */
  predicate Accepts(z: real, s: real, n: real, x: real)
    requires n >= 1.0
  {
    (s / n - x) * (s / n - x) <= z * z * (x * (1.0 - x)) / n
  }

  predicate Counts(z: real, s: real, n: real) {
    z > 0.0 && n >= 1.0 && 0.0 <= s <= n
  }

  lemma Complete(p: real, u: real, x: real)
    ensures
      var c, d := p + u / 2.0, 1.0 + u;
      (d * x - c) * (d * x - c) - (u * (p * (1.0 - p)) + u * u / 4.0)
      == d * ((p - x) * (p - x) - u * (x * (1.0 - x)))
  {
    var c, d := p + u / 2.0, 1.0 + u;
    assert c * c == p * p + p * u + u * u / 4.0;
    assert (d * x - c) * (d * x - c) == d * d * (x * x) - 2.0 * (d * (c * x)) + c * c;
    assert c * x == p * x + u * x / 2.0;
    assert (p - x) * (p - x) == p * p - 2.0 * (p * x) + x * x;
    assert u * (x * (1.0 - x)) == u * x - u * (x * x);
    assert d * ((p - x) * (p - x) - u * (x * (1.0 - x)))
        == d * (d * (x * x) - 2.0 * (c * x) + p * p);
  }

  /** The rate, and the unit `u = z * z / n`. */
  lemma Units(z: real, s: real, n: real)
    requires Counts(z, s, n)
    ensures
      var p, u := s / n, z * z / n;
      0.0 <= p <= 1.0 && u > 0.0 && p * n == s && u * n == z * z && p * (1.0 - p) >= 0.0
  {
    var p := s / n;
    QuotientWithin(0.0, s, 1.0, n);
    UnitPositive(z, n);
    ProductSign(p, 1.0 - p);
  }

  lemma UnitPositive(z: real, n: real)
    requires z > 0.0 && n >= 1.0
    ensures z * z / n > 0.0
  {
    LargerSquare(z, 0.0);
    var w := z * z;
    assert w > 0.0;
    PositiveQuotient(w, n);
  }

  lemma PositiveQuotient(x: real, n: real)
    requires x > 0.0 && n > 0.0
    ensures x / n > 0.0 && (x / n) * n == x
  {
    QuotientSign(x, n);
  }

  /** The part under the root, times `z * z`. */
  lemma Radicand(z: real, s: real, n: real)
    requires Counts(z, s, n)
    ensures
      var p, u := s / n, z * z / n;
      var q := p * (1.0 - p) / n + z * z / (4.0 * n * n);
      q >= 0.0 && z * z * q == u * (p * (1.0 - p)) + u * u / 4.0
  {
    var p, u := s / n, z * z / n;
    Units(z, s, n);
    var v, w := p * (1.0 - p), z * z;
    ProductSign(n, n);
    QuotientSign(v, n);
    QuotientSign(w, 4.0 * n * n);
    FirstPart(w, v, n);
    SecondPart(w, n);
    Distribute(w, v / n, w / (4.0 * n * n));
  }

  lemma FirstPart(w: real, v: real, n: real)
    requires n >= 1.0
    ensures w * (v / n) == (w / n) * v
  {
    var a, u := v / n, w / n;
    assert a * n == v && u * n == w;
    assert w * a == u * (n * a);
  }

  lemma SecondPart(w: real, n: real)
    requires n >= 1.0
    ensures 4.0 * n * n > 0.0 && w * (w / (4.0 * n * n)) == (w / n) * (w / n) / 4.0
  {
    ProductSign(n, n);
    var b, u := w / (4.0 * n * n), w / n;
    assert b * (4.0 * n * n) == w && u * n == w;
    assert (4.0 * (n * b) - u) * n == 0.0;
    Cancel(4.0 * (n * b) - u, n);
    assert w * b == u * (n * b);
  }

  lemma HalfUnit(z: real, n: real)
    requires n >= 1.0
    ensures z * z / (2.0 * n) == z * z / n / 2.0
  {
    var u := z * z / n;
    assert (u / 2.0) * (2.0 * n) == z * z;
    QuotientUnique(z * z, 2.0 * n, u / 2.0);
  }

  function RootPart(sqrt: real -> real, s: real, n: real, z: real): real
    requires n >= 1.0
  {
    var p := s / n;
    sqrt(p * (1.0 - p) / n + z * z / (4.0 * n * n))
  }

  lemma RootSquare(sqrt: real -> real, z: real, s: real, n: real)
    requires IsSqrt(sqrt) && Counts(z, s, n)
    ensures
      var p, u, r := s / n, z * z / n, z * RootPart(sqrt, s, n, z);
      r >= 0.0 && r * r == u * (p * (1.0 - p)) + u * u / 4.0
  {
    var p := s / n;
    Radicand(z, s, n);
    SquareOfRoot(sqrt, z, p * (1.0 - p) / n + z * z / (4.0 * n * n));
  }

  lemma SquareOfRoot(sqrt: real -> real, z: real, q: real)
    requires IsSqrt(sqrt) && z > 0.0 && q >= 0.0
    ensures z * sqrt(q) >= 0.0 && (z * sqrt(q)) * (z * sqrt(q)) == z * z * q
  {
    var root := sqrt(q);
    assert root >= 0.0 && root * root == q;
    ProductSign(z, root);
    assert (z * root) * (z * root) == z * z * (root * root);
  }

  /** The interval by its ends, scaled up: `d * low == c - r` and `d * high == c + r`. */
  lemma ScaledEnds(sqrt: real -> real, z: real, s: real, n: real)
    requires Counts(z, s, n)
    ensures
      var p, u := s / n, z * z / n;
      var c, d, r := p + u / 2.0, 1.0 + u, z * RootPart(sqrt, s, n, z);
      d > 0.0 && ScaledTo(d, Low(sqrt, z, s, n), High(sqrt, z, s, n), c, r)
  {
    var p, u := s / n, z * z / n;
    Units(z, s, n);
    HalfUnit(z, n);
    var c, d, r := p + u / 2.0, 1.0 + u, z * RootPart(sqrt, s, n, z);
    var center, spread := Center(z, s, n), Spread(sqrt, z, s, n);
    assert center == c / d && spread == r / d;
    hide ScaledTo, Center, Spread;
    EndsScale(center, spread, c, d, r);
  }

  lemma EndsScale(center: real, spread: real, c: real, d: real, r: real)
    requires d > 0.0 && center == c / d && spread == r / d
    ensures ScaledTo(d, center - spread, center + spread, c, r)
  {
    assert center * d == c && spread * d == r;
  }

  function Low(sqrt: real -> real, z: real, s: real, n: real): real
    requires n >= 1.0
  {
    Center(z, s, n) - Spread(sqrt, z, s, n)
  }

  function High(sqrt: real -> real, z: real, s: real, n: real): real
    requires n >= 1.0
  {
    Center(z, s, n) + Spread(sqrt, z, s, n)
  }

  /** The interval inverts the score test. */
  lemma IntervalInvertsTest(sqrt: real -> real, z: real, s: real, n: real, x: real)
    requires IsSqrt(sqrt) && Counts(z, s, n)
    ensures Low(sqrt, z, s, n) <= x <= High(sqrt, z, s, n) <==> Accepts(z, s, n, x)
  {
    var p, u := s / n, z * z / n;
    var c, d, r := p + u / 2.0, 1.0 + u, z * RootPart(sqrt, s, n, z);
    ScaledEnds(sqrt, z, s, n);
    RootSquare(sqrt, z, s, n);
    Units(z, s, n);
    TestUnit(z, n, x);
    InversionAlgebra(p, u, r, x, Low(sqrt, z, s, n), High(sqrt, z, s, n));
  }

  /** The ends of the interval, scaled by its common denominator. */
  predicate ScaledTo(d: real, low: real, high: real, c: real, r: real) {
    low * d + high * d == 2.0 * c && high * d - low * d == 2.0 * r
  }

  /** The square under the root of the spread. */
  predicate RootOf(p: real, u: real, r: real) {
    r * r == u * (p * (1.0 - p)) + u * u / 4.0
  }

  predicate UnitAccepts(p: real, u: real, x: real) {
    (p - x) * (p - x) <= u * (x * (1.0 - x))
  }

  predicate Reaches(d: real, x: real, c: real, r: real) {
    Squared(d, x, c) <= r * r
  }

  lemma InversionAlgebra(p: real, u: real, r: real, x: real, low: real, high: real)
    requires u > 0.0 && r >= 0.0 && RootOf(p, u, r) && ScaledTo(1.0 + u, low, high, p + u / 2.0, r)
    ensures low <= x <= high <==> UnitAccepts(p, u, x)
  {
    hide RootOf, ScaledTo, UnitAccepts, Reaches;
    EndsByOrder(1.0 + u, low, high, x, p + u / 2.0, r);
    TestScaled(p, u, r, x, p + u / 2.0, 1.0 + u);
  }

  function Squared(d: real, x: real, c: real): real {
    (d * x - c) * (d * x - c)
  }

  lemma TestScaled(p: real, u: real, r: real, x: real, c: real, d: real)
    requires u > 0.0 && RootOf(p, u, r) && c == p + u / 2.0 && d == 1.0 + u
    ensures Reaches(d, x, c, r) <==> UnitAccepts(p, u, x)
  {
    Complete(p, u, x);
    var gap := (p - x) * (p - x) - u * (x * (1.0 - x));
    ScaledOrder(d, gap, 0.0);
    assert gap * d == d * gap;
  }

  lemma EndsByOrder(d: real, low: real, high: real, x: real, c: real, r: real)
    requires d > 0.0 && r >= 0.0 && ScaledTo(d, low, high, c, r)
    ensures low <= x <= high <==> Reaches(d, x, c, r)
  {
    ScaledOrder(d, low, x);
    ScaledOrder(d, x, high);
    SquareBound(d * x - c, r);
  }

  lemma TestUnit(z: real, n: real, x: real)
    requires n >= 1.0
    ensures z * z * (x * (1.0 - x)) / n == z * z / n * (x * (1.0 - x))
  {
    var u := z * z / n;
    assert u * n == z * z;
    assert (u * (x * (1.0 - x))) * n == z * z * (x * (1.0 - x));
  }

  /** The interval lies in [0, 1] and holds the observed rate. */
  lemma IntervalHoldsRate(sqrt: real -> real, z: real, s: real, n: real)
    requires IsSqrt(sqrt) && Counts(z, s, n)
    ensures 0.0 <= Low(sqrt, z, s, n) <= s / n <= High(sqrt, z, s, n) <= 1.0
  {
    var p, low, high := s / n, Low(sqrt, z, s, n), High(sqrt, z, s, n);
    RateAccepted(z, s, n);
    IntervalInvertsTest(sqrt, z, s, n, p);
    IntervalInvertsTest(sqrt, z, s, n, low);
    AcceptedIsRate(z, s, n, low);
    IntervalInvertsTest(sqrt, z, s, n, high);
    AcceptedIsRate(z, s, n, high);
  }

  lemma RateAccepted(z: real, s: real, n: real)
    requires Counts(z, s, n)
    ensures Accepts(z, s, n, s / n)
  {
    var p := s / n;
    Units(z, s, n);
    TestUnit(z, n, p);
    ProductSign(z * z / n, p * (1.0 - p));
  }

  lemma AcceptedIsRate(z: real, s: real, n: real, x: real)
    requires Counts(z, s, n) && Accepts(z, s, n, x)
    ensures 0.0 <= x <= 1.0
  {
    Units(z, s, n);
    TestUnit(z, n, x);
    SquareSign(s / n - x);
    PositiveFactor(z * z / n, x * (1.0 - x));
    UnitProduct(x);
  }

  lemma PositiveFactor(u: real, y: real)
    requires u > 0.0 && u * y >= 0.0
    ensures y >= 0.0
  {
    assert u * (-y) == -(u * y);
    if y < 0.0 { ProductPositive(u, -y); }
  }

  lemma UnitProduct(x: real)
    requires x * (1.0 - x) >= 0.0
    ensures 0.0 <= x <= 1.0
  {
    assert (-x) * (1.0 - x) == -(x * (1.0 - x));
    assert x * (x - 1.0) == -(x * (1.0 - x));
    if x < 0.0 {
      ProductPositive(-x, 1.0 - x);
    } else if x > 1.0 {
      ProductPositive(x, x - 1.0);
    }
  }

  lemma MirrorTest(z: real, s: real, n: real, x: real)
    requires Counts(z, s, n)
    ensures Accepts(z, s, n, x) <==> Accepts(z, n - s, n, 1.0 - x)
  {
    var p, p' := s / n, (n - s) / n;
    assert p * n == s && p' * n == n - s;
    assert (p + p' - 1.0) * n == 0.0;
    Cancel(p + p' - 1.0, n);
    assert (p' - (1.0 - x)) * (p' - (1.0 - x)) == (p - x) * (p - x);
    assert (1.0 - x) * (1.0 - (1.0 - x)) == x * (1.0 - x);
  }

  /** Swapping successes and failures mirrors the interval. */
  lemma IntervalMirrors(sqrt: real -> real, z: real, s: real, n: real)
    requires IsSqrt(sqrt) && Counts(z, s, n)
    ensures Low(sqrt, z, s, n) == 1.0 - High(sqrt, z, n - s, n)
  {
    var low, high := Low(sqrt, z, s, n), High(sqrt, z, n - s, n);
    IntervalHoldsRate(sqrt, z, s, n);
    IntervalHoldsRate(sqrt, z, n - s, n);
    IntervalInvertsTest(sqrt, z, s, n, low);
    MirrorTest(z, s, n, low);
    IntervalInvertsTest(sqrt, z, n - s, n, 1.0 - low);
    IntervalInvertsTest(sqrt, z, n - s, n, high);
    MirrorTest(z, s, n, 1.0 - high);
    IntervalInvertsTest(sqrt, z, s, n, 1.0 - high);
  }

  /** More successes never lower the floor. */
  lemma LowMonotone(sqrt: real -> real, z: real, s: real, t: real, n: real)
    requires IsSqrt(sqrt) && Counts(z, s, n) && Counts(z, t, n) && s <= t
    ensures Low(sqrt, z, s, n) <= Low(sqrt, z, t, n)
  {
    var x := Low(sqrt, z, t, n);
    IntervalHoldsRate(sqrt, z, s, n);
    IntervalHoldsRate(sqrt, z, t, n);
    if x < Low(sqrt, z, s, n) {
      RateMonotone(s, t, n);
      IntervalInvertsTest(sqrt, z, t, n, x);
      SmallerSquare(s / n - x, t / n - x);
      IntervalInvertsTest(sqrt, z, s, n, x);
      assert false;
    }
  }

  lemma RateMonotone(s: real, t: real, n: real)
    requires n >= 1.0 && s <= t
    ensures s / n <= t / n
  {
    var p, q := s / n, t / n;
    assert p * n == s && q * n == t;
    ScaledOrder(n, p, q);
  }

  lemma HighMonotone(sqrt: real -> real, z: real, s: real, t: real, n: real)
    requires IsSqrt(sqrt) && Counts(z, s, n) && Counts(z, t, n) && s <= t
    ensures High(sqrt, z, s, n) <= High(sqrt, z, t, n)
  {
    IntervalMirrors(sqrt, z, n - s, n);
    IntervalMirrors(sqrt, z, n - t, n);
    assert n - (n - s) == s && n - (n - t) == t;
    LowMonotone(sqrt, z, n - t, n - s, n);
  }

  /** On real counts the engine's clamps change nothing. */
  lemma ClampsAreIdle(sqrt: real -> real, s: real, n: real, confidence: real)
    requires IsSqrt(sqrt) && IsInteger(n) && n > 0.0 && 0.0 <= s <= n
    ensures
      var z := if confidence >= 0.95 then 1.959963984540054 else 1.6448536269514722;
      n >= 1.0 && EngineBounds(sqrt, s, n, confidence) == Bounds(Low(sqrt, z, s, n), High(sqrt, z, s, n))
  {
    WholeIsOne(n);
    var z := if confidence >= 0.95 then 1.959963984540054 else 1.6448536269514722;
    IntervalHoldsRate(sqrt, z, s, n);
  }

  /** The gate's function on counts: exactly the accepted rates. */
  lemma BoundsInvertTest(sqrt: real -> real, s: real, n: real, confidence: real, x: real)
    requires IsSqrt(sqrt) && WilsonBounds(sqrt, s, n, confidence).Some?
    ensures
      var b, z := WilsonBounds(sqrt, s, n, confidence).value, WilsonZ(confidence).value;
      && n >= 1.0 && (b.low <= x <= b.high <==> Accepts(z, s, n, x))
      && 0.0 <= b.low <= s / n <= b.high <= 1.0
  {
    WholeIsOne(n);
    var z := WilsonZ(confidence).value;
    IntervalInvertsTest(sqrt, z, s, n, x);
    IntervalHoldsRate(sqrt, z, s, n);
  }

  lemma WiderAccepts(z: real, w: real, s: real, n: real, x: real)
    requires Counts(z, s, n) && z <= w && Accepts(z, s, n, x)
    ensures Accepts(w, s, n, x)
  {
    AcceptedIsRate(z, s, n, x);
    Units(z, s, n);
    Units(w, s, n);
    TestUnit(z, n, x);
    TestUnit(w, n, x);
    SmallerSquare(z, w);
    UnitOrder(z, w, n);
    ProductSign(x, 1.0 - x);
    ProductSign(w * w / n - z * z / n, x * (1.0 - x));
    Difference(w * w / n, z * z / n, x * (1.0 - x));
  }

  lemma Difference(u: real, v: real, y: real)
    ensures (u - v) * y == u * y - v * y
  {
  }

  lemma UnitOrder(z: real, w: real, n: real)
    requires n >= 1.0 && z * z <= w * w
    ensures z * z / n <= w * w / n
  {
    var u, v := z * z / n, w * w / n;
    assert u * n == z * z && v * n == w * w;
    ScaledOrder(n, u, v);
  }

  lemma ZGrows(confidence: real, more: real)
    requires confidence <= more && WilsonZ(confidence).Some? && WilsonZ(more).Some?
    ensures 0.0 < WilsonZ(confidence).value <= WilsonZ(more).value
  {
    assert Round(confidence * 100.0) <= Round(more * 100.0);
  }

  /** A larger confidence never narrows the interval. */
  lemma ConfidenceWidens(sqrt: real -> real, s: real, n: real, confidence: real, more: real)
    requires IsSqrt(sqrt) && confidence <= more
    requires WilsonBounds(sqrt, s, n, confidence).Some? && WilsonBounds(sqrt, s, n, more).Some?
    ensures
      var b, wide := WilsonBounds(sqrt, s, n, confidence).value, WilsonBounds(sqrt, s, n, more).value;
      wide.low <= b.low && b.high <= wide.high
  {
    hide Accepts, IsSqrt, Low, High, Center, Spread;
    var b := WilsonBounds(sqrt, s, n, confidence).value;
    ZGrows(confidence, more);
    BoundsInvertTest(sqrt, s, n, confidence, b.low);
    BoundsInvertTest(sqrt, s, n, confidence, b.high);
    BoundsInvertTest(sqrt, s, n, more, b.low);
    BoundsInvertTest(sqrt, s, n, more, b.high);
    var z, w := WilsonZ(confidence).value, WilsonZ(more).value;
    WiderAccepts(z, w, s, n, b.low);
    WiderAccepts(z, w, s, n, b.high);
  }
}
