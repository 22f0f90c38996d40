/** Numeric ground shared by the whole engine.

    Go's float64 is modelled as exact real arithmetic. The routines of Go's
    `math` package that the engine calls (Tan, Cos, Exp, Pow, Log10, Sqrt) are
    not computed: they are the fields of a `Library` value that every operation
    receives as a parameter, so nothing is assumed about them. A lemma that
    needs a fact about one of them (Pow10(0) == 1, Sqrt(2)^2 == 2, a monotone
    Log10, ...) states it in its `requires` through the law predicates below. */
module Numerics {

  /** The floating-point library, left uninterpreted. */
  datatype Library = Library(
    tan: real -> real,
    cos: real -> real,
    exp: real -> real,
    pow: (real, real) -> real,
    log10: real -> real,
    sqrt: real -> real)

  /** math.Pi */
  const Pi: real := 3.14159265358979323846264338327950288419716939937510582097494459

  /** Smallest positive normal float32, used as the denormal threshold. */
  const FLTMinPlus: real := 1.175494351e-38
  const FLTMinMinus: real := -1.175494351e-38

  /** math.Pow(b, e) */
  function Pow(lib: Library, b: real, e: real): real
  {
    lib.pow(b, e)
  }

  /** math.Pow(10, x) */
  function Pow10(lib: Library, x: real): real
  {
    Pow(lib, 10.0, x)
  }

  /** math.Sqrt(2) */
  function Sqrt2(lib: Library): real
  {
    lib.sqrt(2.0)
  }

  /** math.Tan */
  function Tan(lib: Library, x: real): real
  {
    lib.tan(x)
  }

  /** math.Cos */
  function Cos(lib: Library, x: real): real
  {
    lib.cos(x)
  }

  function Exp(lib: Library, x: real): real
  {
    lib.exp(x)
  }

  function Log10(lib: Library, x: real): real
  {
    lib.log10(x)
  }

  /** What is true of 10^x over the reals and is used here: 10^0 = 1,
      10^x > 0, and 10^x <= 1 for x <= 0. */
  ghost predicate Pow10Laws(lib: Library)
  {
    Pow10(lib, 0.0) == 1.0 &&
    (forall a :: 0.0 < Pow10(lib, a)) &&
    (forall a :: a <= 0.0 ==> Pow10(lib, a) <= 1.0)
  }

  ghost predicate Sqrt2Law(lib: Library)
  {
    Sqrt2(lib) * Sqrt2(lib) == 2.0
  }

  /** e^a lies in (0, 1] for a <= 0. */
  ghost predicate ExpLaws(lib: Library)
  {
    forall a :: a <= 0.0 ==> 0.0 < Exp(lib, a) <= 1.0
  }

  /** log10(1) = 0 and log10 is monotone on the positive reals. */
  ghost predicate Log10Laws(lib: Library)
  {
    Log10(lib, 1.0) == 0.0 &&
    forall a, b :: 0.0 < a <= b ==> Log10(lib, a) <= Log10(lib, b)
  }

  /** v^0.5 is the non-negative square root of v >= 0. */
  ghost predicate HalfPowerLaw(lib: Library)
  {
    forall v :: 0.0 <= v ==> 0.0 <= Pow(lib, v, 0.5) && Pow(lib, v, 0.5) * Pow(lib, v, 0.5) == v
  }

  function Abs(x: real): real
  {
    if x < 0.0 then -x else x
  }

  /** math.Min */
  function Min(a: real, b: real): real
  {
    if a <= b then a else b
  }

  /** math.Max */
  function Max(a: real, b: real): real
  {
    if a >= b then a else b
  }

  /** Go's conversion int(x) of a float: truncation toward zero. */
  function TruncToInt(x: real): (r: int)
    ensures Abs(r as real) <= Abs(x) < Abs(r as real) + 1.0
    ensures 0.0 <= x ==> 0 <= r
    ensures x <= 0.0 ==> r <= 0
  {
    if x >= 0.0 then x.Floor else -((-x).Floor)
  }

  /** The denormal flush: a value strictly between FLTMinMinus and
      FLTMinPlus, other than 0, is replaced by exactly 0; every other value
      is kept. */
  function FlushDenormal(y: real): (r: real)
    ensures r == 0.0 || r == y
    ensures r == 0.0 <==> FLTMinMinus < y < FLTMinPlus
  {
    if y > 0.0 && y < FLTMinPlus then 0.0
    else if y < 0.0 && y > FLTMinMinus then 0.0
    else y
  }

  /** c*d lies between 0 and d for c in [0, 1]. */
  lemma ScaledBetween(c: real, d: real)
    requires 0.0 <= c <= 1.0
    ensures Min(0.0, d) <= c * d <= Max(0.0, d)
  {
    assert d - c * d == (1.0 - c) * d;
    if d >= 0.0 {
      assert 0.0 <= (1.0 - c) * d;
      assert 0.0 <= c * d;
    } else {
      assert (1.0 - c) * (-d) >= 0.0;
      assert c * (-d) >= 0.0;
    }
  }

  /** A gain g in [0, 1] and a non-negative o scale a to at most o*|a| in magnitude. */
  lemma AttenuatedBelow(g: real, a: real, o: real)
    requires 0.0 <= g <= 1.0 && 0.0 <= o
    ensures Abs(g * a * o) <= o * Abs(a)
  {
    var m := Abs(a) * o;
    ProductNonNegative(Abs(a), o);
    assert Abs(g * a * o) == g * m by {
      if a < 0.0 {
        assert g * a * o == -(g * m);
        ProductNonNegative(g, m);
      } else {
        ProductNonNegative(g, m);
      }
    }
    ScaledBetween(g, m);
  }

  // The lemmas below state no property of the model. Each one lets the
  // solver take a single step through * or / that it does not find by itself
  // (equal factors give equal products, a quotient of a sum, and so on).

  lemma MulLeft(a: real, b: real, x: real)
    requires a == b
    ensures a * x == b * x
  {
  }

  lemma MulRight(x: real, a: real, b: real)
    requires a == b
    ensures x * a == x * b
  {
  }

  lemma MulZeroRight(a: real, b: real)
    requires b == 0.0
    ensures a * b == 0.0
  {
  }

  lemma ProductNonNegative(a: real, b: real)
    requires 0.0 <= a && 0.0 <= b
    ensures 0.0 <= a * b
  {
  }

  lemma DivAtMostOne(a: real, b: real)
    requires 0.0 <= a <= b && 0.0 < b
    ensures 0.0 <= a / b <= 1.0
    ensures 0.0 < a ==> 0.0 < a / b
  {
  }

  lemma DivScale(a: real, b: real)
    requires b != 0.0
    ensures a * (1.0 / b) == a / b
  {
  }

  lemma DivSelf(a: real)
    requires a != 0.0
    ensures a / a == 1.0
  {
  }

  lemma DivAdd(a: real, b: real, w: real)
    requires w != 0.0
    ensures a / w + b / w == (a + b) / w
  {
  }

  lemma DivRatio(n: real, a: real, b: real)
    requires a != 0.0 && b != 0.0
    ensures n / a / (b / a) == n / b
  {
  }

  lemma ReciprocalQuotient(v: real, q: real)
    requires v != 0.0 && q != 0.0
    ensures (1.0 / v) * q != 0.0 && 1.0 / ((1.0 / v) * q) == v / q
  {
    var r := 1.0 / v;
    assert r * v == 1.0;
    assert (r * q) * (v / q) == r * v * (q / q);
  }

  lemma DivNeg(a: real, w: real)
    requires w != 0.0
    ensures a / (-w) == (-a) / w
  {
  }

  lemma PositiveProduct(x: real, y: real)
    requires 0.0 < x && 0.0 < y
    ensures 0.0 < x * y
  {
  }

  // Facts about squares and square roots used by the filter and detector lemmas.

  lemma SquareBelow(u: real, v: real)
    requires 0.0 <= u < v
    ensures u * u < v * v
  {
    PositiveProduct(v - u, v + u);
    assert (v - u) * (v + u) == v * v - u * u;
  }

  /** A non-negative number has one non-negative square root. */
  lemma SquareRootUnique(p: real, a: real)
    requires 0.0 <= p && 0.0 <= a && p * p == a * a
    ensures p == a
  {
    if p < a {
      SquareBelow(p, a);
    } else if a < p {
      SquareBelow(a, p);
    }
  }

  /** 1 + s*C + C^2 > 0 for every C when s*s == 2: it equals (C + s/2)^2 + 1/2. */
  lemma ButterworthDenominatorPositive(s: real, c: real)
    requires s * s == 2.0
    ensures 1.0 + s * c + c * c > 0.0
  {
    var h := c + s / 2.0;
    assert h * h == c * c + s * c + s * s / 4.0;
    assert h * h >= 0.0;
  }
}
