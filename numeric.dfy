/**
 * Numeric helpers shared by the engine model.
 *
 * Python floats are modelled as `real` (rounding is ignored).  The engine takes
 * cos, sin, atan2 and hypot from Python's math module; those have no closed form
 * in Dafny, so they are gathered in a `Trig` value that every operation needing
 * them receives as a parameter.  `Trig.Sound()` lists the only facts about them
 * that any proof here relies on.
 */
module Numeric {

  /** Python's two-argument `min` on floats. */
  function Min(a: real, b: real): (r: real)
    ensures r <= a && r <= b
    ensures r == a || r == b
  {
    if a <= b then a else b
  }

  /** Python's two-argument `max` on floats. */
  function Max(a: real, b: real): (r: real)
    ensures a <= r && b <= r
    ensures r == a || r == b
  {
    if a >= b then a else b
  }

  /** Python's `abs` on floats. */
  function Abs(a: real): (r: real)
    ensures 0.0 <= r
    ensures r == a || r == -a
  {
    if a < 0.0 then -a else a
  }

  /** Python's float `x % 360`: the result takes the sign of the divisor,
      so it always lies in [0, 360) and differs from x by a whole number of turns. */
  function Mod360(x: real): (r: real)
    ensures 0.0 <= r < 360.0
    ensures ((x - r) / 360.0).Floor as real == (x - r) / 360.0
  {
    var q := (x / 360.0).Floor;
    assert (x - (x - 360.0 * q as real)) / 360.0 == q as real;
    x - 360.0 * q as real
  }

  /** The signed difference `(d + 180) % 360 - 180` used by the engine to bring an
      angle difference into [-180, 180). */
  function WrapDegrees(d: real): (r: real)
    ensures -180.0 <= r < 180.0
  {
    Mod360(d + 180.0) - 180.0
  }

  /** A whole number of turns added to the argument does not change `Mod360`. */
  lemma Mod360Periodic(x: real, k: int)
    ensures Mod360(x + 360.0 * k as real) == Mod360(x)
  {
    var q := (x / 360.0).Floor;
    var y := x + 360.0 * k as real;
    assert y / 360.0 == x / 360.0 + k as real;
    assert (y / 360.0).Floor == q + k;
  }

  /** `Mod360` is the identity on [0, 360). */
  lemma Mod360Identity(x: real)
    requires 0.0 <= x < 360.0
    ensures Mod360(x) == x
  {
    assert (x / 360.0).Floor == 0;
  }

  /** Any angle is its wrapped difference plus a whole number of turns. */
  lemma WrapDegreesSplit(d: real) returns (k: int)
    ensures d == WrapDegrees(d) + 360.0 * k as real
  {
    var m := Mod360(d + 180.0);
    k := ((d + 180.0 - m) / 360.0).Floor;
    assert d + 180.0 - m == 360.0 * k as real;
  }

  /** Wrapping gives back any angle of [-180, 180) shifted by whole turns. */
  lemma WrapDegreesShift(w: real, k: int)
    requires -180.0 <= w < 180.0
    ensures WrapDegrees(w + 360.0 * k as real) == w
  {
    assert w + 360.0 * k as real + 180.0 == (w + 180.0) + 360.0 * k as real;
    Mod360Periodic(w + 180.0, k);
    Mod360Identity(w + 180.0);
  }

  /** Wrapping a negated angle negates the result, except at -180 which maps to itself;
      either way the magnitude is the same. */
  lemma WrapDegreesNegate(d: real)
    ensures Abs(WrapDegrees(-d)) == Abs(WrapDegrees(d))
  {
    var k := WrapDegreesSplit(d);
    var w := WrapDegrees(d);
    if w == -180.0 {
      assert -d == -180.0 + 360.0 * (1 - k) as real;
      WrapDegreesShift(-180.0, 1 - k);
    } else {
      assert -d == -w + 360.0 * (-k) as real;
      WrapDegreesShift(-w, -k);
    }
  }

  /**
   * The math-module functions the engine uses, given as function values.  `Cos`
   * and `Sin` take DEGREES (they stand for `math.cos(math.radians(a))` and
   * `math.sin(math.radians(a))`), `SinRad` is `math.sin` on radians, `Sqrt`
   * underlies `math.hypot`, and `Atan2(dy, dx)` stands for
   * `math.degrees(math.atan2(dy, dx))`.
   */
  datatype Trig = Trig(
    cosDeg: real -> real,
    sinDeg: real -> real,
    sinRadians: real -> real,
    squareRoot: real -> real,
    atan2Deg: (real, real) -> real)
  {
    function Cos(a: real): real { cosDeg(a) }
    function Sin(a: real): real { sinDeg(a) }
    function SinRad(a: real): real { sinRadians(a) }
    function Sqrt(v: real): real { squareRoot(v) }
    function Atan2(dy: real, dx: real): real { atan2Deg(dy, dx) }

    /** The facts about the math functions that the proofs use. */
    ghost predicate Sound() {
      && (forall a :: Sq(Cos(a)) + Sq(Sin(a)) == 1.0)
      && (forall a :: -1.0 <= SinRad(a) <= 1.0)
      && SqrtSound()
    }

    /** `Sqrt` is the non-negative square root on the non-negative reals. */
    ghost predicate SqrtSound() {
      forall v :: 0.0 <= v ==> 0.0 <= Sqrt(v) && Sq(Sqrt(v)) == v
    }

    /** `math.hypot(dx, dy)`. */
    function Hypot(dx: real, dy: real): (r: real)
      ensures SqrtSound() ==> 0.0 <= r && Sq(r) == Sq(dx) + Sq(dy)
      ensures SqrtSound() ==> (r == 0.0 <==> dx == 0.0 && dy == 0.0)
    {
      HypotFacts(this, dx, dy);
      Sqrt(Sq(dx) + Sq(dy))
    }
  }

  /** The square of a real.  It is written `x * Same(x)` so that the solver
      handles it as a product of two terms; with `x * x` literally, the solver
      in use rewrites the term and loses the sign facts the proofs below need. */
  function Sq(x: real): real {
    x * Same(x)
  }

  function Same(x: real): real {
    x
  }

  lemma MulPositive(a: real, b: real)
    requires 0.0 < a && 0.0 < b
    ensures 0.0 < a * b
  {
  }

  lemma MulNonNegative(a: real, b: real)
    requires 0.0 <= a && 0.0 <= b
    ensures 0.0 <= a * b
  {
  }

  lemma SquarePositive(a: real)
    ensures a != 0.0 ==> 0.0 < Sq(a)
    ensures 0.0 <= Sq(a)
  {
  }

  lemma SquareZero(a: real, b: real)
    requires Sq(a) + Sq(b) == 0.0
    ensures a == 0.0 && b == 0.0
  {
    SquarePositive(a);
    SquarePositive(b);
  }

  lemma HypotFacts(t: Trig, dx: real, dy: real)
    ensures t.SqrtSound() ==> 0.0 <= t.Sqrt(Sq(dx) + Sq(dy))
    ensures t.SqrtSound() ==> Sq(t.Sqrt(Sq(dx) + Sq(dy))) == Sq(dx) + Sq(dy)
    ensures t.SqrtSound() ==> (t.Sqrt(Sq(dx) + Sq(dy)) == 0.0 <==> dx == 0.0 && dy == 0.0)
  {
    SquarePositive(dx);
    SquarePositive(dy);
    if t.SqrtSound() {
      var h := t.Sqrt(Sq(dx) + Sq(dy));
      assert Sq(h) == Sq(dx) + Sq(dy);
      if h == 0.0 {
        SquareZero(dx, dy);
      }
      if dx == 0.0 && dy == 0.0 {
        SquarePositive(h);
      }
    }
  }

  /** For non-negative reals, comparing squares is comparing the values. */
  lemma SquareMonotone(a: real, b: real)
    requires 0.0 <= a && 0.0 <= b
    ensures a < b <==> Sq(a) < Sq(b)
  {
    if a < b {
      MulPositive(b - a, b + a);
      assert Sq(b) - Sq(a) == (b - a) * (b + a);
    } else {
      MulNonNegative(a - b, a + b);
      assert Sq(a) - Sq(b) == (a - b) * (a + b);
    }
  }

  /** Two non-negative reals with equal squares are equal. */
  lemma SquareInjective(a: real, b: real)
    requires 0.0 <= a && 0.0 <= b && Sq(a) == Sq(b)
    ensures a == b
  {
    if a < b { SquareMonotone(a, b); }
    if b < a { SquareMonotone(b, a); }
  }

  lemma SquareOfProduct(a: real, b: real)
    ensures Sq(a * b) == Sq(a) * Sq(b)
  {
  }

  lemma SquareOfQuotient(a: real, h: real)
    requires h != 0.0
    ensures Sq(a / h) == Sq(a) / Sq(h)
  {
  }

  lemma DivSum(x: real, y: real, d: real)
    requires d != 0.0
    ensures x / d + y / d == (x + y) / d
  {
  }

  lemma ScaledProduct(a: real, h: real)
    requires h != 0.0
    ensures (a / h) * a == Sq(a) / h
  {
  }

  lemma SquareOverSelf(h: real)
    requires h != 0.0
    ensures Sq(h) / h == h
  {
  }

  /** A vector divided by its (non-zero) length has length one and points the same way. */
  lemma ScaledToUnit(a: real, b: real, h: real)
    requires 0.0 < h && Sq(h) == Sq(a) + Sq(b)
    ensures Sq(a / h) + Sq(b / h) == 1.0
    ensures 0.0 < (a / h) * a + (b / h) * b
  {
    SquareOfQuotient(a, h);
    SquareOfQuotient(b, h);
    SquarePositive(h);
    DivSum(Sq(a), Sq(b), Sq(h));
    ScaledProduct(a, h);
    ScaledProduct(b, h);
    DivSum(Sq(a), Sq(b), h);
    SquareOverSelf(h);
  }
}
