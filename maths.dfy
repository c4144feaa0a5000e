/**
 * Numeric ground shared by both ports: real-valued 2-D components, the
 * transcendental functions the source calls (as values, so that nothing is
 * assumed of them unless a member asks for it), and the integer
 * conversions Kotlin applies to Float values.
 */
module Maths {

  /** Two real components: the state of every C++ Vector subclass. */
  datatype Vec = Vec(x: real, y: real)

  /** sin, cos, sqrt and atan2 as <cmath> and kotlin.math supply them. */
  datatype Transcendentals = Transcendentals(
    sin: real -> real,
    cos: real -> real,
    sqrt: real -> real,
    atan2: (real, real) -> real)

  /** M_PI. */
  const Pi: real := 3.141592653589793

  /** sqrt returns the non-negative square root of a non-negative argument. */
  ghost predicate SqrtSound(m: Transcendentals)
  {
    forall v: real {:trigger m.sqrt(v)} :: 0.0 <= v ==> 0.0 <= m.sqrt(v) && m.sqrt(v) * m.sqrt(v) == v
  }

  /** sin² + cos² = 1 at every angle. */
  ghost predicate PythagoreanSound(m: Transcendentals)
  {
    forall a: real {:trigger m.sin(a)} :: m.sin(a) * m.sin(a) + m.cos(a) * m.cos(a) == 1.0
  }

  /**
   * atan2(p, q) is the angle of the point (q, p): multiplied by the length
   * sqrt(p² + q²), its sine gives p back and its cosine gives q back.
   */
  ghost predicate Atan2Sound(m: Transcendentals)
  {
    forall p: real, q: real {:trigger m.atan2(p, q)} ::
      && m.sin(m.atan2(p, q)) * m.sqrt(p * p + q * q) == p
      && m.cos(m.atan2(p, q)) * m.sqrt(p * p + q * q) == q
  }

  function Abs(r: real): real { if r < 0.0 then -r else r }

  function Max(a: real, b: real): real { if a < b then b else a }

  function Min(a: real, b: real): real { if b < a then b else a }

  /** Kotlin's Float.toInt() and Double.toInt(): rounds toward zero. */
  function Trunc(r: real): (n: int)
    ensures 0.0 <= r ==> 0 <= n && n as real <= r < n as real + 1.0
    ensures r < 0.0 ==> n <= 0 && n as real - 1.0 < r <= n as real
  {
    if 0.0 <= r then r.Floor else -((-r).Floor)
  }

  /** Truncation toward zero never moves a value away from zero. */
  lemma TruncTowardZero(r: real)
    ensures Abs(Trunc(r) as real) <= Abs(r)
    ensures Trunc(-r) == -Trunc(r)
  {
  }

  /**
   * With a sound sqrt, comparing a square root against a non-negative bound
   * is the same as comparing the squared quantity against the squared bound.
   */
  lemma SqrtBelowIff(m: Transcendentals, v: real, b: real)
    requires SqrtSound(m) && 0.0 <= v && 0.0 <= b
    ensures m.sqrt(v) < b <==> v < b * b
  {
    var s := m.sqrt(v);
    assert 0.0 <= s && s * s == v;
    if s < b {
      SquareStrict(s, b);
    } else {
      SquareMonotone(b, s);
    }
  }

  lemma SquareStrict(s: real, b: real)
    requires 0.0 <= s < b
    ensures s * s < b * b
  {
    assert s * (b - s) >= 0.0;
    assert (b - s) * b > 0.0;
  }

  /** Only zero squares to zero. */
  lemma SquareZero(r: real)
    ensures r * r == 0.0 <==> r == 0.0
    ensures 0.0 <= r * r
  {
    if 0.0 < r {
      SquareStrict(0.0, r);
    } else if r < 0.0 {
      SquareStrict(0.0, -r);
      assert (-r) * (-r) == r * r;
    }
  }

  /** Two non-negative numbers with equal squares are equal. */
  lemma SquareInjective(a: real, b: real)
    requires 0.0 <= a && 0.0 <= b && a * a == b * b
    ensures a == b
  {
    if a < b {
      SquareStrict(a, b);
    } else if b < a {
      SquareStrict(b, a);
    }
  }

  lemma SquareMonotone(b: real, s: real)
    requires 0.0 <= b <= s
    ensures b * b <= s * s
  {
    assert b * (s - b) >= 0.0;
    assert (s - b) * s >= 0.0;
  }

  /** A sound sqrt is monotone. */
  lemma SqrtMonotone(m: Transcendentals, u: real, v: real)
    requires SqrtSound(m) && 0.0 <= u <= v
    ensures m.sqrt(u) <= m.sqrt(v)
  {
    var su, sv := m.sqrt(u), m.sqrt(v);
    assert 0.0 <= su && su * su == u;
    assert 0.0 <= sv && sv * sv == v;
    if sv < su {
      SquareStrict(sv, su);
    }
  }

  /** A truncated square root is below an integer bound exactly when the radicand is below its square. */
  lemma TruncSqrtBelowIff(m: Transcendentals, v: real, k: int)
    requires SqrtSound(m) && 0.0 <= v && 0 <= k
    ensures Trunc(m.sqrt(v)) < k <==> v < (k * k) as real
  {
    var s := m.sqrt(v);
    assert 0.0 <= s;
    assert Trunc(s) < k <==> s < k as real;
    SqrtBelowIff(m, v, k as real);
  }
}
