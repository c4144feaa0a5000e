/**
 * The stateless kinematic helpers of C++/vector/physicsFormulas.cpp that the
 * game uses: polar components, degree/radian conversion, distance and the
 * collision test, the simulator's time scale and motion under constant
 * acceleration. Vector arguments are passed as their two components.
 */
module Formulas {
  import opened Maths

  /** FPS of movingObject.h. */
  const Fps: real := 60.0

  /** Horizontal component of a polar vector: mag · sin(angle). */
  function TrigX(m: Transcendentals, mag: real, angleRadians: real): (r: real)
    ensures angleRadians == 0.0 && m.sin(0.0) == 0.0 ==> r == 0.0
    ensures mag == 0.0 ==> r == 0.0
  {
    mag * m.sin(angleRadians)
  }

  /** Vertical component of a polar vector: mag · cos(angle). */
  function TrigY(m: Transcendentals, mag: real, angleRadians: real): (r: real)
    ensures mag == 0.0 ==> r == 0.0
  {
    mag * m.cos(angleRadians)
  }

  /** With sin² + cos² = 1, the two components of a polar vector have squared length mag². */
  lemma TrigPythagoras(m: Transcendentals, mag: real, angleRadians: real)
    requires PythagoreanSound(m)
    ensures TrigX(m, mag, angleRadians) * TrigX(m, mag, angleRadians)
          + TrigY(m, mag, angleRadians) * TrigY(m, mag, angleRadians) == mag * mag
  {
    var s, c := m.sin(angleRadians), m.cos(angleRadians);
    assert s * s + c * c == 1.0;
    assert (mag * s) * (mag * s) == (mag * mag) * (s * s);
    assert (mag * c) * (mag * c) == (mag * mag) * (c * c);
    assert (mag * mag) * (s * s) + (mag * mag) * (c * c) == (mag * mag) * (s * s + c * c);
  }

  /** Length of (x, y). */
  function Mag(m: Transcendentals, x: real, y: real): (r: real)
  {
    m.sqrt(x * x + y * y)
  }

  /** Angle of a vector, measured from "up": atan2(x, y), arguments swapped on purpose. */
  function AngleOf(m: Transcendentals, v: Vec): real
  {
    m.atan2(v.x, v.y)
  }

  /** trigX(Vector): the horizontal component rebuilt from the vector's length and angle. */
  function TrigXOf(m: Transcendentals, v: Vec): real
  {
    TrigX(m, Mag(m, v.x, v.y), AngleOf(m, v))
  }

  /** trigY(Vector). */
  function TrigYOf(m: Transcendentals, v: Vec): real
  {
    TrigY(m, Mag(m, v.x, v.y), AngleOf(m, v))
  }

  /** A sound sqrt makes every magnitude non-negative, and zero exactly for the zero vector. */
  lemma MagZeroIff(m: Transcendentals, x: real, y: real)
    requires SqrtSound(m)
    ensures 0.0 <= Mag(m, x, y)
    ensures Mag(m, x, y) == 0.0 <==> x == 0.0 && y == 0.0
  {
    var s := x * x + y * y;
    SquareZero(x);
    SquareZero(y);
    SquareZero(m.sqrt(s));
    assert m.sqrt(s) * m.sqrt(s) == s;
  }

  /** A vector whose squared length times k² is f² has length f / k. */
  lemma MagTimesFactor(m: Transcendentals, x: real, y: real, k: real, f: real)
    requires SqrtSound(m) && 0.0 < k && 0.0 <= f && (x * x + y * y) * (k * k) == f * f
    ensures Mag(m, x, y) * k == f
  {
    var r := Mag(m, x, y);
    MagZeroIff(m, x, y);
    SquareZero(x);
    SquareZero(y);
    assert r * r == x * x + y * y;
    assert (r * k) * (r * k) == (r * r) * (k * k);
    assert 0.0 <= r * k;
    SquareInjective(r * k, f);
  }

  function Deg(angleRadians: real): real { 180.0 * angleRadians / Pi }

  function Rad(angleDegrees: real): real { Pi * angleDegrees / 180.0 }

  /** deg and rad are inverse to each other. */
  lemma DegRadRoundTrip(d: real, r: real)
    ensures Deg(Rad(d)) == d
    ensures Rad(Deg(r)) == r
  {
  }

  /** Squared Euclidean distance between two positions. */
  function SqDist(p1: Vec, p2: Vec): (r: real)
    ensures 0.0 <= r
  {
    SquareZero(p1.x - p2.x);
    SquareZero(p1.y - p2.y);
    (p1.x - p2.x) * (p1.x - p2.x) + (p1.y - p2.y) * (p1.y - p2.y)
  }

  /** Euclidean distance between two positions. */
  function ComputeDistance(m: Transcendentals, p1: Vec, p2: Vec): real
  {
    m.sqrt(SqDist(p1, p2))
  }

  /** distance(p1, p2): an alias of computeDistance. */
  function Distance(m: Transcendentals, p1: Vec, p2: Vec): (r: real)
    ensures r == ComputeDistance(m, p1, p2)
  {
    ComputeDistance(m, p1, p2)
  }

  /**
   * With a sound sqrt, distance is a metric on positions: non-negative, its
   * square is the squared distance, and it is zero exactly at the same point.
   */
  lemma DistanceIsMetric(m: Transcendentals, p1: Vec, p2: Vec)
    requires SqrtSound(m)
    ensures 0.0 <= Distance(m, p1, p2)
    ensures Distance(m, p1, p2) * Distance(m, p1, p2) == SqDist(p1, p2)
    ensures Distance(m, p1, p2) == 0.0 <==> p1 == p2
    ensures Distance(m, p1, p2) == Distance(m, p2, p1)
  {
    var dx, dy := p1.x - p2.x, p1.y - p2.y;
    SquareZero(dx);
    SquareZero(dy);
    SquareZero(Distance(m, p1, p2));
    assert SqDist(p1, p2) == 0.0 <==> dx == 0.0 && dy == 0.0;
    ComputeDistanceSymmetric(m, p1, p2);
  }

  /** The distance does not depend on the order of its arguments. */
  lemma ComputeDistanceSymmetric(m: Transcendentals, p1: Vec, p2: Vec)
    ensures ComputeDistance(m, p1, p2) == ComputeDistance(m, p2, p1)
  {
    assert (p1.x - p2.x) * (p1.x - p2.x) == (p2.x - p1.x) * (p2.x - p1.x);
    assert (p1.y - p2.y) * (p1.y - p2.y) == (p2.y - p1.y) * (p2.y - p1.y);
    assert SqDist(p1, p2) == SqDist(p2, p1);
  }

  /** Two objects have collided when their centres are strictly closer than the sum of their radii. */
  function HasCollided(m: Transcendentals, p1: Vec, r1: real, p2: Vec, r2: real): (hit: bool)
    ensures ComputeDistance(m, p1, p2) == r1 + r2 ==> !hit
  {
    ComputeDistance(m, p1, p2) < r1 + r2
  }

  /** With a sound sqrt the collision test is the squared comparison, and it is symmetric. */
  lemma HasCollidedSquared(m: Transcendentals, p1: Vec, r1: real, p2: Vec, r2: real)
    requires SqrtSound(m) && 0.0 <= r1 + r2
    ensures HasCollided(m, p1, r1, p2, r2) <==> SqDist(p1, p2) < (r1 + r2) * (r1 + r2)
    ensures HasCollided(m, p1, r1, p2, r2) == HasCollided(m, p2, r2, p1, r1)
  {
    SqrtBelowIff(m, SqDist(p1, p2), r1 + r2);
    ComputeDistanceSymmetric(m, p1, p2);
  }

  /** Simulated seconds per real second: hours in a day times minutes in an hour. */
  function TimeDilation(): (r: real)
    ensures r == 24.0 * 60.0
  {
    24.0 * 60.0
  }

  function DilateTime(dt: real): (r: real)
    ensures r == 1440.0 * dt
  {
    TimeDilation() * dt
  }

  function TimePerFrame(): (r: real)
    ensures r == 1440.0 / Fps && r == 24.0
  {
    TimeDilation() / Fps
  }

  /**
   * dilateTime scales real time into simulated time: it is linear, one real
   * minute is a simulated day, and one frame of real time dilates to timePerFrame.
   */
  lemma DilateTimeScales(dt1: real, dt2: real)
    ensures DilateTime(dt1 + dt2) == DilateTime(dt1) + DilateTime(dt2)
    ensures DilateTime(dt1) == 0.0 <==> dt1 == 0.0
    ensures DilateTime(60.0) == 24.0 * 60.0 * 60.0
    ensures DilateTime(1.0 / Fps) == TimePerFrame()
  {
    assert TimeDilation() * (dt1 + dt2) == TimeDilation() * dt1 + TimeDilation() * dt2;
  }

  /** x after dt under constant acceleration: initialD + v0.x·dt + a.x·dt²/2 (pow(dt, 2) as dt·dt). */
  function AToX(a: Vec, v0: Vec, dt: real, initialD: real): real
  {
    initialD + v0.x * dt + 0.5 * a.x * (dt * dt)
  }

  function AToY(a: Vec, v0: Vec, dt: real, initialD: real): real
  {
    initialD + v0.y * dt + 0.5 * a.y * (dt * dt)
  }

  /** Velocity components after dt under constant acceleration. */
  function AToDx(a: Vec, v0: Vec, dt: real): real { v0.x + a.x * dt }

  function AToDy(a: Vec, v0: Vec, dt: real): real { v0.y + a.y * dt }

  function AToV(a: Vec, v0: Vec, dt: real): (v: Vec)
    ensures v.x == AToDx(a, v0, dt) && v.y == AToDy(a, v0, dt)
  {
    Vec(AToDx(a, v0, dt), AToDy(a, v0, dt))
  }

  /** No time, no motion; no acceleration, uniform motion. */
  lemma AToXDegenerate(a: Vec, v0: Vec, dt: real, d: real)
    ensures AToX(a, v0, 0.0, d) == d && AToY(a, v0, 0.0, d) == d
    ensures a.x == 0.0 ==> AToX(a, v0, dt, d) == d + v0.x * dt
    ensures a.y == 0.0 ==> AToY(a, v0, dt, d) == d + v0.y * dt
    ensures AToV(a, v0, 0.0) == v0
  {
  }

  /**
   * The motion formulas compose: moving for t1 and then, from the reached
   * position and velocity, for t2, is moving for t1 + t2.
   */
  lemma {:induction false} AToXComposes(a: Vec, v0: Vec, t1: real, t2: real, d: real)
    ensures AToX(a, AToV(a, v0, t1), t2, AToX(a, v0, t1, d)) == AToX(a, v0, t1 + t2, d)
    ensures AToY(a, AToV(a, v0, t1), t2, AToY(a, v0, t1, d)) == AToY(a, v0, t1 + t2, d)
    ensures AToV(a, AToV(a, v0, t1), t2) == AToV(a, v0, t1 + t2)
  {
    assert AToX(a, AToV(a, v0, t1), t2, AToX(a, v0, t1, d)) == AToX(a, v0, t1 + t2, d) by {
      AxisComposes(a.x, v0.x, t1, t2, d);
    }
    assert AToY(a, AToV(a, v0, t1), t2, AToY(a, v0, t1, d)) == AToY(a, v0, t1 + t2, d) by {
      AxisComposes(a.y, v0.y, t1, t2, d);
    }
    assert a.x * (t1 + t2) == a.x * t1 + a.x * t2;
    assert a.y * (t1 + t2) == a.y * t1 + a.y * t2;
  }

  /** One axis of AToXComposes, with the acceleration and start speed as numbers. */
  lemma AxisComposes(ax: real, vx: real, t1: real, t2: real, d: real)
    ensures (d + vx * t1 + 0.5 * ax * (t1 * t1)) + (vx + ax * t1) * t2 + 0.5 * ax * (t2 * t2)
         == d + vx * (t1 + t2) + 0.5 * ax * ((t1 + t2) * (t1 + t2))
  {
    assert (t1 + t2) * (t1 + t2) == t1 * t1 + 2.0 * t1 * t2 + t2 * t2;
    assert (vx + ax * t1) * t2 == vx * t2 + ax * t1 * t2;
    assert vx * (t1 + t2) == vx * t1 + vx * t2;
    assert 0.5 * ax * (t1 * t1 + 2.0 * t1 * t2 + t2 * t2) ==
      0.5 * ax * (t1 * t1) + ax * t1 * t2 + 0.5 * ax * (t2 * t2);
  }

  /** pixelsToMeters and metersToPixels, with Position's conversion factor passed in. */
  function PixelsToMeters(metersFromPixels: real, pixels: real): real
  {
    pixels * metersFromPixels
  }

  function MetersToPixels(metersFromPixels: real, meters: real): real
    requires metersFromPixels != 0.0
  {
    meters / metersFromPixels
  }

  /** Converting pixels to metres and back is the identity for a non-zero factor. */
  lemma PixelMeterRoundTrip(metersFromPixels: real, p: real)
    requires metersFromPixels != 0.0
    ensures MetersToPixels(metersFromPixels, PixelsToMeters(metersFromPixels, p)) == p
    ensures PixelsToMeters(metersFromPixels, MetersToPixels(metersFromPixels, p)) == p
  {
  }
}
