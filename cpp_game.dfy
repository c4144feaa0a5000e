/**
 * The per-frame arena of the C++ game (C++/game.cpp): a nullable ship, a
 * list of lasers and a list of rock pointers, the score, and the operations
 * that fire, place, wrap, collide, split and clean up. Game objects are
 * records; the arena itself is a class whose fields the operations update.
 * Every state-changing method is specified by a function from the arena's
 * value before the call (an Arena) to its value after it.
 */
module CppGame {
  import opened Maths
  import opened Formulas
  import opened Vectors

  datatype Option<T> = None | Some(value: T)

  /** laser.h: firing rate delay, laser speed and laser lifetime. */
  const FireDelayTime: real := 0.05
  const LaserSpeed: real := 10.0
  const LaserDeathTime: real := 20.0

  /** createRock: a rock starting nearer the origin than this is placed at random. */
  const NearOrigin: real := 10.0
  /** createRock: the clearance kept between a new initial rock and the ship. */
  const RockBuffer: real := 100.0
  /** wrap: the margin added to an object's radius beyond the screen edge. */
  const WrapMargin: real := 10.0
  /** getClosestDistance: the least sweep length, so that one sample is always taken. */
  const MinSweep: real := 0.1
  /** std::numeric_limits<float>::max(). */
  const FltMax: real := 340282346638528859811704183484516925440.0
  /** generateOffsetVelocity: the largest deviation of a child rock, in degrees. */
  const MaxOffsetDegrees: real := 15.0

  /** The fields of MovingObject that the arena reads or writes. */
  datatype Mover = Mover(
    p: Vec, v: Vec, radius: real, rotation: real, mass: real,
    alive: bool, scoreAmount: int, timer: real, timerOn: bool)

  datatype Ship = Ship(body: Mover, firingDelay: real)

  datatype RockSize = BigRock | MediumRock | SmallRock

  /**
   * What a rock subclass fixes: its radius, mass and score amount, and the
   * size it splits into (None for an index createRock does not know).
   */
  datatype RockTraits = RockTraits(radius: real, mass: real, scoreAmount: int, next: Option<RockSize>)

  datatype Rock = Rock(body: Mover, size: RockSize)

  /** A resolved collision: the rock's index and, for a laser, the laser's index. */
  datatype Hit = ShipHit(rock: nat) | LaserHit(rock: nat, laser: nat)

  /**
   * What the arena is given rather than computes: the maths library, the
   * screen edges, the rock subclasses, Rock::amountInit, and the random
   * number source, where random(k, lo, hi) is what the k-th call of
   * random(lo, hi) returns.
   */
  datatype Setting = Setting(
    m: Transcendentals,
    left: real, right: real, bottom: real, top: real,
    traits: RockSize -> RockTraits,
    amountInit: nat,
    random: (nat, real, real) -> real)

  /** The arena's state as a value; draws counts the random numbers taken so far. */
  datatype Arena = Arena(
    ship: Option<Ship>, lasers: seq<Mover>, rocks: seq<Option<Rock>>, score: int, draws: nat)

  /** random(lo, hi) returns a number between lo and hi. */
  ghost predicate RandomInRange(s: Setting)
  {
    forall k, lo, hi {:trigger s.random(k, lo, hi)} :: lo <= hi ==> lo <= s.random(k, lo, hi) <= hi
  }

  /** A sound sqrt, an ordered screen, an in-range random source and rocks of positive mass. */
  ghost predicate ValidSetting(s: Setting)
  {
    && SqrtSound(s.m)
    && s.left <= s.right && s.bottom <= s.top
    && RandomInRange(s)
    && (forall z {:trigger s.traits(z)} :: s.traits(z).mass > 0.0)
  }

  /** Every object has a positive mass, so generateOffsetVelocity never divides by zero. */
  predicate Inv(a: Arena)
  {
    && (a.ship.Some? ==> a.ship.value.body.mass > 0.0)
    && (forall j :: 0 <= j < |a.lasers| ==> a.lasers[j].mass > 0.0)
    && (forall i :: 0 <= i < |a.rocks| && a.rocks[i].Some? ==> a.rocks[i].value.body.mass > 0.0)
  }

  /** MovingObject(): radius 10, rotation 0, mass 1, alive, no timer, no score. */
  function DefaultMover(): Mover
  {
    Mover(Vec(0.0, 0.0), Vec(0.0, 0.0), 10.0, 0.0, 1.0, true, 0, 0.0, false)
  }

  /** MovingObject::hit. */
  function Killed(o: Mover): Mover { o.(alive := false) }

  /** Ship(): radius 2, pointing up (rotation π/2), ready to fire. */
  function NewShip(): (ship: Ship)
    ensures ship.body.alive && ship.body.p == Vec(0.0, 0.0) && ship.body.v == Vec(0.0, 0.0)
    ensures ship.body.radius == 2.0 && ship.body.mass > 0.0 && ship.firingDelay <= 0.0
  {
    Ship(DefaultMover().(radius := 2.0, rotation := 0.0 + Pi / 2.0), 0.0)
  }

  // ---------------------------------------------------------------------
  // Firing
  // ---------------------------------------------------------------------

  /**
   * Ship::fire builds Laser(rotation, p, v, r): six ship radii ahead of the
   * ship, moving at LASER_SPEED along the ship's heading, timer running.
   */
  function FireFrom(s: Setting, ship: Mover): (laser: Mover)
    ensures laser.alive && laser.timerOn && laser.timer == LaserDeathTime && laser.mass > 0.0
  {
    var ahead := Vector.Forward(s.m, ship.rotation);
    DefaultMover().(
      p := Sum(ship.p, Scaled(ahead, ship.radius * 6.0)),
      v := Scaled(ahead, LaserSpeed),
      timer := LaserDeathTime,
      timerOn := true)
  }

  /** A laser starts 6·r from the ship's centre and moves at speed LASER_SPEED. */
  lemma FireFromGeometry(s: Setting, ship: Mover)
    requires PythagoreanSound(s.m)
    ensures var laser := FireFrom(s, ship);
      && LengthSq(Vec(laser.p.x - ship.p.x, laser.p.y - ship.p.y)) == (ship.radius * 6.0) * (ship.radius * 6.0)
      && LengthSq(laser.v) == LaserSpeed * LaserSpeed
  {
    var a, k := ship.rotation, ship.radius * 6.0;
    var laser := FireFrom(s, ship);
    assert LengthSq(Vec(laser.p.x - ship.p.x, laser.p.y - ship.p.y)) == k * k by {
      ScaledForward(s.m, k, a);
      PolarLength(s.m, k, a);
      assert Vec(laser.p.x - ship.p.x, laser.p.y - ship.p.y) == Polar(s.m, k, a);
    }
    assert LengthSq(laser.v) == LaserSpeed * LaserSpeed by {
      ScaledForward(s.m, LaserSpeed, a);
      PolarLength(s.m, LaserSpeed, a);
    }
  }

  /** The unit heading scaled by k is the polar vector of length k. */
  lemma ScaledForward(m: Transcendentals, k: real, a: real)
    ensures Scaled(Vector.Forward(m, a), k) == Polar(m, k, a)
  {
    var sn, c := m.sin(a), m.cos(a);
    assert (1.0 * sn) * k == k * sn && (1.0 * c) * k == k * c;
  }

  /** fireLaser: with the delay timer run out, one laser is appended and the timer restarts. */
  function AfterFire(s: Setting, a: Arena): Arena
    requires a.ship.Some?
  {
    if a.ship.value.firingDelay <= 0.0 then
      a.(lasers := a.lasers + [FireFrom(s, a.ship.value.body)],
         ship := Some(a.ship.value.(firingDelay := FireDelayTime)))
    else a
  }

  /** fireLaser appends exactly one laser at the end when allowed, and otherwise changes nothing. */
  lemma FireAppendsAtMostOne(s: Setting, a: Arena)
    requires a.ship.Some?
    ensures var b := AfterFire(s, a);
      && b.rocks == a.rocks && b.score == a.score && b.draws == a.draws
      && b.ship.Some? && b.ship.value.body == a.ship.value.body
      && (a.ship.value.firingDelay <= 0.0 <==> |b.lasers| == |a.lasers| + 1)
      && (a.ship.value.firingDelay > 0.0 <==> b == a)
      && b.lasers[..|a.lasers|] == a.lasers
      && (|b.lasers| == |a.lasers| + 1 ==>
            b.lasers[|a.lasers|] == FireFrom(s, a.ship.value.body) && b.ship.value.firingDelay == FireDelayTime)
  {
    var b := AfterFire(s, a);
    if a.ship.value.firingDelay <= 0.0 {
      assert b.lasers[..|a.lasers|] == a.lasers;
      assert b.ship.value.firingDelay == FireDelayTime;
      assert b != a by { assert |b.lasers| != |a.lasers|; }
    }
  }

  // ---------------------------------------------------------------------
  // Placing rocks
  // ---------------------------------------------------------------------

  /** The free function dist: the root of the sum of the two x coordinates squared. */
  function Dist(s: Setting, p1: Vec, p2: Vec): real
  {
    s.m.sqrt(XSquares(p1, p2))
  }

  function XSquares(p1: Vec, p2: Vec): real
  {
    p1.x * p1.x + p2.x * p2.x
  }

  /**
   * dist looks at x coordinates only and adds their squares: a rock placed
   * exactly on a ship standing at (100, 0) passes the 100-unit clearance test.
   */
  lemma DistAddsXSquares(s: Setting)
    requires SqrtSound(s.m)
    ensures Dist(s, Vec(100.0, 0.0), Vec(100.0, 0.0)) >= RockBuffer
    ensures SqDist(Vec(100.0, 0.0), Vec(100.0, 0.0)) == 0.0
  {
    assert XSquares(Vec(100.0, 0.0), Vec(100.0, 0.0)) == 20000.0;
    SqrtBelowIff(s.m, XSquares(Vec(100.0, 0.0), Vec(100.0, 0.0)), RockBuffer);
  }

  /**
   * For a ship at the origin (where reset puts it) the clearance test is
   * sound: dist ≥ 100 means the rock's centre is at least 100 away.
   */
  lemma DistFromOrigin(s: Setting, p: Vec)
    requires SqrtSound(s.m)
    ensures Dist(s, Vec(0.0, 0.0), p) >= RockBuffer <==> Abs(p.x) >= RockBuffer
    ensures Dist(s, Vec(0.0, 0.0), p) >= RockBuffer ==> SqDist(Vec(0.0, 0.0), p) >= RockBuffer * RockBuffer
  {
    var v := XSquares(Vec(0.0, 0.0), p);
    assert v == p.x * p.x;
    var ax := Abs(p.x);
    assert ax * ax == v by {
      if p.x < 0.0 {
        assert ax == -p.x;
      }
    }
    SquareZero(p.x);
    SqrtBelowIff(s.m, v, RockBuffer);
    if ax < RockBuffer {
      SquareStrict(ax, RockBuffer);
    } else {
      SquareMonotone(RockBuffer, ax);
    }
    SquareZero(p.y);
    assert SqDist(Vec(0.0, 0.0), p) == (0.0 - p.x) * (0.0 - p.x) + (0.0 - p.y) * (0.0 - p.y);
    assert (0.0 - p.x) * (0.0 - p.x) == p.x * p.x;
  }

  /** The point made of the k-th and (k+1)-th random numbers: random(left, right), random(bottom, top). */
  function DrawPoint(s: Setting, k: nat): Vec
  {
    Vec(s.random(k, s.left, s.right), s.random(k + 1, s.bottom, s.top))
  }

  predicate OnScreen(s: Setting, p: Vec)
  {
    s.left <= p.x <= s.right && s.bottom <= p.y <= s.top
  }

  /** One of the t + 1 points drawn in pairs from the d-th random number on is clear of sp. */
  ghost predicate ClearWithin(s: Setting, d: nat, t: nat, sp: Vec)
    decreases t
  {
    Dist(s, sp, DrawPoint(s, d)) >= RockBuffer || (t > 0 && ClearWithin(s, d + 2, t - 1, sp))
  }

  /** Among the points drawn in pairs from the d-th random number on, one is clear of sp. */
  ghost predicate FarFrom(s: Setting, d: nat, sp: Vec)
  {
    exists t: nat {:trigger ClearWithin(s, d, t, sp)} :: ClearWithin(s, d, t, sp)
  }

  /** A fair random source: whenever createRock starts drawing, it eventually draws a clear point. */
  ghost predicate EventuallyFar(s: Setting, sp: Vec)
  {
    forall d: nat {:trigger FarFrom(s, d, sp)} :: FarFrom(s, d, sp)
  }

  /** The rock a subclass constructor builds at p with velocity v. */
  function MakeRock(s: Setting, size: RockSize, p: Vec, v: Vec): (rock: Rock)
    ensures rock.size == size && rock.body.p == p && rock.body.v == v && rock.body.alive
    ensures rock.body.mass == s.traits(size).mass
    ensures rock.body.scoreAmount == s.traits(size).scoreAmount
  {
    var t := s.traits(size);
    Rock(DefaultMover().(p := p, v := v, radius := t.radius, mass := t.mass, scoreAmount := t.scoreAmount), size)
  }

  /** The switch of createRock: an unknown rock index gives NULL. */
  function Place(s: Setting, which: Option<RockSize>, p: Vec, v: Vec): (r: Option<Rock>)
    ensures r.Some? <==> which.Some?
    ensures r.Some? ==> r.value == MakeRock(s, which.value, p, v)
  {
    match which
    case None => None
    case Some(size) => Some(MakeRock(s, size, p, v))
  }

  // ---------------------------------------------------------------------
  // A rock's starting velocity (rocks.cpp)
  // ---------------------------------------------------------------------

  /**
   * Rock::initializeVelocity(): a force of launchForce (ROCK_INIT_LAUNCH_FORCE)
   * at the drawn angle, divided by the rock's mass and applied for dt = 1.
   * The angle is what random(0, 360) returns, handed to setPolar as radians.
   */
  function Launch(s: Setting, size: RockSize, launchForce: real, angle: real): (v: Vec)
    requires s.traits(size).mass != 0.0
    ensures Scaled(v, s.traits(size).mass) == Polar(s.m, launchForce, angle)
    ensures PythagoreanSound(s.m) ==> LengthSq(v) * (s.traits(size).mass * s.traits(size).mass) == launchForce * launchForce
  {
    var mass := s.traits(size).mass;
    var f := Polar(s.m, launchForce, angle);
    var v := Scaled(Divided(f, mass), 1.0);
    assert v == Divided(f, mass);
    DividedThenScaled(f, mass);
    assert PythagoreanSound(s.m) ==> LengthSq(v) * (mass * mass) == launchForce * launchForce by {
      if PythagoreanSound(s.m) {
        PolarLength(s.m, launchForce, angle);
        assert v.x * mass == f.x && v.y * mass == f.y;
        assert (v.x * v.x + v.y * v.y) * (mass * mass) == (v.x * mass) * (v.x * mass) + (v.y * mass) * (v.y * mass);
      }
    }
    v
  }

  /**
   * Rock::initializeVelocity(vInit): a rock whose velocity has a magnitude
   * adds vInit to it; a rock at rest is launched instead and vInit is lost.
   */
  function InitialVelocity(s: Setting, size: RockSize, own: Vec, vInit: Vec, launchForce: real, angle: real): (v: Vec)
    requires s.traits(size).mass != 0.0
    ensures SqrtSound(s.m) && own != Vec(0.0, 0.0) ==> v == Sum(own, vInit)
    ensures SqrtSound(s.m) && own == Vec(0.0, 0.0) ==> v == Launch(s, size, launchForce, angle)
  {
    assert SqrtSound(s.m) ==> (Abs(Mag(s.m, own.x, own.y)) > 0.0 <==> own != Vec(0.0, 0.0)) by {
      if SqrtSound(s.m) {
        MagZeroIff(s.m, own.x, own.y);
      }
    }
    if Abs(Mag(s.m, own.x, own.y)) > 0.0 then Sum(own, vInit) else Launch(s, size, launchForce, angle)
  }

  /**
   * A rock is built with the default zero velocity, so initializeVelocity(vInit)
   * gives the same launch whatever vInit is: the velocity createRock passes
   * never reaches the rock, whose speed is launchForce / mass.
   */
  lemma FreshRockIgnoresVInit(s: Setting, size: RockSize, vInit: Vec, other: Vec, launchForce: real, angle: real)
    requires SqrtSound(s.m) && PythagoreanSound(s.m) && s.traits(size).mass > 0.0 && 0.0 <= launchForce
    ensures InitialVelocity(s, size, Vec(0.0, 0.0), vInit, launchForce, angle)
         == InitialVelocity(s, size, Vec(0.0, 0.0), other, launchForce, angle)
    ensures var v := InitialVelocity(s, size, Vec(0.0, 0.0), vInit, launchForce, angle);
      Mag(s.m, v.x, v.y) * s.traits(size).mass == launchForce
  {
    var mass := s.traits(size).mass;
    var v := Launch(s, size, launchForce, angle);
    MagTimesFactor(s.m, v.x, v.y, mass, launchForce);
  }



  /**
   * createRock for a rock that is not initial (no clearance loop): the rock
   * and the count of random numbers used after starting at d.
   */
  function Placed(s: Setting, which: Option<RockSize>, pInit: Vec, vInit: Vec, d: nat): (r: (Option<Rock>, nat))
    ensures NearOrigin <= Mag(s.m, pInit.x, pInit.y) ==> r == (Place(s, which, pInit, vInit), d)
    ensures Mag(s.m, pInit.x, pInit.y) < NearOrigin ==> r == (Place(s, which, DrawPoint(s, d), vInit), d + 2)
  {
    if Mag(s.m, pInit.x, pInit.y) < NearOrigin then (Place(s, which, DrawPoint(s, d), vInit), d + 2)
    else (Place(s, which, pInit, vInit), d)
  }

  /** A random position is on screen when the random source keeps to its range. */
  lemma DrawPointOnScreen(s: Setting, k: nat)
    requires RandomInRange(s) && s.left <= s.right && s.bottom <= s.top
    ensures OnScreen(s, DrawPoint(s, k))
  {
    assert s.left <= s.random(k, s.left, s.right) <= s.right;
    assert s.bottom <= s.random(k + 1, s.bottom, s.top) <= s.top;
  }

  /**
   * A rock asteroidBelt adds: a big rock holding the zero vInit createRock
   * passes (the arena does not apply the launch of rocks.cpp), on screen,
   * clear of the ship (by dist).
   */
  predicate BeltRock(s: Setting, r: Option<Rock>, ship: Option<Ship>)
  {
    && r.Some?
    && r.value == MakeRock(s, BigRock, r.value.body.p, Vec(0.0, 0.0))
    && OnScreen(s, r.value.body.p)
    && (ship.Some? ==> Dist(s, ship.value.body.p, r.value.body.p) >= RockBuffer)
  }

  // ---------------------------------------------------------------------
  // Screen wrap
  // ---------------------------------------------------------------------

  /**
   * One coordinate of wrap: below lo - b goes to hi + b, above hi + b to lo - b.
   * wrap itself checks nothing; the requires only says that the band is not
   * empty, which holds on an ordered screen for every object of non-negative
   * radius.
   */
  function WrapCoord(c: real, lo: real, hi: real, b: real): (r: real)
    requires lo - b <= hi + b
    ensures lo - b <= c <= hi + b ==> r == c
    ensures c < lo - b ==> r == hi + b
    ensures c > hi + b ==> r == lo - b
    ensures lo - b <= r <= hi + b
  {
    if c < lo - b then hi + b else if c > hi + b then lo - b else c
  }

  /**
   * Game::wrap with buffer radius + 10: each axis is rewritten at most once
   * and independently, after which the centre lies within the buffered screen.
   */
  function Wrapped(s: Setting, o: Mover): (w: Mover)
    requires s.left <= s.right && s.bottom <= s.top && o.radius + WrapMargin >= 0.0
    ensures w == o.(p := w.p)
    ensures s.left - (o.radius + WrapMargin) <= w.p.x <= s.right + (o.radius + WrapMargin)
    ensures s.bottom - (o.radius + WrapMargin) <= w.p.y <= s.top + (o.radius + WrapMargin)
    ensures w.p.x == WrapCoord(o.p.x, s.left, s.right, o.radius + WrapMargin)
    ensures w.p.y == WrapCoord(o.p.y, s.bottom, s.top, o.radius + WrapMargin)
  {
    var buffer := o.radius + WrapMargin;
    o.(p := Vec(WrapCoord(o.p.x, s.left, s.right, buffer), WrapCoord(o.p.y, s.bottom, s.top, buffer)))
  }

  /** Wrapping twice is wrapping once. */
  lemma WrappedIdempotent(s: Setting, o: Mover)
    requires s.left <= s.right && s.bottom <= s.top && o.radius + WrapMargin >= 0.0
    ensures Wrapped(s, Wrapped(s, o)) == Wrapped(s, o)
  {
    var w := Wrapped(s, o);
    assert w.radius == o.radius;
    assert Wrapped(s, w).p == w.p;
  }

  /** Every object wrap may be applied to has a radius no less than -10. */
  predicate Wrappable(a: Arena)
  {
    && (a.ship.Some? ==> a.ship.value.body.radius + WrapMargin >= 0.0)
    && (forall j :: 0 <= j < |a.lasers| ==> a.lasers[j].radius + WrapMargin >= 0.0)
    && (forall i :: 0 <= i < |a.rocks| && a.rocks[i].Some? ==> a.rocks[i].value.body.radius + WrapMargin >= 0.0)
  }

  /** The index of the first NULL rock, or the length when there is none. */
  function FirstNull(rocks: seq<Option<Rock>>): (n: nat)
    ensures n <= |rocks|
    ensures forall i :: 0 <= i < n ==> rocks[i].Some?
    ensures n < |rocks| ==> rocks[n].None?
  {
    if rocks == [] || rocks[0].None? then 0 else 1 + FirstNull(rocks[1..])
  }

  /** A rock with its body wrapped. */
  function WrappedRock(s: Setting, r: Rock): Rock
    requires s.left <= s.right && s.bottom <= s.top && r.body.radius + WrapMargin >= 0.0
  {
    r.(body := Wrapped(s, r.body))
  }

  // ---------------------------------------------------------------------
  // Collision tests
  // ---------------------------------------------------------------------

  /** The largest velocity component of the two objects, at least 0.1. */
  function DMax(o1: Mover, o2: Mover): (d: real)
    ensures d >= MinSweep
    ensures d >= Abs(o1.v.x) && d >= Abs(o1.v.y) && d >= Abs(o2.v.x) && d >= Abs(o2.v.y)
    ensures d == MinSweep || d == Abs(o1.v.x) || d == Abs(o1.v.y) || d == Abs(o2.v.x) || d == Abs(o2.v.y)
  {
    Max(Max(Max(Max(Abs(o1.v.x), Abs(o1.v.y)), Abs(o2.v.x)), Abs(o2.v.y)), MinSweep)
  }

  /** The object's position after the fraction i / dMax of one frame's motion. */
  function SamplePoint(o: Mover, dMax: real, i: real): (q: Vec)
    requires dMax != 0.0
    ensures i == 0.0 ==> q == o.p
  {
    Vec(o.p.x + (o.v.x * i / dMax), o.p.y + (o.v.y * i / dMax))
  }

  /** Squared distance between the two objects at sample k. */
  function SampleSq(o1: Mover, o2: Mover, dMax: real, k: nat): (r: real)
    requires dMax != 0.0
    ensures 0.0 <= r
    ensures k == 0 ==> r == SqDist(o1.p, o2.p)
  {
    SqDist(SamplePoint(o1, dMax, k as real), SamplePoint(o2, dMax, k as real))
  }

  /** FLT_MAX lowered by each of the samples 0, 1, ..., n - 1. */
  function SweptMinSq(o1: Mover, o2: Mover, dMax: real, n: nat): (r: real)
    requires dMax != 0.0
    ensures 0.0 <= r <= FltMax
  {
    if n == 0 then FltMax
    else Min(SweptMinSq(o1, o2, dMax, n - 1), SampleSq(o1, o2, dMax, n - 1))
  }

  /** The running minimum is below every sample taken and equals FLT_MAX or one of them. */
  lemma {:induction false} SweptMinSqIsMin(o1: Mover, o2: Mover, dMax: real, n: nat)
    requires dMax != 0.0
    ensures forall k: nat :: k < n ==> SweptMinSq(o1, o2, dMax, n) <= SampleSq(o1, o2, dMax, k)
    ensures SweptMinSq(o1, o2, dMax, n) == FltMax || exists k: nat :: k < n && SweptMinSq(o1, o2, dMax, n) == SampleSq(o1, o2, dMax, k)
  {
    if n > 0 {
      SweptMinSqIsMin(o1, o2, dMax, n - 1);
      if SweptMinSq(o1, o2, dMax, n) != SweptMinSq(o1, o2, dMax, n - 1) {
        assert SweptMinSq(o1, o2, dMax, n) == SampleSq(o1, o2, dMax, n - 1);
      }
    }
  }

  /** The samples i = 0, 1, ... while i <= dMax. */
  function SampleCount(o1: Mover, o2: Mover): nat
  {
    DMax(o1, o2).Floor + 1
  }

  /** The squared closest approach getClosestDistance finds. */
  function ClosestSq(o1: Mover, o2: Mover): real
  {
    SweptMinSq(o1, o2, DMax(o1, o2), SampleCount(o1, o2))
  }

  /** checkCollision: the closest approach is strictly below the sum of the radii. */
  function Collides(s: Setting, o1: Mover, o2: Mover): bool
  {
    s.m.sqrt(ClosestSq(o1, o2)) < o1.radius + o2.radius
  }

  /** The closest approach is never farther than the current centres (sample 0). */
  lemma ClosestNotBeyondCentres(s: Setting, o1: Mover, o2: Mover)
    requires SqrtSound(s.m) && SqDist(o1.p, o2.p) <= FltMax
    ensures ClosestSq(o1, o2) <= SqDist(o1.p, o2.p)
    ensures s.m.sqrt(ClosestSq(o1, o2)) <= ComputeDistance(s.m, o1.p, o2.p)
  {
    SweptMinSqIsMin(o1, o2, DMax(o1, o2), SampleCount(o1, o2));
    assert SampleSq(o1, o2, DMax(o1, o2), 0) == SqDist(o1.p, o2.p);
    SqrtMonotone(s.m, ClosestSq(o1, o2), SqDist(o1.p, o2.p));
  }

  /** Objects at rest are sampled once, at their current centres. */
  lemma AtRestOneSample(o1: Mover, o2: Mover)
    requires o1.v == Vec(0.0, 0.0) && o2.v == Vec(0.0, 0.0)
    ensures DMax(o1, o2) == MinSweep && SampleCount(o1, o2) == 1
    ensures ClosestSq(o1, o2) == Min(FltMax, SqDist(o1.p, o2.p))
  {
    assert MinSweep.Floor == 0;
    assert SweptMinSq(o1, o2, MinSweep, 1) == Min(FltMax, SampleSq(o1, o2, MinSweep, 0));
  }

  /** With a sound sqrt, a collision is a squared comparison; touching is not a hit. */
  lemma CollidesSquared(s: Setting, o1: Mover, o2: Mover)
    requires SqrtSound(s.m) && 0.0 <= o1.radius + o2.radius
    ensures Collides(s, o1, o2) <==> ClosestSq(o1, o2) < (o1.radius + o2.radius) * (o1.radius + o2.radius)
  {
    SqrtBelowIff(s.m, ClosestSq(o1, o2), o1.radius + o2.radius);
  }

  /** Overlapping centres are always detected, whatever the velocities. */
  lemma OverlapCollides(s: Setting, o1: Mover, o2: Mover)
    requires SqrtSound(s.m) && 0.0 <= o1.radius + o2.radius
    requires SqDist(o1.p, o2.p) < (o1.radius + o2.radius) * (o1.radius + o2.radius)
    requires SqDist(o1.p, o2.p) <= FltMax
    ensures Collides(s, o1, o2)
  {
    ClosestNotBeyondCentres(s, o1, o2);
    CollidesSquared(s, o1, o2);
  }

  // ---------------------------------------------------------------------
  // Splitting a rock
  // ---------------------------------------------------------------------

  /** MovingObject::getMomentum: mass times speed. */
  function Momentum(s: Setting, o: Mover): real
  {
    o.mass * Mag(s.m, o.v.x, o.v.y)
  }

  /**
   * generateOffsetVelocity for a given deviation phi (radians): both offsets
   * have the speed total momentum / total mass and point phi either side of
   * the mean of the two headings.
   */
  function OffsetPair(s: Setting, rock: Mover, obj: Mover, phi: real): (r: (Vec, Vec))
    requires rock.mass + obj.mass != 0.0
  {
    var speed := (Momentum(s, rock) + Momentum(s, obj)) / (rock.mass + obj.mass);
    var angle := (AngleOf(s.m, obj.v) + AngleOf(s.m, rock.v)) / 2.0;
    (Polar(s.m, speed, angle - phi), Polar(s.m, speed, angle + phi))
  }

  /** Both offsets have the combined speed; with no deviation they coincide. */
  lemma OffsetPairSpeed(s: Setting, rock: Mover, obj: Mover, phi: real)
    requires rock.mass + obj.mass != 0.0 && PythagoreanSound(s.m)
    ensures var speed := (Momentum(s, rock) + Momentum(s, obj)) / (rock.mass + obj.mass);
      && LengthSq(OffsetPair(s, rock, obj, phi).0) == speed * speed
      && LengthSq(OffsetPair(s, rock, obj, phi).1) == speed * speed
      && (phi == 0.0 ==> OffsetPair(s, rock, obj, phi).0 == OffsetPair(s, rock, obj, phi).1)
  {
    var speed := (Momentum(s, rock) + Momentum(s, obj)) / (rock.mass + obj.mass);
    var angle := (AngleOf(s.m, obj.v) + AngleOf(s.m, rock.v)) / 2.0;
    PolarLength(s.m, speed, angle - phi);
    PolarLength(s.m, speed, angle + phi);
  }

  /** When both objects are at rest the children get no extra velocity. */
  lemma OffsetPairAtRest(s: Setting, rock: Mover, obj: Mover, phi: real)
    requires rock.mass + obj.mass != 0.0 && SqrtSound(s.m)
    requires rock.v == Vec(0.0, 0.0) && obj.v == Vec(0.0, 0.0)
    ensures OffsetPair(s, rock, obj, phi) == (Vec(0.0, 0.0), Vec(0.0, 0.0))
  {
    MagZeroIff(s.m, 0.0, 0.0);
    assert Momentum(s, rock) == 0.0 && Momentum(s, obj) == 0.0;
  }

  /**
   * splitRock from the d-th random number on: one draw for the deviation
   * rad(random(0, 15)), then the two children of the next size at the
   * parent's position with the parent's velocity plus each offset.
   */
  function Split(s: Setting, rock: Rock, obj: Mover, d: nat): (r: (seq<Option<Rock>>, nat))
    requires rock.body.mass + obj.mass != 0.0
    ensures |r.0| == 2 && d + 1 <= r.1
  {
    var offsets := OffsetPair(s, rock.body, obj, Rad(s.random(d, 0.0, MaxOffsetDegrees)));
    var next := s.traits(rock.size).next;
    var first := Placed(s, next, rock.body.p, Sum(rock.body.v, offsets.0), d + 1);
    var second := Placed(s, next, rock.body.p, Sum(rock.body.v, offsets.1), first.1);
    ([first.0, second.0], second.1)
  }

  /**
   * A rock of a size with a successor splits into two rocks of that size;
   * away from the origin they start at the parent's centre with the parent's
   * velocity plus the two offsets. Without a successor both are NULL.
   */
  lemma SplitChildren(s: Setting, rock: Rock, obj: Mover, d: nat)
    requires rock.body.mass + obj.mass != 0.0
    ensures var next := s.traits(rock.size).next;
      var kids := Split(s, rock, obj, d).0;
      && (next.None? <==> kids[0].None? && kids[1].None?)
      && (next.Some? ==> kids[0].Some? && kids[1].Some? && kids[0].value.size == next.value && kids[1].value.size == next.value)
      && (NearOrigin <= Mag(s.m, rock.body.p.x, rock.body.p.y) ==>
            var offsets := OffsetPair(s, rock.body, obj, Rad(s.random(d, 0.0, MaxOffsetDegrees)));
            && Split(s, rock, obj, d).1 == d + 1
            && (next.Some? ==>
                  && kids[0].value == MakeRock(s, next.value, rock.body.p, Sum(rock.body.v, offsets.0))
                  && kids[1].value == MakeRock(s, next.value, rock.body.p, Sum(rock.body.v, offsets.1))))
  {
  }

  /** Children take their mass from their size, so splitting keeps every mass positive. */
  lemma SplitMasses(s: Setting, rock: Rock, obj: Mover, d: nat)
    requires rock.body.mass + obj.mass != 0.0 && ValidSetting(s)
    ensures forall k :: 0 <= k < 2 && Split(s, rock, obj, d).0[k].Some? ==> Split(s, rock, obj, d).0[k].value.body.mass > 0.0
  {
    var kids := Split(s, rock, obj, d).0;
    var next := s.traits(rock.size).next;
    if next.Some? {
      assert s.traits(next.value).mass > 0.0;
    }
  }

  // ---------------------------------------------------------------------
  // Resolving collisions
  // ---------------------------------------------------------------------

  /** The first laser at index j or later that collides with the rock. */
  function FirstLaserHit(s: Setting, lasers: seq<Mover>, rock: Mover, j: nat): (r: Option<nat>)
    decreases |lasers| - j
    ensures r.Some? ==> j <= r.value < |lasers| && Collides(s, lasers[r.value], rock)
    ensures r.Some? ==> forall k :: j <= k < r.value ==> !Collides(s, lasers[k], rock)
    ensures r.None? ==> forall k :: j <= k < |lasers| ==> !Collides(s, lasers[k], rock)
  {
    if j >= |lasers| then None
    else if Collides(s, lasers[j], rock) then Some(j)
    else FirstLaserHit(s, lasers, rock, j + 1)
  }

  /** Neither the ship nor any laser collides with the rock. */
  predicate Spared(s: Setting, ship: Mover, lasers: seq<Mover>, rock: Mover)
  {
    !Collides(s, ship, rock) && FirstLaserHit(s, lasers, rock, 0).None?
  }

  /**
   * The collision handleCollisions resolves, scanning rocks from index i up
   * to the first NULL and, for each rock, the ship before the lasers.
   */
  function FirstHitFrom(s: Setting, ship: Mover, rocks: seq<Option<Rock>>, lasers: seq<Mover>, i: nat): (h: Option<Hit>)
    requires i <= FirstNull(rocks)
    decreases |rocks| - i
    ensures h.Some? ==> i <= h.value.rock < FirstNull(rocks)
    ensures h.Some? && h.value.LaserHit? ==> h.value.laser < |lasers|
  {
    if i >= |rocks| || rocks[i].None? then None
    else if Collides(s, ship, rocks[i].value.body) then Some(ShipHit(i))
    else match FirstLaserHit(s, lasers, rocks[i].value.body, 0)
      case Some(j) => Some(LaserHit(i, j))
      case None => FirstHitFrom(s, ship, rocks, lasers, i + 1)
  }

  /**
   * The collision found is a real one, with the ship tested before the
   * lasers: a ship hit collides with the rock, and a laser hit means the ship
   * missed that rock and the laser is the first one that collides with it.
   */
  lemma {:induction false} FirstHitIsHit(s: Setting, ship: Mover, rocks: seq<Option<Rock>>, lasers: seq<Mover>, i: nat)
    requires i <= FirstNull(rocks)
    decreases |rocks| - i
    ensures var h := FirstHitFrom(s, ship, rocks, lasers, i);
      && (h.Some? && h.value.ShipHit? ==> Collides(s, ship, rocks[h.value.rock].value.body))
      && (h.Some? && h.value.LaserHit? ==>
            && !Collides(s, ship, rocks[h.value.rock].value.body)
            && FirstLaserHit(s, lasers, rocks[h.value.rock].value.body, 0) == Some(h.value.laser))
  {
    if i < |rocks| && rocks[i].Some? {
      var rock := rocks[i].value.body;
      if !Collides(s, ship, rock) && FirstLaserHit(s, lasers, rock, 0).None? {
        assert FirstHitFrom(s, ship, rocks, lasers, i) == FirstHitFrom(s, ship, rocks, lasers, i + 1);
        FirstHitIsHit(s, ship, rocks, lasers, i + 1);
      }
    }
  }

  /**
   * The collision resolved is the first in scan order: every earlier rock is
   * spared by the ship and all lasers, and with no collision every rock
   * before the first NULL is spared.
   */
  lemma {:induction false} FirstHitScansInOrder(s: Setting, ship: Mover, rocks: seq<Option<Rock>>, lasers: seq<Mover>, i: nat)
    requires i <= FirstNull(rocks)
    decreases |rocks| - i
    ensures var h := FirstHitFrom(s, ship, rocks, lasers, i);
      && (h.Some? ==> forall k :: i <= k < h.value.rock ==> Spared(s, ship, lasers, rocks[k].value.body))
      && (h.None? ==> forall k :: i <= k < FirstNull(rocks) ==> Spared(s, ship, lasers, rocks[k].value.body))
  {
    if i < |rocks| && rocks[i].Some? {
      var rock := rocks[i].value.body;
      if !Collides(s, ship, rock) && FirstLaserHit(s, lasers, rock, 0).None? {
        var h := FirstHitFrom(s, ship, rocks, lasers, i + 1);
        assert FirstHitFrom(s, ship, rocks, lasers, i) == h;
        FirstHitScansInOrder(s, ship, rocks, lasers, i + 1);
        var end := if h.Some? then h.value.rock else FirstNull(rocks);
        forall k | i <= k < end
          ensures Spared(s, ship, lasers, rocks[k].value.body)
        {
          if k == i {
            assert Spared(s, ship, lasers, rock);
          }
        }
      }
    }
  }

  /**
   * handleCollisions: nothing without a live ship; otherwise the first
   * collision found splits the rock, kills the rock and the object that hit
   * it, and adds the rock's score, and the scan stops.
   */
  function AfterCollisions(s: Setting, a: Arena): (b: Arena)
    requires Inv(a)
  {
    if a.ship.None? || !a.ship.value.body.alive then a
    else
      var h := FirstHitFrom(s, a.ship.value.body, a.rocks, a.lasers, 0);
      if h.None? then a else AfterHit(s, a, h.value)
  }

  /** The hit rock split and killed, its score added, and the ship or the laser that hit it killed. */
  function AfterHit(s: Setting, a: Arena, h: Hit): (b: Arena)
    requires Inv(a) && a.ship.Some?
    requires h.rock < |a.rocks| && a.rocks[h.rock].Some?
    requires h.LaserHit? ==> h.laser < |a.lasers|
  {
    var ship := a.ship.value.body;
    var rock := a.rocks[h.rock].value;
    var impactor := if h.ShipHit? then ship else a.lasers[h.laser];
    var split := Split(s, rock, impactor, a.draws);
    var b := a.(rocks := (a.rocks + split.0)[h.rock := Some(rock.(body := Killed(rock.body)))],
                score := a.score + rock.body.scoreAmount,
                draws := split.1);
    if h.ShipHit? then b.(ship := Some(a.ship.value.(body := Killed(ship))))
    else b.(lasers := a.lasers[h.laser := Killed(impactor)])
  }

  /**
   * At most one collision is resolved per call: either nothing changes, or
   * exactly one rock dies and gets two children appended, the score grows
   * by that rock's amount, and exactly one impactor dies: the ship, or one
   * laser with the other lasers untouched.
   */
  lemma CollisionsResolveAtMostOne(s: Setting, a: Arena)
    requires Inv(a)
    ensures var b := AfterCollisions(s, a);
      || b == a
      || (exists i :: 0 <= i < |a.rocks| && a.rocks[i].Some? && Resolved(a, b, i))
  {
    var b := AfterCollisions(s, a);
    if a.ship.Some? && a.ship.value.body.alive {
      var h := FirstHitFrom(s, a.ship.value.body, a.rocks, a.lasers, 0);
      if h.Some? {
        var i := h.value.rock;
        assert b.rocks[..|a.rocks|] == a.rocks[i := Some(a.rocks[i].value.(body := Killed(a.rocks[i].value.body)))];
        if h.value.LaserHit? {
          var j := h.value.laser;
          assert forall k :: 0 <= k < |a.lasers| && k != j ==> b.lasers[k] == a.lasers[k];
        }
        assert Resolved(a, b, i);
      }
    }
  }

  /** b is a with rock i killed and split, its score added, and one impactor killed. */
  predicate Resolved(a: Arena, b: Arena, i: nat)
    requires i < |a.rocks| && a.rocks[i].Some?
  {
    var rock := a.rocks[i].value;
    && |b.rocks| == |a.rocks| + 2
    && b.rocks[..|a.rocks|] == a.rocks[i := Some(rock.(body := Killed(rock.body)))]
    && b.score == a.score + rock.body.scoreAmount
    && |b.lasers| == |a.lasers|
    && (|| (b.ship.Some? && a.ship.Some? && b.ship.value == a.ship.value.(body := Killed(a.ship.value.body))
            && b.lasers == a.lasers)
        || (exists j :: 0 <= j < |a.lasers| && b.lasers == a.lasers[j := Killed(a.lasers[j])] && b.ship == a.ship))
  }

  /** Resolving one hit keeps every mass positive: the children take theirs from their size. */
  lemma AfterHitKeepsInv(s: Setting, a: Arena, h: Hit)
    requires Inv(a) && ValidSetting(s) && a.ship.Some?
    requires h.rock < |a.rocks| && a.rocks[h.rock].Some?
    requires h.LaserHit? ==> h.laser < |a.lasers|
    ensures Inv(AfterHit(s, a, h))
  {
    var rock := a.rocks[h.rock].value;
    var impactor := if h.ShipHit? then a.ship.value.body else a.lasers[h.laser];
    var split := Split(s, rock, impactor, a.draws);
    SplitMasses(s, rock, impactor, a.draws);
    var grown := a.rocks + split.0;
    assert forall i :: 0 <= i < |grown| && grown[i].Some? ==> grown[i].value.body.mass > 0.0 by {
      forall i | 0 <= i < |grown| && grown[i].Some?
        ensures grown[i].value.body.mass > 0.0
      {
        if i >= |a.rocks| {
          assert grown[i] == split.0[i - |a.rocks|];
        }
      }
    }
  }

  /** Resolving a collision keeps every mass positive. */
  lemma AfterCollisionsKeepsInv(s: Setting, a: Arena)
    requires Inv(a) && ValidSetting(s)
    ensures Inv(AfterCollisions(s, a))
  {
    if a.ship.Some? && a.ship.value.body.alive {
      var h := FirstHitFrom(s, a.ship.value.body, a.rocks, a.lasers, 0);
      if h.Some? {
        AfterHitKeepsInv(s, a, h.value);
      }
    }
  }

  // ---------------------------------------------------------------------
  // Clean-up
  // ---------------------------------------------------------------------

  /** cleanUpShip: a dead ship becomes NULL. */
  function AfterCleanUpShip(a: Arena): (b: Arena)
    ensures b.lasers == a.lasers && b.rocks == a.rocks && b.score == a.score && b.draws == a.draws
    ensures b.ship.None? <==> a.ship.None? || !a.ship.value.body.alive
    ensures b.ship.Some? ==> b.ship == a.ship
  {
    if a.ship.Some? && !a.ship.value.body.alive then a.(ship := None) else a
  }

  /** The index of the first dead laser at j or later. */
  function FirstDeadLaser(lasers: seq<Mover>, j: nat): (r: Option<nat>)
    decreases |lasers| - j
    ensures r.Some? ==> j <= r.value < |lasers| && !lasers[r.value].alive
    ensures r.Some? ==> forall k :: j <= k < r.value ==> lasers[k].alive
    ensures r.None? ==> forall k :: j <= k < |lasers| ==> lasers[k].alive
  {
    if j >= |lasers| then None
    else if !lasers[j].alive then Some(j)
    else FirstDeadLaser(lasers, j + 1)
  }

  /** The index of the first dead rock at i or later, not looking past a NULL. */
  function FirstDeadRock(rocks: seq<Option<Rock>>, i: nat): (r: Option<nat>)
    requires i <= FirstNull(rocks)
    decreases |rocks| - i
    ensures r.Some? ==> i <= r.value < FirstNull(rocks) && !rocks[r.value].value.body.alive
    ensures r.Some? ==> forall k :: i <= k < r.value ==> rocks[k].value.body.alive
    ensures r.None? ==> forall k :: i <= k < FirstNull(rocks) ==> rocks[k].value.body.alive
  {
    if i >= |rocks| || rocks[i].None? then None
    else if !rocks[i].value.body.alive then Some(i)
    else FirstDeadRock(rocks, i + 1)
  }

  function RemoveAt<T>(xs: seq<T>, k: nat): (ys: seq<T>)
    requires k < |xs|
    ensures |ys| == |xs| - 1
    ensures forall i :: 0 <= i < k ==> ys[i] == xs[i]
    ensures forall i :: k <= i < |ys| ==> ys[i] == xs[i + 1]
  {
    xs[..k] + xs[k + 1..]
  }

  /** cleanUpLasers: the first dead laser, if any, is erased. */
  function AfterCleanUpLasers(a: Arena): Arena
  {
    match FirstDeadLaser(a.lasers, 0)
    case None => a
    case Some(k) => a.(lasers := RemoveAt(a.lasers, k))
  }

  /** cleanUpRocks: the first dead rock before any NULL, if any, is erased. */
  function AfterCleanUpRocks(a: Arena): Arena
  {
    match FirstDeadRock(a.rocks, 0)
    case None => a
    case Some(k) => a.(rocks := RemoveAt(a.rocks, k))
  }

  /** cleanUpZombies: ship, then rocks, then lasers. */
  function AfterCleanUpZombies(a: Arena): Arena
  {
    AfterCleanUpLasers(AfterCleanUpRocks(AfterCleanUpShip(a)))
  }

  /**
   * cleanUpLasers removes at most one laser, the first dead one, and keeps
   * the others in order; with no dead laser nothing changes.
   */
  lemma CleanUpLasersRemovesFirstDead(a: Arena)
    ensures var b := AfterCleanUpLasers(a);
      && b.ship == a.ship && b.rocks == a.rocks && b.score == a.score && b.draws == a.draws
      && ((forall k :: 0 <= k < |a.lasers| ==> a.lasers[k].alive) <==> b == a)
      && (b != a ==> exists k :: 0 <= k < |a.lasers| && !a.lasers[k].alive
                       && (forall i :: 0 <= i < k ==> a.lasers[i].alive)
                       && b.lasers == a.lasers[..k] + a.lasers[k + 1..])
  {
    var b := AfterCleanUpLasers(a);
    var r := FirstDeadLaser(a.lasers, 0);
    if r.Some? {
      assert |b.lasers| != |a.lasers|;
    }
  }

  /**
   * cleanUpRocks changes the arena exactly when some rock before the first
   * NULL is dead, and then it erases the first such rock and nothing else.
   */
  lemma CleanUpRocksRemovesFirstDead(a: Arena)
    ensures var b := AfterCleanUpRocks(a);
      var n := FirstNull(a.rocks);
      && b.ship == a.ship && b.lasers == a.lasers && b.score == a.score && b.draws == a.draws
      && ((forall k :: 0 <= k < n ==> a.rocks[k].value.body.alive) <==> b == a)
      && (b != a ==> exists k :: 0 <= k < n && !a.rocks[k].value.body.alive
                       && (forall i :: 0 <= i < k ==> a.rocks[i].value.body.alive)
                       && b.rocks == a.rocks[..k] + a.rocks[k + 1..])
  {
    var b := AfterCleanUpRocks(a);
    var n := FirstNull(a.rocks);
    match FirstDeadRock(a.rocks, 0)
    case None =>
      assert b == a;
    case Some(k) =>
      assert k < n && !a.rocks[k].value.body.alive && forall i :: 0 <= i < k ==> a.rocks[i].value.body.alive;
      assert b.rocks == a.rocks[..k] + a.rocks[k + 1..];
      assert b != a by {
        assert |b.rocks| != |a.rocks|;
      }
  }

  /** Rocks from the first NULL on are never removed by cleanUpRocks. */
  lemma CleanUpRocksStopsAtNull(a: Arena)
    ensures var b := AfterCleanUpRocks(a);
      var n := FirstNull(a.rocks);
      && |a.rocks| - n <= |b.rocks|
      && b.rocks[|b.rocks| - (|a.rocks| - n)..] == a.rocks[n..]
  {
    var b := AfterCleanUpRocks(a);
    var n := FirstNull(a.rocks);
    match FirstDeadRock(a.rocks, 0)
    case None =>
    case Some(k) =>
      assert k < n;
      forall i | n <= i < |a.rocks|
        ensures b.rocks[i - 1] == a.rocks[i]
      {
      }
  }



  /** cleanUpZombies keeps every mass positive. */
  lemma CleanUpZombiesKeepsInv(a: Arena)
    requires Inv(a)
    ensures Inv(AfterCleanUpZombies(a))
  {
    var a1 := AfterCleanUpShip(a);
    var a2 := AfterCleanUpRocks(a1);
    var a3 := AfterCleanUpLasers(a2);
    match FirstDeadRock(a1.rocks, 0)
    case None =>
    case Some(k) =>
      assert forall i :: 0 <= i < |a2.rocks| ==> a2.rocks[i] == a1.rocks[if i < k then i else i + 1];
    match FirstDeadLaser(a2.lasers, 0)
    case None =>
    case Some(k) =>
      assert forall i :: 0 <= i < |a3.lasers| ==> a3.lasers[i] == a2.lasers[if i < k then i else i + 1];
  }

  // ---------------------------------------------------------------------
  // The arena
  // ---------------------------------------------------------------------

  class Game {
    const s: Setting
    var ship: Option<Ship>
    var lasers: seq<Mover>
    var rocks: seq<Option<Rock>>
    var score: int
    var draws: nat

    /** An empty arena: no ship, no lasers, no rocks, score 0. */
    constructor (s: Setting)
      ensures this.s == s && Snapshot() == Arena(None, [], [], 0, 0)
    {
      this.s := s;
      ship, lasers, rocks, score, draws := None, [], [], 0, 0;
    }

    function Snapshot(): Arena
      reads this
    {
      Arena(ship, lasers, rocks, score, draws)
    }

    /** random(lo, hi): the next number of the random source. */
    method Random(lo: real, hi: real) returns (r: real)
      modifies this
      ensures r == s.random(old(draws), lo, hi)
      ensures Snapshot() == old(Snapshot()).(draws := old(draws) + 1)
    {
      r := s.random(draws, lo, hi);
      draws := draws + 1;
    }

    /** The random on-screen point createRock draws: random(left, right), random(bottom, top). */
    method RandomPoint() returns (q: Vec)
      requires RandomInRange(s) && s.left <= s.right && s.bottom <= s.top
      modifies this
      ensures q == DrawPoint(s, old(draws)) && OnScreen(s, q)
      ensures Snapshot() == old(Snapshot()).(draws := old(draws) + 2)
    {
      var newX := Random(s.left, s.right);
      var newY := Random(s.bottom, s.top);
      q := Vec(newX, newY);
      DrawPointOnScreen(s, old(draws));
    }

    /** The loop of createRock that redraws the point until dist puts it 100 away from the ship. */
    method KeepClear(shipPoint: Vec, first: Vec) returns (q: Vec)
      requires RandomInRange(s) && s.left <= s.right && s.bottom <= s.top
      requires 2 <= draws && first == DrawPoint(s, draws - 2) && OnScreen(s, first)
      requires FarFrom(s, draws - 2, shipPoint)
      modifies this
      ensures Dist(s, shipPoint, q) >= RockBuffer && OnScreen(s, q)
      ensures Snapshot() == old(Snapshot()).(draws := draws) && old(draws) <= draws
    {
      q := first;
      ghost var d: nat := draws - 2;
      ghost var t: nat :| ClearWithin(s, d, t, shipPoint);
      while Dist(s, shipPoint, q) < RockBuffer
        invariant draws == d + 2 && old(draws) <= draws
        invariant q == DrawPoint(s, d) && OnScreen(s, q)
        invariant ClearWithin(s, d, t, shipPoint)
        invariant ship == old(ship) && lasers == old(lasers) && rocks == old(rocks) && score == old(score)
        decreases t
      {
        q := RandomPoint();
        d, t := d + 2, t - 1;
      }
    }

    method FireLaser()
      requires ship.Some?
      modifies this
      ensures Snapshot() == AfterFire(s, old(Snapshot()))
    {
      if ship.value.firingDelay <= 0.0 {
        lasers := lasers + [FireFrom(s, ship.value.body)];
        ship := Some(ship.value.(firingDelay := FireDelayTime));
      }
    }

    /**
     * createRock: a start position within 10 of the origin is replaced by a
     * random point on screen, redrawn for an initial rock until dist puts it
     * 100 away from the ship; then the rock of the requested size, or NULL.
     */
    method CreateRock(whichRock: Option<RockSize>, pInit: Vec, vInit: Vec, isInitial: bool)
      returns (rock: Option<Rock>, ghost p: Vec)
      requires ValidSetting(s)
      requires isInitial && ship.Some? && Mag(s.m, pInit.x, pInit.y) < NearOrigin ==> FarFrom(s, draws, ship.value.body.p)
      modifies this
      ensures Snapshot() == old(Snapshot()).(draws := draws)
      ensures rock == Place(s, whichRock, p, vInit)
      ensures NearOrigin <= Mag(s.m, pInit.x, pInit.y) ==> p == pInit && draws == old(draws)
      ensures Mag(s.m, pInit.x, pInit.y) < NearOrigin ==> OnScreen(s, p) && old(draws) + 2 <= draws
      ensures Mag(s.m, pInit.x, pInit.y) < NearOrigin && isInitial && ship.Some? ==>
        Dist(s, ship.value.body.p, p) >= RockBuffer
      ensures !(isInitial && ship.Some?) ==> (rock, draws) == Placed(s, whichRock, pInit, vInit, old(draws))
    {
      var q := pInit;
      if Mag(s.m, q.x, q.y) < NearOrigin {
        q := RandomPoint();
        if isInitial && ship.Some? {
          q := KeepClear(ship.value.body.p, q);
        }
      }
      rock := Place(s, whichRock, q, vInit);
      p := q;
    }

    /** asteroidBelt: Rock::amountInit big rocks, each placed by createRock as initial with a zero vInit. */
    method AsteroidBelt()
      requires ValidSetting(s)
      requires ship.Some? ==> EventuallyFar(s, ship.value.body.p)
      modifies this
      ensures ship == old(ship) && lasers == old(lasers) && score == old(score)
      ensures |rocks| == |old(rocks)| + s.amountInit && rocks[..|old(rocks)|] == old(rocks)
      ensures forall i :: |old(rocks)| <= i < |rocks| ==> BeltRock(s, rocks[i], ship)
    {
      MagZeroIff(s.m, 0.0, 0.0);
      var i := 0;
      while i < s.amountInit
        invariant 0 <= i <= s.amountInit
        invariant ship == old(ship) && lasers == old(lasers) && score == old(score)
        invariant |rocks| == |old(rocks)| + i && rocks[..|old(rocks)|] == old(rocks)
        invariant forall k :: |old(rocks)| <= k < |rocks| ==> BeltRock(s, rocks[k], ship)
      {
        var rock, p := CreateRock(Some(BigRock), Vec(0.0, 0.0), Vec(0.0, 0.0), true);
        rocks := rocks + [rock];
        i := i + 1;
      }
    }

    /** wrapObjects: the ship, every laser, and the rocks up to the first NULL. */
    method WrapObjects()
      requires s.left <= s.right && s.bottom <= s.top && Wrappable(Snapshot())
      modifies this
      ensures old(ship).None? ==> ship.None?
      ensures old(ship).Some? ==> ship == Some(old(ship).value.(body := Wrapped(s, old(ship).value.body)))
      ensures |lasers| == |old(lasers)|
      ensures forall j :: 0 <= j < |lasers| ==> lasers[j] == Wrapped(s, old(lasers)[j])
      ensures |rocks| == |old(rocks)|
      ensures forall i :: 0 <= i < FirstNull(old(rocks)) ==> rocks[i] == Some(WrappedRock(s, old(rocks)[i].value))
      ensures forall i :: FirstNull(old(rocks)) <= i < |rocks| ==> rocks[i] == old(rocks)[i]
      ensures score == old(score) && draws == old(draws)
    {
      if ship.Some? {
        ship := Some(ship.value.(body := Wrapped(s, ship.value.body)));
      }
      ghost var wrappedShip := ship;
      var j := 0;
      while j < |lasers|
        invariant 0 <= j <= |lasers| == |old(lasers)|
        invariant ship == wrappedShip && rocks == old(rocks) && score == old(score) && draws == old(draws)
        invariant forall k :: 0 <= k < j ==> lasers[k] == Wrapped(s, old(lasers)[k])
        invariant forall k :: j <= k < |lasers| ==> lasers[k] == old(lasers)[k]
      {
        lasers := lasers[j := Wrapped(s, lasers[j])];
        j := j + 1;
      }
      ghost var wrappedLasers := lasers;
      var i := 0;
      while i < |rocks|
        invariant 0 <= i <= |rocks| == |old(rocks)|
        invariant ship == wrappedShip && lasers == wrappedLasers && score == old(score) && draws == old(draws)
        invariant forall k :: 0 <= k < i ==> old(rocks)[k].Some? && rocks[k] == Some(WrappedRock(s, old(rocks)[k].value))
        invariant forall k :: i <= k < |rocks| ==> rocks[k] == old(rocks)[k]
      {
        if rocks[i].None? {
          break;
        }
        rocks := rocks[i := Some(WrappedRock(s, rocks[i].value))];
        i := i + 1;
      }
      assert i == FirstNull(old(rocks));
    }

    /** getClosestDistance: samples both objects along one frame's motion. */
    method GetClosestDistance(obj1: Mover, obj2: Mover) returns (d: real)
      ensures d == s.m.sqrt(ClosestSq(obj1, obj2))
    {
      var dMax := DMax(obj1, obj2);
      var distMin := FltMax;
      var i := 0.0;
      ghost var n: nat := 0;
      while i <= dMax
        invariant i == n as real && n <= dMax.Floor + 1
        invariant distMin == SweptMinSq(obj1, obj2, dMax, n)
        decreases dMax.Floor + 1 - n
      {
        var point1 := SamplePoint(obj1, dMax, i);
        var point2 := SamplePoint(obj2, dMax, i);
        var distSquared := SqDist(point1, point2);
        distMin := Min(distMin, distSquared);
        i := i + 1.0;
        n := n + 1;
      }
      assert n == SampleCount(obj1, obj2);
      d := s.m.sqrt(distMin);
    }

    /** checkCollision: the closest distance is strictly below the sum of the radii. */
    method CheckCollision(obj1: Mover, obj2: Mover) returns (hit: bool)
      ensures hit == Collides(s, obj1, obj2)
    {
      var tooClose := obj1.radius + obj2.radius;
      var closest := GetClosestDistance(obj1, obj2);
      hit := closest < tooClose;
    }

    /** generateOffsetVelocity: one random deviation between 0° and 15°. */
    method GenerateOffsetVelocity(rock: Mover, obj: Mover) returns (v1: Vec, v2: Vec)
      requires rock.mass + obj.mass != 0.0
      modifies this
      ensures (v1, v2) == OffsetPair(s, rock, obj, Rad(s.random(old(draws), 0.0, MaxOffsetDegrees)))
      ensures Snapshot() == old(Snapshot()).(draws := old(draws) + 1)
    {
      var totalMomentum := Momentum(s, rock) + Momentum(s, obj);
      var totalMass := rock.mass + obj.mass;
      var finalSpeed := totalMomentum / totalMass;
      var finalAngle := (AngleOf(s.m, obj.v) + AngleOf(s.m, rock.v)) / 2.0;
      var degrees := Random(0.0, MaxOffsetDegrees);
      var randomAngleOffset := Rad(degrees);
      v1 := Polar(s.m, finalSpeed, finalAngle - randomAngleOffset);
      v2 := Polar(s.m, finalSpeed, finalAngle + randomAngleOffset);
    }

    /** splitRock: appends the two children of the rock hit by obj. */
    method SplitRock(rock: Rock, obj: Mover)
      requires ValidSetting(s) && rock.body.mass + obj.mass != 0.0
      modifies this
      ensures Snapshot() == old(Snapshot()).(rocks := old(rocks) + Split(s, rock, obj, old(draws)).0,
                                             draws := Split(s, rock, obj, old(draws)).1)
    {
      var next := s.traits(rock.size).next;
      var offsetV1, offsetV2 := GenerateOffsetVelocity(rock.body, obj);
      var newRock1, p1 := CreateRock(next, rock.body.p, Sum(rock.body.v, offsetV1), false);
      var newRock2, p2 := CreateRock(next, rock.body.p, Sum(rock.body.v, offsetV2), false);
      rocks := rocks + [newRock1];
      rocks := rocks + [newRock2];
    }

    /** handleCollisions: resolves at most one collision. */
    method HandleCollisions()
      requires ValidSetting(s) && Inv(Snapshot())
      modifies this
      ensures Snapshot() == AfterCollisions(s, old(Snapshot()))
    {
      if ship.None? {
        return;
      }
      if !ship.value.body.alive {
        return;
      }
      var shipBody := ship.value.body;
      var i := 0;
      while i < |rocks|
        invariant 0 <= i <= |rocks|
        invariant Snapshot() == old(Snapshot())
        invariant i <= FirstNull(rocks)
        invariant FirstHitFrom(s, shipBody, rocks, lasers, 0) == FirstHitFrom(s, shipBody, rocks, lasers, i)
      {
        if rocks[i].None? {
          break;
        }
        var rock := rocks[i].value;
        var shipHit := CheckCollision(shipBody, rock.body);
        if shipHit {
          ResolveHit(ShipHit(i));
          return;
        }
        var j := 0;
        while j < |lasers|
          invariant 0 <= j <= |lasers|
          invariant Snapshot() == old(Snapshot())
          invariant FirstLaserHit(s, lasers, rock.body, 0) == FirstLaserHit(s, lasers, rock.body, j)
        {
          var laserHit := CheckCollision(lasers[j], rock.body);
          if laserHit {
            ResolveHit(LaserHit(i, j));
            return;
          }
          j := j + 1;
        }
        i := i + 1;
      }
    }

    /** The body of a hit in handleCollisions: split the rock, kill it, score it, kill the impactor. */
    method ResolveHit(h: Hit)
      requires ValidSetting(s) && Inv(Snapshot()) && ship.Some?
      requires h.rock < |rocks| && rocks[h.rock].Some?
      requires h.LaserHit? ==> h.laser < |lasers|
      modifies this
      ensures Snapshot() == AfterHit(s, old(Snapshot()), h)
    {
      var rock := rocks[h.rock].value;
      var impactor := if h.ShipHit? then ship.value.body else lasers[h.laser];
      SplitRock(rock, impactor);
      rocks := rocks[h.rock := Some(rock.(body := Killed(rock.body)))];
      score := score + rock.body.scoreAmount;
      if h.ShipHit? {
        ship := Some(ship.value.(body := Killed(ship.value.body)));
      } else {
        lasers := lasers[h.laser := Killed(impactor)];
      }
    }

    method CleanUpShip()
      modifies this
      ensures Snapshot() == AfterCleanUpShip(old(Snapshot()))
    {
      if ship.Some? {
        if !ship.value.body.alive {
          ship := None;
        }
      }
    }

    method CleanUpLasers()
      modifies this
      ensures Snapshot() == AfterCleanUpLasers(old(Snapshot()))
    {
      var j := 0;
      while j < |lasers|
        invariant 0 <= j <= |lasers|
        invariant Snapshot() == old(Snapshot())
        invariant FirstDeadLaser(lasers, 0) == FirstDeadLaser(lasers, j)
      {
        if !lasers[j].alive {
          lasers := lasers[..j] + lasers[j + 1..];
          return;
        }
        j := j + 1;
      }
    }

    method CleanUpRocks()
      modifies this
      ensures Snapshot() == AfterCleanUpRocks(old(Snapshot()))
    {
      var i := 0;
      while i < |rocks|
        invariant 0 <= i <= |rocks|
        invariant Snapshot() == old(Snapshot())
        invariant i <= FirstNull(rocks)
        invariant FirstDeadRock(rocks, 0) == FirstDeadRock(rocks, i)
      {
        if rocks[i].None? {
          break;
        }
        if !rocks[i].value.body.alive {
          rocks := rocks[..i] + rocks[i + 1..];
          return;
        }
        i := i + 1;
      }
    }

    method CleanUpZombies()
      modifies this
      ensures Snapshot() == AfterCleanUpZombies(old(Snapshot()))
    {
      CleanUpShip();
      CleanUpRocks();
      CleanUpLasers();
    }

    method ResetShip()
      modifies this
      ensures Snapshot() == old(Snapshot()).(ship := Some(NewShip()))
    {
      ship := Some(NewShip());
    }

    method RemoveAllLasers()
      modifies this
      ensures Snapshot() == old(Snapshot()).(lasers := [])
    {
      while |lasers| > 0
        invariant Snapshot() == old(Snapshot()).(lasers := lasers)
      {
        lasers := lasers[1..];
      }
    }

    method RemoveAllRocks()
      modifies this
      ensures Snapshot() == old(Snapshot()).(rocks := [])
    {
      while |rocks| > 0
        invariant Snapshot() == old(Snapshot()).(rocks := rocks)
      {
        rocks := rocks[1..];
      }
    }

    method ResetScore()
      modifies this
      ensures Snapshot() == old(Snapshot()).(score := 0)
    {
      score := 0;
    }

    /** resetAllRocks: the rocks are replaced by a fresh asteroid belt. */
    method ResetAllRocks()
      requires ValidSetting(s)
      requires ship.Some? ==> EventuallyFar(s, ship.value.body.p)
      modifies this
      ensures ship == old(ship) && lasers == old(lasers) && score == old(score)
      ensures |rocks| == s.amountInit
      ensures forall i :: 0 <= i < |rocks| ==> BeltRock(s, rocks[i], ship)
    {
      RemoveAllRocks();
      AsteroidBelt();
    }

    /**
     * reset: a new ship, no lasers, Rock::amountInit big rocks clear of the
     * ship, score 0.
     */
    method Reset()
      requires ValidSetting(s) && EventuallyFar(s, NewShip().body.p)
      modifies this
      ensures ship == Some(NewShip()) && lasers == [] && score == 0
      ensures |rocks| == s.amountInit
      ensures forall i :: 0 <= i < |rocks| ==> BeltRock(s, rocks[i], ship)
    {
      ResetShip();
      RemoveAllLasers();
      ResetAllRocks();
      ResetScore();
    }
  }

  /** After reset every rock's centre is at least 100 from the ship's. */
  lemma ResetRocksClearOfShip(s: Setting, r: Option<Rock>)
    requires SqrtSound(s.m) && BeltRock(s, r, Some(NewShip()))
    ensures SqDist(NewShip().body.p, r.value.body.p) >= RockBuffer * RockBuffer
  {
    DistFromOrigin(s, r.value.body.p);
  }

  /** A belt rock keeps every mass positive. */
  lemma BeltRockMass(s: Setting, r: Option<Rock>, ship: Option<Ship>)
    requires ValidSetting(s) && BeltRock(s, r, ship)
    ensures r.value.body.mass > 0.0 && r.value.size == BigRock && r.value.body.v == Vec(0.0, 0.0)
  {
    assert s.traits(BigRock).mass > 0.0;
  }
}
