/**
 * The flying objects of the Kotlin port (FlyingObject.kt, Ship.kt,
 * Laser.kt): integer screen points, Float velocities and rotations in
 * degrees. FlyingObject is a class whose fields the methods update in
 * place; Ship, Laser and Asteroid are its named constructors and, for the
 * ship, a class holding the ship's FlyingObject and its frames.
 */
module KotlinObjects {
  import opened Maths
  import Formulas

  /** Game.fps. */
  const Fps: int := 60
  /** Ship.kt: shipSpeed and shipRotateSpeed. */
  const ShipSpeed: real := 2.0
  const ShipRotateSpeed: real := 5.0
  /** Laser.kt: default laserSpeed and the death timer. */
  const LaserSpeed: real := 5.0
  const LaserDeathTimer: real := 40.0
  /** Asteroid.kt: asteroidSpeed. */
  const AsteroidSpeed: real := 1.0
  /** Ship.kt: the number of bitmap frames loaded. */
  const ShipFrames: nat := 12

  /** android.graphics.Rect: Game.screenDimensions is Rect(0, 0, width, height). */
  datatype Screen = Screen(left: int, top: int, right: int, bottom: int)

  /** Game.HeldKeys: the buttons currently held. */
  datatype HeldKeys = HeldKeys(thrust: bool, rotateLeft: bool, rotateRight: bool, fireLaser: bool)

  /** The value of a FlyingObject with its point and velocity. */
  datatype ObjState = ObjState(
    name: string, x: int, y: int, dx: real, dy: real,
    radius: int, rotation: real, deathTimer: real, alive: bool, wrap: bool)

  /** The ship's frame for drawing, or the exception reading frames[] throws. */
  datatype FrameResult = Frame(index: nat) | IndexOutOfBounds

  // ---------------------------------------------------------------------
  // Point and Velocity
  // ---------------------------------------------------------------------

  /** android.graphics.Point. */
  class Point {
    var x: int
    var y: int

    constructor (x: int, y: int)
      ensures this.x == x && this.y == y
    {
      this.x, this.y := x, y;
    }

    /** Point.translate: each Float step is truncated toward zero before it is added. */
    method Translate(dx: real, dy: real)
      modifies this
      ensures x == old(x) + Trunc(dx) && y == old(y) + Trunc(dy)
    {
      x := x + Trunc(dx);
      y := y + Trunc(dy);
    }
  }

  class Velocity {
    var dx: real
    var dy: real

    constructor (dx: real, dy: real)
      ensures this.dx == dx && this.dy == dy
    {
      this.dx, this.dy := dx, dy;
    }

    method Translate(ddx: real, ddy: real)
      modifies this
      ensures dx == old(dx) + ddx && dy == old(dy) + ddy
    {
      dx := dx + ddx;
      dy := dy + ddy;
    }

    /** amount: the speed. */
    function Amount(m: Transcendentals): real
      reads this
    {
      Formulas.Mag(m, dx, dy)
    }
  }

  // ---------------------------------------------------------------------
  // The rules, on values
  // ---------------------------------------------------------------------

  /** Math.toRadians. */
  function ToRadians(degrees: real): real { Formulas.Rad(degrees) }

  /** accelerate(amount): amount along the heading, cos for x and sin for y. */
  function Accelerated(m: Transcendentals, o: ObjState, amount: real): ObjState
  {
    o.(dx := o.dx + amount * m.cos(ToRadians(o.rotation)),
       dy := o.dy + amount * m.sin(ToRadians(o.rotation)))
  }

  /** accelerate changes the velocity by exactly |amount| and touches nothing else. */
  lemma AcceleratedBy(m: Transcendentals, o: ObjState, amount: real)
    requires PythagoreanSound(m)
    ensures var a := Accelerated(m, o, amount);
      && a == o.(dx := a.dx, dy := a.dy)
      && (a.dx - o.dx) * (a.dx - o.dx) + (a.dy - o.dy) * (a.dy - o.dy) == amount * amount
  {
    var a := Accelerated(m, o, amount);
    var c, s := m.cos(ToRadians(o.rotation)), m.sin(ToRadians(o.rotation));
    assert s * s + c * c == 1.0;
    assert a.dx - o.dx == amount * c && a.dy - o.dy == amount * s;
    assert (amount * c) * (amount * c) + (amount * s) * (amount * s) == (amount * amount) * (c * c + s * s);
  }

  /** wrap: only when the flag is set; the radius buffer is on the left and top sides only. */
  function Wrapped(screen: Screen, o: ObjState): (w: ObjState)
    ensures w == o.(x := w.x, y := w.y)
    ensures !o.wrap ==> w == o
  {
    if !o.wrap then o
    else
      var x := if o.x > screen.right then screen.left - o.radius
               else if o.x < screen.left - o.radius then screen.right
               else o.x;
      var y := if o.y > screen.bottom then screen.top - o.radius
               else if o.y < screen.top - o.radius then screen.bottom
               else o.y;
      o.(x := x, y := y)
  }

  /**
   * After a wrap the point lies in [left - radius, right] × [top - radius,
   * bottom], and a second wrap changes nothing.
   */
  lemma WrappedBounds(screen: Screen, o: ObjState)
    requires o.wrap && o.radius >= 0 && screen.left <= screen.right && screen.top <= screen.bottom
    ensures var w := Wrapped(screen, o);
      && screen.left - o.radius <= w.x <= screen.right
      && screen.top - o.radius <= w.y <= screen.bottom
      && Wrapped(screen, w) == w
      && (screen.left - o.radius <= o.x <= screen.right ==> w.x == o.x)
      && (screen.top - o.radius <= o.y <= screen.bottom ==> w.y == o.y)
  {
  }

  /** The rotation loops of update: the angle shifted by whole turns into [0, 360). */
  function Normalized(rotation: real): (r: real)
    ensures 0.0 <= r < 360.0
  {
    rotation - 360.0 * (rotation / 360.0).Floor as real
  }

  /** Shifting by whole turns into [0, 360) always gives Normalized. */
  lemma NormalizedUnique(rotation: real, k: int)
    requires 0.0 <= rotation + 360.0 * k as real < 360.0
    ensures Normalized(rotation) == rotation + 360.0 * k as real
  {
    var q := rotation / 360.0;
    assert -(k as real) <= q < 1.0 - k as real;
    assert q.Floor == -k;
  }

  /** The death timer of update: counts down while positive, kills when negative, never fires at 0. */
  function TimerStep(o: ObjState, dt: int): ObjState
  {
    if o.deathTimer > 0.0 then o.(deathTimer := o.deathTimer - (dt as real) / (Fps as real))
    else if o.deathTimer < 0.0 then o.(alive := false)
    else o
  }

  /** update(dt): translate by (dx, -dy), wrap, run the timer, normalise the rotation. */
  function Step(screen: Screen, o: ObjState, dt: int): ObjState
  {
    if !o.alive then o
    else
      var moved := o.(x := o.x + Trunc(o.dx), y := o.y + Trunc(-o.dy));
      var timed := TimerStep(Wrapped(screen, moved), dt);
      timed.(rotation := Normalized(timed.rotation))
  }

  /**
   * What update promises: nothing happens to a dead object; a live one
   * ends with its rotation in [0, 360), never comes back to life, moves by
   * the truncated velocity with y inverted (before any wrap), keeps a zero
   * timer and its life, counts a positive timer down by dt/60 and dies
   * with a negative one.
   */
  lemma StepFacts(screen: Screen, o: ObjState, dt: int)
    ensures var n := Step(screen, o, dt);
      && (!o.alive ==> n == o)
      && (o.alive ==> 0.0 <= n.rotation < 360.0 && n.rotation == Normalized(o.rotation))
      && (n.alive ==> o.alive)
      && n.radius == o.radius && n.dx == o.dx && n.dy == o.dy && n.wrap == o.wrap && n.name == o.name
      && (o.alive && !o.wrap ==> n.x == o.x + Trunc(o.dx) && n.y == o.y - Trunc(o.dy))
      && (o.alive && o.deathTimer == 0.0 ==> n.alive && n.deathTimer == 0.0)
      && (o.alive && o.deathTimer > 0.0 ==> n.alive && n.deathTimer == o.deathTimer - (dt as real) / 60.0)
      && (o.alive && o.deathTimer < 0.0 ==> !n.alive)
  {
    TruncTowardZero(o.dy);
  }

  /** dist: the truncated root of the two x coordinates squared and added. */
  function KDist(m: Transcendentals, x1: int, x2: int): int
  {
    Trunc(m.sqrt((x1 * x1 + x2 * x2) as real))
  }

  /** handleCollision's test: dist below twice the sum of the radii. */
  predicate Hits(m: Transcendentals, a: ObjState, b: ObjState)
  {
    KDist(m, a.x, b.x) < a.radius * 2 + b.radius * 2
  }

  /**
   * With a sound sqrt the test compares x1² + x2² with (2r1 + 2r2)²: it
   * ignores y, adds the squares of both x coordinates instead of their
   * difference, and is symmetric; radii summing to zero or less never hit.
   */
  lemma HitsIff(m: Transcendentals, a: ObjState, b: ObjState)
    requires SqrtSound(m)
    ensures var k := a.radius * 2 + b.radius * 2;
      && (k >= 0 ==> (Hits(m, a, b) <==> a.x * a.x + b.x * b.x < k * k))
      && (k <= 0 ==> !Hits(m, a, b))
      && Hits(m, a, b) == Hits(m, b, a)
      && Hits(m, a, b) == Hits(m, a.(y := 0), b.(y := 0))
  {
    var k := a.radius * 2 + b.radius * 2;
    var v := (a.x * a.x + b.x * b.x) as real;
    assert 0 <= a.x * a.x && 0 <= b.x * b.x;
    assert 0.0 <= m.sqrt(v);
    if k >= 0 {
      TruncSqrtBelowIff(m, v, k);
    }
    assert (a.x * a.x + b.x * b.x) == (b.x * b.x + a.x * a.x);
  }

  /** The new-object state of FlyingObject before a subclass sets anything. */
  function DefaultState(): ObjState
  {
    ObjState("Unknown Flying Object", 0, 0, 0.0, 0.0, 0, 90.0, 0.0, true, false)
  }

  /** Laser(point, velocity, rotation, laserSpeed) from the point and speed it is given. */
  function LaserState(m: Transcendentals, x: int, y: int, speed: real, rotation: real, laserSpeed: real): ObjState
  {
    Accelerated(m, DefaultState().(name := "Laser", wrap := true, radius := 10, x := x, y := y, rotation := rotation),
                10.0 * (speed + laserSpeed))
      .(deathTimer := LaserDeathTimer)
  }

  /**
   * A laser moves along its rotation at 10·(the given speed + laserSpeed),
   * whatever the velocity it was given points at, and is the only object
   * started with a running death timer.
   */
  lemma LaserStateFacts(m: Transcendentals, x: int, y: int, speed: real, rotation: real, laserSpeed: real)
    requires PythagoreanSound(m)
    ensures var l := LaserState(m, x, y, speed, rotation, laserSpeed);
      && l.name == "Laser" && l.wrap && l.radius == 10 && l.alive
      && l.x == x && l.y == y && l.rotation == rotation && l.deathTimer == 40.0
      && l.dx * l.dx + l.dy * l.dy == (10.0 * (speed + laserSpeed)) * (10.0 * (speed + laserSpeed))
  {
    var d := DefaultState().(name := "Laser", wrap := true, radius := 10, x := x, y := y, rotation := rotation);
    AcceleratedBy(m, d, 10.0 * (speed + laserSpeed));
  }

  /** Ship(): named "Ship", wrapping, radius 200, rotation 90, at the centre of the screen. */
  function ShipState(screen: Screen): ObjState
  {
    DefaultState().(name := "Ship", wrap := true, radius := 200, rotation := 90.0,
                    x := (screen.left + screen.right) / 2, y := (screen.top + screen.bottom) / 2)
  }

  /** Ship.handleEvents: thrust accelerates by 2, left rotates by +5, right by -5. */
  function ShipEvents(m: Transcendentals, o: ObjState, keys: HeldKeys): ObjState
  {
    var thrusted := if keys.thrust then Accelerated(m, o, ShipSpeed) else o;
    var left := if keys.rotateLeft then thrusted.(rotation := thrusted.rotation + ShipRotateSpeed) else thrusted;
    if keys.rotateRight then left.(rotation := left.rotation - ShipRotateSpeed) else left
  }

  /**
   * Holding both rotation keys leaves the rotation as it was; only thrust
   * changes the velocity, and only the rotation and velocity can change.
   */
  lemma ShipEventsFacts(m: Transcendentals, o: ObjState, keys: HeldKeys)
    ensures var n := ShipEvents(m, o, keys);
      && n == o.(dx := n.dx, dy := n.dy, rotation := n.rotation)
      && (keys.rotateLeft && keys.rotateRight ==> n.rotation == o.rotation)
      && (keys.rotateLeft && !keys.rotateRight ==> n.rotation == o.rotation + 5.0)
      && (!keys.rotateLeft && keys.rotateRight ==> n.rotation == o.rotation - 5.0)
      && (!keys.thrust ==> n.dx == o.dx && n.dy == o.dy)
      && (keys.thrust ==> n.dx == Accelerated(m, o, 2.0).dx && n.dy == Accelerated(m, o, 2.0).dy)
  {
  }

  /**
   * Ship.getFrame: the loop breaks at once when 12 frames are loaded (or
   * the rotation is out of range) and frames[0] is read; otherwise it reads
   * frames[(rotation / 0).toInt()], where 0/0 is NaN (index 0) and any
   * positive rotation gives +Infinity (index Int.MAX_VALUE, out of bounds).
   */
  function GetFrame(rotation: real, frames: nat): (r: FrameResult)
    ensures frames >= ShipFrames ==> r == Frame(0)
    ensures r.Frame? ==> r.index == 0 && r.index < frames
    ensures 0.0 < rotation < 360.0 && frames < ShipFrames ==> r == IndexOutOfBounds
  {
    if rotation >= 360.0 || rotation < 0.0 || frames >= ShipFrames then
      (if 0 < frames then Frame(0) else IndexOutOfBounds)
    else if rotation == 0.0 then
      (if 0 < frames then Frame(0) else IndexOutOfBounds)
    else IndexOutOfBounds
  }

  // ---------------------------------------------------------------------
  // FlyingObject
  // ---------------------------------------------------------------------

  class FlyingObject {
    var name: string
    const point: Point
    const velocity: Velocity
    var radius: int
    var rotation: real
    var deathTimer: real
    var alive: bool
    var wrap: bool
    /** Game.screenDimensions. */
    const screen: Screen

    function State(): ObjState
      reads this, point, velocity
    {
      ObjState(name, point.x, point.y, velocity.dx, velocity.dy, radius, rotation, deathTimer, alive, wrap)
    }

    /**
     * Laser(point, velocity, rotation, laserSpeed): a fresh copy of the
     * point, so moving the given point later does not move the laser.
     */
    constructor Laser(screen: Screen, m: Transcendentals, point: Point, velocity: Velocity, rotation: real, laserSpeed: real)
      ensures fresh(this.point) && fresh(this.velocity) && this.screen == screen
      ensures State() == LaserState(m, point.x, point.y, velocity.Amount(m), rotation, laserSpeed)
    {
      this.screen := screen;
      this.point := new Point(point.x, point.y);
      this.velocity := new Velocity(0.0, 0.0);
      name, radius, this.rotation, deathTimer, alive, wrap := "Unknown Flying Object", 0, 90.0, 0.0, true, false;
      new;
      name := "Laser";
      wrap := true;
      radius := 10;
      this.rotation := rotation;
      Launch(m, velocity.Amount(m) + laserSpeed);
      deathTimer := LaserDeathTimer;
    }

    /** The body of Ship(): see ShipState. */
    constructor Ship(screen: Screen)
      ensures fresh(point) && fresh(velocity) && this.screen == screen
      ensures State() == ShipState(screen)
    {
      this.screen := screen;
      point := new Point((screen.left + screen.right) / 2, (screen.top + screen.bottom) / 2);
      velocity := new Velocity(0.0, 0.0);
      name, radius, rotation, deathTimer, alive, wrap := "Ship", 200, 90.0, 0.0, true, true;
    }

    /** Asteroid(): radius 200, wrapping, at a random point, turned 360·f, launched at speed 1. */
    constructor Asteroid(screen: Screen, m: Transcendentals, x: int, y: int, f: real)
      ensures fresh(point) && fresh(velocity) && this.screen == screen
      ensures State() == Accelerated(m, DefaultState().(name := "asteroid", radius := 200, wrap := true,
                                                         x := x, y := y, rotation := 360.0 * f), 10.0 * AsteroidSpeed)
    {
      this.screen := screen;
      point := new Point(x, y);
      velocity := new Velocity(0.0, 0.0);
      name, radius, rotation, deathTimer, alive, wrap := "asteroid", 200, 360.0 * f, 0.0, true, true;
      new;
      Launch(m, AsteroidSpeed);
    }

    method Accelerate(m: Transcendentals, amount: real)
      modifies velocity
      ensures State() == Accelerated(m, old(State()), amount)
    {
      velocity.Translate(amount * m.cos(ToRadians(rotation)), amount * m.sin(ToRadians(rotation)));
    }

    /** launch(amount): accelerate(10 · amount). */
    method Launch(m: Transcendentals, amount: real)
      modifies velocity
      ensures State() == Accelerated(m, old(State()), 10.0 * amount)
    {
      Accelerate(m, 10.0 * amount);
    }

    method Rotate(amount: real)
      modifies this
      ensures State() == old(State()).(rotation := old(rotation) + amount)
    {
      rotation := rotation + amount;
    }

    /** wrap (private). */
    method Wrap()
      modifies point
      ensures State() == Wrapped(screen, old(State()))
    {
      if !wrap {
        return;
      }
      if point.x > screen.right {
        point.x := screen.left - radius;
      } else if point.x < screen.left - radius {
        point.x := screen.right;
      }
      if point.y > screen.bottom {
        point.y := screen.top - radius;
      } else if point.y < screen.top - radius {
        point.y := screen.bottom;
      }
    }

    /** update(dt). */
    method Update(dt: int)
      modifies this, point
      ensures State() == Step(screen, old(State()), dt)
    {
      if !alive {
        return;
      }
      ghost var o := State();
      point.Translate(velocity.dx, -velocity.dy);
      assert State() == o.(x := o.x + Trunc(o.dx), y := o.y + Trunc(-o.dy));
      Wrap();
      if deathTimer > 0.0 {
        deathTimer := deathTimer - (dt as real) / (Fps as real);
      } else if deathTimer < 0.0 {
        alive := false;
      }
      ghost var timed := State();
      assert timed == TimerStep(Wrapped(screen, o.(x := o.x + Trunc(o.dx), y := o.y + Trunc(-o.dy))), dt);
      ghost var turns: int := 0;
      ghost var start := rotation;
      while rotation < 0.0
        invariant rotation == start + 360.0 * turns as real
        invariant start < 0.0 || turns == 0
        invariant State() == timed.(rotation := rotation)
        decreases if rotation < 0.0 then (-rotation).Floor + 1 else 0
      {
        rotation := rotation + 360.0;
        turns := turns + 1;
      }
      while rotation >= 360.0
        invariant rotation == start + 360.0 * turns as real && 0.0 <= rotation
        invariant State() == timed.(rotation := rotation)
        decreases rotation.Floor
      {
        rotation := rotation - 360.0;
        turns := turns - 1;
      }
      NormalizedUnique(start, turns);
    }

    /** handleCollision(obj): a hit kills both objects; otherwise nothing changes. */
    method HandleCollision(m: Transcendentals, obj: FlyingObject)
      modifies this, obj
      ensures obj.State() == old(obj.State()).(alive := old(obj.alive) && !Hits(m, old(State()), old(obj.State())))
      ensures State() == old(State()).(alive := old(alive) && !Hits(m, old(State()), old(obj.State())))
    {
      var distance := KDist(m, point.x, obj.point.x);
      var tooClose := radius * 2 + obj.radius * 2;
      var hit := distance < tooClose;
      if hit {
        alive := false;
        obj.alive := false;
      }
    }
  }

  // ---------------------------------------------------------------------
  // Ship
  // ---------------------------------------------------------------------

  class Ship {
    const body: FlyingObject
    const frames: nat

    constructor (screen: Screen)
      ensures fresh(body) && fresh(body.point) && fresh(body.velocity) && body.screen == screen
      ensures body.State() == ShipState(screen) && frames == ShipFrames
    {
      body := new FlyingObject.Ship(screen);
      frames := ShipFrames;
    }

    method HandleEvents(m: Transcendentals, keys: HeldKeys)
      modifies body, body.velocity
      ensures body.State() == ShipEvents(m, old(body.State()), keys)
    {
      if keys.thrust {
        body.Accelerate(m, ShipSpeed);
      }
      if keys.rotateLeft {
        body.Rotate(ShipRotateSpeed);
      }
      if keys.rotateRight {
        body.Rotate(-ShipRotateSpeed);
      }
    }

    /** fire: a Laser seeded with the ship's point, velocity and rotation. */
    method Fire(m: Transcendentals) returns (laser: FlyingObject)
      ensures fresh(laser) && fresh(laser.point) && fresh(laser.velocity) && laser.screen == body.screen
      ensures laser.State() == LaserState(m, body.point.x, body.point.y, body.velocity.Amount(m), body.rotation, LaserSpeed)
    {
      laser := new FlyingObject.Laser(body.screen, m, body.point, body.velocity, body.rotation, LaserSpeed);
    }

    function Frame(): FrameResult
      reads body
    {
      GetFrame(body.rotation, frames)
    }
  }
}
