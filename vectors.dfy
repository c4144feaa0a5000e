/**
 * The two-component quantities of C++/vector: Vector and its subclasses
 * Position, Velocity, Acceleration, Force and Gravity. Each C++ class is a
 * Dafny class with the two fields x and y; members that update the receiver
 * are methods, members that build a new quantity are functions returning its
 * value as a Vec. Dafny has no class inheritance, so a member the C++
 * subclasses inherit from Vector (setX, add(dx, dy), getMagnitude, ...) is
 * modelled once, on Vector.
 */
module Vectors {
  import opened Maths
  import Formulas

  // ---------------------------------------------------------------------
  // Component-wise arithmetic on values, the meaning of the class members.
  // ---------------------------------------------------------------------

  function Sum(a: Vec, b: Vec): Vec { Vec(a.x + b.x, a.y + b.y) }

  function Scaled(a: Vec, k: real): Vec { Vec(a.x * k, a.y * k) }

  function Divided(a: Vec, k: real): Vec
    requires k != 0.0
  {
    Vec(a.x / k, a.y / k)
  }

  /** (mag · sin a, mag · cos a): angle 0 points up, angles grow clockwise. */
  function Polar(m: Transcendentals, mag: real, angleRadians: real): (r: Vec)
    ensures r.x == Formulas.TrigX(m, mag, angleRadians)
    ensures r.y == Formulas.TrigY(m, mag, angleRadians)
  {
    Vec(Formulas.TrigX(m, mag, angleRadians), Formulas.TrigY(m, mag, angleRadians))
  }

  /** Squared length of a value. */
  function LengthSq(a: Vec): real { a.x * a.x + a.y * a.y }

  /** A polar vector has the length it was built with. */
  lemma PolarLength(m: Transcendentals, mag: real, a: real)
    requires PythagoreanSound(m)
    ensures LengthSq(Polar(m, mag, a)) == mag * mag
  {
    Formulas.TrigPythagoras(m, mag, a);
  }

  /**
   * The component-wise sum behind every operator + and += is commutative and
   * associative, with the zero quantity as its neutral element.
   */
  lemma SumLaws(a: Vec, b: Vec, c: Vec)
    ensures Sum(a, b) == Sum(b, a)
    ensures Sum(Sum(a, b), c) == Sum(a, Sum(b, c))
    ensures Sum(a, Vec(0.0, 0.0)) == a
  {
    assert (a.x + b.x) + c.x == a.x + (b.x + c.x);
    assert (a.y + b.y) + c.y == a.y + (b.y + c.y);
  }

  /** A rate applied over t1 + t2 is the rate applied over t1 plus over t2; over no time it gives zero. */
  lemma ScaledSplits(a: Vec, t1: real, t2: real)
    ensures Scaled(a, t1 + t2) == Sum(Scaled(a, t1), Scaled(a, t2))
    ensures Scaled(a, 0.0) == Vec(0.0, 0.0)
  {
    assert a.x * (t1 + t2) == a.x * t1 + a.x * t2;
    assert a.y * (t1 + t2) == a.y * t1 + a.y * t2;
  }

  /**
   * With a sound atan2, getMagnitude and getAngleRadians are the polar
   * coordinates setPolar takes: rebuilding from them gives the vector back.
   */
  lemma PolarOfAngle(m: Transcendentals, v: Vec)
    requires Atan2Sound(m)
    ensures Polar(m, Formulas.Mag(m, v.x, v.y), Formulas.AngleOf(m, v)) == v
  {
    var r, a := m.sqrt(v.x * v.x + v.y * v.y), m.atan2(v.x, v.y);
    assert m.sin(a) * r == v.x && m.cos(a) * r == v.y;
    assert r * m.sin(a) == v.x && r * m.cos(a) == v.y;
  }

  /** Scaling by a time step distributes over the sum: (v1 + v2)·dt = v1·dt + v2·dt. */
  lemma ScaledSum(a: Vec, b: Vec, k: real)
    ensures Scaled(Sum(a, b), k) == Sum(Scaled(a, k), Scaled(b, k))
  {
    assert (a.x + b.x) * k == a.x * k + b.x * k;
    assert (a.y + b.y) * k == a.y * k + b.y * k;
  }

  /** Dividing a force by a mass and multiplying back gives the force again. */
  lemma DividedThenScaled(f: Vec, mass: real)
    requires mass != 0.0
    ensures Scaled(Divided(f, mass), mass) == f
  {
  }

  // ---------------------------------------------------------------------
  // class Vector (vector.h, vector.cpp)
  // ---------------------------------------------------------------------

  class Vector {
    var x: real
    var y: real

    /** Vector(): the origin. */
    constructor ()
      ensures x == 0.0 && y == 0.0
    {
      x, y := 0.0, 0.0;
    }

    /** Vector(x, y). */
    constructor Of(x: real, y: real)
      ensures this.x == x && this.y == y
    {
      this.x, this.y := x, y;
    }

    function Value(): Vec
      reads this
    {
      Vec(x, y)
    }

    method SetX(x: real)
      modifies this
      ensures this.x == x && y == old(y)
    {
      this.x := x;
    }

    method SetY(y: real)
      modifies this
      ensures this.y == y && x == old(x)
    {
      this.y := y;
    }

    /** set(x, y): setX then setY. */
    method Set(x: real, y: real)
      modifies this
      ensures Value() == Vec(x, y)
    {
      SetX(x);
      SetY(y);
    }

    method AddX(dx: real)
      modifies this
      ensures x == old(x) + dx && y == old(y)
    {
      SetX(x + dx);
    }

    method AddY(dy: real)
      modifies this
      ensures y == old(y) + dy && x == old(x)
    {
      SetY(y + dy);
    }

    /** add(dx, dy): addX then addY. */
    method Add(dx: real, dy: real)
      modifies this
      ensures Value() == Sum(old(Value()), Vec(dx, dy))
    {
      AddX(dx);
      AddY(dy);
    }

    /** add(const Vector &): the same as add(v.x, v.y), also when v is the receiver. */
    method AddVector(v: Vector)
      modifies this
      ensures Value() == Sum(old(Value()), old(v.Value()))
    {
      Add(v.x, v.y);
    }

    function GetMagnitude(m: Transcendentals): (r: real)
      reads this
      ensures SqrtSound(m) ==> 0.0 <= r && r * r == LengthSq(Value())
    {
      SquareZero(x);
      SquareZero(y);
      Formulas.Mag(m, x, y)
    }

    /** atan2(x, y): the heading, 0 meaning straight up. */
    function GetAngleRadians(m: Transcendentals): (r: real)
      reads this
      ensures Atan2Sound(m) ==> Polar(m, GetMagnitude(m), r) == Value()
    {
      assert Atan2Sound(m) ==> Polar(m, GetMagnitude(m), m.atan2(x, y)) == Value() by {
        if Atan2Sound(m) {
          PolarOfAngle(m, Value());
        }
      }
      m.atan2(x, y)
    }

    /** forward(a): the unit vector at angle a. */
    static function Forward(m: Transcendentals, angleRadians: real): (r: Vec)
      ensures r == Polar(m, 1.0, angleRadians)
      ensures PythagoreanSound(m) ==> LengthSq(r) == 1.0
    {
      assert PythagoreanSound(m) ==> LengthSq(Polar(m, 1.0, angleRadians)) == 1.0 by {
        if PythagoreanSound(m) {
          PolarLength(m, 1.0, angleRadians);
        }
      }
      Vec(Formulas.TrigX(m, 1.0, angleRadians), Formulas.TrigY(m, 1.0, angleRadians))
    }

    method SetPolar(m: Transcendentals, magnitude: real, angleRadians: real)
      modifies this
      ensures Value() == Polar(m, magnitude, angleRadians)
      ensures PythagoreanSound(m) ==> LengthSq(Value()) == magnitude * magnitude
    {
      assert PythagoreanSound(m) ==> LengthSq(Polar(m, magnitude, angleRadians)) == magnitude * magnitude by {
        if PythagoreanSound(m) {
          PolarLength(m, magnitude, angleRadians);
        }
      }
      Set(Formulas.TrigX(m, magnitude, angleRadians), Formulas.TrigY(m, magnitude, angleRadians));
    }

    /** setMagnitude: an alias of setPolar. */
    method SetMagnitude(m: Transcendentals, magnitude: real, angleRadians: real)
      modifies this
      ensures Value() == Polar(m, magnitude, angleRadians)
    {
      SetPolar(m, magnitude, angleRadians);
    }

    /** setMagnitudeAngle: forwards to setMagnitude. */
    method SetMagnitudeAngle(m: Transcendentals, magnitude: real, angleRadians: real)
      modifies this
      ensures Value() == Polar(m, magnitude, angleRadians)
    {
      SetMagnitude(m, magnitude, angleRadians);
    }

    /** addMagnitude: adds (mag · sin a, mag · cos a) to the receiver. */
    method AddMagnitude(m: Transcendentals, magnitude: real, angleRadians: real)
      modifies this
      ensures Value() == Sum(old(Value()), Polar(m, magnitude, angleRadians))
    {
      Add(magnitude * m.sin(angleRadians), magnitude * m.cos(angleRadians));
    }

    /** addPolar: an alias of addMagnitude. */
    method AddPolar(m: Transcendentals, magnitude: real, angleRadians: real)
      modifies this
      ensures Value() == Sum(old(Value()), Polar(m, magnitude, angleRadians))
    {
      AddMagnitude(m, magnitude, angleRadians);
    }

    /**
     * operator +: starts from a default Vector and adds rhs into it, so the
     * result is a copy of rhs whatever the receiver holds (it does not read this).
     */
    function Plus(rhs: Vector): (r: Vec)
      reads rhs
      ensures r == rhs.Value()
    {
      Sum(Vec(0.0, 0.0), rhs.Value())
    }

    method PlusAssign(rhs: Vector)
      modifies this
      ensures Value() == Sum(old(Value()), old(rhs.Value()))
    {
      Add(rhs.x, rhs.y);
    }

    method Assign(rhs: Vector)
      modifies this
      ensures Value() == old(rhs.Value())
    {
      Set(rhs.x, rhs.y);
    }
  }

  /** Vector's operator + gives the same result for every receiver. */
  lemma VectorPlusIgnoresReceiver(a: Vector, b: Vector, rhs: Vector)
    ensures a.Plus(rhs) == b.Plus(rhs) == rhs.Value()
  {
  }

  // ---------------------------------------------------------------------
  // class Position (vector.h): metres internally, pixels through the
  // conversion factor metersFromPixels (a static of the class, passed in here).
  // ---------------------------------------------------------------------

  class Position {
    var x: real
    var y: real

    constructor ()
      ensures x == 0.0 && y == 0.0
    {
      x, y := 0.0, 0.0;
    }

    constructor Of(x: real, y: real)
      ensures this.x == x && this.y == y
    {
      this.x, this.y := x, y;
    }

    function Value(): Vec
      reads this
    {
      Vec(x, y)
    }

    function GetMetersX(): (r: real)
      reads this
      ensures r == Value().x
    {
      x
    }

    function GetMetersY(): (r: real)
      reads this
      ensures r == Value().y
    {
      y
    }

    function GetPixelsX(metersFromPixels: real): (r: real)
      requires metersFromPixels != 0.0
      reads this
      ensures r * metersFromPixels == x
    {
      GetMetersX() / metersFromPixels
    }

    function GetPixelsY(metersFromPixels: real): (r: real)
      requires metersFromPixels != 0.0
      reads this
      ensures r * metersFromPixels == y
    {
      GetMetersY() / metersFromPixels
    }

    function MetersToPixels(metersFromPixels: real, meters: real): (r: real)
      requires metersFromPixels != 0.0
      ensures PixelsToMeters(metersFromPixels, r) == meters
    {
      meters / metersFromPixels
    }

    function PixelsToMeters(metersFromPixels: real, pixels: real): (r: real)
      ensures metersFromPixels != 0.0 ==> r / metersFromPixels == pixels
    {
      pixels * metersFromPixels
    }

    method SetXY(x: real, y: real)
      modifies this
      ensures Value() == Vec(x, y)
    {
      this.x, this.y := x, y;
    }

    method SetMetersX(xMeters: real)
      modifies this
      ensures x == xMeters && y == old(y)
    {
      x := xMeters;
    }

    method SetMetersY(yMeters: real)
      modifies this
      ensures y == yMeters && x == old(x)
    {
      y := yMeters;
    }

    /** setPixelsX(p) followed by getPixelsX() gives p back. */
    method SetPixelsX(metersFromPixels: real, xPixels: real)
      modifies this
      ensures x == xPixels * metersFromPixels && y == old(y)
      ensures metersFromPixels != 0.0 ==> GetPixelsX(metersFromPixels) == xPixels
    {
      SetMetersX(xPixels * metersFromPixels);
    }

    /** setPixelsY(p) followed by getPixelsY() gives p back. */
    method SetPixelsY(metersFromPixels: real, yPixels: real)
      modifies this
      ensures y == yPixels * metersFromPixels && x == old(x)
      ensures metersFromPixels != 0.0 ==> GetPixelsY(metersFromPixels) == yPixels
    {
      SetMetersY(yPixels * metersFromPixels);
    }
  }

  // ---------------------------------------------------------------------
  // class Velocity (vector.h, velocity.cpp)
  // ---------------------------------------------------------------------

  class Velocity {
    var x: real
    var y: real

    constructor ()
      ensures x == 0.0 && y == 0.0
    {
      x, y := 0.0, 0.0;
    }

    constructor Of(x: real, y: real)
      ensures this.x == x && this.y == y
    {
      this.x, this.y := x, y;
    }

    function Value(): Vec
      reads this
    {
      Vec(x, y)
    }

    static function Forward(m: Transcendentals, angleRadians: real): (r: Vec)
      ensures r == Vector.Forward(m, angleRadians)
      ensures PythagoreanSound(m) ==> LengthSq(r) == 1.0
    {
      Vec(Formulas.TrigX(m, 1.0, angleRadians), Formulas.TrigY(m, 1.0, angleRadians))
    }

    /** getSpeed: the magnitude Vector computes. */
    function GetSpeed(m: Transcendentals): (r: real)
      reads this
      ensures SqrtSound(m) ==> 0.0 <= r && r * r == LengthSq(Value())
    {
      SquareZero(x);
      SquareZero(y);
      Formulas.Mag(m, x, y)
    }

    function GetDx(): (r: real)
      reads this
      ensures r == Value().x
    {
      x
    }

    function GetDy(): (r: real)
      reads this
      ensures r == Value().y
    {
      y
    }

    method SetDx(dX: real)
      modifies this
      ensures x == dX && y == old(y)
    {
      x := dX;
    }

    /** setDy writes the x component (as the header has it); y keeps its value. */
    method SetDy(dY: real)
      modifies this
      ensures x == dY && y == old(y)
    {
      x := dY;
    }

    method Add(dv: Velocity)
      modifies this
      ensures Value() == Sum(old(Value()), old(dv.Value()))
    {
      x, y := x + dv.x, y + dv.y;
    }

    /** operator +: the component-wise sum, a new value. */
    function Plus(rhs: Velocity): (r: Vec)
      reads this, rhs
      ensures r == Sum(Value(), rhs.Value())
    {
      Vec(x + rhs.x, y + rhs.y)
    }

    method PlusAssign(rhs: Velocity)
      modifies this
      ensures Value() == Sum(old(Value()), old(rhs.Value()))
    {
      Add(rhs);
    }

    /** toPosition(dt): the displacement (x·dt, y·dt) over dt. */
    function ToPosition(dt: real): (r: Vec)
      reads this
      ensures r == Scaled(Value(), dt)
    {
      Vec(x * dt, y * dt)
    }

    /** operator *(dt): toPosition. */
    function Times(dt: real): (r: Vec)
      reads this
      ensures r == Scaled(Value(), dt)
    {
      ToPosition(dt)
    }

    method Assign(rhs: Velocity)
      modifies this
      ensures Value() == old(rhs.Value())
    {
      x, y := rhs.x, rhs.y;
    }

    /** Assignment from any Vector. */
    method AssignVector(rhs: Vector)
      modifies this
      ensures Value() == old(rhs.Value())
    {
      x, y := rhs.x, rhs.y;
    }
  }

  /** Velocity's operator + is commutative. */
  lemma VelocityPlusCommutes(a: Velocity, b: Velocity)
    ensures a.Plus(b) == b.Plus(a)
  {
  }

  // ---------------------------------------------------------------------
  // class Acceleration (vector.h, acceleration.cpp)
  // ---------------------------------------------------------------------

  class Acceleration {
    var x: real
    var y: real

    constructor ()
      ensures x == 0.0 && y == 0.0
    {
      x, y := 0.0, 0.0;
    }

    constructor Of(x: real, y: real)
      ensures this.x == x && this.y == y
    {
      this.x, this.y := x, y;
    }

    function Value(): Vec
      reads this
    {
      Vec(x, y)
    }

    static function Forward(m: Transcendentals, angleRadians: real): (r: Vec)
      ensures r == Vector.Forward(m, angleRadians)
      ensures PythagoreanSound(m) ==> LengthSq(r) == 1.0
    {
      Vec(Formulas.TrigX(m, 1.0, angleRadians), Formulas.TrigY(m, 1.0, angleRadians))
    }

    method Add(da: Acceleration)
      modifies this
      ensures Value() == Sum(old(Value()), old(da.Value()))
    {
      x, y := x + da.x, y + da.y;
    }

    /** operator +: a copy of the receiver with rhs added into it; the receiver and rhs stay as they are. */
    method Plus(rhs: Acceleration) returns (r: Acceleration)
      ensures fresh(r) && r.Value() == Sum(Value(), rhs.Value())
    {
      r := new Acceleration.Of(x, y);
      r.Add(rhs);
    }

    method PlusAssign(rhs: Acceleration)
      modifies this
      ensures Value() == Sum(old(Value()), old(rhs.Value()))
    {
      Add(rhs);
    }

    /** toVelocity(dt): the change of velocity (x·dt, y·dt) over dt. */
    function ToVelocity(dt: real): (r: Vec)
      reads this
      ensures r == Scaled(Value(), dt)
    {
      Vec(x * dt, y * dt)
    }

    /** operator *(dt): toVelocity. */
    function Times(dt: real): (r: Vec)
      reads this
      ensures r == Scaled(Value(), dt)
    {
      ToVelocity(dt)
    }

    method Assign(rhs: Acceleration)
      modifies this
      ensures Value() == old(rhs.Value())
    {
      x, y := rhs.x, rhs.y;
    }

    method AssignVector(rhs: Vector)
      modifies this
      ensures Value() == old(rhs.Value())
    {
      x, y := rhs.x, rhs.y;
    }
  }

  // ---------------------------------------------------------------------
  // class Force (vector.h, force.cpp)
  // ---------------------------------------------------------------------

  class Force {
    var x: real
    var y: real

    constructor ()
      ensures x == 0.0 && y == 0.0
    {
      x, y := 0.0, 0.0;
    }

    constructor Of(x: real, y: real)
      ensures this.x == x && this.y == y
    {
      this.x, this.y := x, y;
    }

    function Value(): Vec
      reads this
    {
      Vec(x, y)
    }

    static function Forward(m: Transcendentals, angleRadians: real): (r: Vec)
      ensures r == Vector.Forward(m, angleRadians)
      ensures PythagoreanSound(m) ==> LengthSq(r) == 1.0
    {
      Vec(Formulas.TrigX(m, 1.0, angleRadians), Formulas.TrigY(m, 1.0, angleRadians))
    }

    method Add(dF: Force)
      modifies this
      ensures Value() == Sum(old(Value()), old(dF.Value()))
    {
      x, y := x + dF.x, y + dF.y;
    }

    /** operator +: a copy of the receiver with rhs added into it; the receiver and rhs stay as they are. */
    method Plus(rhs: Force) returns (r: Force)
      ensures fresh(r) && r.Value() == Sum(Value(), rhs.Value())
    {
      r := new Force.Of(x, y);
      r.Add(rhs);
    }

    method PlusAssign(rhs: Force)
      modifies this
      ensures Value() == Sum(old(Value()), old(rhs.Value()))
    {
      Add(rhs);
    }

    /** toAcceleration(mass): Newton's second law, a = F / m. */
    function ToAcceleration(mass: real): (r: Vec)
      requires mass != 0.0
      reads this
      ensures Scaled(r, mass) == Value()
    {
      Vec(x / mass, y / mass)
    }

    /** operator /(mass): toAcceleration. */
    function Divide(mass: real): (r: Vec)
      requires mass != 0.0
      reads this
      ensures Scaled(r, mass) == Value()
    {
      ToAcceleration(mass)
    }

    method Assign(rhs: Force)
      modifies this
      ensures Value() == old(rhs.Value())
    {
      x, y := rhs.x, rhs.y;
    }

    method AssignVector(rhs: Vector)
      modifies this
      ensures Value() == old(rhs.Value())
    {
      x, y := rhs.x, rhs.y;
    }
  }

  // ---------------------------------------------------------------------
  // class Gravity (vector.h, gravity.cpp): a Force with its own operators.
  // ---------------------------------------------------------------------

  class Gravity {
    var x: real
    var y: real

    constructor ()
      ensures x == 0.0 && y == 0.0
    {
      x, y := 0.0, 0.0;
    }

    constructor Of(x: real, y: real)
      ensures this.x == x && this.y == y
    {
      this.x, this.y := x, y;
    }

    function Value(): Vec
      reads this
    {
      Vec(x, y)
    }

    static function Forward(m: Transcendentals, angleRadians: real): (r: Vec)
      ensures r == Vector.Forward(m, angleRadians)
      ensures PythagoreanSound(m) ==> LengthSq(r) == 1.0
    {
      Vec(Formulas.TrigX(m, 1.0, angleRadians), Formulas.TrigY(m, 1.0, angleRadians))
    }

    method Add(dF: Gravity)
      modifies this
      ensures Value() == Sum(old(Value()), old(dF.Value()))
    {
      x, y := x + dF.x, y + dF.y;
    }

    /** operator +: a copy of the receiver with rhs added into it; the receiver and rhs stay as they are. */
    method Plus(rhs: Gravity) returns (r: Gravity)
      ensures fresh(r) && r.Value() == Sum(Value(), rhs.Value())
    {
      r := new Gravity.Of(x, y);
      r.Add(rhs);
    }

    method PlusAssign(rhs: Gravity)
      modifies this
      ensures Value() == Sum(old(Value()), old(rhs.Value()))
    {
      Add(rhs);
    }

    function ToAcceleration(mass: real): (r: Vec)
      requires mass != 0.0
      reads this
      ensures Scaled(r, mass) == Value()
    {
      Vec(x / mass, y / mass)
    }

    function Divide(mass: real): (r: Vec)
      requires mass != 0.0
      reads this
      ensures Scaled(r, mass) == Value()
    {
      ToAcceleration(mass)
    }

    method Assign(rhs: Gravity)
      modifies this
      ensures Value() == old(rhs.Value())
    {
      x, y := rhs.x, rhs.y;
    }

    method AssignVector(rhs: Vector)
      modifies this
      ensures Value() == old(rhs.Value())
    {
      x, y := rhs.x, rhs.y;
    }
  }
}
