# Asteroids arena, modelled in Dafny

This project models the game core of the Asteroids repository in its two ports and proves properties of that model.

- **C++ arena** (`C++/game.cpp`). It holds a nullable ship, a list of lasers and a list of rock pointers, plus the score. Its operations are:
  - fire with a cooldown;
  - place rocks clear of the ship;
  - wrap objects around the screen with a radius + 10 buffer;
  - test collisions by sampling both objects along one frame of motion;
  - resolve at most one collision per call, splitting the rock hit;
  - remove at most the first dead laser and rock;
  - reset.
- **C++ vectors** (`C++/vector`). These are the two-component quantities Vector, Position, Velocity, Acceleration, Force and Gravity.
- **Kinematic formulas** (`physicsFormulas.cpp`). These are polar components, degree/radian conversion, distance and the collision test, the time scale, and motion under constant acceleration.
- **Kotlin port** (`FlyingObject.kt`, `Ship.kt`, `Laser.kt`, `Game.kt`). It re-implements the game with integer points, Float velocities and rotations in degrees.

Files:

| file | module | contents |
|---|---|---|
| `maths.dfy` | `Maths` | two-component values; sin, cos, sqrt and atan2 as a value; truncation toward zero |
| `formulas.dfy` | `Formulas` | physicsFormulas.cpp |
| `vectors.dfy` | `Vectors` | one class per C++ vector class |
| `cpp_game.dfy` | `CppGame` | arena records, the functions specifying each operation, and the class `Game` |
| `kotlin_objects.dfy` | `KotlinObjects` | classes `Point`, `Velocity`, `FlyingObject` (with constructors `Ship`, `Laser`, `Asteroid`) and `Ship` |
| `kotlin_game.dfy` | `KotlinGame` | the Kotlin `Game` class and its specification over `KArena` values |

**How state is modelled.** Each source class whose fields change in place is a Dafny class. Its methods are specified by a pure function from the state before to the state after:
- `Snapshot()` of the C++ `Game` is an `Arena` value;
- `State()` of a Kotlin `FlyingObject` is an `ObjState` value;
- `Snapshot()` of the Kotlin `Game` is a `KArena` value.

The game rules are then proved as lemmas about those functions.

**Transcendental functions and randomness.** These are values passed in:
- `Transcendentals` holds sin, cos, sqrt and atan2;
- the C++ random source is `random(k, lo, hi)`, the k-th draw;
- Kotlin's `Random` is a `KRandom`.

A property that needs a fact about these functions requires it explicitly:
- `SqrtSound`: sqrt is the non-negative root;
- `PythagoreanSound`: sin² + cos² = 1;
- `Atan2Sound`: atan2(p, q) is the angle whose sine and cosine, times sqrt(p² + q²), give p and q;
- `RandomInRange`: draws stay within their bounds.

**Quirks of the code that the model reproduces:**
- createRock's clearance test uses the free function `dist` (`C++/game.cpp:41-43`). It compares sqrt(x1² + x2²) with 100, using x coordinates only, rather than the distance between centres. `DistAddsXSquares` shows a rock placed exactly on a ship at (100, 0) passing the test. `DistFromOrigin` shows the test is sound for a ship at the origin, which is where reset puts it.
- cleanUpZombies runs ship, then rocks, then lasers (`C++/game.cpp:300-304`).
- The Kotlin collision test (`FlyingObject.kt:90-95`) adds the squares of both x coordinates and ignores y.
- The Kotlin wrap puts the radius buffer on the left and top sides only (`FlyingObject.kt:102-125`).

**The laser Ship::fire builds** (the Laser constructor, `C++/game objects/moving objects/laser.h`, lines 16-35) is `CppGame.FireFrom`. Its contract states that the new laser is alive, has its 20-unit death timer running and has positive mass. `CppGame.FireFromGeometry` (lines 32-34) proves that the laser starts 6 ship radii from the ship's centre and moves at LASER_SPEED.

**A rock's starting velocity** (`C++/game objects/moving objects/rocks.cpp`, lines 24-41) is modelled as written. `CppGame.Launch` (lines 24-31) is a force of ROCK_INIT_LAUNCH_FORCE at the drawn angle, divided by the mass and applied for dt = 1; its contract states that the result times the mass is that force and, with sin² + cos² = 1, that its squared length times mass² is the force squared. `CppGame.InitialVelocity` (lines 33-41) adds vInit to a moving rock and launches a rock at rest. `CppGame.FreshRockIgnoresVInit` proves that a rock starting from the default zero velocity gets the same launch whatever vInit is, at speed ROCK_INIT_LAUNCH_FORCE / mass. The angle is what random(0, 360) returns, used as radians.

**Plain accessors and aliases** carry no row of their own: `Position.GetMetersX`/`GetMetersY` and `Velocity.GetDx`/`GetDy` read the fields; `Velocity.Plus` is `Sum` (see `SumLaws`, `VelocityPlusCommutes`); `Velocity.ToPosition`/`Times` and `Acceleration.ToVelocity`/`Times` are `Scaled` (see `ScaledSplits`); `Formulas.AToV` pairs aToDx and aToDy; `Vectors.Polar` is (trigX, trigY) (see `TrigPythagoras`).

## Model

| member | source | states |
|---|---|---|
| Maths.Trunc | Kotlin/app/src/main/java/com/example/asteroidsKotlin/FlyingObject.kt:135-138 | Float.toInt rounds toward zero. A non-negative value truncates to the integer at or below it, a negative one to the integer at or above it, always less than 1 away. |
| Maths.TruncTowardZero | Kotlin/app/src/main/java/com/example/asteroidsKotlin/FlyingObject.kt:135-138 | Truncation never increases the magnitude, and trunc(-r) = -trunc(r). |
| Maths.SqrtBelowIff | C++/vector/physicsFormulas.cpp:61-64 | With a sound sqrt, sqrt(v) < b holds exactly when v < b², for non-negative v and b. |
| Maths.TruncSqrtBelowIff | Kotlin/app/src/main/java/com/example/asteroidsKotlin/FlyingObject.kt:90-95 | With a sound sqrt, the truncated root of v is below an integer k ≥ 0 exactly when v < k². |
| Formulas.TrigPythagoras | C++/vector/physicsFormulas.cpp:24-30 | With sin² + cos² = 1, trigX(m, a)² + trigY(m, a)² = m²: the two components make a vector of the given magnitude. |
| Formulas.MagZeroIff | C++/vector/physicsFormulas.cpp:35-36 | The magnitude is non-negative, and 0 exactly for the zero vector. |
| Formulas.DegRadRoundTrip | C++/vector/physicsFormulas.cpp:38-39 | deg(rad(d)) = d and rad(deg(r)) = r. |
| Formulas.SqDist | C++/vector/physicsFormulas.cpp:48-51 | The squared distance between two positions is non-negative. |
| Formulas.DistanceIsMetric | C++/vector/physicsFormulas.cpp:70-72 | With a sound sqrt, distance is non-negative, its square is (x1 - x2)² + (y1 - y2)², it is 0 exactly for equal positions, and it is symmetric. |
| Formulas.ComputeDistanceSymmetric | C++/vector/physicsFormulas.cpp:48-51 | computeDistance(p1, p2) = computeDistance(p2, p1). |
| Formulas.HasCollided | C++/vector/physicsFormulas.cpp:61-64 | Objects whose distance equals the sum of their radii have not collided. |
| Formulas.HasCollidedSquared | C++/vector/physicsFormulas.cpp:61-64 | With a sound sqrt, hasCollided is the squared comparison distance² < (r1 + r2)², and it is symmetric in the two objects. |
| Formulas.DilateTimeScales | C++/vector/physicsFormulas.cpp:94-109 | dilateTime is linear in dt (the dilation of t1 + t2 is the sum of the dilations), is 0 only for dt = 0, turns one real minute into one simulated day, and turns one frame into timePerFrame. |
| Formulas.TimePerFrame | C++/vector/physicsFormulas.cpp:109 | timePerFrame = 1440/FPS, which is 24 at 60 frames per second. |
| Formulas.AToXDegenerate | C++/vector/physicsFormulas.cpp:269-303 | With dt = 0, aToX and aToY return initialD and aToV returns v0. With no acceleration on an axis, the motion on that axis is initialD + v0·dt. |
| Formulas.AToXComposes | C++/vector/physicsFormulas.cpp:269-303 | On each axis, moving for t1 and then, from the reached position and velocity, for t2 is the same as moving for t1 + t2. |
| Formulas.PixelMeterRoundTrip | C++/vector/physicsFormulas.cpp:125-141 | For a non-zero factor, metersToPixels and pixelsToMeters are inverse to each other. |
| Vectors.SumLaws | C++/vector/acceleration.cpp:21-30 | The component-wise sum behind operator + and += is commutative and associative, with the zero vector as neutral element. |
| Vectors.PolarLength | C++/vector/vector.cpp:31-33 | With sin² + cos² = 1, a polar vector has squared length mag². |
| Vectors.ScaledSum | C++/vector/velocity.cpp:30-32 | (v1 + v2)·dt = v1·dt + v2·dt. |
| Vectors.DividedThenScaled | C++/vector/force.cpp:32-34 | Dividing a force by a non-zero mass and multiplying back gives the force. |
| Vectors.ScaledSplits | C++/vector/velocity.cpp:30-37 | toPosition (and toVelocity, the same scaling) over t1 + t2 is the sum of the results over t1 and over t2, and over no time it is zero. |
| Vectors.PolarOfAngle | C++/vector/vector.h:66 | With a sound atan2, setPolar(getMagnitude(), getAngleRadians()) rebuilds the vector it started from. |
| Vectors.Vector.constructor | C++/vector/vector.h:33 | Vector() is the origin. |
| Vectors.Vector.Of | C++/vector/vector.h:34 | Vector(x, y) stores x and y. |
| Vectors.Vector.SetX | C++/vector/vector.h:47 | setX changes x only. |
| Vectors.Vector.SetY | C++/vector/vector.h:48 | setY changes y only. |
| Vectors.Vector.Set | C++/vector/vector.cpp:16-19 | After set(x, y) the vector is (x, y). |
| Vectors.Vector.AddX | C++/vector/vector.h:56 | addX(dx) adds dx to x and leaves y alone. |
| Vectors.Vector.AddY | C++/vector/vector.h:57 | addY(dy) adds dy to y and leaves x alone. |
| Vectors.Vector.Add | C++/vector/vector.cpp:21-24 | add(dx, dy) adds component-wise. |
| Vectors.Vector.AddVector | C++/vector/vector.cpp:26-29 | add(v) adds v's old components, even when v is the receiver itself. |
| Vectors.Vector.GetMagnitude | C++/vector/vector.cpp:35-37 | With a sound sqrt, the magnitude is non-negative and its square is x² + y². |
| Vectors.Vector.GetAngleRadians | C++/vector/vector.h:66 | With a sound atan2, the angle is the heading of the vector: the polar vector of the magnitude at this angle is the vector itself. |
| Vectors.Vector.Forward | C++/vector/vector.cpp:12-14 | forward(a) is setPolar(1, a), and it has length 1 when sin² + cos² = 1. |
| Vectors.Vector.SetPolar | C++/vector/vector.cpp:31-33 | setPolar(m, a) makes the vector (m·sin a, m·cos a), of squared length m². |
| Vectors.Vector.SetMagnitude | C++/vector/vector.cpp:39-41 | setMagnitude does the same as setPolar. |
| Vectors.Vector.SetMagnitudeAngle | C++/vector/vector.h:72 | setMagnitudeAngle does the same as setPolar. |
| Vectors.Vector.AddMagnitude | C++/vector/vector.cpp:43-45 | addMagnitude(m, a) adds (m·sin a, m·cos a) to the receiver. |
| Vectors.Vector.AddPolar | C++/vector/vector.cpp:47-49 | addPolar does the same as addMagnitude. |
| Vectors.Vector.Plus | C++/vector/vector.cpp:54-58 | Vector's operator + returns a copy of rhs and ignores the receiver. |
| Vectors.VectorPlusIgnoresReceiver | C++/vector/vector.cpp:54-58 | Any two receivers give the same Vector sum with the same rhs. |
| Vectors.Vector.PlusAssign | C++/vector/vector.cpp:60-63 | += adds rhs into the receiver. |
| Vectors.Vector.Assign | C++/vector/vector.cpp:65-68 | = makes the receiver equal to rhs. |
| Vectors.Position.constructor | C++/vector/vector.h:109 | Position() is the origin. |
| Vectors.Position.Of | C++/vector/vector.h:111 | Position(x, y) stores x and y. |
| Vectors.Position.GetPixelsX | C++/vector/vector.h:119 | getPixelsX times the conversion factor is x. |
| Vectors.Position.GetPixelsY | C++/vector/vector.h:120 | getPixelsY times the conversion factor is y. |
| Vectors.Position.MetersToPixels | C++/vector/vector.h:124 | pixelsToMeters turns the result back into the metres given. |
| Vectors.Position.PixelsToMeters | C++/vector/vector.h:125 | For a non-zero factor, dividing the result by the factor gives the pixels back. |
| Vectors.Position.SetXY | C++/vector/vector.h:129 | After setXY(x, y) the position is (x, y). |
| Vectors.Position.SetMetersX | C++/vector/vector.h:130 | setMetersX changes x only. |
| Vectors.Position.SetMetersY | C++/vector/vector.h:131 | setMetersY changes y only. |
| Vectors.Position.SetPixelsX | C++/vector/vector.h:134 | setPixelsX(p) changes x only, and for a non-zero factor getPixelsX() then returns p. |
| Vectors.Position.SetPixelsY | C++/vector/vector.h:135 | setPixelsY(p) changes y only, and for a non-zero factor getPixelsY() then returns p. |
| Vectors.Velocity.constructor | C++/vector/vector.h:186 | Velocity() is zero. |
| Vectors.Velocity.Of | C++/vector/vector.h:187 | Velocity(x, y) stores x and y. |
| Vectors.Velocity.Forward | C++/vector/velocity.cpp:13-15 | Velocity::forward is Vector::forward, a unit vector when sin² + cos² = 1. |
| Vectors.Velocity.GetSpeed | C++/vector/vector.h:195 | With a sound sqrt, the speed is non-negative and its square is dx² + dy². |
| Vectors.Velocity.SetDx | C++/vector/vector.h:202 | setDx changes x only. |
| Vectors.Velocity.SetDy | C++/vector/vector.h:203 | setDy(d) overwrites x and leaves y unchanged. |
| Vectors.Velocity.Add | C++/vector/velocity.cpp:17-19 | add(dv) adds dv component-wise. |
| Vectors.VelocityPlusCommutes | C++/vector/velocity.cpp:21-23 | Velocity's operator + is commutative. |
| Vectors.Velocity.PlusAssign | C++/vector/velocity.cpp:25-28 | += adds rhs into the receiver. |
| Vectors.Velocity.Assign | C++/vector/velocity.cpp:39-42 | Assignment copies both components. |
| Vectors.Velocity.AssignVector | C++/vector/velocity.cpp:44-47 | Assignment from a Vector copies both components. |
| Vectors.Acceleration.constructor | C++/vector/vector.h:232 | Acceleration() is zero. |
| Vectors.Acceleration.Of | C++/vector/vector.h:233 | Acceleration(x, y) stores x and y. |
| Vectors.Acceleration.Forward | C++/vector/acceleration.cpp:13-15 | Acceleration::forward is Vector::forward, a unit vector when sin² + cos² = 1. |
| Vectors.Acceleration.Add | C++/vector/acceleration.cpp:17-19 | add(da) adds da component-wise. |
| Vectors.Acceleration.Plus | C++/vector/acceleration.cpp:21-25 | operator + returns a new Acceleration holding this + rhs, built as a copy of the receiver with rhs added; neither operand changes. |
| Vectors.Acceleration.PlusAssign | C++/vector/acceleration.cpp:27-30 | += adds rhs into the receiver. |
| Vectors.Acceleration.Assign | C++/vector/acceleration.cpp:41-44 | Assignment copies both components. |
| Vectors.Acceleration.AssignVector | C++/vector/acceleration.cpp:46-49 | Assignment from a Vector copies both components. |
| Vectors.Force.constructor | C++/vector/vector.h:273 | Force() is zero. |
| Vectors.Force.Of | C++/vector/vector.h:274 | Force(x, y) stores x and y. |
| Vectors.Force.Forward | C++/vector/force.cpp:13-15 | Force::forward is Vector::forward, a unit vector when sin² + cos² = 1. |
| Vectors.Force.Add | C++/vector/force.cpp:17-19 | add(dF) adds dF component-wise. |
| Vectors.Force.Plus | C++/vector/force.cpp:21-25 | operator + returns a new Force holding this + rhs, built as a copy of the receiver with rhs added; neither operand changes. |
| Vectors.Force.PlusAssign | C++/vector/force.cpp:27-30 | += adds rhs into the receiver. |
| Vectors.Force.ToAcceleration | C++/vector/vector.h:297-299 | toAcceleration(m) times m is the force (a = F/m). |
| Vectors.Force.Divide | C++/vector/force.cpp:32-34 | operator /(m) undoes multiplying by m: the result times m is the force. |
| Vectors.Force.Assign | C++/vector/force.cpp:36-39 | Assignment copies both components. |
| Vectors.Force.AssignVector | C++/vector/force.cpp:41-44 | Assignment from a Vector copies both components. |
| Vectors.Gravity.constructor | C++/vector/vector.h:317 | Gravity() is zero. |
| Vectors.Gravity.Of | C++/vector/vector.h:318 | Gravity(x, y) stores x and y. |
| Vectors.Gravity.Forward | C++/vector/gravity.cpp:13-15 | Gravity::forward is Vector::forward, a unit vector when sin² + cos² = 1. |
| Vectors.Gravity.Add | C++/vector/gravity.cpp:18-20 | add(dF) adds dF component-wise. |
| Vectors.Gravity.Plus | C++/vector/gravity.cpp:23-27 | operator + returns a new Gravity holding this + rhs, built as a copy of the receiver with rhs added; neither operand changes. |
| Vectors.Gravity.PlusAssign | C++/vector/gravity.cpp:29-32 | += adds rhs into the receiver. |
| Vectors.Gravity.ToAcceleration | C++/vector/vector.h:340-342 | toAcceleration(m) times m is the gravity force. |
| Vectors.Gravity.Divide | C++/vector/gravity.cpp:34-36 | operator /(m) undoes multiplying by m: the result times m is the gravity force. |
| Vectors.Gravity.Assign | C++/vector/gravity.cpp:38-41 | Assignment copies both components. |
| Vectors.Gravity.AssignVector | C++/vector/gravity.cpp:43-46 | Assignment from a Vector copies both components. |
| CppGame.NewShip | C++/game.cpp:343-347 | resetShip's new ship is alive, at rest at the origin, has radius 2 and positive mass, and can fire at once. |
| CppGame.FireAppendsAtMostOne | C++/game.cpp:29-39 | With the firing-delay timer at or below 0, fireLaser appends exactly one laser at the end and restarts the timer. Otherwise nothing changes. Earlier lasers, the rocks and the score never change. |
| CppGame.DistAddsXSquares | C++/game.cpp:41-43 | dist uses x coordinates only and adds their squares, so a point on top of the ship at (100, 0) counts as 100 or more away. |
| CppGame.DistFromOrigin | C++/game.cpp:41-43 | For a ship at the origin, dist ≥ 100 exactly when the point's x is at least 100 from 0. The point's centre is then at least 100 away. |
| CppGame.MakeRock | C++/game.cpp:84-97 | A rock built at p holding velocity v has that position, velocity, size, mass and score amount, and is alive. |
| CppGame.Place | C++/game.cpp:84-97 | The rock switch gives NULL exactly for an unknown rock index. |
| CppGame.Placed | C++/game.cpp:45-97 | A start position of magnitude at least 10 is kept and no random number is drawn for it. Otherwise the rock is placed at the next two random numbers. |
| CppGame.DrawPointOnScreen | C++/game.cpp:54-56 | A random point drawn within the screen ranges lies on screen. |
| CppGame.WrapCoord | C++/game.cpp:121-143 | A coordinate inside its band is unchanged. Below lo - b it becomes hi + b; above hi + b it becomes lo - b. The result always lies in the band. |
| CppGame.Wrapped | C++/game.cpp:109-146 | wrap with buffer radius + 10 changes only the position. Each axis is rewritten at most once and independently, and the result lies within the buffered screen. |
| CppGame.WrappedIdempotent | C++/game.cpp:109-146 | Wrapping an already wrapped object changes nothing. |
| CppGame.FirstNull | C++/game.cpp:161-164 | The scan limit is the first NULL rock (or the end). Every rock before it is non-NULL. |
| CppGame.DMax | C++/game.cpp:277-280 | dMax is at least 0.1 and at least every velocity component's absolute value, and it is one of them. |
| CppGame.SamplePoint | C++/game.cpp:284-287 | Sample 0 is the object's current position. |
| CppGame.SampleSq | C++/game.cpp:289-292 | Each sample's squared distance is non-negative, and sample 0 is that of the current centres. |
| CppGame.SweptMinSq | C++/game.cpp:282-295 | The running minimum stays between 0 and FLT_MAX. |
| CppGame.SweptMinSqIsMin | C++/game.cpp:282-295 | The running minimum is at most every sample taken, and it is FLT_MAX or one of them. |
| CppGame.ClosestNotBeyondCentres | C++/game.cpp:275-298 | The closest approach is never farther than the current centre distance. |
| CppGame.AtRestOneSample | C++/game.cpp:277-283 | With both velocities zero, dMax = 0.1 and exactly one sample (the current centres) is taken. |
| CppGame.CollidesSquared | C++/game.cpp:264-273 | With a sound sqrt, checkCollision holds exactly when closest² < (r1 + r2)². Touching is not a hit. |
| CppGame.OverlapCollides | C++/game.cpp:264-298 | Overlapping centres are always reported as a collision, whatever the velocities. |
| CppGame.OffsetPairSpeed | C++/game.cpp:207-235 | Both offset velocities have the speed total momentum / total mass. With a zero deviation they coincide. |
| CppGame.OffsetPairAtRest | C++/game.cpp:215-231 | When rock and impactor are both at rest, both offsets are zero. |
| CppGame.Split | C++/game.cpp:237-262 | splitRock yields exactly two new entries and uses at least one random number. |
| CppGame.SplitChildren | C++/game.cpp:237-262 | Both children are of the next size, or both are NULL when there is none. Away from the origin they start at the parent's centre with the parent's velocity plus each offset. |
| CppGame.SplitMasses | C++/game.cpp:237-262 | The children of a split have positive mass. |
| CppGame.FirstLaserHit | C++/game.cpp:190-202 | The laser found is the first colliding laser. If none is found, no laser collides. |
| CppGame.FirstHitFrom | C++/game.cpp:176-204 | A found collision names a rock before the first NULL and, for a laser, a valid laser index. |
| CppGame.FirstHitIsHit | C++/game.cpp:176-204 | The collision found is real and the ship is checked before the lasers: a ship hit collides with the rock; a laser hit means the ship missed the rock and the laser is the first that collides with it. |
| CppGame.FirstHitScansInOrder | C++/game.cpp:167-205 | The resolved collision is the first in scan order: every earlier rock is missed by the ship and every laser. With no collision, every rock before the first NULL is missed. |
| CppGame.CollisionsResolveAtMostOne | C++/game.cpp:167-205 | handleCollisions either changes nothing or resolves exactly one collision. In that case one rock dies and gets two children appended, the score grows by its amount, and exactly one impactor dies: the ship, or one laser with the other lasers untouched. |
| CppGame.AfterHitKeepsInv | C++/game.cpp:182-198 | Resolving one hit keeps every mass positive: the killed rock and impactor keep theirs, and the children take theirs from their size. |
| CppGame.AfterCollisionsKeepsInv | C++/game.cpp:167-205 | Resolving a collision keeps every mass positive, so later splits never divide by zero. |
| CppGame.AfterCleanUpShip | C++/game.cpp:306-310 | cleanUpShip makes the ship NULL exactly when it is dead and changes nothing else. |
| CppGame.FirstDeadLaser | C++/game.cpp:312-321 | The laser found is the first dead one. If none is found, all lasers are alive. |
| CppGame.FirstDeadRock | C++/game.cpp:323-334 | The rock found is the first dead one before the first NULL. If none is found, all rocks before the first NULL are alive. |
| CppGame.RemoveAt | C++/game.cpp:316 | erase removes one entry and keeps the others in order. |
| CppGame.CleanUpLasersRemovesFirstDead | C++/game.cpp:312-321 | cleanUpLasers removes at most one laser, the first dead one, and keeps the rest in order. It changes nothing exactly when every laser is alive. |
| CppGame.CleanUpRocksRemovesFirstDead | C++/game.cpp:323-334 | cleanUpRocks changes the arena exactly when some rock before the first NULL is dead. It then erases the first such rock and keeps the others in order; the ship, lasers, score and draws stay. |
| CppGame.CleanUpRocksStopsAtNull | C++/game.cpp:323-334 | Rocks from the first NULL on are never removed: they remain, in order, at the end of the list. |
| CppGame.CleanUpZombiesKeepsInv | C++/game.cpp:300-304 | cleanUpZombies keeps every mass positive. |
| CppGame.Game.constructor | C++/game.cpp:14-19 | The arena starts with the given screen and setting, no ship, no lasers, no rocks and score 0. |
| CppGame.Game.Random | C++/game.cpp:54-55 | random(lo, hi) returns the next number of the random source, and only the draw count changes. |
| CppGame.Game.RandomPoint | C++/game.cpp:54-56 | The random point is (random(left, right), random(bottom, top)), on screen, and uses two draws. |
| CppGame.Game.KeepClear | C++/game.cpp:66-79 | The redraw loop ends with a point on screen that dist puts at least 100 from the ship. It terminates when the random source eventually draws such a point. |
| CppGame.Game.FireLaser | C++/game.cpp:29-39 | fireLaser is AfterFire (see FireAppendsAtMostOne). |
| CppGame.Game.CreateRock | C++/game.cpp:45-98 | createRock keeps a start position of magnitude at least 10. Otherwise it draws a point on screen, and for an initial rock with a ship it redraws until dist ≥ 100. Then it builds the rock of the requested size, or NULL. |
| CppGame.Game.AsteroidBelt | C++/game.cpp:100-107 | Exactly Rock::amountInit big rocks are appended, each holding the zero vInit that asteroidBelt passes. Each is on screen and clear of the ship by dist, and nothing else changes. |
| CppGame.Game.WrapObjects | C++/game.cpp:148-165 | The ship, every laser and every rock before the first NULL are wrapped. Rocks from the first NULL on, the score and the draws stay. |
| CppGame.Game.GetClosestDistance | C++/game.cpp:275-298 | The loop returns the root of the minimum over samples 0..floor(dMax) of the squared distance. |
| CppGame.Game.CheckCollision | C++/game.cpp:264-273 | checkCollision is Collides (see CollidesSquared, OverlapCollides). |
| CppGame.Game.GenerateOffsetVelocity | C++/game.cpp:207-235 | The two offsets are the OffsetPair of one random deviation rad(random(0, 15)), and one draw is used. |
| CppGame.Game.SplitRock | C++/game.cpp:237-262 | splitRock appends exactly Split's two entries and leaves every earlier rock untouched. |
| CppGame.Game.HandleCollisions | C++/game.cpp:167-205 | handleCollisions is AfterCollisions (see CollisionsResolveAtMostOne, FirstHitIsHit, FirstHitScansInOrder). |
| CppGame.Game.ResolveHit | C++/game.cpp:182-198 | A hit splits the rock, kills it, adds its score and kills the impactor. |
| CppGame.Game.CleanUpShip | C++/game.cpp:306-310 | cleanUpShip is AfterCleanUpShip. |
| CppGame.Game.CleanUpLasers | C++/game.cpp:312-321 | The erase loop is AfterCleanUpLasers (see CleanUpLasersRemovesFirstDead). |
| CppGame.Game.CleanUpRocks | C++/game.cpp:323-334 | The erase loop is AfterCleanUpRocks (see CleanUpRocksRemovesFirstDead, CleanUpRocksStopsAtNull). |
| CppGame.Game.CleanUpZombies | C++/game.cpp:300-304 | cleanUpZombies cleans up the ship, then the rocks, then the lasers. |
| CppGame.Game.ResetShip | C++/game.cpp:343-347 | The ship becomes a new Ship and nothing else changes. |
| CppGame.Game.RemoveAllLasers | C++/game.cpp:359-362 | The laser list becomes empty and nothing else changes. |
| CppGame.Game.RemoveAllRocks | C++/game.cpp:354-357 | The rock list becomes empty and nothing else changes. |
| CppGame.Game.ResetScore | C++/game.cpp:364-366 | The score becomes 0 and nothing else changes. |
| CppGame.Game.ResetAllRocks | C++/game.cpp:349-352 | The rocks become exactly Rock::amountInit belt rocks, and the ship, lasers and score stay. |
| CppGame.Game.Reset | C++/game.cpp:336-341 | After reset: a new ship, no lasers, exactly Rock::amountInit big belt rocks on screen and clear of the ship by dist, and score 0. |
| CppGame.ResetRocksClearOfShip | C++/game.cpp:336-351 | After reset every rock's centre is at least 100 from the new ship's centre. |
| CppGame.BeltRockMass | C++/game.cpp:100-107 | Belt rocks are big, hold the zero vInit, and have positive mass. |
| KotlinObjects.Point.Translate | Kotlin/app/src/main/java/com/example/asteroidsKotlin/FlyingObject.kt:135-138 | translate adds each Float step truncated toward zero. |
| KotlinObjects.Velocity.constructor | Kotlin/app/src/main/java/com/example/asteroidsKotlin/FlyingObject.kt:151 | Velocity(dx, dy) stores both components. |
| KotlinObjects.Velocity.Translate | Kotlin/app/src/main/java/com/example/asteroidsKotlin/FlyingObject.kt:152-153 | Velocity.translate adds component-wise. |
| KotlinObjects.AcceleratedBy | Kotlin/app/src/main/java/com/example/asteroidsKotlin/FlyingObject.kt:62-68 | accelerate changes only the velocity, and changes it by exactly amount (squared change = amount²). |
| KotlinObjects.Wrapped | Kotlin/app/src/main/java/com/example/asteroidsKotlin/FlyingObject.kt:102-125 | wrap changes only the point, and does nothing when the wrap flag is off. |
| KotlinObjects.WrappedBounds | Kotlin/app/src/main/java/com/example/asteroidsKotlin/FlyingObject.kt:102-125 | After a wrap the point lies in [left - radius, right] × [top - radius, bottom], so the buffer is on one side only. A point inside that band is unchanged, and a second wrap changes nothing. |
| KotlinObjects.Normalized | Kotlin/app/src/main/java/com/example/asteroidsKotlin/FlyingObject.kt:53-55 | The rotation loops end with the rotation in [0, 360). |
| KotlinObjects.NormalizedUnique | Kotlin/app/src/main/java/com/example/asteroidsKotlin/FlyingObject.kt:53-55 | Any shift by whole turns into [0, 360) gives the normalised rotation. |
| KotlinObjects.StepFacts | Kotlin/app/src/main/java/com/example/asteroidsKotlin/FlyingObject.kt:32-57 | update: a dead object is unchanged. A live one ends with rotation in [0, 360), and one that does not wrap moves by (trunc(dx), -trunc(dy)). A positive timer counts down by dt/60, a negative one kills, and a zero timer never expires. Nothing comes back to life. |
| KotlinObjects.HitsIff | Kotlin/app/src/main/java/com/example/asteroidsKotlin/FlyingObject.kt:77-95 | With a sound sqrt, a hit is x1² + x2² < (2r1 + 2r2)²: y is ignored, the x squares are added, and the test is symmetric. Radii summing to 0 or less never hit. |
| KotlinObjects.LaserStateFacts | Kotlin/app/src/main/java/com/example/asteroidsKotlin/Laser.kt:7-24 | A new laser is named "Laser", wraps, has radius 10, is alive, and keeps the given point and rotation. Its death timer is 40, and its speed is 10·(speed of the given velocity + laserSpeed). |
| KotlinObjects.ShipEventsFacts | Kotlin/app/src/main/java/com/example/asteroidsKotlin/Ship.kt:44-48 | Left rotates +5 and right -5, so both together leave the rotation unchanged. Only thrust changes the velocity, by accelerate(2). Nothing else changes. |
| KotlinObjects.GetFrame | Kotlin/app/src/main/java/com/example/asteroidsKotlin/Ship.kt:52-58 | With 12 frames loaded getFrame returns frames[0]. With fewer frames and a rotation in (0, 360) it indexes out of bounds. |
| KotlinObjects.FlyingObject.Laser | Kotlin/app/src/main/java/com/example/asteroidsKotlin/Laser.kt:8-24 | The laser's point is a fresh copy, so later moves of the source point do not move the laser. Its state is LaserState (see LaserStateFacts). |
| KotlinObjects.FlyingObject.Ship | Kotlin/app/src/main/java/com/example/asteroidsKotlin/Ship.kt:15-21 | A new ship is named "Ship", wraps, has radius 200 and rotation 90, and sits at the centre of the screen. |
| KotlinObjects.FlyingObject.Asteroid | Kotlin/app/src/main/java/com/example/asteroidsKotlin/Asteroid.kt:20-29 | A new asteroid is named "asteroid", has radius 200, wraps, sits at the given point, is turned 360·f, and is launched with asteroidSpeed 1 (accelerated by 10). |
| KotlinObjects.FlyingObject.Accelerate | Kotlin/app/src/main/java/com/example/asteroidsKotlin/FlyingObject.kt:62-68 | accelerate is Accelerated (see AcceleratedBy). |
| KotlinObjects.FlyingObject.Launch | Kotlin/app/src/main/java/com/example/asteroidsKotlin/FlyingObject.kt:71 | launch(a) is accelerate(10·a). |
| KotlinObjects.FlyingObject.Rotate | Kotlin/app/src/main/java/com/example/asteroidsKotlin/FlyingObject.kt:74 | rotate(a) adds a to the rotation and changes nothing else. |
| KotlinObjects.FlyingObject.Wrap | Kotlin/app/src/main/java/com/example/asteroidsKotlin/FlyingObject.kt:102-125 | wrap is Wrapped (see WrappedBounds). |
| KotlinObjects.FlyingObject.Update | Kotlin/app/src/main/java/com/example/asteroidsKotlin/FlyingObject.kt:32-57 | update is Step (see StepFacts), including the rotation loops. |
| KotlinObjects.FlyingObject.HandleCollision | Kotlin/app/src/main/java/com/example/asteroidsKotlin/FlyingObject.kt:77-88 | A hit (see HitsIff) kills both objects, whether or not they were already alive. Otherwise nothing changes. |
| KotlinObjects.Ship.constructor | Kotlin/app/src/main/java/com/example/asteroidsKotlin/Ship.kt:15-42 | The ship's body is ShipState, and 12 frames are loaded. |
| KotlinObjects.Ship.HandleEvents | Kotlin/app/src/main/java/com/example/asteroidsKotlin/Ship.kt:44-48 | handleEvents is ShipEvents (see ShipEventsFacts). |
| KotlinObjects.Ship.Fire | Kotlin/app/src/main/java/com/example/asteroidsKotlin/Ship.kt:50 | fire returns a new laser seeded with the ship's point, speed and rotation and the default laserSpeed 5. |
| KotlinGame.CollidedUpTo | Kotlin/app/src/main/java/com/example/asteroidsKotlin/Game.kt:175-180 | The collision pass keeps the number of asteroids and lasers. |
| KotlinGame.CollidedMutual | Kotlin/app/src/main/java/com/example/asteroidsKotlin/Game.kt:175-180 | Every ship–rock and laser–rock pair is tested, with no liveness filter. A touching pair both end dead, only alive changes, and nothing comes back to life. |
| KotlinGame.HitsSomeIgnoresAlive | Kotlin/app/src/main/java/com/example/asteroidsKotlin/FlyingObject.kt:77-95 | Whether an object hits some rock does not depend on anyone's alive flag. |
| KotlinGame.HitBySomeIgnoresAlive | Kotlin/app/src/main/java/com/example/asteroidsKotlin/FlyingObject.kt:77-95 | Whether a rock is hit by some laser does not depend on anyone's alive flag. |
| KotlinGame.CollidedIdempotent | Kotlin/app/src/main/java/com/example/asteroidsKotlin/Game.kt:175-180 | A second collision pass over the same positions kills nobody new. |
| KotlinGame.FirstDead | Kotlin/app/src/main/java/com/example/asteroidsKotlin/Game.kt:186-196 | The index found is that of the first dead object, or the length when all are alive. |
| KotlinGame.DropFirstDeadKeepsLiving | Kotlin/app/src/main/java/com/example/asteroidsKotlin/Game.kt:185-196 | One clean-up removes exactly one dead object when there is one. Every live object is kept, in order, and the list is unchanged exactly when nothing is dead. |
| KotlinGame.StepEach | Kotlin/app/src/main/java/com/example/asteroidsKotlin/Game.kt:103-104 | Updating a list keeps its length. |
| KotlinGame.HandleEventsFacts | Kotlin/app/src/main/java/com/example/asteroidsKotlin/Game.kt:169-183 | handleEvents adds at most one laser (none without fireLaser), removes at most one laser and one rock, and never revives the ship. A ship that touches a rock after steering ends dead. |
| KotlinGame.CollideRock | Kotlin/app/src/main/java/com/example/asteroidsKotlin/Game.kt:175-180 | One iteration of the rock loop: the ship against rock k, then every laser against it. |
| KotlinGame.CollideLasers | Kotlin/app/src/main/java/com/example/asteroidsKotlin/Game.kt:178-179 | Every laser in order against one rock. |
| KotlinGame.RemoveFirstDead | Kotlin/app/src/main/java/com/example/asteroidsKotlin/Game.kt:186-196 | The remove-and-break loop removes the first dead object, if any. The kept objects stay distinct. |
| KotlinGame.StepObjects | Kotlin/app/src/main/java/com/example/asteroidsKotlin/Game.kt:103-104 | Every object of a list steps, and no other object of the game changes. |
| KotlinGame.Game.constructor | Kotlin/app/src/main/java/com/example/asteroidsKotlin/Game.kt:56-66 | init: the ship at the centre, exactly Asteroid.initAmount live asteroids on screen with radius 200 and wrapping, no lasers, and a star count in [avgStarAmount - randOffset, avgStarAmount + randOffset). |
| KotlinGame.Game.Steer | Kotlin/app/src/main/java/com/example/asteroidsKotlin/Game.kt:171 | The ship reacts to the held keys (ShipEvents); the asteroids and lasers are untouched. |
| KotlinGame.Game.Collide | Kotlin/app/src/main/java/com/example/asteroidsKotlin/Game.kt:174-180 | The collision loops are Collided (see CollidedMutual). The lists themselves and the object graph are unchanged. |
| KotlinGame.Game.CleanUpZombies | Kotlin/app/src/main/java/com/example/asteroidsKotlin/Game.kt:185-199 | cleanUpZombies is CleanedUp (see DropFirstDeadKeepsLiving). The ship is never touched. |
| KotlinGame.Game.CleanUpLasers | Kotlin/app/src/main/java/com/example/asteroidsKotlin/Game.kt:186-190 | The first dead laser, if any, leaves the list; the asteroids and the ship are unchanged. |
| KotlinGame.Game.CleanUpRocks | Kotlin/app/src/main/java/com/example/asteroidsKotlin/Game.kt:192-196 | The first dead asteroid, if any, leaves the list; the lasers and the ship are unchanged. |
| KotlinGame.Game.Fire | Kotlin/app/src/main/java/com/example/asteroidsKotlin/Game.kt:172 | Exactly one laser, fired from the ship, is appended. |
| KotlinGame.Game.HandleEvents | Kotlin/app/src/main/java/com/example/asteroidsKotlin/Game.kt:169-183 | handleEvents is AfterHandleEvents: ship keys, the optional laser (no cooldown), the collision pass, then clean-up. |
| KotlinGame.Game.Update | Kotlin/app/src/main/java/com/example/asteroidsKotlin/Game.kt:96-105 | update is handleEvents followed by the ship's, every asteroid's and every laser's update, in that order. |
| KotlinGame.Game.Move | Kotlin/app/src/main/java/com/example/asteroidsKotlin/Game.kt:102-104 | The moves of update are StepAll: the ship, then every asteroid, then every laser; no object is added or removed. |

## Left out

- Drawing and I/O are left out: `draw`, bitmaps and frame loading, `display`, `operator<<`/`>>`, `Vector::print`, and every `std::cout`/`println` trace. They have no effect on the game state.
- The Kotlin `run`/`onLayout`/`Thread` loop and the sleep are left out. `run` computes `dt` once before its endless loop, so `Game.Update` takes dt as a parameter.
- The `debug` flags are left out. They only guard traces.
- `KotlinAsteroidsActivity.kt` (touch-event glue) is left out. The held keys are a `HeldKeys` parameter.
- `Star.kt` is left out. Stars only draw, so `KotlinGame.Game` keeps their number.
- Integer width and floating point are not modelled:
  - C++ doubles and floats, and Kotlin Float, are exact reals; there is no rounding, overflow, infinity or NaN (except where `GetFrame` describes the division by zero);
  - Kotlin `Int` is unbounded, including `radius * 2` and the squares in `dist`;
  - `pow(dt, 2)` is `dt * dt`.
- sin, cos, sqrt and atan2 are not modelled. They are the fields of `Transcendentals`, with only the facts `SqrtSound`, `PythagoreanSound` and `Atan2Sound` where a property needs them.
- Randomness is not modelled. It is an oracle indexed by the draw number: `Setting.random` in C++, `KRandom` in Kotlin.
- `CppGame.Game.KeepClear`: the resampling loop is proved to end only under `FarFrom`, a fairness assumption on the random source (some later draw is clear of the ship). Without it the source loop need not terminate.
- The C++ Rock subclasses (`rocks.h`) are not part of this model. Radius, mass, score amount and the next size come from `Setting.traits`. The order in which their constructors call initializePosition, initializeVelocity and initializeRotation is not known, so the arena does not apply the launch of rocks.cpp (see `CppGame.FreshRockIgnoresVInit`) and draws no random numbers for rotation or launch.
- `CppGame.MakeRock`: the rock holds the velocity v it is given; in the source a new rock starts from the default zero velocity, so rocks.cpp:33-41 launches it in a random direction and v is lost.
- `CppGame.Placed`: counts only the position draws; the rotation draw (rocks.cpp:11) and the launch angle draw (rocks.cpp:29) of the constructor are not counted.
- `CppGame.Game.CreateRock`: the rock keeps vInit, and the draws of the rock constructor (rotation, launch angle) are not taken from the random source.
- `CppGame.Game.AsteroidBelt`: the belt rocks hold the zero vInit; in the source each is launched at speed ROCK_INIT_LAUNCH_FORCE / mass in a random direction.
- `CppGame.Game.ResetAllRocks`: as AsteroidBelt, the rocks hold the zero vInit instead of a launch velocity.
- `CppGame.Game.Reset`: as AsteroidBelt, the rocks hold the zero vInit instead of a launch velocity.
- `CppGame.BeltRockMass`: the zero velocity it states is the vInit the arena stores, not the launched velocity of rocks.cpp.
- `CppGame.SplitChildren`: the children hold the parent velocity plus the offset; in the source they start at rest and are launched, so that velocity is lost.
- `CppGame.Launch`: requires a non-zero mass; every rock subclass has a positive one (`ValidSetting`), and division by zero is not modelled.
- `CppGame.InitialVelocity`: `abs(v.getMagnitude())` is taken as the absolute value of a real; if the integer overload of `abs` were chosen, a speed below 1 would count as zero.
- `CppGame.Game.FireLaser`: requires a ship. After cleanUpShip the pointer is NULL and the source dereferences it (game.cpp:34-35); that crash is not modelled.
- `MovingObject::update`, the C++ `Ship::update`/`rotate` and the orbit and gravity formulas of `physicsFormulas.cpp` are not part of this model. The C++ arena operations take the objects' positions and velocities as they find them.
- The game.hpp constructor and `Game::setUpScreen` are not part of this model beyond the screen edges and the empty arena that `CppGame.Game.constructor` starts from.
- `C++/vector/trig.cpp` is not modelled separately. Its functions are taken as the `Formulas` functions they forward to.
- The C++ memory management is left out: leaked `new` objects and `erase` without `delete`.
- `CppGame.Game.HandleCollisions`: iterator invalidation is not modelled. The source's `splitRock` pushes to `rocks` while an iterator into it is live; the model works by index, and the scan returns right after the push.
- Score and level are not modelled as objects. The score is an integer and the level is not modelled.
- `Position` members beyond the pixel/metre conversions, `setX`/`setY` and `setXY` are left out. These are `setMeters`, `setPixels`, `addPixels*`, `addMeters*`, `setZoom`, `-`, `+` and the copy constructors; only the conversions are core.
- In the Kotlin model, `FlyingObject.point` and `velocity` are fixed references. The source reassigns them only inside the constructors, which the model builds directly.
- `KotlinObjects.Velocity.Amount`: the speed carries no contract of its own beyond being `Formulas.Mag`, and `toFloat` rounding is not modelled.
- `KotlinObjects.Ship`: the bitmap frames are a count; `GetFrame` returns the index it would read.
- `KotlinGame.Game.constructor`: the asteroids' positions and rotations come from the random oracle. The model proves only that they are on screen, not their distribution.
- `KotlinGame.Game.constructor`: requires left < right and top < bottom. On a screen where either range is empty, `Random.nextInt` throws (Game.kt:56-66); that exception is not modelled.
- `KotlinGame.KRandom`: Kotlin's single `Random` is split into two streams, one for nextInt and one for nextFloat, so the interleaving of the two kinds of draw is not modelled.
