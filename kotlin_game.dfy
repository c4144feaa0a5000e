/**
 * Game.kt of the Kotlin port: the ship, the asteroids and the lasers as
 * FlyingObjects held by a Game whose lists the methods update in place.
 * Every method is specified by a function on KArena, the value of the whole
 * game, and the rules are proved about those functions.
 */
module KotlinGame {
  import opened Maths
  import opened KotlinObjects
  import Formulas

  /** Asteroid.initAmount. */
  const InitAmount: nat := 5
  /** Star.avgStarAmount and Star.randOffset. */
  const AvgStarAmount: int := 20
  const RandOffset: int := 10

  /** The value of a game: the ship, the asteroids and the lasers, in list order. */
  datatype KArena = KArena(ship: ObjState, asteroids: seq<ObjState>, lasers: seq<ObjState>)

  /**
   * kotlin.random.Random: the k-th call of nextInt(from, until), and the
   * k-th call of nextFloat().
   */
  datatype KRandom = KRandom(nextInt: (nat, int, int) -> int, nextFloat: nat -> real)

  /** nextInt(from, until) lies in [from, until) and nextFloat() in [0, 1). */
  ghost predicate RandomInRange(r: KRandom)
  {
    && (forall k: nat, lo: int, hi: int {:trigger r.nextInt(k, lo, hi)} :: lo < hi ==> lo <= r.nextInt(k, lo, hi) < hi)
    && (forall k: nat {:trigger r.nextFloat(k)} :: 0.0 <= r.nextFloat(k) < 1.0)
  }

  // ---------------------------------------------------------------------
  // Collisions, on values
  // ---------------------------------------------------------------------

  /** The object after handleCollision with the given outcome: a hit clears alive. */
  function Killed(o: ObjState, dies: bool): ObjState
  {
    o.(alive := o.alive && !dies)
  }

  predicate HitsSome(m: Transcendentals, o: ObjState, rocks: seq<ObjState>)
  {
    exists k :: 0 <= k < |rocks| && Hits(m, o, rocks[k])
  }

  predicate HitBySome(m: Transcendentals, lasers: seq<ObjState>, rock: ObjState)
  {
    exists l :: 0 <= l < |lasers| && Hits(m, lasers[l], rock)
  }

  lemma HitsSomeSnoc(m: Transcendentals, o: ObjState, rocks: seq<ObjState>, k: nat)
    requires k < |rocks|
    ensures HitsSome(m, o, rocks[..k + 1]) == (HitsSome(m, o, rocks[..k]) || Hits(m, o, rocks[k]))
  {
    assert rocks[..k + 1][k] == rocks[k];
    if HitsSome(m, o, rocks[..k + 1]) && !Hits(m, o, rocks[k]) {
      var j :| 0 <= j < k + 1 && Hits(m, o, rocks[..k + 1][j]);
      assert rocks[..k][j] == rocks[j];
    }
  }

  lemma HitBySomeSnoc(m: Transcendentals, lasers: seq<ObjState>, rock: ObjState, l: nat)
    requires l < |lasers|
    ensures HitBySome(m, lasers[..l + 1], rock) == (HitBySome(m, lasers[..l], rock) || Hits(m, lasers[l], rock))
  {
    assert lasers[..l + 1][l] == lasers[l];
    if HitBySome(m, lasers[..l + 1], rock) && !Hits(m, lasers[l], rock) {
      var j :| 0 <= j < l + 1 && Hits(m, lasers[..l + 1][j], rock);
      assert lasers[..l][j] == lasers[j];
    }
  }

  /** Rock j once the pass has reached it: hit by the ship or by any laser. */
  function RockAfter(m: Transcendentals, a: KArena, j: nat): ObjState
    requires j < |a.asteroids|
  {
    Killed(a.asteroids[j], Hits(m, a.ship, a.asteroids[j]) || HitBySome(m, a.lasers, a.asteroids[j]))
  }

  /**
   * The collision pass of handleEvents after its first n rocks: for each
   * rock, the ship against it, then every laser against it.
   */
  function CollidedUpTo(m: Transcendentals, a: KArena, n: nat): (r: KArena)
    requires n <= |a.asteroids|
    ensures |r.asteroids| == |a.asteroids| && |r.lasers| == |a.lasers|
  {
    KArena(
      ShipAt(m, a, n),
      seq(|a.asteroids|, j requires 0 <= j < |a.asteroids| => RockAt(m, a, n, j)),
      seq(|a.lasers|, l requires 0 <= l < |a.lasers| => LaserAt(m, a, n, l)))
  }

  /** The ship, rock j and laser l in CollidedUpTo(m, a, n). */
  function ShipAt(m: Transcendentals, a: KArena, n: nat): ObjState
    requires n <= |a.asteroids|
  {
    Killed(a.ship, HitsSome(m, a.ship, a.asteroids[..n]))
  }

  function RockAt(m: Transcendentals, a: KArena, n: nat, j: nat): ObjState
    requires j < |a.asteroids|
  {
    if j < n then RockAfter(m, a, j) else a.asteroids[j]
  }

  function LaserAt(m: Transcendentals, a: KArena, n: nat, l: nat): ObjState
    requires n <= |a.asteroids| && l < |a.lasers|
  {
    Killed(a.lasers[l], HitsSome(m, a.lasers[l], a.asteroids[..n]))
  }

  /** The whole collision pass of handleEvents. */
  function Collided(m: Transcendentals, a: KArena): KArena
  {
    CollidedUpTo(m, a, |a.asteroids|)
  }

  /**
   * A hit is mutual, whether or not the objects were already dead: the
   * ship and a rock it touches both end dead, and so do a laser and a rock
   * it touches. Nothing but alive changes, and nothing comes back to life.
   */
  lemma CollidedMutual(m: Transcendentals, a: KArena)
    ensures var c := Collided(m, a);
      && c.ship == a.ship.(alive := c.ship.alive)
      && (forall k :: 0 <= k < |a.asteroids| ==> c.asteroids[k] == a.asteroids[k].(alive := c.asteroids[k].alive))
      && (forall l :: 0 <= l < |a.lasers| ==> c.lasers[l] == a.lasers[l].(alive := c.lasers[l].alive))
      && (c.ship.alive ==> a.ship.alive)
      && (forall k :: 0 <= k < |a.asteroids| && Hits(m, a.ship, a.asteroids[k]) ==>
            !c.ship.alive && !c.asteroids[k].alive)
      && (forall k, l :: 0 <= k < |a.asteroids| && 0 <= l < |a.lasers| && Hits(m, a.lasers[l], a.asteroids[k]) ==>
            !c.lasers[l].alive && !c.asteroids[k].alive)
  {
    var c := Collided(m, a);
    assert a.asteroids[..|a.asteroids|] == a.asteroids;
    forall k | 0 <= k < |a.asteroids| && Hits(m, a.ship, a.asteroids[k])
      ensures !c.ship.alive
    {
      assert HitsSome(m, a.ship, a.asteroids);
    }
    forall k, l | 0 <= k < |a.asteroids| && 0 <= l < |a.lasers| && Hits(m, a.lasers[l], a.asteroids[k])
      ensures !c.lasers[l].alive && !c.asteroids[k].alive
    {
      assert HitsSome(m, a.lasers[l], a.asteroids);
      assert HitBySome(m, a.lasers, a.asteroids[k]);
    }
  }

  /** handleCollision ignores alive, so killing objects does not change who hits whom. */
  lemma HitsSomeIgnoresAlive(m: Transcendentals, o: ObjState, rocks: seq<ObjState>, o': ObjState, rocks': seq<ObjState>)
    requires o' == o.(alive := o'.alive) && |rocks'| == |rocks|
    requires forall k :: 0 <= k < |rocks| ==> rocks'[k] == rocks[k].(alive := rocks'[k].alive)
    ensures HitsSome(m, o', rocks') == HitsSome(m, o, rocks)
  {
    if HitsSome(m, o, rocks) {
      var k :| 0 <= k < |rocks| && Hits(m, o, rocks[k]);
      assert Hits(m, o', rocks'[k]);
    }
    if HitsSome(m, o', rocks') {
      var k :| 0 <= k < |rocks'| && Hits(m, o', rocks'[k]);
      assert Hits(m, o, rocks[k]);
    }
  }

  lemma HitBySomeIgnoresAlive(m: Transcendentals, lasers: seq<ObjState>, rock: ObjState, lasers': seq<ObjState>, rock': ObjState)
    requires rock' == rock.(alive := rock'.alive) && |lasers'| == |lasers|
    requires forall l :: 0 <= l < |lasers| ==> lasers'[l] == lasers[l].(alive := lasers'[l].alive)
    ensures HitBySome(m, lasers', rock') == HitBySome(m, lasers, rock)
  {
    if HitBySome(m, lasers, rock) {
      var l :| 0 <= l < |lasers| && Hits(m, lasers[l], rock);
      assert Hits(m, lasers'[l], rock');
    }
    if HitBySome(m, lasers', rock') {
      var l :| 0 <= l < |lasers'| && Hits(m, lasers'[l], rock');
      assert Hits(m, lasers[l], rock);
    }
  }

  /** A second collision pass over the same positions kills nobody new. */
  lemma {:induction false} CollidedIdempotent(m: Transcendentals, a: KArena)
    ensures Collided(m, Collided(m, a)) == Collided(m, a)
  {
    var c := Collided(m, a);
    var cc := Collided(m, c);
    CollidedMutual(m, a);
    assert a.asteroids[..|a.asteroids|] == a.asteroids;
    assert c.asteroids[..|c.asteroids|] == c.asteroids;
    HitsSomeIgnoresAlive(m, a.ship, a.asteroids, c.ship, c.asteroids);
    forall k | 0 <= k < |a.asteroids|
      ensures cc.asteroids[k] == c.asteroids[k]
    {
      HitBySomeIgnoresAlive(m, a.lasers, a.asteroids[k], c.lasers, c.asteroids[k]);
    }
    forall l | 0 <= l < |a.lasers|
      ensures cc.lasers[l] == c.lasers[l]
    {
      HitsSomeIgnoresAlive(m, a.lasers[l], a.asteroids, c.lasers[l], c.asteroids);
    }
  }

  // ---------------------------------------------------------------------
  // Clean-up, on values
  // ---------------------------------------------------------------------

  /** The index of the first dead object, or the length when all are alive. */
  function FirstDead(s: seq<ObjState>): (i: nat)
    ensures i <= |s|
    ensures forall j :: 0 <= j < i ==> s[j].alive
    ensures i < |s| ==> !s[i].alive
  {
    if |s| == 0 then 0
    else if !s[0].alive then 0
    else 1 + FirstDead(s[1..])
  }

  /** cleanUpZombies for one list: remove the first dead object, if any. */
  function DropFirstDead(s: seq<ObjState>): seq<ObjState>
  {
    var i := FirstDead(s);
    if i < |s| then s[..i] + s[i + 1..] else s
  }

  /** cleanUpZombies: one dead laser and one dead rock at most; the ship stays whatever its state. */
  function CleanedUp(a: KArena): KArena
  {
    a.(lasers := DropFirstDead(a.lasers), asteroids := DropFirstDead(a.asteroids))
  }

  /** The live objects of a list, in order. */
  function Living(s: seq<ObjState>): seq<ObjState>
  {
    if |s| == 0 then [] else (if s[0].alive then [s[0]] else []) + Living(s[1..])
  }

  /** The number of dead objects in a list. */
  function DeadCount(s: seq<ObjState>): nat
  {
    if |s| == 0 then 0 else (if s[0].alive then 0 else 1) + DeadCount(s[1..])
  }

  lemma {:induction false} LivingAppend(s: seq<ObjState>, t: seq<ObjState>)
    ensures Living(s + t) == Living(s) + Living(t)
    ensures DeadCount(s + t) == DeadCount(s) + DeadCount(t)
    decreases |s|
  {
    if |s| == 0 {
      assert s + t == t;
    } else {
      var head := if s[0].alive then [s[0]] else [];
      assert (s + t)[0] == s[0] && (s + t)[1..] == s[1..] + t;
      LivingAppend(s[1..], t);
      calc {
        Living(s + t);
        head + Living(s[1..] + t);
        head + (Living(s[1..]) + Living(t));
        (head + Living(s[1..])) + Living(t);
        Living(s) + Living(t);
      }
    }
  }

  /**
   * One clean-up removes exactly one dead object from a list that has one
   * and keeps every live object, in order: repeated frames clear all zombies.
   */
  lemma DropFirstDeadKeepsLiving(s: seq<ObjState>)
    ensures Living(DropFirstDead(s)) == Living(s)
    ensures DeadCount(DropFirstDead(s)) == if DeadCount(s) == 0 then 0 else DeadCount(s) - 1
    ensures DropFirstDead(s) == s <==> DeadCount(s) == 0
  {
    var i := FirstDead(s);
    if i < |s| {
      assert s == s[..i] + ([s[i]] + s[i + 1..]);
      LivingAppend(s[..i], [s[i]] + s[i + 1..]);
      LivingAppend([s[i]], s[i + 1..]);
      LivingAppend(s[..i], s[i + 1..]);
      assert Living([s[i]]) == [] by { assert [s[i]][1..] == []; }
      assert DeadCount([s[i]]) == 1 by { assert [s[i]][1..] == []; }
      assert DeadCount(s) > 0;
      assert |DropFirstDead(s)| < |s|;
    } else {
      AllAliveNoDead(s);
    }
  }

  lemma {:induction false} AllAliveNoDead(s: seq<ObjState>)
    requires forall j :: 0 <= j < |s| ==> s[j].alive
    ensures DeadCount(s) == 0
    decreases |s|
  {
    if |s| > 0 {
      AllAliveNoDead(s[1..]);
    }
  }

  // ---------------------------------------------------------------------
  // A frame, on values
  // ---------------------------------------------------------------------

  /** fire(): the laser the ship launches from its own point, speed and heading. */
  function FiredLaser(m: Transcendentals, ship: ObjState): ObjState
  {
    LaserState(m, ship.x, ship.y, Formulas.Mag(m, ship.dx, ship.dy), ship.rotation, LaserSpeed)
  }

  /** handleEvents: the ship's keys, an optional new laser, the collision pass, the clean-up. */
  function AfterHandleEvents(m: Transcendentals, a: KArena, keys: HeldKeys): KArena
  {
    var steered := a.(ship := ShipEvents(m, a.ship, keys));
    var fired := if keys.fireLaser then steered.(lasers := steered.lasers + [FiredLaser(m, steered.ship)]) else steered;
    CleanedUp(Collided(m, fired))
  }

  /** Every object of a list after update(dt). */
  function StepEach(screen: Screen, s: seq<ObjState>, dt: int): (r: seq<ObjState>)
    ensures |r| == |s|
  {
    seq(|s|, i requires 0 <= i < |s| => Step(screen, s[i], dt))
  }

  function StepAll(screen: Screen, a: KArena, dt: int): KArena
  {
    KArena(Step(screen, a.ship, dt), StepEach(screen, a.asteroids, dt), StepEach(screen, a.lasers, dt))
  }

  /** update(): handleEvents, then every object moves, ship first, then rocks, then lasers. */
  function AfterUpdate(m: Transcendentals, screen: Screen, a: KArena, keys: HeldKeys, dt: int): KArena
  {
    StepAll(screen, AfterHandleEvents(m, a, keys), dt)
  }

  /**
   * A frame's bookkeeping: at most one laser is added and at most one
   * removed, at most one rock is removed, the ship never comes back to
   * life, and a ship that touches a rock after steering ends the frame dead.
   */
  lemma HandleEventsFacts(m: Transcendentals, a: KArena, keys: HeldKeys)
    ensures var b := AfterHandleEvents(m, a, keys);
      && |a.asteroids| - 1 <= |b.asteroids| <= |a.asteroids|
      && |a.lasers| - 1 <= |b.lasers| <= |a.lasers| + 1
      && (!keys.fireLaser ==> |b.lasers| <= |a.lasers|)
      && (b.ship.alive ==> a.ship.alive)
      && (forall k :: 0 <= k < |a.asteroids| && Hits(m, ShipEvents(m, a.ship, keys), a.asteroids[k]) ==> !b.ship.alive)
  {
    var steered := a.(ship := ShipEvents(m, a.ship, keys));
    var fired := if keys.fireLaser then steered.(lasers := steered.lasers + [FiredLaser(m, steered.ship)]) else steered;
    CollidedMutual(m, fired);
    var c := Collided(m, fired);
    assert |c.asteroids| == |a.asteroids|;
    assert |c.lasers| == |fired.lasers|;
  }

  // ---------------------------------------------------------------------
  // Game
  // ---------------------------------------------------------------------

  /** Two flying objects share neither themselves nor their point or velocity. */
  ghost predicate Apart(o1: FlyingObject, o2: FlyingObject)
  {
    o1 != o2 && o1.point != o2.point && o1.velocity != o2.velocity
  }

  /** No two objects of a list share anything. */
  ghost predicate AllApart(os: seq<FlyingObject>)
  {
    forall i, j :: 0 <= i < |os| && 0 <= j < |os| && i != j ==> Apart(os[i], os[j])
  }

  /** No object of one list shares anything with an object of the other. */
  ghost predicate ApartLists(xs: seq<FlyingObject>, ys: seq<FlyingObject>)
  {
    forall i, j :: 0 <= i < |xs| && 0 <= j < |ys| ==> Apart(xs[i], ys[j])
  }

  /** The points and the velocities of a list of objects. */
  ghost function PointsOf(os: seq<FlyingObject>): (r: set<Point>)
    ensures forall i :: 0 <= i < |os| ==> os[i].point in r
  {
    if |os| == 0 then {} else {os[0].point} + PointsOf(os[1..])
  }

  ghost function VelocitiesOf(os: seq<FlyingObject>): (r: set<Velocity>)
    ensures forall i :: 0 <= i < |os| ==> os[i].velocity in r
  {
    if |os| == 0 then {} else {os[0].velocity} + VelocitiesOf(os[1..])
  }

  /** The states of a list of objects, in order. */
  ghost function States(os: seq<FlyingObject>): (r: seq<ObjState>)
    reads os, PointsOf(os), VelocitiesOf(os)
    ensures |r| == |os| && forall i :: 0 <= i < |os| ==> r[i] == os[i].State()
  {
    seq(|os|, i requires 0 <= i < |os| reads os, PointsOf(os), VelocitiesOf(os) => os[i].State())
  }

  /** The ship, the rocks and the lasers are pairwise different objects. */
  ghost predicate Separate(ship: FlyingObject, rocks: seq<FlyingObject>, lasers: seq<FlyingObject>)
  {
    && ship !in rocks && ship !in lasers
    && (forall j, l :: 0 <= j < |rocks| && 0 <= l < |lasers| ==> rocks[j] != lasers[l])
    && (forall i, j :: 0 <= i < |rocks| && 0 <= j < |rocks| && i != j ==> rocks[i] != rocks[j])
    && (forall i, j :: 0 <= i < |lasers| && 0 <= j < |lasers| && i != j ==> lasers[i] != lasers[j])
  }

  /** The collision pass for rock k of handleEvents: the ship against it, then each laser against it. */
  method CollideRock(m: Transcendentals, ship: FlyingObject, rocks: seq<FlyingObject>, lasers: seq<FlyingObject>,
                     k: nat, ghost a: KArena)
    requires Separate(ship, rocks, lasers)
    requires k < |rocks| && |a.asteroids| == |rocks| && |a.lasers| == |lasers|
    requires ship.State() == ShipAt(m, a, k)
    requires forall j :: 0 <= j < |rocks| ==> rocks[j].State() == RockAt(m, a, k, j)
    requires forall l :: 0 <= l < |lasers| ==> lasers[l].State() == LaserAt(m, a, k, l)
    modifies ship, rocks[k], lasers
    ensures ship.State() == ShipAt(m, a, k + 1)
    ensures forall j :: 0 <= j < |rocks| ==> rocks[j].State() == RockAt(m, a, k + 1, j)
    ensures forall l :: 0 <= l < |lasers| ==> lasers[l].State() == LaserAt(m, a, k + 1, l)
  {
    HitsSomeSnoc(m, a.ship, a.asteroids, k);
    ship.HandleCollision(m, rocks[k]);
    assert rocks[k].State() == Killed(a.asteroids[k], Hits(m, a.ship, a.asteroids[k]) || HitBySome(m, a.lasers[..0], a.asteroids[k]));
    CollideLasers(m, rocks[k], lasers, k, a);
    assert a.lasers[..|lasers|] == a.lasers;
  }

  /** The inner loop of the collision pass: every laser against rock k. */
  method CollideLasers(m: Transcendentals, rock: FlyingObject, lasers: seq<FlyingObject>, k: nat, ghost a: KArena)
    requires rock !in lasers && forall i, j :: 0 <= i < |lasers| && 0 <= j < |lasers| && i != j ==> lasers[i] != lasers[j]
    requires k < |a.asteroids| && |a.lasers| == |lasers|
    requires rock.State() == Killed(a.asteroids[k], Hits(m, a.ship, a.asteroids[k]) || HitBySome(m, a.lasers[..0], a.asteroids[k]))
    requires forall l :: 0 <= l < |lasers| ==> lasers[l].State() == LaserAt(m, a, k, l)
    modifies rock, lasers
    ensures rock.State() == Killed(a.asteroids[k], Hits(m, a.ship, a.asteroids[k]) || HitBySome(m, a.lasers[..|lasers|], a.asteroids[k]))
    ensures forall l :: 0 <= l < |lasers| ==> lasers[l].State() == LaserAt(m, a, k + 1, l)
  {
    var l := 0;
    while l < |lasers|
      invariant l <= |lasers|
      invariant rock.State() == Killed(a.asteroids[k], Hits(m, a.ship, a.asteroids[k]) || HitBySome(m, a.lasers[..l], a.asteroids[k]))
      invariant forall i :: 0 <= i < |lasers| ==> lasers[i].State() == LaserAt(m, a, if i < l then k + 1 else k, i)
    {
      HitBySomeSnoc(m, a.lasers, a.asteroids[k], l);
      HitsSomeSnoc(m, a.lasers[l], a.asteroids, k);
      lasers[l].HandleCollision(m, rock);
      l := l + 1;
    }
  }

  class Game {
    const screen: Screen
    const ship: Ship
    var asteroids: seq<FlyingObject>
    var lasers: seq<FlyingObject>
    /** The number of Star objects; their contents are drawing only. */
    var stars: nat
    /** Every object the game's lists reach: the objects, their points and their velocities. */
    ghost var Repr: set<object>

    /** No two of the game's objects share anything, and all live on the game's screen. */
    ghost predicate Valid()
      reads this
    {
      ValidLists(asteroids, lasers)
    }

    /** Valid for given asteroid and laser lists. */
    ghost predicate ValidLists(rocks: seq<FlyingObject>, shots: seq<FlyingObject>)
      reads this`Repr
    {
      && ship.body.screen == screen
      && ship.body in Repr && ship.body.point in Repr && ship.body.velocity in Repr
      && (forall j :: 0 <= j < |rocks| ==> Belongs(rocks[j]))
      && (forall l :: 0 <= l < |shots| ==> Belongs(shots[l]))
      && AllApart(rocks) && AllApart(shots) && ApartLists(rocks, shots)
    }

    /** An asteroid or laser of the game: in Repr, apart from the ship, on the game's screen. */
    ghost predicate Belongs(o: FlyingObject)
      reads this`Repr
    {
      o in Repr && o.point in Repr && o.velocity in Repr && Apart(ship.body, o) && o.screen == screen
    }

    ghost function Snapshot(): KArena
      reads this, ship.body, ship.body.point, ship.body.velocity
      reads asteroids, PointsOf(asteroids), VelocitiesOf(asteroids), lasers, PointsOf(lasers), VelocitiesOf(lasers)
    {
      KArena(ship.body.State(), States(asteroids), States(lasers))
    }

    /**
     * init: the ship at the centre, Asteroid.initAmount asteroids at random
     * points, no lasers, and between 10 and 29 stars.
     */
    constructor (screen: Screen, m: Transcendentals, rnd: KRandom)
      requires RandomInRange(rnd) && screen.left < screen.right && screen.top < screen.bottom
      ensures Valid() && this.screen == screen && lasers == [] && |asteroids| == InitAmount
      ensures ship.body.State() == ShipState(screen) && ship.frames == ShipFrames
      ensures forall j :: 0 <= j < |asteroids| ==>
        var r := asteroids[j].State();
        r.alive && r.radius == 200 && r.wrap && screen.left <= r.x < screen.right && screen.top <= r.y < screen.bottom
      ensures AvgStarAmount - RandOffset <= stars < AvgStarAmount + RandOffset
    {
      var s := new Ship(screen);
      var rocks: seq<FlyingObject> := [];
      var draws: nat := 0;
      var i := 1;
      ghost var repr: set<object> := {s.body, s.body.point, s.body.velocity};
      while i <= InitAmount
        invariant 1 <= i <= InitAmount + 1 && |rocks| == i - 1
        invariant s.body in repr && s.body.point in repr && s.body.velocity in repr
        invariant forall j :: 0 <= j < |rocks| ==> rocks[j] in repr && rocks[j].point in repr && rocks[j].velocity in repr
        invariant forall j :: 0 <= j < |rocks| ==> Apart(s.body, rocks[j]) && rocks[j].screen == screen
        invariant forall j, k :: 0 <= j < |rocks| && 0 <= k < |rocks| && j != k ==> Apart(rocks[j], rocks[k])
        invariant forall j :: 0 <= j < |rocks| ==>
          var r := rocks[j].State();
          r.alive && r.radius == 200 && r.wrap && screen.left <= r.x < screen.right && screen.top <= r.y < screen.bottom
        invariant s.body.State() == ShipState(screen) && s.frames == ShipFrames && s.body.screen == screen
      {
        var x := rnd.nextInt(draws, screen.left, screen.right);
        var y := rnd.nextInt(draws + 1, screen.top, screen.bottom);
        var rock := new FlyingObject.Asteroid(screen, m, x, y, rnd.nextFloat(i - 1));
        draws := draws + 2;
        rocks := rocks + [rock];
        repr := repr + {rock, rock.point, rock.velocity};
        i := i + 1;
      }
      var starCount := rnd.nextInt(draws, AvgStarAmount - RandOffset, AvgStarAmount + RandOffset);
      this.screen := screen;
      ship := s;
      asteroids := rocks;
      lasers := [];
      stars := starCount;
      Repr := repr;
    }

    /** The loops over asteroids and lasers in handleEvents. */
    method Collide(m: Transcendentals)
      requires Valid()
      modifies ship.body, asteroids, lasers
      ensures unchanged(this) && Valid()
      ensures Snapshot() == Collided(m, old(Snapshot()))
    {
      ghost var a := Snapshot();
      assert Separate(ship.body, asteroids, lasers);
      var k := 0;
      while k < |asteroids|
        invariant k <= |asteroids| && |a.asteroids| == |asteroids| && |a.lasers| == |lasers|
        invariant ship.body.State() == ShipAt(m, a, k)
        invariant forall j :: 0 <= j < |asteroids| ==> asteroids[j].State() == RockAt(m, a, k, j)
        invariant forall l :: 0 <= l < |lasers| ==> lasers[l].State() == LaserAt(m, a, k, l)
      {
        CollideRock(m, ship.body, asteroids, lasers, k, a);
        k := k + 1;
      }
    }

    /** cleanUpZombies: the laser loop, then the asteroid loop; the ship is left as it is. */
    method CleanUpZombies()
      requires Valid()
      modifies this
      ensures Valid() && Repr == old(Repr) && stars == old(stars)
      ensures Snapshot() == CleanedUp(old(Snapshot()))
    {
      CleanUpLasers();
      CleanUpRocks();
    }

    /** The laser loop of cleanUpZombies. */
    method CleanUpLasers()
      requires Valid()
      modifies this
      ensures Valid() && Repr == old(Repr) && stars == old(stars)
      ensures Snapshot() == old(Snapshot()).(lasers := DropFirstDead(old(Snapshot()).lasers))
    {
      ghost var a := Snapshot();
      var kept, d := RemoveFirstDead(lasers, a.lasers, asteroids);
      forall l | 0 <= l < |kept|
        ensures Belongs(kept[l])
      {
        assert kept[l] == lasers[if l < d then l else l + 1];
      }
      assert ValidLists(asteroids, kept);
      lasers := kept;
      assert a.asteroids == States(asteroids);
    }

    /** The asteroid loop of cleanUpZombies. */
    method CleanUpRocks()
      requires Valid()
      modifies this
      ensures Valid() && Repr == old(Repr) && stars == old(stars)
      ensures Snapshot() == old(Snapshot()).(asteroids := DropFirstDead(old(Snapshot()).asteroids))
    {
      ghost var a := Snapshot();
      var kept, d := RemoveFirstDead(asteroids, a.asteroids, lasers);
      forall j | 0 <= j < |kept|
        ensures Belongs(kept[j])
      {
        assert kept[j] == asteroids[if j < d then j else j + 1];
      }
      assert ValidLists(kept, lasers);
      asteroids := kept;
      assert a.lasers == States(lasers);
    }

    /** handleEvents: the ship's keys, a new laser when fire is held, the collision pass, the clean-up. */
    method HandleEvents(m: Transcendentals, keys: HeldKeys)
      requires Valid()
      modifies this, Repr
      ensures Valid() && fresh(Repr - old(Repr)) && stars == old(stars)
      ensures Snapshot() == AfterHandleEvents(m, old(Snapshot()), keys)
    {
      ghost var r0 := Repr;
      Steer(m, keys);
      if keys.fireLaser {
        Fire(m, Snapshot());
      }
      ghost var r1 := Repr;
      assert fresh(r1 - r0);
      Collide(m);
      CleanUpZombies();
      assert Repr == r1;
    }

    /** `ship.handleEvents(heldKeys)` inside handleEvents. */
    method Steer(m: Transcendentals, keys: HeldKeys)
      requires Valid()
      modifies ship.body, ship.body.velocity
      ensures unchanged(this) && Valid()
      ensures Snapshot() == old(Snapshot()).(ship := ShipEvents(m, old(Snapshot()).ship, keys))
    {
      ghost var rocks, shots := States(asteroids), States(lasers);
      ship.HandleEvents(m, keys);
      assert rocks == States(asteroids) && shots == States(lasers);
    }

    /** `if (heldKeys.fireLaser) lasers.add(ship.fire())`. */
    method Fire(m: Transcendentals, ghost a: KArena)
      requires Valid() && Snapshot() == a
      modifies this
      ensures Valid() && fresh(Repr - old(Repr)) && stars == old(stars)
      ensures Snapshot() == a.(lasers := a.lasers + [FiredLaser(m, a.ship)])
    {
      var laser := ship.Fire(m);
      ghost var shot := laser.State();
      ghost var rocks, shots := States(asteroids), States(lasers);
      AppendApart(lasers, laser, asteroids);
      lasers := lasers + [laser];
      Repr := Repr + {laser, laser.point, laser.velocity};
      assert States(lasers) == shots + [shot];
      assert rocks == States(asteroids);
    }

    /** update: handleEvents, then the ship, every asteroid and every laser moves. */
    method Update(m: Transcendentals, keys: HeldKeys, dt: int)
      requires Valid()
      modifies this, Repr
      ensures Valid() && fresh(Repr - old(Repr)) && stars == old(stars)
      ensures Snapshot() == AfterUpdate(m, screen, old(Snapshot()), keys, dt)
    {
      HandleEvents(m, keys);
      Move(dt);
    }

    /** The moves of update: the ship, then every asteroid, then every laser. */
    method Move(dt: int)
      requires Valid()
      modifies Repr
      ensures Valid() && Repr == old(Repr) && stars == old(stars)
      ensures Snapshot() == StepAll(screen, old(Snapshot()), dt)
    {
      ghost var rocks, shots := States(asteroids), States(lasers);
      ship.body.Update(dt);
      assert Valid();
      assert rocks == States(asteroids) && shots == States(lasers);
      ghost var shipMoved := ship.body.State();
      StepObjects(asteroids, rocks, screen, dt, ship.body, lasers);
      assert Valid();
      ghost var rocksMoved := States(asteroids);
      ApartListsSymmetric(asteroids, lasers);
      StepObjects(lasers, shots, screen, dt, ship.body, asteroids);
      assert Valid();
      assert Snapshot() == KArena(shipMoved, rocksMoved, States(lasers));
    }
  }

  /** Apart is symmetric, so lists apart one way are apart the other way. */
  lemma ApartListsSymmetric(xs: seq<FlyingObject>, ys: seq<FlyingObject>)
    requires ApartLists(xs, ys)
    ensures ApartLists(ys, xs)
  {
  }

  /** A fresh object appended to a list keeps everything apart. */
  lemma AppendApart(os: seq<FlyingObject>, x: FlyingObject, others: seq<FlyingObject>)
    requires AllApart(os) && ApartLists(others, os)
    requires forall i :: 0 <= i < |os| ==> Apart(os[i], x)
    requires forall j :: 0 <= j < |others| ==> Apart(others[j], x)
    ensures AllApart(os + [x]) && ApartLists(others, os + [x])
  {
    var r := os + [x];
    assert forall i :: 0 <= i < |os| ==> r[i] == os[i];
    assert r[|os|] == x;
  }

  /**
   * The loop of cleanUpZombies over one list: the first dead object is
   * removed, then the loop breaks. What is left stays apart from the rest.
   */
  method RemoveFirstDead(os: seq<FlyingObject>, ghost s: seq<ObjState>, ghost others: seq<FlyingObject>)
    returns (r: seq<FlyingObject>, ghost d: nat)
    requires s == States(os)
    ensures States(r) == DropFirstDead(s)
    ensures d == FirstDead(s) && |r| == (if d < |os| then |os| - 1 else |os|)
    ensures forall k :: 0 <= k < |r| ==> r[k] == os[if k < d then k else k + 1]
    ensures AllApart(os) ==> AllApart(r)
    ensures ApartLists(os, others) ==> ApartLists(r, others)
    ensures ApartLists(others, os) ==> ApartLists(others, r)
  {
    var n := 0;
    while n < |os| && os[n].alive
      invariant n <= |os| && forall j :: 0 <= j < n ==> os[j].alive
    {
      n := n + 1;
    }
    assert FirstDead(s) == n;
    d := n;
    if n < |os| {
      r := os[..n] + os[n + 1..];
      RemovedAt(os, n, others);
    } else {
      r := os;
    }
  }

  /** Removing the object at index n: the states and the apartness of what is left. */
  lemma RemovedAt(os: seq<FlyingObject>, n: nat, others: seq<FlyingObject>)
    requires n < |os|
    ensures var r := os[..n] + os[n + 1..];
      && (forall j :: 0 <= j < |r| ==> r[j] == os[if j < n then j else j + 1])
      && States(r) == States(os)[..n] + States(os)[n + 1..]
      && (AllApart(os) ==> AllApart(r))
      && (ApartLists(os, others) ==> ApartLists(r, others))
      && (ApartLists(others, os) ==> ApartLists(others, r))
  {
    var r := os[..n] + os[n + 1..];
    assert forall j :: 0 <= j < |r| ==> r[j] == os[if j < n then j else j + 1];
    var s := States(os);
    assert |States(r)| == |s[..n] + s[n + 1..]|;
    forall j | 0 <= j < |r|
      ensures States(r)[j] == (s[..n] + s[n + 1..])[j]
    {
      assert r[j] == os[if j < n then j else j + 1];
    }
  }

  /** `for (o in os) o.update(dt)`: every object steps, nothing else in the game changes. */
  method StepObjects(os: seq<FlyingObject>, ghost s: seq<ObjState>, ghost screen: Screen, dt: int,
                     ghost fixed: FlyingObject, ghost others: seq<FlyingObject>)
    requires s == States(os) && AllApart(os) && ApartLists(os, others)
    requires forall i :: 0 <= i < |os| ==> os[i].screen == screen && Apart(fixed, os[i])
    modifies os, set o | o in os :: o.point
    ensures States(os) == StepEach(screen, s, dt)
    ensures fixed.State() == old(fixed.State()) && States(others) == old(States(others))
  {
    var k := 0;
    while k < |os|
      invariant k <= |os|
      invariant forall i :: 0 <= i < k ==> os[i].State() == Step(screen, s[i], dt)
      invariant forall i :: k <= i < |os| ==> os[i].State() == s[i]
      invariant fixed.State() == old(fixed.State())
      invariant forall j :: 0 <= j < |others| ==> others[j].State() == old(others[j].State())
    {
      os[k].Update(dt);
      k := k + 1;
    }
  }
}
