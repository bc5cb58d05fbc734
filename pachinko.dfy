/**
 * The Pachinko demo (Game2DPachinko): balls fall under gravity, bounce off
 * each other, off fixed bumpers (each bumper carries a disc, a capsule and an
 * oriented box) and off the walls, and can warp from the bottom back to the top.
 *
 * The engine's bounce and nearest-point routines are function values of an
 * Engine record and have no contract here. A bounce routine writes a new
 * centre and velocity back into the ball it is given (a Motion); the ball's
 * radius and elasticity are passed by value.
 */
module Pachinko {
  import opened Geometry
  import opened Input
  import opened Rng
  import opened Sweeps
  import opened GameCommon
  import RayEditing

  datatype OBB2 = OBB2(center: Vec2, iBasisNormal: Vec2, halfDimensions: Vec2)

  /** A fixed bumper (struct Shapes); its colour is not modelled. */
  datatype Shape = Shape(discCenter: Vec2, discRadius: real,
                         boneStart: Vec2, boneEnd: Vec2, capsuleRadius: real,
                         box: OBB2, elasticity: real)

  /** A ball (struct Balls); its colour is not modelled. */
  datatype Ball = Ball(center: Vec2, radius: real, velocity: Vec2, elasticity: real)

  /** What a bounce routine writes back into a ball. */
  datatype Motion = Motion(center: Vec2, velocity: Vec2)

  /** The engine routines the demo calls, as uninterpreted function values. */
  datatype Engine = Engine(
    bounceDiscs: (Ball, Ball) -> (Motion, Motion),           // BounceDiscsOffEachOther2D
    bounceOffFixedDisc: (Ball, Vec2, real, real) -> Motion,  // BounceDiscOffFixedDisc2D(ball, centre, radius, elasticity)
    bounceOffFixedPoint: (Ball, Vec2, real) -> Motion,       // BounceDiscOffFixedPoint(ball, point, elasticity)
    nearestOnCapsule: (Vec2, Vec2, Vec2, real) -> Vec2,      // GetNearestPointOnCapsule2D
    nearestOnOBB: (Vec2, OBB2) -> Vec2,                      // GetNearestPointOnOBB2D
    defaultBox: OBB2)                                        // a default-constructed OBB2

  /** The values InitializeGameConfigElements reads from the game configuration. */
  datatype Config = Config(
    minBallRadius: real, maxBallRadius: real,
    numFixedDiscs: int, fixedDiscMinRadius: real, fixedDiscMaxRadius: real,
    numFixedCapsules: int, minCapsuleLength: real, maxCapsuleLength: real,
    minCapsuleRadius: real, maxCapsuleRadius: real,
    numFixedOBB2s: int, minOBBWidth: real, maxOBBWidth: real,
    wallElasticity: real, minElasticity: real, maxElasticity: real,
    extraWarpHeight: int)

  /** The rolls behind one disc bumper: centre x and y, radius, elasticity. */
  datatype DiscRoll = DiscRoll(x: Fraction, y: Fraction, radius: Fraction, elasticity: Fraction)

  /**
   * The rolls behind one capsule bumper. The rolled angle only feeds
   * MakeFromPolarDegrees, so the unit direction it yields is given instead.
   */
  datatype CapsuleRoll = CapsuleRoll(x: Fraction, y: Fraction, direction: Vec2,
                                     length: Fraction, radius: Fraction, elasticity: Fraction)

  /** The rolls behind one box bumper; the i basis (cos, sin of the rolled angle) is given. */
  datatype BoxRoll = BoxRoll(halfWidth: Fraction, halfHeight: Fraction, x: Fraction, y: Fraction,
                             iBasisNormal: Vec2, elasticity: Fraction)

  /** The rolls of one RandomizeFixedShapes, indexed by loop iteration. */
  datatype ShapeRolls = ShapeRolls(disc: nat -> DiscRoll, capsule: nat -> CapsuleRoll, box: nat -> BoxRoll)

  /** Default elasticity of a new ball or bumper. */
  const DefaultElasticity: real := 0.9

  const Gravity := Vec2(0.0, -100.0)

  /** The ball after a bounce routine wrote its centre and velocity. */
  function Moved(b: Ball, m: Motion): Ball
  {
    b.(center := m.center, velocity := m.velocity)
  }

  /** Balls that differ at most in centre and velocity, index by index. */
  predicate SameDiscs(a: seq<Ball>, b: seq<Ball>)
  {
    |a| == |b| && forall i :: 0 <= i < |a| ==> a[i].radius == b[i].radius && a[i].elasticity == b[i].elasticity
  }

  // ---------------------------------------------------------------------
  // One physics step, as functions of the balls.

  /** Semi-implicit Euler: the velocity first, then the centre with the new velocity. */
  function Fallen(b: Ball, dt: real): Ball
  {
    var v := Add(b.velocity, Scale(Gravity, dt));
    b.(velocity := v, center := Add(b.center, Scale(v, dt)))
  }

  function Gravitated(bs: seq<Ball>, dt: real): seq<Ball>
  {
    seq(|bs|, i requires 0 <= i < |bs| => Fallen(bs[i], dt))
  }

  /** One visit of the ball-pair sweep: both balls of the pair get their bounced motion. */
  function PairStep(e: Engine): (seq<Ball>, nat, nat) -> seq<Ball>
  {
    (bs: seq<Ball>, i: nat, j: nat) =>
      if i < |bs| && j < |bs| then
        var m := e.bounceDiscs(bs[i], bs[j]);
        bs[i := Moved(bs[i], m.0)][j := Moved(bs[j], m.1)]
      else bs
  }

  function PairSwept(e: Engine, bs: seq<Ball>): seq<Ball>
  {
    FoldPairs(bs, Pairs(|bs|), PairStep(e))
  }

  /** The bumper's disc: bounced off unconditionally. */
  function DiscStage(e: Engine, b: Ball, s: Shape): Ball
  {
    Moved(b, e.bounceOffFixedDisc(b, s.discCenter, s.discRadius, s.elasticity))
  }

  /** The bumper's capsule: bounced off its nearest point when strictly closer than the radius sum. */
  function CapsuleStage(e: Engine, b: Ball, s: Shape): Ball
  {
    var p := e.nearestOnCapsule(b.center, s.boneStart, s.boneEnd, s.capsuleRadius);
    var sum := b.radius + s.capsuleRadius;
    if DistSq(b.center, p) < sum * sum then Moved(b, e.bounceOffFixedPoint(b, p, s.elasticity)) else b
  }

  /** The bumper's box: bounced off its nearest point when strictly closer than the ball's radius. */
  function BoxStage(e: Engine, b: Ball, s: Shape): Ball
  {
    var p := e.nearestOnOBB(b.center, s.box);
    if DistSq(b.center, p) < b.radius * b.radius then Moved(b, e.bounceOffFixedPoint(b, p, s.elasticity)) else b
  }

  /** One ball against one bumper; each stage sees the ball the previous stage left. */
  function BumperStep(e: Engine, b: Ball, s: Shape): Ball
  {
    BoxStage(e, CapsuleStage(e, DiscStage(e, b, s), s), s)
  }

  function BumperAt(e: Engine, shapes: seq<Shape>): (seq<Ball>, nat, nat) -> seq<Ball>
  {
    (bs: seq<Ball>, a: nat, k: nat) =>
      if a < |bs| && k < |shapes| then bs[a := BumperStep(e, bs[a], shapes[k])] else bs
  }

  function BumperSwept(e: Engine, shapes: seq<Shape>, bs: seq<Ball>): seq<Ball>
  {
    FoldPairs(bs, Grid(|bs|, |shapes|), BumperAt(e, shapes))
  }

  /** CheckNorthAndSouthWalls for one ball. */
  function NorthSouth(e: Engine, cfg: Config, c: Common, warp: bool, b: Ball): Ball
  {
    if !warp && b.center.y < b.radius then
      Moved(b, e.bounceOffFixedPoint(b, Vec2(b.center.x, 0.0), cfg.wallElasticity))
    else if warp && b.center.y < -b.radius then
      b.(center := b.center.(y := c.screenSizeY + b.radius + cfg.extraWarpHeight as real))
    else b
  }

  /** CheckEastAndWestWalls for one ball. */
  function EastWest(e: Engine, cfg: Config, c: Common, b: Ball): Ball
  {
    if b.center.x < b.radius then
      Moved(b, e.bounceOffFixedPoint(b, Vec2(0.0, b.center.y), cfg.wallElasticity))
    else if b.center.x > b.radius then
      Moved(b, e.bounceOffFixedPoint(b, Vec2(c.screenSizeX, b.center.y), cfg.wallElasticity))
    else b
  }

  function NorthSouthSwept(e: Engine, cfg: Config, c: Common, warp: bool, bs: seq<Ball>): seq<Ball>
  {
    seq(|bs|, i requires 0 <= i < |bs| => NorthSouth(e, cfg, c, warp, bs[i]))
  }

  function EastWestSwept(e: Engine, cfg: Config, c: Common, bs: seq<Ball>): seq<Ball>
  {
    seq(|bs|, i requires 0 <= i < |bs| => EastWest(e, cfg, c, bs[i]))
  }

  /** UpdatePhysics: gravity, ball pairs, bumpers, then the walls (north/south before east/west). */
  function Physics(e: Engine, cfg: Config, c: Common, shapes: seq<Shape>, warp: bool,
                   bs: seq<Ball>, dt: real): seq<Ball>
  {
    var walls := NorthSouthSwept(e, cfg, c, warp, BumperSwept(e, shapes, PairSwept(e, Gravitated(bs, dt))));
    EastWestSwept(e, cfg, c, walls)
  }

  /** k physics steps of dt each. */
  function RunPhysics(k: nat, e: Engine, cfg: Config, c: Common, shapes: seq<Shape>, warp: bool,
                      bs: seq<Ball>, dt: real): seq<Ball>
  {
    if k == 0 then bs else Physics(e, cfg, c, shapes, warp, RunPhysics(k - 1, e, cfg, c, shapes, warp, bs, dt), dt)
  }

  // ---------------------------------------------------------------------
  // Input-driven adjustments, spawning and randomising.

  /** AdjustBallElasticity for one ball: clamp to [0, 1], then G lowers and H raises by 0.05. */
  function AdjustedElasticity(x: real, lower: bool, raise: bool): real
  {
    Clamp(x, 0.0, 1.0) - (if lower then 0.05 else 0.0) + (if raise then 0.05 else 0.0)
  }

  /** Every ball with its elasticity adjusted for this frame's G and H; nothing else changes. */
  function AdjustedBalls(bs: seq<Ball>, f: Frame): (r: seq<Ball>)
    ensures |r| == |bs|
    ensures forall i :: 0 <= i < |r| ==>
              r[i].center == bs[i].center && r[i].velocity == bs[i].velocity && r[i].radius == bs[i].radius &&
              -0.05 <= r[i].elasticity <= 1.05
  {
    seq(|bs|, i requires 0 <= i < |bs| =>
      bs[i].(elasticity := AdjustedElasticity(bs[i].elasticity, WasPressed(f, KeyG), WasPressed(f, KeyH))))
  }

  /** AdjustTimeStep: `]` multiplies by 1.1, otherwise `[` divides by 1.1. */
  function AdjustedTimeStep(ts: real, f: Frame): real
  {
    if WasPressed(f, KeyRightBracket) then ts * 1.1
    else if WasPressed(f, KeyLeftBracket) then ts / 1.1
    else ts
  }

  /** The ball SpawnBalls appends for the ray from start to end and the radius roll t. */
  function SpawnedBall(cfg: Config, start: Vec2, end: Vec2, t: Fraction): (b: Ball)
    ensures cfg.minBallRadius <= cfg.maxBallRadius ==> cfg.minBallRadius <= b.radius <= cfg.maxBallRadius
  {
    Ball(start, RollInRange(cfg.minBallRadius, cfg.maxBallRadius, t), Sub(end, start), DefaultElasticity)
  }

  /** How often a `for (i = 0; i < n; ++i)` loop runs. */
  function Count(n: int): nat
  {
    if n < 0 then 0 else n
  }

  function DiscShape(e: Engine, cfg: Config, c: Common, r: DiscRoll): Shape
  {
    Shape(Vec2(RollInRange(0.0, c.screenSizeX, r.x), RollInRange(0.0, c.screenSizeY, r.y)),
          RollInRange(cfg.fixedDiscMinRadius, cfg.fixedDiscMaxRadius, r.radius),
          Zero2, Zero2, 0.0, e.defaultBox,
          RollInRange(cfg.minElasticity, cfg.maxElasticity, r.elasticity))
  }

  function CapsuleShape(e: Engine, cfg: Config, c: Common, r: CapsuleRoll): Shape
  {
    var center := Vec2(RollInRange(50.0, c.screenSizeX - 50.0, r.x), RollInRange(50.0, c.screenSizeY - 50.0, r.y));
    var halfLength := RollInRange(cfg.minCapsuleLength, cfg.maxCapsuleLength, r.length) * 0.5;
    Shape(Zero2, 0.0,
          Sub(center, Scale(r.direction, halfLength)), Add(center, Scale(r.direction, halfLength)),
          RollInRange(cfg.minCapsuleRadius, cfg.maxCapsuleRadius, r.radius),
          e.defaultBox,
          RollInRange(cfg.minElasticity, cfg.maxElasticity, r.elasticity))
  }

  function BoxShape(e: Engine, cfg: Config, c: Common, r: BoxRoll): Shape
  {
    var hw := RollInRange(cfg.minOBBWidth, cfg.maxOBBWidth, r.halfWidth);
    var hh := RollInRange(cfg.minOBBWidth, cfg.maxOBBWidth, r.halfHeight);
    var center := Vec2(RollInRange(50.0 + hw, c.screenSizeX - 50.0 - hw, r.x),
                       RollInRange(50.0 + hh, c.screenSizeY - 50.0 - hh, r.y));
    Shape(Zero2, 0.0, Zero2, Zero2, 0.0,
          OBB2(center, r.iBasisNormal, Vec2(hw, hh)),
          RollInRange(cfg.minElasticity, cfg.maxElasticity, r.elasticity))
  }

  /** The bumpers RandomizeFixedShapes builds: discs, then capsules, then boxes. */
  function FixedShapes(e: Engine, cfg: Config, c: Common, rolls: ShapeRolls): seq<Shape>
  {
    FixedDiscs(e, cfg, c, rolls) + FixedCapsules(e, cfg, c, rolls) + FixedBoxes(e, cfg, c, rolls)
  }

  function FixedDiscs(e: Engine, cfg: Config, c: Common, rolls: ShapeRolls): seq<Shape>
  {
    seq(Count(cfg.numFixedDiscs), k requires 0 <= k => DiscShape(e, cfg, c, rolls.disc(k)))
  }

  function FixedCapsules(e: Engine, cfg: Config, c: Common, rolls: ShapeRolls): seq<Shape>
  {
    seq(Count(cfg.numFixedCapsules), k requires 0 <= k => CapsuleShape(e, cfg, c, rolls.capsule(k)))
  }

  function FixedBoxes(e: Engine, cfg: Config, c: Common, rolls: ShapeRolls): seq<Shape>
  {
    seq(Count(cfg.numFixedOBB2s), k requires 0 <= k => BoxShape(e, cfg, c, rolls.box(k)))
  }

  // ---------------------------------------------------------------------
  // The demo's state.

  class Game2DPachinko {
    const common: Common
    const cfg: Config
    const engine: Engine
    /** m_rayCastStart and m_rayCastEnd. */
    const ray: RayEditing.RayEditor

    var shapes: seq<Shape>
    var balls: seq<Ball>
    var isBottomWarpOn: bool
    var timeStepAmount: real
    var isFixedTimeStep: bool

    constructor (common: Common, cfg: Config, engine: Engine, rolls: ShapeRolls)
      ensures this.common == common && this.cfg == cfg && this.engine == engine
      ensures ray.start == Vec2(common.screenCenterX, common.screenCenterY) && ray.end == Vec2(900.0, 300.0)
      ensures timeStepAmount == 0.005 && isBottomWarpOn && !isFixedTimeStep
      ensures balls == [] && shapes == FixedShapes(engine, cfg, common, rolls)
    {
      this.common := common;
      this.cfg := cfg;
      this.engine := engine;
      ray := new RayEditing.RayEditor(Vec2(common.screenCenterX, common.screenCenterY), Vec2(900.0, 300.0));
      shapes := [];
      balls := [];
      isBottomWarpOn := true;
      timeStepAmount := 0.005;
      isFixedTimeStep := false;
      new;
      RandomizeFixedShapes(rolls);
    }

    /**
     * One frame. `firings` is how many times the physics timer reports an
     * elapsed period; it matters only in fixed-step mode.
     */
    method Update(f: Frame, deltaSeconds: real, firings: nat, rolls: ShapeRolls, spaceRoll: Fraction, heldRoll: Fraction)
      modifies this, ray
      ensures (ray.start, ray.end) == RayEditing.EditedRay(old(ray.start), old(ray.end), f, false)
      ensures shapes == if WasPressed(f, KeyF8) then FixedShapes(engine, cfg, common, rolls) else old(shapes)
      ensures isBottomWarpOn == (old(isBottomWarpOn) != WasPressed(f, KeyB))
      ensures isFixedTimeStep == (old(isFixedTimeStep) != WasPressed(f, KeyP))
      ensures timeStepAmount == if isFixedTimeStep then AdjustedTimeStep(old(timeStepAmount), f) else old(timeStepAmount)
      ensures var keyed := KeyedBalls(f, old(balls), ray.start, ray.end, spaceRoll, heldRoll);
              balls == if isFixedTimeStep
                       then RunPhysics(firings, engine, cfg, common, shapes, isBottomWarpOn, keyed, timeStepAmount)
                       else RunPhysics(1, engine, cfg, common, shapes, isBottomWarpOn, keyed, deltaSeconds)
    {
      ray.ArrowMovement(f, false);
      HandleKeys(f, rolls, spaceRoll, heldRoll);
      AdvancePhysics(f, deltaSeconds, firings);
    }

    /**
     * The balls after the key handling of Update, before any physics: F8
     * clears them, then every elasticity is adjusted, then new balls are spawned.
     */
    function KeyedBalls(f: Frame, bs: seq<Ball>, start: Vec2, end: Vec2, spaceRoll: Fraction, heldRoll: Fraction): seq<Ball>
      reads this
    {
      AdjustedBalls(if WasPressed(f, KeyF8) then [] else bs, f) + Spawned(f, start, end, spaceRoll, heldRoll)
    }

    /** Update between ArrowMovement and the physics: F8, elasticity, spawning, B and P. */
    method HandleKeys(f: Frame, rolls: ShapeRolls, spaceRoll: Fraction, heldRoll: Fraction)
      modifies this`shapes, this`balls, this`isBottomWarpOn, this`isFixedTimeStep
      ensures shapes == if WasPressed(f, KeyF8) then FixedShapes(engine, cfg, common, rolls) else old(shapes)
      ensures balls == KeyedBalls(f, old(balls), ray.start, ray.end, spaceRoll, heldRoll)
      ensures isBottomWarpOn == (old(isBottomWarpOn) != WasPressed(f, KeyB))
      ensures isFixedTimeStep == (old(isFixedTimeStep) != WasPressed(f, KeyP))
    {
      if WasPressed(f, KeyF8) {
        RandomizeFixedShapes(rolls);
      }
      AdjustBallElasticity(f);
      BallSpawning(f, spaceRoll, heldRoll);
      if WasPressed(f, KeyB) {
        isBottomWarpOn := !isBottomWarpOn;
      }
      if WasPressed(f, KeyP) {
        isFixedTimeStep := !isFixedTimeStep;
      }
    }

    /**
     * The end of Update: in fixed-step mode, adjust the step and run one
     * physics step per timer firing; otherwise run one step of the frame time.
     */
    method AdvancePhysics(f: Frame, deltaSeconds: real, firings: nat)
      modifies this`balls, this`timeStepAmount
      ensures timeStepAmount == if isFixedTimeStep then AdjustedTimeStep(old(timeStepAmount), f) else old(timeStepAmount)
      ensures balls == if isFixedTimeStep
                       then RunPhysics(firings, engine, cfg, common, shapes, isBottomWarpOn, old(balls), timeStepAmount)
                       else RunPhysics(1, engine, cfg, common, shapes, isBottomWarpOn, old(balls), deltaSeconds)
    {
      if isFixedTimeStep {
        AdjustTimeStep(f);
        RunFixedSteps(firings);
      } else {
        UpdatePhysics(deltaSeconds);
      }
    }

    /** The balls BallSpawning appends for the ray from start to end. */
    function Spawned(f: Frame, start: Vec2, end: Vec2, spaceRoll: Fraction, heldRoll: Fraction): (r: seq<Ball>)
      ensures |r| == (if WasPressed(f, KeySpace) then 1 else 0) + (if IsDown(f, KeyN) then 1 else 0)
      ensures forall i :: 0 <= i < |r| ==> r[i].center == start && r[i].velocity == Sub(end, start)
                                            && r[i].elasticity == DefaultElasticity
    {
      (if WasPressed(f, KeySpace) then [SpawnedBall(cfg, start, end, spaceRoll)] else []) +
      (if IsDown(f, KeyN) then [SpawnedBall(cfg, start, end, heldRoll)] else [])
    }

    /** `while (m_physicsTimer->DecrementPeriodIfElapsed()) UpdatePhysics(m_timeStepAmount);` */
    method RunFixedSteps(firings: nat)
      modifies this`balls
      ensures balls == RunPhysics(firings, engine, cfg, common, shapes, isBottomWarpOn, old(balls), timeStepAmount)
    {
      ghost var start := balls;
      var dt, sh, warp := timeStepAmount, shapes, isBottomWarpOn;
      for k := 0 to firings
        invariant balls == RunPhysics(k, engine, cfg, common, sh, warp, start, dt)
      {
        UpdatePhysics(dt);
      }
    }

    method AdjustTimeStep(f: Frame)
      modifies this`timeStepAmount
      ensures timeStepAmount == AdjustedTimeStep(old(timeStepAmount), f)
    {
      if WasPressed(f, KeyRightBracket) {
        timeStepAmount := timeStepAmount * 1.1;
      } else if WasPressed(f, KeyLeftBracket) {
        timeStepAmount := timeStepAmount / 1.1;
      }
    }

    method UpdatePhysics(dt: real)
      modifies this`balls
      ensures balls == Physics(engine, cfg, common, shapes, isBottomWarpOn, old(balls), dt)
    {
      ApplyGravityAndMoveBalls(dt);
      BallsVsBalls();
      BallsVsBumpers();
      BallsVsWalls();
    }

    method ApplyGravityAndMoveBalls(dt: real)
      modifies this`balls
      ensures |balls| == |old(balls)|
      ensures forall i :: 0 <= i < |balls| ==>
                balls[i].velocity == Add(old(balls)[i].velocity, Scale(Gravity, dt)) &&
                balls[i].center == Add(old(balls)[i].center, Scale(balls[i].velocity, dt)) &&
                balls[i].radius == old(balls)[i].radius && balls[i].elasticity == old(balls)[i].elasticity
      ensures balls == Gravitated(old(balls), dt)
    {
      var i := 0;
      while i < |balls|
        invariant 0 <= i <= |balls| && |balls| == |old(balls)|
        invariant forall k :: 0 <= k < i ==> balls[k] == Fallen(old(balls)[k], dt)
        invariant forall k :: i <= k < |balls| ==> balls[k] == old(balls)[k]
      {
        balls := balls[i := balls[i].(velocity := Add(balls[i].velocity, Scale(Gravity, dt)))];
        balls := balls[i := balls[i].(center := Add(balls[i].center, Scale(balls[i].velocity, dt)))];
        i := i + 1;
      }
    }

    method BallsVsBalls()
      modifies this`balls
      ensures balls == PairSwept(engine, old(balls))
    {
      balls := ForEachPair(balls, |balls|, PairStep(engine));
    }

    method BallsVsBumpers()
      modifies this`balls
      ensures balls == BumperSwept(engine, shapes, old(balls))
    {
      balls := ForEachCross(balls, |balls|, |shapes|, BumperAt(engine, shapes));
    }

    method BallsVsWalls()
      modifies this`balls
      ensures balls == EastWestSwept(engine, cfg, common, NorthSouthSwept(engine, cfg, common, isBottomWarpOn, old(balls)))
    {
      CheckNorthAndSouthWalls();
      CheckEastAndWestWalls();
    }

    method CheckEastAndWestWalls()
      modifies this`balls
      ensures balls == EastWestSwept(engine, cfg, common, old(balls))
    {
      var i := 0;
      while i < |balls|
        invariant 0 <= i <= |balls| && |balls| == |old(balls)|
        invariant forall k :: 0 <= k < i ==> balls[k] == EastWest(engine, cfg, common, old(balls)[k])
        invariant forall k :: i <= k < |balls| ==> balls[k] == old(balls)[k]
      {
        var b := balls[i];
        if b.center.x < b.radius {
          balls := balls[i := Moved(b, engine.bounceOffFixedPoint(b, Vec2(0.0, b.center.y), cfg.wallElasticity))];
        } else if b.center.x > b.radius {
          balls := balls[i := Moved(b, engine.bounceOffFixedPoint(b, Vec2(common.screenSizeX, b.center.y), cfg.wallElasticity))];
        }
        i := i + 1;
      }
    }

    method CheckNorthAndSouthWalls()
      modifies this`balls
      ensures balls == NorthSouthSwept(engine, cfg, common, isBottomWarpOn, old(balls))
    {
      var i := 0;
      while i < |balls|
        invariant 0 <= i <= |balls| && |balls| == |old(balls)|
        invariant forall k :: 0 <= k < i ==> balls[k] == NorthSouth(engine, cfg, common, isBottomWarpOn, old(balls)[k])
        invariant forall k :: i <= k < |balls| ==> balls[k] == old(balls)[k]
      {
        var b := balls[i];
        if !isBottomWarpOn && b.center.y < b.radius {
          balls := balls[i := Moved(b, engine.bounceOffFixedPoint(b, Vec2(b.center.x, 0.0), cfg.wallElasticity))];
        } else if isBottomWarpOn && b.center.y < -b.radius {
          balls := balls[i := b.(center := b.center.(y := common.screenSizeY + b.radius + cfg.extraWarpHeight as real))];
        }
        i := i + 1;
      }
    }

    method BallSpawning(f: Frame, spaceRoll: Fraction, heldRoll: Fraction)
      modifies this`balls
      ensures balls == old(balls) + Spawned(f, ray.start, ray.end, spaceRoll, heldRoll)
    {
      if WasPressed(f, KeySpace) {
        SpawnBalls(spaceRoll);
      }
      if IsDown(f, KeyN) {
        SpawnBalls(heldRoll);
      }
    }

    method AdjustBallElasticity(f: Frame)
      modifies this`balls
      ensures balls == AdjustedBalls(old(balls), f)
    {
      var i := 0;
      while i < |balls|
        invariant 0 <= i <= |balls| && |balls| == |old(balls)|
        invariant forall k :: 0 <= k < i ==>
                    balls[k] == old(balls)[k].(elasticity := AdjustedElasticity(old(balls)[k].elasticity, WasPressed(f, KeyG), WasPressed(f, KeyH)))
        invariant forall k :: i <= k < |balls| ==> balls[k] == old(balls)[k]
      {
        balls := balls[i := balls[i].(elasticity := Clamp(balls[i].elasticity, 0.0, 1.0))];
        if WasPressed(f, KeyG) {
          balls := balls[i := balls[i].(elasticity := balls[i].elasticity - 0.05)];
        }
        if WasPressed(f, KeyH) {
          balls := balls[i := balls[i].(elasticity := balls[i].elasticity + 0.05)];
        }
        i := i + 1;
      }
    }

    method SpawnBalls(t: Fraction)
      modifies this`balls
      ensures balls == old(balls) + [SpawnedBall(cfg, ray.start, ray.end, t)]
    {
      var b := Ball(ray.start, RollInRange(cfg.minBallRadius, cfg.maxBallRadius, t), Sub(ray.end, ray.start), DefaultElasticity);
      balls := balls + [b];
    }

    method RandomizeFixedShapes(rolls: ShapeRolls)
      modifies this`shapes, this`balls
      ensures balls == [] && shapes == FixedShapes(engine, cfg, common, rolls)
    {
      ghost var discs := FixedDiscs(engine, cfg, common, rolls);
      ghost var capsules := FixedCapsules(engine, cfg, common, rolls);
      ghost var boxes := FixedBoxes(engine, cfg, common, rolls);
      var made: seq<Shape> := [];
      var i := 0;
      while i < cfg.numFixedDiscs
        invariant 0 <= i <= Count(cfg.numFixedDiscs)
        invariant made == discs[..i]
      {
        made := made + [DiscShape(engine, cfg, common, rolls.disc(i))];
        i := i + 1;
      }
      assert discs[..i] == discs;
      i := 0;
      while i < cfg.numFixedCapsules
        invariant 0 <= i <= Count(cfg.numFixedCapsules)
        invariant made == discs + capsules[..i]
      {
        made := made + [CapsuleShape(engine, cfg, common, rolls.capsule(i))];
        i := i + 1;
      }
      assert capsules[..i] == capsules;
      i := 0;
      while i < cfg.numFixedOBB2s
        invariant 0 <= i <= Count(cfg.numFixedOBB2s)
        invariant made == discs + capsules + boxes[..i]
      {
        made := made + [BoxShape(engine, cfg, common, rolls.box(i))];
        i := i + 1;
      }
      assert boxes[..i] == boxes;
      shapes, balls := made, [];
    }
  }

  // ---------------------------------------------------------------------
  // What the physics step and the adjustments promise.

  /** The ball-pair sweep changes only centres and velocities. */
  lemma PairSweepKeepsDiscs(e: Engine, bs: seq<Ball>)
    ensures SameDiscs(bs, PairSwept(e, bs))
  {
    var inv := (t: seq<Ball>) => SameDiscs(bs, t);
    forall t: seq<Ball>, i: nat, j: nat | inv(t) ensures inv(PairStep(e)(t, i, j)) {
      var r := PairStep(e)(t, i, j);
      if i < |t| && j < |t| {
        var m := e.bounceDiscs(t[i], t[j]);
        assert r == t[i := Moved(t[i], m.0)][j := Moved(t[j], m.1)];
        assert SameDiscs(t, r);
      }
      SameDiscsTransitive(bs, t, r);
    }
    FoldPairsKeeps(bs, Pairs(|bs|), PairStep(e), inv);
  }

  /** The bumper sweep changes only centres and velocities. */
  lemma BumperSweepKeepsDiscs(e: Engine, shapes: seq<Shape>, bs: seq<Ball>)
    ensures SameDiscs(bs, BumperSwept(e, shapes, bs))
  {
    var inv := (t: seq<Ball>) => SameDiscs(bs, t);
    forall t: seq<Ball>, a: nat, k: nat | inv(t) ensures inv(BumperAt(e, shapes)(t, a, k)) {
      SameDiscsTransitive(bs, t, BumperAt(e, shapes)(t, a, k));
    }
    FoldPairsKeeps(bs, Grid(|bs|, |shapes|), BumperAt(e, shapes), inv);
  }

  lemma SameDiscsTransitive(a: seq<Ball>, b: seq<Ball>, c: seq<Ball>)
    requires SameDiscs(a, b) && SameDiscs(b, c)
    ensures SameDiscs(a, c)
  {
  }

  /** A physics step keeps the number of balls and every ball's radius and elasticity. */
  lemma PhysicsKeepsDiscs(e: Engine, cfg: Config, c: Common, shapes: seq<Shape>, warp: bool, bs: seq<Ball>, dt: real)
    ensures SameDiscs(bs, Physics(e, cfg, c, shapes, warp, bs, dt))
  {
    var g := Gravitated(bs, dt);
    var p := PairSwept(e, g);
    var q := BumperSwept(e, shapes, p);
    var n := NorthSouthSwept(e, cfg, c, warp, q);
    PairSweepKeepsDiscs(e, g);
    BumperSweepKeepsDiscs(e, shapes, p);
    SameDiscsTransitive(bs, g, p);
    SameDiscsTransitive(bs, p, q);
    SameDiscsTransitive(bs, q, n);
    SameDiscsTransitive(bs, n, EastWestSwept(e, cfg, c, n));
  }

  /** However many steps the timer fires, no ball is created, lost or resized. */
  lemma {:induction false} RunPhysicsKeepsDiscs(k: nat, e: Engine, cfg: Config, c: Common, shapes: seq<Shape>,
                                                warp: bool, bs: seq<Ball>, dt: real)
    ensures SameDiscs(bs, RunPhysics(k, e, cfg, c, shapes, warp, bs, dt))
  {
    if k > 0 {
      var prev := RunPhysics(k - 1, e, cfg, c, shapes, warp, bs, dt);
      RunPhysicsKeepsDiscs(k - 1, e, cfg, c, shapes, warp, bs, dt);
      PhysicsKeepsDiscs(e, cfg, c, shapes, warp, prev, dt);
      SameDiscsTransitive(bs, prev, RunPhysics(k, e, cfg, c, shapes, warp, bs, dt));
    }
  }

  /** With fewer than two balls the pair sweep calls no bounce routine. */
  lemma NoPairBounceBelowTwoBalls(e: Engine, bs: seq<Ball>)
    requires |bs| < 2
    ensures PairSwept(e, bs) == bs
  {
    PairsEmpty(|bs|);
  }

  /**
   * The pair sweep bounces ball i against ball j exactly when i < j < n, once
   * each, in lexicographic order of (i, j).
   */
  lemma PairSweepVisits(n: nat, i: nat, j: nat)
    ensures (i, j) in Pairs(n) <==> i < j < n
    ensures StrictlyLexSorted(Pairs(n))
  {
    PairsMembers(n, i, j);
    PairsVisitOrder(n);
  }

  /** The bumper sweep takes every ball against every bumper, ball by ball, once each. */
  lemma BumperSweepVisits(balls: nat, shapes: nat, a: nat, k: nat)
    ensures (a, k) in Grid(balls, shapes) <==> a < balls && k < shapes
    ensures StrictlyLexSorted(Grid(balls, shapes))
  {
    GridMembers(balls, shapes, a, k);
    GridVisitOrder(balls, shapes);
  }

  /** Without bumpers the bumper sweep changes nothing. */
  lemma NoBumpersNoBounce(e: Engine, bs: seq<Ball>)
    ensures BumperSwept(e, [], bs) == bs
  {
    GridNoColumns(0, |bs|);
  }

  /**
   * The capsule bounce happens exactly when the ball, where the disc bounce
   * left it, is strictly closer to the capsule's nearest point than the sum of
   * the radii; otherwise the capsule stage leaves the ball as it is.
   */
  lemma CapsuleBounceCondition(e: Engine, b: Ball, s: Shape)
    ensures var d := DiscStage(e, b, s);
            var p := e.nearestOnCapsule(d.center, s.boneStart, s.boneEnd, s.capsuleRadius);
            var sum := b.radius + s.capsuleRadius;
            CapsuleStage(e, d, s) == (if DistSq(d.center, p) < sum * sum
                                      then Moved(d, e.bounceOffFixedPoint(d, p, s.elasticity)) else d)
  {
  }

  /** A ball exactly touching a capsule (distance equal to the radius sum) is not bounced. */
  lemma CapsuleTouchIsNoBounce(e: Engine, b: Ball, s: Shape)
    requires var p := e.nearestOnCapsule(b.center, s.boneStart, s.boneEnd, s.capsuleRadius);
             DistSq(b.center, p) == (b.radius + s.capsuleRadius) * (b.radius + s.capsuleRadius)
    ensures CapsuleStage(e, b, s) == b
  {
  }

  /** A ball whose distance to the box equals its radius is not bounced. */
  lemma BoxTouchIsNoBounce(e: Engine, b: Ball, s: Shape)
    requires DistSq(b.center, e.nearestOnOBB(b.center, s.box)) == b.radius * b.radius
    ensures BoxStage(e, b, s) == b
  {
  }

  /**
   * The east wall is tested against the ball's radius, not against the right
   * edge: every ball right of x = r is handed to the east-wall bounce, and only
   * a ball exactly at x = r is handed to neither wall.
   */
  lemma EastWallTestedAgainstRadius(e: Engine, cfg: Config, c: Common, b: Ball)
    ensures b.center.x > b.radius ==>
              EastWest(e, cfg, c, b) == Moved(b, e.bounceOffFixedPoint(b, Vec2(c.screenSizeX, b.center.y), cfg.wallElasticity))
    ensures b.center.x < b.radius ==>
              EastWest(e, cfg, c, b) == Moved(b, e.bounceOffFixedPoint(b, Vec2(0.0, b.center.y), cfg.wallElasticity))
    ensures b.center.x == b.radius ==> EastWest(e, cfg, c, b) == b
  {
  }

  /**
   * With the bottom warp on no wall bounce happens at the top or bottom: a
   * ball wholly below the screen has only its y moved, to the warp height, and
   * any other ball is left as it is.
   */
  lemma WarpOnlyLiftsFallenBalls(e: Engine, cfg: Config, c: Common, b: Ball)
    ensures var r := NorthSouth(e, cfg, c, true, b);
            if b.center.y < -b.radius
            then r.center.x == b.center.x && r.center.y == c.screenSizeY + b.radius + cfg.extraWarpHeight as real
                 && r.velocity == b.velocity && r.radius == b.radius && r.elasticity == b.elasticity
            else r == b
  {
  }

  /** With the bottom warp off, a ball reaching the floor is bounced off the point below it. */
  lemma FloorBounceWithoutWarp(e: Engine, cfg: Config, c: Common, b: Ball)
    ensures NorthSouth(e, cfg, c, false, b) ==
              if b.center.y < b.radius
              then Moved(b, e.bounceOffFixedPoint(b, Vec2(b.center.x, 0.0), cfg.wallElasticity))
              else b
  {
  }

  /** After AdjustBallElasticity every elasticity lies in [-0.05, 1.05]. */
  lemma AdjustedElasticityBounds(x: real, lower: bool, raise: bool)
    ensures -0.05 <= AdjustedElasticity(x, lower, raise) <= 1.05
    ensures !lower && !raise ==> 0.0 <= AdjustedElasticity(x, lower, raise) <= 1.0
  {
  }

  /** Pressing G and H in one frame leaves the clamped value; so does pressing neither. */
  lemma BothElasticityKeysCancel(x: real)
    ensures AdjustedElasticity(x, true, true) == Clamp(x, 0.0, 1.0)
    ensures AdjustedElasticity(x, false, false) == Clamp(x, 0.0, 1.0)
    ensures 0.0 <= x <= 1.0 ==> AdjustedElasticity(x, true, true) == x
  {
  }

  /**
   * Holding G frame after frame stops at -0.05: the clamp first brings the
   * value back into [0, 1].
   */
  lemma LoweringStopsBelowZero(x: real)
    requires x <= 0.0
    ensures AdjustedElasticity(x, true, false) == -0.05
  {
  }

  /** `]` wins over `[` when both are pressed, and `[` undoes `]`. */
  lemma TimeStepKeys(ts: real, f: Frame, g: Frame)
    requires WasPressed(f, KeyRightBracket)
    requires !WasPressed(g, KeyRightBracket) && WasPressed(g, KeyLeftBracket)
    ensures AdjustedTimeStep(ts, f) == ts * 1.1
    ensures AdjustedTimeStep(AdjustedTimeStep(ts, f), g) == ts
    ensures ts > 0.0 ==> AdjustedTimeStep(ts, g) > 0.0
  {
  }

  /** In fixed-step mode a frame in which the timer does not fire moves no ball. */
  lemma NoFiringNoPhysics(e: Engine, cfg: Config, c: Common, shapes: seq<Shape>, warp: bool, bs: seq<Ball>, dt: real)
    ensures RunPhysics(0, e, cfg, c, shapes, warp, bs, dt) == bs
    ensures RunPhysics(1, e, cfg, c, shapes, warp, bs, dt) == Physics(e, cfg, c, shapes, warp, bs, dt)
  {
  }

  /** RandomizeFixedShapes: exactly the configured numbers of discs, capsules and boxes, in that order. */
  lemma FixedShapesLayout(e: Engine, cfg: Config, c: Common, rolls: ShapeRolls)
    ensures var s := FixedShapes(e, cfg, c, rolls);
            var nd, nc := Count(cfg.numFixedDiscs), Count(cfg.numFixedCapsules);
            |s| == nd + nc + Count(cfg.numFixedOBB2s) &&
            (forall k :: 0 <= k < nd ==> s[k] == DiscShape(e, cfg, c, rolls.disc(k))) &&
            (forall k :: 0 <= k < nc ==> s[nd + k] == CapsuleShape(e, cfg, c, rolls.capsule(k))) &&
            (forall k :: 0 <= k < Count(cfg.numFixedOBB2s) ==> s[nd + nc + k] == BoxShape(e, cfg, c, rolls.box(k)))
  {
    var discs, capsules, boxes := FixedDiscs(e, cfg, c, rolls), FixedCapsules(e, cfg, c, rolls), FixedBoxes(e, cfg, c, rolls);
    ThreeBlocks(discs, capsules, boxes);
    assert forall k :: 0 <= k < |discs| ==> discs[k] == DiscShape(e, cfg, c, rolls.disc(k));
    assert forall k :: 0 <= k < |capsules| ==> capsules[k] == CapsuleShape(e, cfg, c, rolls.capsule(k));
    assert forall k :: 0 <= k < |boxes| ==> boxes[k] == BoxShape(e, cfg, c, rolls.box(k));
  }

  /** Where each of three concatenated blocks sits in the whole. */
  lemma ThreeBlocks<T>(a: seq<T>, b: seq<T>, d: seq<T>)
    ensures |a + b + d| == |a| + |b| + |d|
    ensures forall k :: 0 <= k < |a| ==> (a + b + d)[k] == a[k]
    ensures forall k :: 0 <= k < |b| ==> (a + b + d)[|a| + k] == b[k]
    ensures forall k :: 0 <= k < |d| ==> (a + b + d)[|a| + |b| + k] == d[k]
  {
  }

  /** A rolled disc bumper lies on the screen, with radius and elasticity in their configured ranges. */
  lemma DiscShapeRanges(e: Engine, cfg: Config, c: Common, r: DiscRoll)
    requires 0.0 <= c.screenSizeX && 0.0 <= c.screenSizeY
    requires cfg.fixedDiscMinRadius <= cfg.fixedDiscMaxRadius && cfg.minElasticity <= cfg.maxElasticity
    ensures var s := DiscShape(e, cfg, c, r);
            0.0 <= s.discCenter.x <= c.screenSizeX && 0.0 <= s.discCenter.y <= c.screenSizeY &&
            cfg.fixedDiscMinRadius <= s.discRadius <= cfg.fixedDiscMaxRadius &&
            cfg.minElasticity <= s.elasticity <= cfg.maxElasticity
  {
  }

  /**
   * A rolled capsule's bone runs along its direction for the rolled length and
   * is centred on the rolled centre.
   */
  lemma CapsuleBoneCentred(e: Engine, cfg: Config, c: Common, r: CapsuleRoll)
    ensures var s := CapsuleShape(e, cfg, c, r);
            var length := RollInRange(cfg.minCapsuleLength, cfg.maxCapsuleLength, r.length);
            var center := Vec2(RollInRange(50.0, c.screenSizeX - 50.0, r.x), RollInRange(50.0, c.screenSizeY - 50.0, r.y));
            Sub(s.boneEnd, s.boneStart) == Scale(r.direction, length) &&
            Scale(Add(s.boneStart, s.boneEnd), 0.5) == center
  {
  }

  /** A rolled box keeps a 50-unit margin from the screen edges when the screen is wide enough for it. */
  lemma BoxShapeMargin(e: Engine, cfg: Config, c: Common, r: BoxRoll)
    requires 0.0 <= cfg.minOBBWidth <= cfg.maxOBBWidth
    requires 100.0 + 2.0 * cfg.maxOBBWidth <= c.screenSizeX && 100.0 + 2.0 * cfg.maxOBBWidth <= c.screenSizeY
    ensures var b := BoxShape(e, cfg, c, r).box;
            cfg.minOBBWidth <= b.halfDimensions.x <= cfg.maxOBBWidth &&
            cfg.minOBBWidth <= b.halfDimensions.y <= cfg.maxOBBWidth &&
            50.0 <= b.center.x - b.halfDimensions.x && b.center.x + b.halfDimensions.x <= c.screenSizeX - 50.0 &&
            50.0 <= b.center.y - b.halfDimensions.y && b.center.y + b.halfDimensions.y <= c.screenSizeY - 50.0
  {
  }
}
