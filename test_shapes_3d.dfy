/**
 * The 3D test-shapes demo (Game3DTestShapes): spheres, axis-aligned boxes,
 * Z cylinders, oriented boxes and planes; a ray that grabs the nearest shape
 * it hits, a grabbed shape that follows the camera, the points of the shapes
 * nearest to the camera, and a pulsing colour on shapes that overlap.
 */
module TestShapes3D {
  import opened Geometry
  import opened Input
  import opened Rng
  import opened Selection
  import opened Sweeps

  newtype byte = x: int | 0 <= x < 256

  datatype Rgba8 = Rgba8(r: byte, g: byte, b: byte, a: byte)

  datatype EulerAngles = EulerAngles(yawDegrees: real, pitchDegrees: real, rollDegrees: real)

  const ZeroAngles := EulerAngles(0.0, 0.0, 0.0)

  datatype Sphere = Sphere(center: Vec3, radius: real, color: Rgba8)

  datatype Cylinder = Cylinder(start: Vec3, radius: real, height: real, color: Rgba8)

  datatype AABB3D = AABB3D(mins: Vec3, maxs: Vec3, color: Rgba8)

  datatype OBB3D = OBB3D(center: Vec3, iBasis: Vec3, jBasis: Vec3, kBasis: Vec3,
                         halfDimensions: Vec3, color: Rgba8, orientation: EulerAngles)

  datatype Plane3D = Plane3D(normal: Vec3, distance: real)

  /** The engine's OBB3, built from an OBB3D's geometry. */
  datatype OBB3 = OBB3(center: Vec3, iBasis: Vec3, jBasis: Vec3, kBasis: Vec3, halfDimensions: Vec3)

  function Oriented(o: OBB3D): OBB3
  {
    OBB3(o.center, o.iBasis, o.jBasis, o.kBasis, o.halfDimensions)
  }

  const NumSpheres: nat := 4
  const NumAABB3s: nat := 2
  const NumCylinders: nat := 4
  const NumOBB3s: nat := 3
  const NumPlanes: nat := 1

  datatype RasterizerMode = SolidCullBack | WireframeCullNone

  /** The engine routines the demo calls, as uninterpreted function values. */
  datatype RayKernels = RayKernels(
    vsSphere: (Vec3, Vec3, real, Vec3, real) -> RaycastResult<Vec3>,           // RaycastVsSphere3D
    vsAABB3: (Vec3, Vec3, real, Vec3, Vec3) -> RaycastResult<Vec3>,            // RaycastVsAABB3D
    vsCylinder: (Vec3, Vec3, real, Vec3, real, real) -> RaycastResult<Vec3>,   // RaycastVsCylinder3D
    vsOBB3: (Vec3, Vec3, real, OBB3) -> RaycastResult<Vec3>,                   // RaycastVsOBB3D
    vsPlane: (Vec3, Vec3, real, Plane3D) -> RaycastResult<Vec3>,               // RaycastVsPlane3D
    normalized: Vec3 -> Vec3,                                                  // Vec3::Normalize
    length: Vec3 -> real,                                                      // Vec3::GetLength
    noImpact: RaycastResult<Vec3>)                                             // a default RaycastResult3D

  datatype NearestKernels = NearestKernels(
    onSphere: (Vec3, Vec3, real) -> Vec3,           // GetNearestPointOnSphere3D
    onAABB3: (Vec3, Vec3, Vec3) -> Vec3,            // GetNearestPointOnAABB3D
    onCylinder: (Vec3, Vec3, real, real) -> Vec3,   // GetNearestPointOnCylinderZ3D
    onOBB3: (Vec3, OBB3) -> Vec3,                   // GetNearestPointOnOBB3D
    onPlane: (Vec3, Plane3D) -> Vec3)               // GetNearestPointOnPlane3D

  datatype OverlapKernels = OverlapKernels(
    spheres: (Vec3, real, Vec3, real) -> bool,                  // DoSpheresOverlap
    aabb3s: (Vec3, Vec3, Vec3, Vec3) -> bool,                   // DoAABB3sOverlap
    sphereAABB3: (Vec3, real, Vec3, Vec3) -> bool,              // DoSpheresAndAABBOverlap3D
    cylinders: (Vec3, real, real, Vec3, real, real) -> bool,    // DoZCylindersOverlap3D
    cylinderSphere: (Vec3, real, real, Vec3, real) -> bool,     // DoZCylinderAndSphereOverlap3D
    cylinderAABB3: (Vec3, real, real, Vec3, Vec3) -> bool,      // DoZCylinderAndAABB3Overlap3D
    cylinderOBB3: (Vec3, real, real, OBB3) -> bool,             // DoZCylinderAndOBB3sOverlap3D
    obb3Sphere: (OBB3, Vec3, real) -> bool,                     // DoOBB3sAndSpheresOverlap3D
    obb3Plane: (OBB3, Plane3D) -> bool,                         // DoOBB3sAndPlanesOverlap3D
    planeSphere: (Plane3D, Vec3, real) -> bool,                 // DoPlanesAndSpheresOverlap3D
    planeAABB3: (Plane3D, Vec3, Vec3) -> bool,                  // DoPlanesAndAABB3sOverlap3D
    pulseValue: real -> byte)                                   // |sin(brightness)| clamped, times 255

  datatype Kernels = Kernels(
    ray: RayKernels,
    nearest: NearestKernels,
    overlap: OverlapKernels,
    orientationBasis: EulerAngles -> (Vec3, Vec3, Vec3),   // GetAsMatrix_IFwd_JLeft_KUp, its I, J and K
    lightBlue: Rgba8)                                      // Rgba8::LIGHTBLUE

  // ---------------------------------------------------------------------
  // RandomizeShapes.

  datatype SphereRoll = SphereRoll(x: Fraction, y: Fraction, z: Fraction, radius: Fraction)
  datatype AABB3Roll = AABB3Roll(minX: Fraction, minY: Fraction, minZ: Fraction,
                                 maxX: Fraction, maxY: Fraction, maxZ: Fraction)
  datatype CylinderRoll = CylinderRoll(x: Fraction, y: Fraction, z: Fraction, radius: Fraction, height: Fraction)
  /** The basis vectors are the outcome of the rejection sampling and cross products. */
  datatype OBB3Roll = OBB3Roll(x: Fraction, y: Fraction, z: Fraction,
                               halfX: Fraction, halfY: Fraction, halfZ: Fraction,
                               iBasis: Vec3, jBasis: Vec3, kBasis: Vec3)
  /** The normal is the outcome of the rejection sampling and normalisation. */
  datatype PlaneRoll = PlaneRoll(normal: Vec3, x: Fraction, y: Fraction, z: Fraction)

  datatype ShapeRolls = ShapeRolls(sphere: nat -> SphereRoll, aabb3: nat -> AABB3Roll,
                                   cylinder: nat -> CylinderRoll, obb3: nat -> OBB3Roll,
                                   plane: nat -> PlaneRoll)

  function RandomSphere(c: Rgba8, r: SphereRoll): Sphere
  {
    Sphere(Vec3(RollInRange(0.0, 10.0, r.x), RollInRange(0.0, 10.0, r.y), RollInRange(-10.0, 10.0, r.z)),
           RollInRange(0.3, 2.0, r.radius), c)
  }

  /** The maxima are rolled from 0.2 past the rolled minima. */
  function RandomAABB3(c: Rgba8, r: AABB3Roll): AABB3D
  {
    var mins := Vec3(RollInRange(0.0, 3.0, r.minX), RollInRange(0.0, 3.0, r.minY), RollInRange(-3.0, 3.0, r.minZ));
    var maxs := Vec3(RollInRange(mins.x + 0.2, 5.0, r.maxX), RollInRange(mins.y + 0.2, 4.0, r.maxY),
                     RollInRange(mins.z + 0.2, 4.0, r.maxZ));
    AABB3D(mins, maxs, c)
  }

  function RandomCylinder(c: Rgba8, r: CylinderRoll): Cylinder
  {
    Cylinder(Vec3(RollInRange(-10.0, 10.0, r.x), RollInRange(0.0, 10.0, r.y), RollInRange(-10.0, 10.0, r.z)),
             RollInRange(0.5, 2.0, r.radius), RollInRange(0.5, 3.0, r.height), c)
  }

  function RandomOBB3(c: Rgba8, r: OBB3Roll): OBB3D
  {
    OBB3D(Vec3(RollInRange(-10.0, 10.0, r.x), RollInRange(-10.0, 10.0, r.y), RollInRange(0.0, 10.0, r.z)),
          r.iBasis, r.jBasis, r.kBasis,
          Vec3(RollInRange(0.3, 2.0, r.halfX), RollInRange(0.3, 2.0, r.halfY), RollInRange(0.3, 2.0, r.halfZ)),
          c, ZeroAngles)
  }

  /** The rolled point the plane is made to pass through. */
  function PlanePoint(r: PlaneRoll): Vec3
  {
    Vec3(RollInRange(-10.0, 10.0, r.x), RollInRange(-10.0, 10.0, r.y), RollInRange(0.0, 10.0, r.z))
  }

  function RandomPlane(r: PlaneRoll): Plane3D
  {
    Plane3D(r.normal, Dot3(r.normal, PlanePoint(r)))
  }

  function RandomSpheres(c: Rgba8, rolls: nat -> SphereRoll): (r: seq<Sphere>)
    ensures |r| == NumSpheres
  {
    seq(NumSpheres, i requires 0 <= i => RandomSphere(c, rolls(i)))
  }

  function RandomAABB3s(c: Rgba8, rolls: nat -> AABB3Roll): (r: seq<AABB3D>)
    ensures |r| == NumAABB3s
  {
    seq(NumAABB3s, i requires 0 <= i => RandomAABB3(c, rolls(i)))
  }

  function RandomCylinders(c: Rgba8, rolls: nat -> CylinderRoll): (r: seq<Cylinder>)
    ensures |r| == NumCylinders
  {
    seq(NumCylinders, i requires 0 <= i => RandomCylinder(c, rolls(i)))
  }

  function RandomOBB3s(c: Rgba8, rolls: nat -> OBB3Roll): (r: seq<OBB3D>)
    ensures |r| == NumOBB3s
  {
    seq(NumOBB3s, i requires 0 <= i => RandomOBB3(c, rolls(i)))
  }

  function RandomPlanes(rolls: nat -> PlaneRoll): (r: seq<Plane3D>)
    ensures |r| == NumPlanes
  {
    seq(NumPlanes, i requires 0 <= i => RandomPlane(rolls(i)))
  }

  /** The shapes p after a frame's F8 check: rerolled when F8 was pressed. */
  function Rerolled(f: Frame, c: Rgba8, rolls: ShapeRolls, p: Painted): Painted
  {
    if WasPressed(f, KeyF8) then RandomShapes(c, rolls) else p
  }

  /** The four shape containers F8 rolls, as one value. */
  function RandomShapes(c: Rgba8, rolls: ShapeRolls): Painted
  {
    Painted(RandomSpheres(c, rolls.sphere), RandomAABB3s(c, rolls.aabb3), RandomCylinders(c, rolls.cylinder),
            RandomOBB3s(c, rolls.obb3))
  }

  /** Every rolled box is at least 0.2 deep on each axis and lies inside [0,5]x[0,4]x[-3,4]. */
  lemma RandomAABB3Extents(c: Rgba8, r: AABB3Roll)
    ensures var b := RandomAABB3(c, r);
            b.maxs.x >= b.mins.x + 0.2 && b.maxs.y >= b.mins.y + 0.2 && b.maxs.z >= b.mins.z + 0.2 &&
            0.0 <= b.mins.x && 0.0 <= b.mins.y && -3.0 <= b.mins.z &&
            b.maxs.x <= 5.0 && b.maxs.y <= 4.0 && b.maxs.z <= 4.0
  {
  }

  /**
   * Every rolled plane passes through its rolled point in the spawn box and
   * keeps its rolled normal: the point's projection on the normal is the
   * plane's distance.
   */
  lemma RandomPlaneThroughPoint(r: PlaneRoll)
    ensures var p := RandomPlane(r);
            var q := PlanePoint(r);
            p.normal == r.normal && Dot3(p.normal, q) == p.distance &&
            -10.0 <= q.x <= 10.0 && -10.0 <= q.y <= 10.0 && 0.0 <= q.z <= 10.0
  {
  }

  /** The rolled spheres, cylinders and oriented boxes have the size ranges of RandomizeShapes. */
  lemma RandomSizes(c: Rgba8, s: SphereRoll, y: CylinderRoll, o: OBB3Roll)
    ensures 0.3 <= RandomSphere(c, s).radius <= 2.0
    ensures 0.5 <= RandomCylinder(c, y).radius <= 2.0 && 0.5 <= RandomCylinder(c, y).height <= 3.0
    ensures var h := RandomOBB3(c, o).halfDimensions;
            0.3 <= h.x <= 2.0 && 0.3 <= h.y <= 2.0 && 0.3 <= h.z <= 2.0
    ensures RandomOBB3(c, o).orientation == ZeroAngles
  {
  }

  // ---------------------------------------------------------------------
  // The grab scan and DrawRaycast: which container holds the nearest hit.

  datatype ShapeKind = SphereKind | AABB3Kind | CylinderKind | OBB3Kind | PlaneKind

  /**
   * The kind of the nearest hit is the last kind whose flag a scan raised:
   * a later container raises its flag only when one of its hits replaces
   * the running nearest.
   */
  function LastKind(sphere: bool, aabb3: bool, cylinder: bool, obb3: bool, plane: bool): ShapeKind
  {
    if plane then PlaneKind
    else if obb3 then OBB3Kind
    else if cylinder then CylinderKind
    else if aabb3 then AABB3Kind
    else SphereKind
  }

  // ---------------------------------------------------------------------
  // Moving the grabbed shape.

  /** Where the grabbed shape is held: 1.5 times twice the forward normal ahead of the camera. */
  function GrabTarget(position: Vec3, forward: Vec3): Vec3
  {
    Add3(position, Scale3(Scale3(forward, 2.0), 1.5))
  }

  /** AABB3::GetCenter, the midpoint of the box. */
  function Center(b: AABB3D): Vec3
  {
    Scale3(Add3(b.mins, b.maxs), 0.5)
  }

  function MovedAABB3(b: AABB3D, target: Vec3): AABB3D
  {
    var offset := Sub3(target, Center(b));
    b.(mins := Add3(b.mins, offset), maxs := Add3(b.maxs, offset))
  }

  /** +10 degrees for the first key and -10 for the second, when just pressed. */
  function TurnStep(f: Frame, plus: Key, minus: Key): real
  {
    (if WasPressed(f, plus) then 10.0 else 0.0) - (if WasPressed(f, minus) then 10.0 else 0.0)
  }

  /** O/I turn the yaw, K/J the pitch and M/N the roll. */
  function Turned(e: EulerAngles, f: Frame): EulerAngles
  {
    EulerAngles(e.yawDegrees + TurnStep(f, KeyO, KeyI), e.pitchDegrees + TurnStep(f, KeyK, KeyJ),
                e.rollDegrees + TurnStep(f, KeyM, KeyN))
  }

  /**
   * The grabbed OBB3D: centred on the target, its basis taken from the
   * orientation it had before this frame's turn keys, then turned.
   */
  function MovedOBB3(basis: EulerAngles -> (Vec3, Vec3, Vec3), o: OBB3D, target: Vec3, f: Frame): OBB3D
  {
    var ijk := basis(o.orientation);
    o.(center := target, iBasis := ijk.0, jBasis := ijk.1, kBasis := ijk.2, orientation := Turned(o.orientation, f))
  }

  /**
   * Moving a grabbed box adds one offset to both corners: its extents and
   * colour are kept and its midpoint lands on the target.
   */
  lemma MovedAABB3KeepsExtents(b: AABB3D, target: Vec3)
    ensures var m := MovedAABB3(b, target);
            Sub3(m.maxs, m.mins) == Sub3(b.maxs, b.mins) && Center(m) == target && m.color == b.color
  {
  }

  /** Each pair of turn keys cancels, and without turn keys the orientation is kept. */
  lemma TurnKeys(e: EulerAngles, f: Frame)
    ensures WasPressed(f, KeyO) == WasPressed(f, KeyI) ==> Turned(e, f).yawDegrees == e.yawDegrees
    ensures WasPressed(f, KeyK) == WasPressed(f, KeyJ) ==> Turned(e, f).pitchDegrees == e.pitchDegrees
    ensures WasPressed(f, KeyM) == WasPressed(f, KeyN) ==> Turned(e, f).rollDegrees == e.rollDegrees
    ensures WasPressed(f, KeyO) && !WasPressed(f, KeyI) ==> Turned(e, f).yawDegrees == e.yawDegrees + 10.0
  {
  }

  /**
   * The OBB3D branch of the grab-move block: centre, basis from the current
   * orientation, then the six turn keys one after another.
   */
  method TurnOBB3(basis: EulerAngles -> (Vec3, Vec3, Vec3), o: OBB3D, target: Vec3, f: Frame)
    returns (moved: OBB3D)
    ensures moved == MovedOBB3(basis, o, target, f)
  {
    moved := o.(center := target);
    var ijk := basis(moved.orientation);
    moved := moved.(iBasis := ijk.0, jBasis := ijk.1, kBasis := ijk.2);
    var e := moved.orientation;
    if WasPressed(f, KeyO) { e := e.(yawDegrees := e.yawDegrees + 10.0); }
    if WasPressed(f, KeyI) { e := e.(yawDegrees := e.yawDegrees - 10.0); }
    if WasPressed(f, KeyK) { e := e.(pitchDegrees := e.pitchDegrees + 10.0); }
    if WasPressed(f, KeyJ) { e := e.(pitchDegrees := e.pitchDegrees - 10.0); }
    if WasPressed(f, KeyM) { e := e.(rollDegrees := e.rollDegrees + 10.0); }
    if WasPressed(f, KeyN) { e := e.(rollDegrees := e.rollDegrees - 10.0); }
    moved := moved.(orientation := e);
  }

  /** One branch of the grab-move block: the grabbed sphere is centred on the target. */
  method MoveSphere(ss: seq<Sphere>, i: nat, flag: bool, target: Vec3) returns (r: seq<Sphere>)
    ensures r == if flag && i < |ss| then ss[i := ss[i].(center := target)] else ss
  {
    r := ss;
    if i < |r| && flag {
      r := r[i := r[i].(center := target)];
    }
  }

  /** The grabbed box is shifted so that its midpoint lands on the target. */
  method MoveAABB3(bs: seq<AABB3D>, i: nat, flag: bool, target: Vec3) returns (r: seq<AABB3D>)
    ensures r == if flag && i < |bs| then bs[i := MovedAABB3(bs[i], target)] else bs
  {
    r := bs;
    if i < |r| && flag {
      var offset := Sub3(target, Scale3(Add3(r[i].mins, r[i].maxs), 0.5));
      r := r[i := r[i].(mins := Add3(r[i].mins, offset))];
      r := r[i := r[i].(maxs := Add3(r[i].maxs, offset))];
    }
  }

  /** The grabbed cylinder's base is put on the target. */
  method MoveCylinder(cs: seq<Cylinder>, i: nat, flag: bool, target: Vec3) returns (r: seq<Cylinder>)
    ensures r == if flag && i < |cs| then cs[i := cs[i].(start := target)] else cs
  {
    r := cs;
    if i < |r| && flag {
      r := r[i := r[i].(start := target)];
    }
  }

  /** The grabbed oriented box is centred on the target and turned by this frame's keys. */
  method MoveOBB3(os: seq<OBB3D>, i: nat, flag: bool, basis: EulerAngles -> (Vec3, Vec3, Vec3), target: Vec3, f: Frame)
    returns (r: seq<OBB3D>)
    ensures r == if flag && i < |os| then os[i := MovedOBB3(basis, os[i], target, f)] else os
  {
    r := os;
    if i < |r| && flag {
      var o := TurnOBB3(basis, r[i], target, f);
      r := r[i := o];
    }
  }

  // ---------------------------------------------------------------------
  // ShapevsShapeOverlap: the shapes whose colours the sweeps may change.

  datatype Painted = Painted(spheres: seq<Sphere>, aabb3s: seq<AABB3D>, cylinders: seq<Cylinder>, obb3s: seq<OBB3D>)

  /** Rgba8(v, v, v, 255). */
  function PulseColour(v: byte): Rgba8
  {
    Rgba8(v, v, v, 255)
  }

  function PaintSphere(p: Painted, i: nat, c: Rgba8): Painted
  {
    if i < |p.spheres| then p.(spheres := p.spheres[i := p.spheres[i].(color := c)]) else p
  }

  function PaintAABB3(p: Painted, i: nat, c: Rgba8): Painted
  {
    if i < |p.aabb3s| then p.(aabb3s := p.aabb3s[i := p.aabb3s[i].(color := c)]) else p
  }

  function PaintCylinder(p: Painted, i: nat, c: Rgba8): Painted
  {
    if i < |p.cylinders| then p.(cylinders := p.cylinders[i := p.cylinders[i].(color := c)]) else p
  }

  function PaintOBB3(p: Painted, i: nat, c: Rgba8): Painted
  {
    if i < |p.obb3s| then p.(obb3s := p.obb3s[i := p.obb3s[i].(color := c)]) else p
  }

  function SphereVsSphere(k: OverlapKernels, c: Rgba8): (Painted, nat, nat) -> Painted
  {
    (p: Painted, a: nat, b: nat) =>
      if a < |p.spheres| && b < |p.spheres| &&
         k.spheres(p.spheres[a].center, p.spheres[a].radius, p.spheres[b].center, p.spheres[b].radius)
      then PaintSphere(PaintSphere(p, a, c), b, c) else p
  }

  function AABB3VsAABB3(k: OverlapKernels, c: Rgba8): (Painted, nat, nat) -> Painted
  {
    (p: Painted, a: nat, b: nat) =>
      if a < |p.aabb3s| && b < |p.aabb3s| &&
         k.aabb3s(p.aabb3s[a].mins, p.aabb3s[a].maxs, p.aabb3s[b].mins, p.aabb3s[b].maxs)
      then PaintAABB3(PaintAABB3(p, a, c), b, c) else p
  }

  function SphereVsAABB3(k: OverlapKernels, c: Rgba8): (Painted, nat, nat) -> Painted
  {
    (p: Painted, a: nat, b: nat) =>
      if a < |p.spheres| && b < |p.aabb3s| &&
         k.sphereAABB3(p.spheres[a].center, p.spheres[a].radius, p.aabb3s[b].mins, p.aabb3s[b].maxs)
      then PaintSphere(PaintAABB3(p, b, c), a, c) else p
  }

  function CylinderVsCylinder(k: OverlapKernels, c: Rgba8): (Painted, nat, nat) -> Painted
  {
    (p: Painted, a: nat, b: nat) =>
      if a < |p.cylinders| && b < |p.cylinders| &&
         k.cylinders(p.cylinders[a].start, p.cylinders[a].radius, p.cylinders[a].height,
                     p.cylinders[b].start, p.cylinders[b].radius, p.cylinders[b].height)
      then PaintCylinder(PaintCylinder(p, a, c), b, c) else p
  }

  function CylinderVsSphere(k: OverlapKernels, c: Rgba8): (Painted, nat, nat) -> Painted
  {
    (p: Painted, a: nat, b: nat) =>
      if a < |p.cylinders| && b < |p.spheres| &&
         k.cylinderSphere(p.cylinders[a].start, p.cylinders[a].radius, p.cylinders[a].height,
                          p.spheres[b].center, p.spheres[b].radius)
      then PaintSphere(PaintCylinder(p, a, c), b, c) else p
  }

  function CylinderVsAABB3(k: OverlapKernels, c: Rgba8): (Painted, nat, nat) -> Painted
  {
    (p: Painted, a: nat, b: nat) =>
      if a < |p.cylinders| && b < |p.aabb3s| &&
         k.cylinderAABB3(p.cylinders[a].start, p.cylinders[a].radius, p.cylinders[a].height,
                         p.aabb3s[b].mins, p.aabb3s[b].maxs)
      then PaintAABB3(PaintCylinder(p, a, c), b, c) else p
  }

  function CylinderVsOBB3(k: OverlapKernels, c: Rgba8): (Painted, nat, nat) -> Painted
  {
    (p: Painted, a: nat, b: nat) =>
      if a < |p.cylinders| && b < |p.obb3s| &&
         k.cylinderOBB3(p.cylinders[a].start, p.cylinders[a].radius, p.cylinders[a].height, Oriented(p.obb3s[b]))
      then PaintOBB3(PaintCylinder(p, a, c), b, c) else p
  }

  function OBB3VsSphere(k: OverlapKernels, c: Rgba8): (Painted, nat, nat) -> Painted
  {
    (p: Painted, a: nat, b: nat) =>
      if a < |p.obb3s| && b < |p.spheres| &&
         k.obb3Sphere(Oriented(p.obb3s[a]), p.spheres[b].center, p.spheres[b].radius)
      then PaintSphere(PaintOBB3(p, a, c), b, c) else p
  }

  /** Only the oriented box is painted: planes have no colour. */
  function OBB3VsPlane(k: OverlapKernels, planes: seq<Plane3D>, c: Rgba8): (Painted, nat, nat) -> Painted
  {
    (p: Painted, a: nat, b: nat) =>
      if a < |p.obb3s| && b < |planes| && k.obb3Plane(Oriented(p.obb3s[a]), planes[b])
      then PaintOBB3(p, a, c) else p
  }

  function SphereVsPlane(k: OverlapKernels, planes: seq<Plane3D>, c: Rgba8): (Painted, nat, nat) -> Painted
  {
    (p: Painted, a: nat, b: nat) =>
      if a < |p.spheres| && b < |planes| && k.planeSphere(planes[b], p.spheres[a].center, p.spheres[a].radius)
      then PaintSphere(p, a, c) else p
  }

  function AABB3VsPlane(k: OverlapKernels, planes: seq<Plane3D>, c: Rgba8): (Painted, nat, nat) -> Painted
  {
    (p: Painted, a: nat, b: nat) =>
      if a < |p.aabb3s| && b < |planes| && k.planeAABB3(planes[b], p.aabb3s[a].mins, p.aabb3s[a].maxs)
      then PaintAABB3(p, a, c) else p
  }

  /** The sizes the sweeps use: those of the containers when the overlap check starts. */
  datatype Sizes = Sizes(spheres: nat, aabb3s: nat, cylinders: nat, obb3s: nat, planes: nat)

  /** Sweeps one to three: spheres with spheres, boxes with boxes, spheres with boxes. */
  function SphereAndBoxSweeps(k: OverlapKernels, c: Rgba8, n: Sizes, p: Painted): Painted
  {
    var p1 := FoldPairs(p, Pairs(n.spheres), SphereVsSphere(k, c));
    var p2 := FoldPairs(p1, Pairs(n.aabb3s), AABB3VsAABB3(k, c));
    FoldPairs(p2, Grid(n.spheres, n.aabb3s), SphereVsAABB3(k, c))
  }

  /** Sweeps four to seven: cylinders with cylinders, spheres, boxes and oriented boxes. */
  function CylinderSweeps(k: OverlapKernels, c: Rgba8, n: Sizes, p: Painted): Painted
  {
    var p4 := FoldPairs(p, Pairs(n.cylinders), CylinderVsCylinder(k, c));
    var p5 := FoldPairs(p4, Grid(n.cylinders, n.spheres), CylinderVsSphere(k, c));
    var p6 := FoldPairs(p5, Grid(n.cylinders, n.aabb3s), CylinderVsAABB3(k, c));
    FoldPairs(p6, Grid(n.cylinders, n.obb3s), CylinderVsOBB3(k, c))
  }

  /** Sweeps eight to eleven: oriented boxes with spheres, then the plane checks. */
  function OBB3AndPlaneSweeps(k: OverlapKernels, planes: seq<Plane3D>, c: Rgba8, n: Sizes, p: Painted): Painted
  {
    var p8 := FoldPairs(p, Grid(n.obb3s, n.spheres), OBB3VsSphere(k, c));
    var p9 := FoldPairs(p8, Grid(n.obb3s, n.planes), OBB3VsPlane(k, planes, c));
    var p10 := FoldPairs(p9, Grid(n.spheres, n.planes), SphereVsPlane(k, planes, c));
    FoldPairs(p10, Grid(n.aabb3s, n.planes), AABB3VsPlane(k, planes, c))
  }

  /**
   * The eleven sweeps of ShapevsShapeOverlap in source order: same-kind
   * checks over the unordered pairs, cross-kind checks over every pair.
   */
  function Overlapped(k: OverlapKernels, planes: seq<Plane3D>, c: Rgba8, p: Painted): Painted
  {
    var n := Sizes(|p.spheres|, |p.aabb3s|, |p.cylinders|, |p.obb3s|, |planes|);
    OBB3AndPlaneSweeps(k, planes, c, n, CylinderSweeps(k, c, n, SphereAndBoxSweeps(k, c, n, p)))
  }

  /**
   * b differs from a at most in colours, and every colour that changed is c:
   * the same number of shapes of each kind, each with its geometry kept.
   */
  ghost predicate Repainted(a: Painted, b: Painted, c: Rgba8)
  {
    |b.spheres| == |a.spheres| && |b.aabb3s| == |a.aabb3s| &&
    |b.cylinders| == |a.cylinders| && |b.obb3s| == |a.obb3s| &&
    (forall i :: 0 <= i < |a.spheres| ==>
       b.spheres[i] == a.spheres[i].(color := b.spheres[i].color) &&
       (b.spheres[i].color == a.spheres[i].color || b.spheres[i].color == c)) &&
    (forall i :: 0 <= i < |a.aabb3s| ==>
       b.aabb3s[i] == a.aabb3s[i].(color := b.aabb3s[i].color) &&
       (b.aabb3s[i].color == a.aabb3s[i].color || b.aabb3s[i].color == c)) &&
    (forall i :: 0 <= i < |a.cylinders| ==>
       b.cylinders[i] == a.cylinders[i].(color := b.cylinders[i].color) &&
       (b.cylinders[i].color == a.cylinders[i].color || b.cylinders[i].color == c)) &&
    (forall i :: 0 <= i < |a.obb3s| ==>
       b.obb3s[i] == a.obb3s[i].(color := b.obb3s[i].color) &&
       (b.obb3s[i].color == a.obb3s[i].color || b.obb3s[i].color == c))
  }

  lemma RepaintedTransitive(a: Painted, b: Painted, d: Painted, c: Rgba8)
    requires Repainted(a, b, c) && Repainted(b, d, c)
    ensures Repainted(a, d, c)
  {
  }

  /** Painting one shape with c repaints. */
  lemma PaintSphereRepaints(p: Painted, i: nat, c: Rgba8)
    ensures Repainted(p, PaintSphere(p, i, c), c)
  {
  }

  lemma PaintAABB3Repaints(p: Painted, i: nat, c: Rgba8)
    ensures Repainted(p, PaintAABB3(p, i, c), c)
  {
  }

  lemma PaintCylinderRepaints(p: Painted, i: nat, c: Rgba8)
    ensures Repainted(p, PaintCylinder(p, i, c), c)
  {
  }

  lemma PaintOBB3Repaints(p: Painted, i: nat, c: Rgba8)
    ensures Repainted(p, PaintOBB3(p, i, c), c)
  {
  }

  /** A sweep whose every visit repaints with c repaints with c as a whole. */
  lemma SweepRepaints(p: Painted, ps: seq<IndexPair>, step: (Painted, nat, nat) -> Painted, c: Rgba8)
    requires forall t: Painted, i: nat, j: nat :: Repainted(t, step(t, i, j), c)
    ensures Repainted(p, FoldPairs(p, ps, step), c)
  {
    var inv := (t: Painted) => Repainted(p, t, c);
    forall t: Painted, i: nat, j: nat | inv(t) ensures inv(step(t, i, j)) {
      RepaintedTransitive(p, t, step(t, i, j), c);
    }
    FoldPairsKeeps(p, ps, step, inv);
  }

  lemma SphereVsSphereRepaints(k: OverlapKernels, c: Rgba8)
    ensures forall t: Painted, i: nat, j: nat :: Repainted(t, SphereVsSphere(k, c)(t, i, j), c)
  {
    forall t: Painted, i: nat, j: nat
      ensures Repainted(t, SphereVsSphere(k, c)(t, i, j), c)
    {
      PaintSphereRepaints(t, i, c);
      PaintSphereRepaints(PaintSphere(t, i, c), j, c);
      RepaintedTransitive(t, PaintSphere(t, i, c), PaintSphere(PaintSphere(t, i, c), j, c), c);
    }
  }

  lemma AABB3VsAABB3Repaints(k: OverlapKernels, c: Rgba8)
    ensures forall t: Painted, i: nat, j: nat :: Repainted(t, AABB3VsAABB3(k, c)(t, i, j), c)
  {
    forall t: Painted, i: nat, j: nat
      ensures Repainted(t, AABB3VsAABB3(k, c)(t, i, j), c)
    {
      PaintAABB3Repaints(t, i, c);
      PaintAABB3Repaints(PaintAABB3(t, i, c), j, c);
      RepaintedTransitive(t, PaintAABB3(t, i, c), PaintAABB3(PaintAABB3(t, i, c), j, c), c);
    }
  }

  lemma SphereVsAABB3Repaints(k: OverlapKernels, c: Rgba8)
    ensures forall t: Painted, i: nat, j: nat :: Repainted(t, SphereVsAABB3(k, c)(t, i, j), c)
  {
    forall t: Painted, i: nat, j: nat
      ensures Repainted(t, SphereVsAABB3(k, c)(t, i, j), c)
    {
      PaintAABB3Repaints(t, j, c);
      PaintSphereRepaints(PaintAABB3(t, j, c), i, c);
      RepaintedTransitive(t, PaintAABB3(t, j, c), PaintSphere(PaintAABB3(t, j, c), i, c), c);
    }
  }

  lemma CylinderVsCylinderRepaints(k: OverlapKernels, c: Rgba8)
    ensures forall t: Painted, i: nat, j: nat :: Repainted(t, CylinderVsCylinder(k, c)(t, i, j), c)
  {
    forall t: Painted, i: nat, j: nat
      ensures Repainted(t, CylinderVsCylinder(k, c)(t, i, j), c)
    {
      PaintCylinderRepaints(t, i, c);
      PaintCylinderRepaints(PaintCylinder(t, i, c), j, c);
      RepaintedTransitive(t, PaintCylinder(t, i, c), PaintCylinder(PaintCylinder(t, i, c), j, c), c);
    }
  }

  lemma CylinderVsSphereRepaints(k: OverlapKernels, c: Rgba8)
    ensures forall t: Painted, i: nat, j: nat :: Repainted(t, CylinderVsSphere(k, c)(t, i, j), c)
  {
    forall t: Painted, i: nat, j: nat
      ensures Repainted(t, CylinderVsSphere(k, c)(t, i, j), c)
    {
      PaintCylinderRepaints(t, i, c);
      PaintSphereRepaints(PaintCylinder(t, i, c), j, c);
      RepaintedTransitive(t, PaintCylinder(t, i, c), PaintSphere(PaintCylinder(t, i, c), j, c), c);
    }
  }

  lemma CylinderVsAABB3Repaints(k: OverlapKernels, c: Rgba8)
    ensures forall t: Painted, i: nat, j: nat :: Repainted(t, CylinderVsAABB3(k, c)(t, i, j), c)
  {
    forall t: Painted, i: nat, j: nat
      ensures Repainted(t, CylinderVsAABB3(k, c)(t, i, j), c)
    {
      PaintCylinderRepaints(t, i, c);
      PaintAABB3Repaints(PaintCylinder(t, i, c), j, c);
      RepaintedTransitive(t, PaintCylinder(t, i, c), PaintAABB3(PaintCylinder(t, i, c), j, c), c);
    }
  }

  lemma CylinderVsOBB3Repaints(k: OverlapKernels, c: Rgba8)
    ensures forall t: Painted, i: nat, j: nat :: Repainted(t, CylinderVsOBB3(k, c)(t, i, j), c)
  {
    forall t: Painted, i: nat, j: nat
      ensures Repainted(t, CylinderVsOBB3(k, c)(t, i, j), c)
    {
      PaintCylinderRepaints(t, i, c);
      PaintOBB3Repaints(PaintCylinder(t, i, c), j, c);
      RepaintedTransitive(t, PaintCylinder(t, i, c), PaintOBB3(PaintCylinder(t, i, c), j, c), c);
    }
  }

  lemma OBB3VsSphereRepaints(k: OverlapKernels, c: Rgba8)
    ensures forall t: Painted, i: nat, j: nat :: Repainted(t, OBB3VsSphere(k, c)(t, i, j), c)
  {
    forall t: Painted, i: nat, j: nat
      ensures Repainted(t, OBB3VsSphere(k, c)(t, i, j), c)
    {
      PaintOBB3Repaints(t, i, c);
      PaintSphereRepaints(PaintOBB3(t, i, c), j, c);
      RepaintedTransitive(t, PaintOBB3(t, i, c), PaintSphere(PaintOBB3(t, i, c), j, c), c);
    }
  }

  lemma OBB3VsPlaneRepaints(k: OverlapKernels, planes: seq<Plane3D>, c: Rgba8)
    ensures forall t: Painted, i: nat, j: nat :: Repainted(t, OBB3VsPlane(k, planes, c)(t, i, j), c)
  {
    forall t: Painted, i: nat, j: nat
      ensures Repainted(t, OBB3VsPlane(k, planes, c)(t, i, j), c)
    {
      PaintOBB3Repaints(t, i, c);
    }
  }

  lemma SphereVsPlaneRepaints(k: OverlapKernels, planes: seq<Plane3D>, c: Rgba8)
    ensures forall t: Painted, i: nat, j: nat :: Repainted(t, SphereVsPlane(k, planes, c)(t, i, j), c)
  {
    forall t: Painted, i: nat, j: nat
      ensures Repainted(t, SphereVsPlane(k, planes, c)(t, i, j), c)
    {
      PaintSphereRepaints(t, i, c);
    }
  }

  lemma AABB3VsPlaneRepaints(k: OverlapKernels, planes: seq<Plane3D>, c: Rgba8)
    ensures forall t: Painted, i: nat, j: nat :: Repainted(t, AABB3VsPlane(k, planes, c)(t, i, j), c)
  {
    forall t: Painted, i: nat, j: nat
      ensures Repainted(t, AABB3VsPlane(k, planes, c)(t, i, j), c)
    {
      PaintAABB3Repaints(t, i, c);
    }
  }

  lemma SphereAndBoxSweepsRepaint(k: OverlapKernels, c: Rgba8, n: Sizes, p: Painted)
    ensures Repainted(p, SphereAndBoxSweeps(k, c, n, p), c)
  {
    var p1 := FoldPairs(p, Pairs(n.spheres), SphereVsSphere(k, c));
    SphereVsSphereRepaints(k, c);
    SweepRepaints(p, Pairs(n.spheres), SphereVsSphere(k, c), c);
    var p2 := FoldPairs(p1, Pairs(n.aabb3s), AABB3VsAABB3(k, c));
    AABB3VsAABB3Repaints(k, c);
    SweepRepaints(p1, Pairs(n.aabb3s), AABB3VsAABB3(k, c), c);
    SphereVsAABB3Repaints(k, c);
    SweepRepaints(p2, Grid(n.spheres, n.aabb3s), SphereVsAABB3(k, c), c);
    RepaintedTransitive(p, p1, p2, c);
    RepaintedTransitive(p, p2, SphereAndBoxSweeps(k, c, n, p), c);
  }

  lemma CylinderSweepsRepaint(k: OverlapKernels, c: Rgba8, n: Sizes, p: Painted)
    ensures Repainted(p, CylinderSweeps(k, c, n, p), c)
  {
    var p4 := FoldPairs(p, Pairs(n.cylinders), CylinderVsCylinder(k, c));
    CylinderVsCylinderRepaints(k, c);
    SweepRepaints(p, Pairs(n.cylinders), CylinderVsCylinder(k, c), c);
    var p5 := FoldPairs(p4, Grid(n.cylinders, n.spheres), CylinderVsSphere(k, c));
    CylinderVsSphereRepaints(k, c);
    SweepRepaints(p4, Grid(n.cylinders, n.spheres), CylinderVsSphere(k, c), c);
    var p6 := FoldPairs(p5, Grid(n.cylinders, n.aabb3s), CylinderVsAABB3(k, c));
    CylinderVsAABB3Repaints(k, c);
    SweepRepaints(p5, Grid(n.cylinders, n.aabb3s), CylinderVsAABB3(k, c), c);
    CylinderVsOBB3Repaints(k, c);
    SweepRepaints(p6, Grid(n.cylinders, n.obb3s), CylinderVsOBB3(k, c), c);
    RepaintedTransitive(p, p4, p5, c);
    RepaintedTransitive(p, p5, p6, c);
    RepaintedTransitive(p, p6, CylinderSweeps(k, c, n, p), c);
  }

  lemma OBB3AndPlaneSweepsRepaint(k: OverlapKernels, planes: seq<Plane3D>, c: Rgba8, n: Sizes, p: Painted)
    ensures Repainted(p, OBB3AndPlaneSweeps(k, planes, c, n, p), c)
  {
    var p8 := FoldPairs(p, Grid(n.obb3s, n.spheres), OBB3VsSphere(k, c));
    OBB3VsSphereRepaints(k, c);
    SweepRepaints(p, Grid(n.obb3s, n.spheres), OBB3VsSphere(k, c), c);
    var p9 := FoldPairs(p8, Grid(n.obb3s, n.planes), OBB3VsPlane(k, planes, c));
    OBB3VsPlaneRepaints(k, planes, c);
    SweepRepaints(p8, Grid(n.obb3s, n.planes), OBB3VsPlane(k, planes, c), c);
    var p10 := FoldPairs(p9, Grid(n.spheres, n.planes), SphereVsPlane(k, planes, c));
    SphereVsPlaneRepaints(k, planes, c);
    SweepRepaints(p9, Grid(n.spheres, n.planes), SphereVsPlane(k, planes, c), c);
    AABB3VsPlaneRepaints(k, planes, c);
    SweepRepaints(p10, Grid(n.aabb3s, n.planes), AABB3VsPlane(k, planes, c), c);
    RepaintedTransitive(p, p8, p9, c);
    RepaintedTransitive(p, p9, p10, c);
    RepaintedTransitive(p, p10, OBB3AndPlaneSweeps(k, planes, c, n, p), c);
  }

  /**
   * ShapevsShapeOverlap writes only colours: every shape keeps its geometry,
   * each container its length, and a colour that changed is the pulse colour.
   */
  lemma OverlapOnlyRecolours(k: OverlapKernels, planes: seq<Plane3D>, c: Rgba8, p: Painted)
    ensures Repainted(p, Overlapped(k, planes, c, p), c)
  {
    var n := Sizes(|p.spheres|, |p.aabb3s|, |p.cylinders|, |p.obb3s|, |planes|);
    var q1 := SphereAndBoxSweeps(k, c, n, p);
    var q2 := CylinderSweeps(k, c, n, q1);
    SphereAndBoxSweepsRepaint(k, c, n, p);
    CylinderSweepsRepaint(k, c, n, q1);
    OBB3AndPlaneSweepsRepaint(k, planes, c, n, q2);
    RepaintedTransitive(p, q1, q2, c);
    RepaintedTransitive(p, q2, Overlapped(k, planes, c, p), c);
  }

  // ---------------------------------------------------------------------
  // Nearest points.

  /** The points one of the nearest-point loops collects, shape by shape. */
  function PointsOf<T>(shapes: seq<T>, near: T -> Vec3): (r: seq<Vec3>)
    ensures |r| == |shapes|
  {
    seq(|shapes|, i requires 0 <= i < |shapes| => near(shapes[i]))
  }

  function OnSphere(k: NearestKernels, p: Vec3): Sphere -> Vec3
  {
    (s: Sphere) => k.onSphere(p, s.center, s.radius)
  }

  function OnAABB3(k: NearestKernels, p: Vec3): AABB3D -> Vec3
  {
    (b: AABB3D) => k.onAABB3(p, b.mins, b.maxs)
  }

  function OnCylinder(k: NearestKernels, p: Vec3): Cylinder -> Vec3
  {
    (c: Cylinder) => k.onCylinder(p, c.start, c.radius, c.height)
  }

  function OnOBB3(k: NearestKernels, p: Vec3): OBB3D -> Vec3
  {
    (o: OBB3D) => k.onOBB3(p, Oriented(o))
  }

  function OnPlane(k: NearestKernels, p: Vec3): Plane3D -> Vec3
  {
    (q: Plane3D) => k.onPlane(p, q)
  }

  /** The squared distance to p. */
  function DistanceFrom(p: Vec3): Vec3 -> real
  {
    (q: Vec3) => DistSq3(q, p)
  }

  /** The push_back loop: point i is the nearest point of shape i. */
  method CollectPoints<T>(shapes: seq<T>, near: T -> Vec3) returns (points: seq<Vec3>)
    ensures |points| == |shapes| && forall i :: 0 <= i < |shapes| ==> points[i] == near(shapes[i])
    ensures points == PointsOf(shapes, near)
  {
    points := [];
    for i := 0 to |shapes|
      invariant |points| == i
      invariant forall j :: 0 <= j < i ==> points[j] == near(shapes[j])
    {
      points := points + [near(shapes[i])];
    }
  }

  // ---------------------------------------------------------------------
  // The raycast walk: the hits of each container, in container order.

  /** What the ray reports for each shape, container by container. */
  datatype HitWalk = HitWalk(
    spheres: seq<RaycastResult<Vec3>>,
    aabb3s: seq<RaycastResult<Vec3>>,
    cylinders: seq<RaycastResult<Vec3>>,
    obb3s: seq<RaycastResult<Vec3>>,
    planes: seq<RaycastResult<Vec3>>)
  {
    /** The hits of the grab scan: every container but the planes. */
    ghost function Grab(): seq<RaycastResult<Vec3>>
    {
      spheres + aabb3s + cylinders + obb3s
    }

    /** The hits DrawRaycast walks: the grab scan's, then the planes'. */
    ghost function All(): seq<RaycastResult<Vec3>>
    {
      Grab() + planes
    }

    /** The hits of container n of the walk: spheres, AABB3s, cylinders, OBB3s, planes. */
    function Container(n: nat): seq<RaycastResult<Vec3>>
    {
      if n == 0 then spheres
      else if n == 1 then aabb3s
      else if n == 2 then cylinders
      else if n == 3 then obb3s
      else planes
    }

    /** The hits of the containers walked before container n. */
    ghost function Prefix(n: nat): seq<RaycastResult<Vec3>>
    {
      if n == 0 then []
      else if n == 1 then spheres
      else if n == 2 then spheres + aabb3s
      else if n == 3 then spheres + aabb3s + cylinders
      else if n == 4 then Grab()
      else All()
    }

    /** The hits of the kind's container. */
    ghost function Block(kind: ShapeKind): seq<RaycastResult<Vec3>>
    {
      Container(Position(kind))
    }

    /** The hits of the containers walked before the kind's. */
    ghost function Before(kind: ShapeKind): seq<RaycastResult<Vec3>>
    {
      Prefix(Position(kind))
    }

    /** Shape i of the kind's container holds the nearest hit of the walk over `hits`. */
    ghost predicate NearestIn(hits: seq<RaycastResult<Vec3>>, kind: ShapeKind, i: int)
    {
      0 <= i < |Block(kind)| && IsNearest(hits, |Before(kind)| + i)
    }

    /** Each flag is raised exactly when some hit of its container replaced the running nearest. */
    ghost predicate FlagsMatch(sphere: bool, aabb3: bool, cylinder: bool, obb3: bool)
    {
      (sphere <==> HasRecord([], spheres)) &&
      (aabb3 <==> HasRecord(spheres, aabb3s)) &&
      (cylinder <==> HasRecord(spheres + aabb3s, cylinders)) &&
      (obb3 <==> HasRecord(spheres + aabb3s + cylinders, obb3s))
    }

    /** Walking one more container extends the walk by that container's hits. */
    lemma PrefixStep(n: nat)
      requires n < 5
      ensures Prefix(n + 1) == Prefix(n) + Container(n)
    {
      if n == 0 {
        assert [] + spheres == spheres;
      }
    }

    /** Hit i of the kind's container sits after the containers walked before it. */
    lemma BlockAt(kind: ShapeKind, i: int)
      requires 0 <= i < |Block(kind)|
      ensures All()[|Before(kind)| + i] == Block(kind)[i]
      ensures kind != PlaneKind ==> Grab()[|Before(kind)| + i] == Block(kind)[i]
    {
      match kind
      case SphereKind =>
        assert Grab() == spheres + (aabb3s + cylinders + obb3s);
      case AABB3Kind =>
        assert Grab() == spheres + aabb3s + (cylinders + obb3s);
      case CylinderKind =>
        assert Grab() == spheres + aabb3s + cylinders + obb3s;
      case OBB3Kind =>
      case PlaneKind =>
    }

    /** A running nearest located in the kind's container is the nearest of that container's shapes. */
    lemma LocatedIsNearestIn(hits: seq<RaycastResult<Vec3>>, run: Running<Vec3>, kind: ShapeKind)
      requires hits == All() || (hits == Grab() && kind != PlaneKind)
      requires run.didHit && Located(hits, run, |Before(kind)|, |Block(kind)|)
      ensures NearestIn(hits, kind, run.nearestIndex) && run.nearestImpact == Block(kind)[run.nearestIndex]
    {
      BlockAt(kind, run.nearestIndex);
    }
  }

  /** The place of the kind's container in the walk. */
  function Position(kind: ShapeKind): (n: nat)
    ensures n < 5 && KindAt(n) == kind
  {
    match kind
    case SphereKind => 0
    case AABB3Kind => 1
    case CylinderKind => 2
    case OBB3Kind => 3
    case PlaneKind => 4
  }

  function KindAt(n: nat): ShapeKind
  {
    if n == 0 then SphereKind
    else if n == 1 then AABB3Kind
    else if n == 2 then CylinderKind
    else if n == 3 then OBB3Kind
    else PlaneKind
  }

  /**
   * What the ray from start to end reports for each shape, container by
   * container: each raycast gets the ray's start, its normalised direction
   * and its length.
   */
  function RayWalk(rk: RayKernels, start: Vec3, end: Vec3, ss: seq<Sphere>, bs: seq<AABB3D>, cs: seq<Cylinder>,
                   os: seq<OBB3D>, ps: seq<Plane3D>): (w: HitWalk)
    ensures |w.spheres| == |ss| && |w.aabb3s| == |bs| && |w.cylinders| == |cs|
    ensures |w.obb3s| == |os| && |w.planes| == |ps|
  {
    var d := Sub3(end, start);
    var dir, len := rk.normalized(d), rk.length(d);
    HitWalk(
      seq(|ss|, i requires 0 <= i < |ss| => rk.vsSphere(start, dir, len, ss[i].center, ss[i].radius)),
      seq(|bs|, i requires 0 <= i < |bs| => rk.vsAABB3(start, dir, len, bs[i].mins, bs[i].maxs)),
      seq(|cs|, i requires 0 <= i < |cs| => rk.vsCylinder(start, dir, len, cs[i].start, cs[i].radius, cs[i].height)),
      seq(|os|, i requires 0 <= i < |os| => rk.vsOBB3(start, dir, len, Oriented(os[i]))),
      seq(|ps|, i requires 0 <= i < |ps| => rk.vsPlane(start, dir, len, ps[i])))
  }

  /**
   * After the first n containers the running state summarises their hits
   * and, when something was hit, holds the nearest one at its index in the
   * kind's container.
   */
  ghost predicate Scanned(w: HitWalk, n: nat, run: Running<Vec3>, kind: ShapeKind)
  {
    Summarises(w.Prefix(n), run) && Located(w.Prefix(n), run, |w.Before(kind)|, |w.Block(kind)|)
  }

  /**
   * One of the raycast loops: container n, continuing the walk. The kind of
   * the running nearest becomes container n's exactly when one of its hits
   * replaced the running nearest.
   */
  method ScanContainer(w: HitWalk, n: nat, run: Running<Vec3>, ghost kind: ShapeKind)
    returns (next: Running<Vec3>, replaced: bool)
    requires n < 5 && Scanned(w, n, run, kind)
    ensures Scanned(w, n + 1, next, if replaced then KindAt(n) else kind)
    ensures replaced <==> HasRecord(w.Prefix(n), w.Container(n))
    ensures replaced ==> next.didHit
    ensures !replaced ==> next == run
  {
    next, replaced := ScanNext(run, w.Container(n), w.Prefix(n), |w.Before(kind)|, |w.Block(kind)|);
    w.PrefixStep(n);
    assert Position(KindAt(n)) == n;
  }

  /**
   * The four raycast loops shared by ToggleGrabObject and DrawRaycast:
   * spheres, AABB3s, cylinders, then OBB3s, carrying the running nearest
   * from container to container. The reported index is the nearest hit's
   * index in the container of the last raised flag.
   */
  method ScanGrabbable(w: HitWalk, blank: RaycastResult<Vec3>, initialIndex: int)
    returns (run: Running<Vec3>, sphere: bool, aabb3: bool, cylinder: bool, obb3: bool)
    ensures Summarises(w.Grab(), run)
    ensures w.FlagsMatch(sphere, aabb3, cylinder, obb3)
    ensures run.didHit <==> sphere || aabb3 || cylinder || obb3
    ensures !run.didHit ==> run == Fresh(blank, initialIndex)
    ensures Scanned(w, 4, run, LastKind(sphere, aabb3, cylinder, obb3, false))
    ensures run.didHit ==>
              var kind := LastKind(sphere, aabb3, cylinder, obb3, false);
              w.NearestIn(w.Grab(), kind, run.nearestIndex) && run.nearestImpact == w.Block(kind)[run.nearestIndex]
  {
    var r1, f1 := ScanContainer(w, 0, Fresh(blank, initialIndex), SphereKind);
    var r2, f2 := ScanContainer(w, 1, r1, SphereKind);
    ghost var k2 := if f2 then AABB3Kind else SphereKind;
    var r3, f3 := ScanContainer(w, 2, r2, k2);
    ghost var k3 := if f3 then CylinderKind else k2;
    var r4, f4 := ScanContainer(w, 3, r3, k3);
    ghost var k4 := if f4 then OBB3Kind else k3;
    run, sphere, aabb3, cylinder, obb3 := r4, f1, f2, f3, f4;
    assert k4 == LastKind(sphere, aabb3, cylinder, obb3, false);
    if run.didHit {
      w.LocatedIsNearestIn(w.Prefix(4), run, k4);
    }
  }

  /**
   * The selection part of DrawRaycast: the grab scan with initial index 0,
   * then the planes, with local kind flags. The reported index is the
   * nearest hit's index in the container of the last raised flag; with no
   * hit it stays 0.
   */
  method RaycastSelection(w: HitWalk, blank: RaycastResult<Vec3>)
    returns (didRayHit: bool, nearestShape: int, nearestImpact: RaycastResult<Vec3>,
             sphere: bool, aabb3: bool, cylinder: bool, obb3: bool, plane: bool)
    ensures didRayHit <==> AnyHit(w.All())
    ensures w.FlagsMatch(sphere, aabb3, cylinder, obb3) && (plane <==> HasRecord(w.Grab(), w.planes))
    ensures didRayHit <==> sphere || aabb3 || cylinder || obb3 || plane
    ensures didRayHit ==>
              var kind := LastKind(sphere, aabb3, cylinder, obb3, plane);
              w.NearestIn(w.All(), kind, nearestShape) && nearestImpact == w.Block(kind)[nearestShape]
    ensures !didRayHit ==> nearestShape == 0 && nearestImpact == blank
  {
    var run0;
    run0, sphere, aabb3, cylinder, obb3 := ScanGrabbable(w, blank, 0);
    ghost var kind0 := LastKind(sphere, aabb3, cylinder, obb3, false);
    var run;
    run, plane := ScanContainer(w, 4, run0, kind0);
    didRayHit, nearestShape, nearestImpact := run.didHit, run.nearestIndex, run.nearestImpact;
    ghost var kind := LastKind(sphere, aabb3, cylinder, obb3, plane);
    assert kind == if plane then PlaneKind else kind0;
    if didRayHit {
      w.LocatedIsNearestIn(w.Prefix(5), run, kind);
    }
  }

  /** m_isObjectGrabbed, m_grabbedObjectIndex and m_grabbedObjectOffset. */
  datatype GrabState = GrabState(grabbed: bool, index: int, offset: Vec3)
  {
    /** The grab index is a real index exactly while something is grabbed (-1 otherwise). */
    predicate Valid()
    {
      (grabbed ==> index >= 0) && (!grabbed ==> index == -1)
    }
  }

  /**
   * What a left click does to the grab state, given the nearest hit of the
   * grab scan: no hit releases; a hit at the grabbed index releases, whatever
   * its kind; any other hit grabs that index and records the impact's offset
   * from the camera.
   */
  ghost predicate Toggled(w: HitWalk, position: Vec3, g: GrabState, kind: ShapeKind, nearest: int, g': GrabState)
  {
    (!AnyHit(w.Grab()) ==> g' == GrabState(false, -1, g.offset)) &&
    (AnyHit(w.Grab()) ==>
       w.NearestIn(w.Grab(), kind, nearest) &&
       (g.grabbed && g.index == nearest ==> g' == GrabState(false, -1, g.offset)) &&
       (!(g.grabbed && g.index == nearest) ==>
          g' == GrabState(true, nearest, Sub3(w.Block(kind)[nearest].impactPos, position))))
  }

  /** ToggleGrabObject on values: the grab scan with initial index -1, then the toggle. */
  method ToggleGrab(w: HitWalk, blank: RaycastResult<Vec3>, position: Vec3, g: GrabState)
    returns (g': GrabState, sphere: bool, aabb3: bool, cylinder: bool, obb3: bool, ghost nearestShape: int)
    requires g.Valid()
    ensures g'.Valid()
    ensures w.FlagsMatch(sphere, aabb3, cylinder, obb3)
    ensures AnyHit(w.Grab()) <==> sphere || aabb3 || cylinder || obb3
    ensures Toggled(w, position, g, LastKind(sphere, aabb3, cylinder, obb3, false), nearestShape, g')
  {
    var run;
    run, sphere, aabb3, cylinder, obb3 := ScanGrabbable(w, blank, -1);
    nearestShape := run.nearestIndex;
    g' := g;
    if run.didHit {
      if g'.grabbed && g'.index == run.nearestIndex {
        g' := g'.(grabbed := false, index := -1);
      } else {
        g' := GrabState(true, run.nearestIndex, Sub3(run.nearestImpact.impactPos, position));
      }
    } else {
      g' := g'.(grabbed := false, index := -1);
    }
  }

  // ---------------------------------------------------------------------
  // The demo.

  class Game3DTestShapes {
    const kernels: Kernels
    var rayCastStart: Vec3
    var rayCastEnd: Vec3
    var currentRasterizerMode: RasterizerMode
    var isSolidShapeTexture: bool
    var position: Vec3
    var refPosition: Vec3
    var grabbedObjectOffset: Vec3
    var spheres: seq<Sphere>          // m_sphereVerts
    var aabb3s: seq<AABB3D>
    var cylinders: seq<Cylinder>
    var obb3s: seq<OBB3D>
    var planes: seq<Plane3D>
    var colorBrightness: real
    var grabbedObjectIndex: int
    var isPositionLocked: bool
    var isObjectGrabbed: bool
    var closestPointToPlayer: Vec3
    var nearestSpherePoints: seq<Vec3>
    var nearestAABB3Points: seq<Vec3>
    var nearestCylinderPoints: seq<Vec3>
    var nearestOBB3Points: seq<Vec3>
    var nearestPlanePoints: seq<Vec3>
    var isSphere: bool
    var isAABB3: bool
    var isCylinder: bool
    var isOBB3: bool

    /**
     * The texture flag follows the rasterizer mode, and the grab index is a
     * real index exactly while something is grabbed (-1 otherwise).
     */
    ghost predicate Valid()
      reads this`isSolidShapeTexture, this`currentRasterizerMode
      reads this`isObjectGrabbed, this`grabbedObjectIndex, this`grabbedObjectOffset
    {
      (isSolidShapeTexture <==> currentRasterizerMode == SolidCullBack) && Grabbing().Valid()
    }

    constructor (kernels: Kernels, rolls: ShapeRolls)
      ensures Valid()
      ensures this.kernels == kernels
      ensures currentRasterizerMode == SolidCullBack && !isObjectGrabbed && !isPositionLocked
      ensures rayCastStart == Zero3 && rayCastEnd == Zero3 && position == Zero3 && refPosition == Zero3
      ensures !isSphere && !isAABB3 && !isCylinder && !isOBB3
      ensures spheres == RandomSpheres(kernels.lightBlue, rolls.sphere)
      ensures aabb3s == RandomAABB3s(kernels.lightBlue, rolls.aabb3)
      ensures cylinders == RandomCylinders(kernels.lightBlue, rolls.cylinder)
      ensures obb3s == RandomOBB3s(kernels.lightBlue, rolls.obb3)
      ensures planes == RandomPlanes(rolls.plane)
    {
      this.kernels := kernels;
      rayCastStart, rayCastEnd := Zero3, Zero3;
      currentRasterizerMode, isSolidShapeTexture := SolidCullBack, true;
      position, refPosition, grabbedObjectOffset := Zero3, Zero3, Zero3;
      spheres, aabb3s, cylinders, obb3s, planes := [], [], [], [], [];
      colorBrightness := 0.0;
      grabbedObjectIndex, isPositionLocked, isObjectGrabbed := -1, false, false;
      closestPointToPlayer := Zero3;
      nearestSpherePoints, nearestAABB3Points, nearestCylinderPoints := [], [], [];
      nearestOBB3Points, nearestPlanePoints := [], [];
      isSphere, isAABB3, isCylinder, isOBB3 := false, false, false, false;
      new;
      RandomizeShapes(rolls);
    }

    /**
     * The part of Update after the camera: R, the position lock and the ray,
     * a left click, the grabbed shape, F8, the nearest points and the
     * overlaps. `forward` is the camera's forward normal.
     */
    method Update(f: Frame, forward: Vec3, deltaSeconds: real, rolls: ShapeRolls)
      requires Valid()
      modifies this
      ensures Valid()
      ensures currentRasterizerMode == if WasPressed(f, KeyR) then Flipped(old(currentRasterizerMode))
                                       else old(currentRasterizerMode)
      ensures position == old(position)
      ensures isPositionLocked == (old(isPositionLocked) != WasPressed(f, KeySpace))
      ensures refPosition == if isPositionLocked && !old(isPositionLocked) then position else old(refPosition)
      ensures !isPositionLocked ==> rayCastStart == position && rayCastEnd == Add3(position, Scale3(forward, 2.0))
      ensures isPositionLocked ==>
                rayCastEnd == old(rayCastEnd) &&
                rayCastStart == if old(isPositionLocked) then old(rayCastStart) else position
      ensures planes == if WasPressed(f, KeyF8) then RandomPlanes(rolls.plane) else old(planes)
      ensures colorBrightness == old(colorBrightness) + 200.0 * deltaSeconds
      ensures WasPressed(f, KeyF8) ==>
                |spheres| == NumSpheres && |aabb3s| == NumAABB3s && |cylinders| == NumCylinders && |obb3s| == NumOBB3s
      ensures !WasPressed(f, KeyF8) ==>
                |spheres| == |old(spheres)| && |aabb3s| == |old(aabb3s)| && |cylinders| == |old(cylinders)| &&
                |obb3s| == |old(obb3s)|
    {
      ToggleRasterizerMode(f);
      LockPosition(f, forward);
      GrabAndMove(f, forward);
      EndOfFrame(f, deltaSeconds, rolls);
    }

    /** F8 rerolls the shapes, then the nearest-point check and the overlap colouring. */
    method EndOfFrame(f: Frame, deltaSeconds: real, rolls: ShapeRolls)
      modifies this`nearestSpherePoints, this`nearestAABB3Points, this`nearestCylinderPoints
      modifies this`nearestOBB3Points, this`nearestPlanePoints, this`closestPointToPlayer
      modifies this`colorBrightness, this`spheres, this`aabb3s, this`cylinders, this`obb3s, this`planes
      ensures isPositionLocked ==>
                unchanged(this`nearestSpherePoints, this`nearestAABB3Points, this`nearestCylinderPoints,
                          this`nearestOBB3Points, this`nearestPlanePoints, this`closestPointToPlayer)
      ensures !isPositionLocked ==>
                forall p | p == old(Shapes()) :: MeasuredFrom(position, Rerolled(f, kernels.lightBlue, rolls, p), planes)
      ensures forall p | p == old(Shapes()) :: Shapes() == OverlapColoured(Rerolled(f, kernels.lightBlue, rolls, p))
      ensures planes == if WasPressed(f, KeyF8) then RandomPlanes(rolls.plane) else old(planes)
      ensures colorBrightness == old(colorBrightness) + 200.0 * deltaSeconds
      ensures WasPressed(f, KeyF8) ==>
                |spheres| == NumSpheres && |aabb3s| == NumAABB3s && |cylinders| == NumCylinders && |obb3s| == NumOBB3s
      ensures !WasPressed(f, KeyF8) ==>
                |spheres| == |old(spheres)| && |aabb3s| == |old(aabb3s)| && |cylinders| == |old(cylinders)| &&
                |obb3s| == |old(obb3s)|
    {
      if WasPressed(f, KeyF8) {
        RandomizeShapes(rolls);
      }
      NearestAndOverlaps(deltaSeconds);
    }

    /**
     * Space locks the position, remembering it as the reference position,
     * starting the ray there and measuring the nearest points from it; a
     * second Space unlocks. While unlocked the ray runs from the camera two
     * units along the forward normal.
     */
    method LockPosition(f: Frame, forward: Vec3)
      modifies this`refPosition, this`rayCastStart, this`rayCastEnd, this`isPositionLocked
      modifies this`nearestSpherePoints, this`nearestAABB3Points, this`nearestCylinderPoints
      modifies this`nearestOBB3Points, this`nearestPlanePoints, this`closestPointToPlayer
      ensures isPositionLocked == (old(isPositionLocked) != WasPressed(f, KeySpace))
      ensures isPositionLocked && !old(isPositionLocked) ==>
                refPosition == position && rayCastStart == position && rayCastEnd == old(rayCastEnd) &&
                forall p | p == Shapes() :: MeasuredFrom(refPosition, p, planes)
      ensures !(isPositionLocked && !old(isPositionLocked)) ==>
                refPosition == old(refPosition) &&
                unchanged(this`nearestSpherePoints, this`nearestAABB3Points, this`nearestCylinderPoints,
                          this`nearestOBB3Points, this`nearestPlanePoints, this`closestPointToPlayer)
      ensures isPositionLocked && old(isPositionLocked) ==> rayCastStart == old(rayCastStart) && rayCastEnd == old(rayCastEnd)
      ensures !isPositionLocked ==> rayCastStart == position && rayCastEnd == Add3(position, Scale3(forward, 2.0))
    {
      if WasPressed(f, KeySpace) {
        if !isPositionLocked {
          refPosition := position;
          rayCastStart := refPosition;
          isPositionLocked := true;
          GetNearestPointForRefPosition();
          GetPointClosestToPlayer();
        } else {
          isPositionLocked := false;
        }
      }
      if !isPositionLocked {
        rayCastStart := position;
        rayCastEnd := Add3(position, Scale3(forward, 2.0));
      }
    }

    /** The end of Update: the nearest-point check, then the overlap colouring. */
    method NearestAndOverlaps(deltaSeconds: real)
      modifies this`nearestSpherePoints, this`nearestAABB3Points, this`nearestCylinderPoints
      modifies this`nearestOBB3Points, this`nearestPlanePoints, this`closestPointToPlayer
      modifies this`colorBrightness, this`spheres, this`aabb3s, this`cylinders, this`obb3s
      ensures isPositionLocked ==>
                unchanged(this`nearestSpherePoints, this`nearestAABB3Points, this`nearestCylinderPoints,
                          this`nearestOBB3Points, this`nearestPlanePoints, this`closestPointToPlayer)
      ensures !isPositionLocked ==> forall p | p == old(Shapes()) :: MeasuredFrom(position, p, planes)
      ensures colorBrightness == old(colorBrightness) + 200.0 * deltaSeconds
      ensures forall p | p == old(Shapes()) :: Shapes() == OverlapColoured(p)
      ensures |spheres| == |old(spheres)| && |aabb3s| == |old(aabb3s)| &&
              |cylinders| == |old(cylinders)| && |obb3s| == |old(obb3s)|
    {
      GetNearestPointCheck();
      ShapevsShapeOverlap(deltaSeconds);
    }

    /** The left-click toggle, then the grabbed shape follows the camera. */
    method GrabAndMove(f: Frame, forward: Vec3)
      requires Valid()
      modifies this`isSphere, this`isAABB3, this`isCylinder, this`isOBB3
      modifies this`isObjectGrabbed, this`grabbedObjectIndex, this`grabbedObjectOffset
      modifies this`spheres, this`aabb3s, this`cylinders, this`obb3s
      ensures Valid()
      ensures forall p | p == old(Shapes()) ::
                ClickHandled(f, old(rayCastStart), old(rayCastEnd), p, old(planes), old(Grabbing()), old(Flags()))
      ensures forall p | p == old(Shapes()) :: Shapes() == FollowingCamera(f, forward, p)
      ensures |spheres| == |old(spheres)| && |aabb3s| == |old(aabb3s)| &&
              |cylinders| == |old(cylinders)| && |obb3s| == |old(obb3s)|
    {
      LeftClick(f);
      if isObjectGrabbed {
        MoveGrabbedObject(f, forward);
      }
    }

    /** A left click releases the grabbed shape, or grabs the nearest grabbable shape the ray hits. */
    method LeftClick(f: Frame)
      requires Valid()
      modifies this`isSphere, this`isAABB3, this`isCylinder, this`isOBB3
      modifies this`isObjectGrabbed, this`grabbedObjectIndex, this`grabbedObjectOffset
      ensures Valid()
      ensures forall p | p == old(Shapes()) ::
                ClickHandled(f, old(rayCastStart), old(rayCastEnd), p, old(planes), old(Grabbing()), old(Flags()))
    {
      if WasPressed(f, LeftMouse) {
        ghost var w := Walked();
        ghost var nearest := ToggleGrabObject();
        assert Toggled(w, position, old(Grabbing()), LastKind(isSphere, isAABB3, isCylinder, isOBB3, false),
                       nearest, Grabbing());
      }
    }

    // -------------------------------------------------------------------
    // What a frame does, as predicates on the state. The contracts above
    // state them for the one value equal to the state they are about
    // (`forall p | p == old(Shapes()) :: ...`), so that a caller unfolds a
    // predicate only when it asks about that value.

    function Shapes(): Painted
      reads this`spheres, this`aabb3s, this`cylinders, this`obb3s
    {
      Painted(spheres, aabb3s, cylinders, obb3s)
    }

    function Flags(): (bool, bool, bool, bool)
      reads this`isSphere, this`isAABB3, this`isCylinder, this`isOBB3
    {
      (isSphere, isAABB3, isCylinder, isOBB3)
    }

    /**
     * The grab state and kind flags after a frame's left click, against the
     * hits of the ray from start to end on the shapes p and the planes ps,
     * and the grab state g and flags before it: a click sets the flags from
     * the scan and toggles the grab; no click changes nothing.
     */
    ghost predicate ClickHandled(f: Frame, start: Vec3, end: Vec3, p: Painted, ps: seq<Plane3D>,
                                 g: GrabState, flags: (bool, bool, bool, bool))
      reads this`isSphere, this`isAABB3, this`isCylinder, this`isOBB3, this`position
      reads this`isObjectGrabbed, this`grabbedObjectIndex, this`grabbedObjectOffset
    {
      var w := RayWalk(kernels.ray, start, end, p.spheres, p.aabb3s, p.cylinders, p.obb3s, ps);
      if WasPressed(f, LeftMouse) then
        w.FlagsMatch(isSphere, isAABB3, isCylinder, isOBB3) &&
        (AnyHit(w.Grab()) <==> isSphere || isAABB3 || isCylinder || isOBB3) &&
        exists n :: Toggled(w, position, g, LastKind(isSphere, isAABB3, isCylinder, isOBB3, false), n, Grabbing())
      else
        Grabbing() == g && Flags() == flags
    }


    /**
     * The shapes p after the grab-move block: while something is grabbed,
     * each kind whose flag is up and whose container holds the grab index has
     * that shape moved to the grab target; otherwise p is kept.
     */
    ghost function FollowingCamera(f: Frame, forward: Vec3, p: Painted): Painted
      reads this`isObjectGrabbed, this`grabbedObjectIndex, this`position
      reads this`isSphere, this`isAABB3, this`isCylinder, this`isOBB3
    {
      var i, target := grabbedObjectIndex, GrabTarget(position, forward);
      if !isObjectGrabbed || i < 0 then p
      else
        Painted(if isSphere && i < |p.spheres| then p.spheres[i := p.spheres[i].(center := target)] else p.spheres,
                if isAABB3 && i < |p.aabb3s| then p.aabb3s[i := MovedAABB3(p.aabb3s[i], target)] else p.aabb3s,
                if isCylinder && i < |p.cylinders| then p.cylinders[i := p.cylinders[i].(start := target)] else p.cylinders,
                if isOBB3 && i < |p.obb3s| then p.obb3s[i := MovedOBB3(kernels.orientationBasis, p.obb3s[i], target, f)]
                else p.obb3s)
    }

    /**
     * The nearest-point containers hold, shape by shape, the point of each of
     * the shapes p nearest to q; the planes' points are always measured from
     * the camera position.
     */
    ghost predicate NearestPointsFrom(q: Vec3, p: Painted, ps: seq<Plane3D>)
      reads this`nearestSpherePoints, this`nearestAABB3Points, this`nearestCylinderPoints
      reads this`nearestOBB3Points, this`nearestPlanePoints, this`position
    {
      nearestSpherePoints == PointsOf(p.spheres, OnSphere(kernels.nearest, q)) &&
      nearestAABB3Points == PointsOf(p.aabb3s, OnAABB3(kernels.nearest, q)) &&
      nearestCylinderPoints == PointsOf(p.cylinders, OnCylinder(kernels.nearest, q)) &&
      nearestOBB3Points == PointsOf(p.obb3s, OnOBB3(kernels.nearest, q)) &&
      nearestPlanePoints == PointsOf(ps, OnPlane(kernels.nearest, position))
    }

    /** The overlap colouring of the shapes p under the current planes and brightness. */
    ghost function OverlapColoured(p: Painted): Painted
      reads this`planes, this`colorBrightness
    {
      Overlapped(kernels.overlap, planes, PulseColour(kernels.overlap.pulseValue(colorBrightness)), p)
    }

    /** The nearest points measured from q, and the closest of them to the camera. */
    ghost predicate MeasuredFrom(q: Vec3, p: Painted, ps: seq<Plane3D>)
      reads this`nearestSpherePoints, this`nearestAABB3Points, this`nearestCylinderPoints
      reads this`nearestOBB3Points, this`nearestPlanePoints, this`position, this`closestPointToPlayer
    {
      NearestPointsFrom(q, p, ps) && ClosestToPlayer()
    }

    /**
     * The kept point is the first candidate of minimal squared distance to
     * the camera when one is nearer than the 99999 sentinel, the zero vector
     * otherwise.
     */
    ghost predicate ClosestToPlayer()
      reads this`nearestSpherePoints, this`nearestAABB3Points, this`nearestCylinderPoints
      reads this`nearestOBB3Points, this`nearestPlanePoints, this`position, this`closestPointToPlayer
    {
      (AnyBelowSentinel(Candidates(), DistanceFrom(position)) ==>
         exists k :: IsClosest(Candidates(), DistanceFrom(position), k) && closestPointToPlayer == Candidates()[k]) &&
      (!AnyBelowSentinel(Candidates(), DistanceFrom(position)) ==> closestPointToPlayer == Zero3)
    }

    // -------------------------------------------------------------------
    // Raycasts.

    /** The hits of the current ray, container by container. */
    function Walked(): (w: HitWalk)
      reads this`rayCastStart, this`rayCastEnd, this`spheres, this`aabb3s, this`cylinders, this`obb3s, this`planes
      ensures |w.spheres| == |spheres| && |w.aabb3s| == |aabb3s| && |w.cylinders| == |cylinders|
      ensures |w.obb3s| == |obb3s| && |w.planes| == |planes|
    {
      RayWalk(kernels.ray, rayCastStart, rayCastEnd, spheres, aabb3s, cylinders, obb3s, planes)
    }

    function Grabbing(): GrabState
      reads this`isObjectGrabbed, this`grabbedObjectIndex, this`grabbedObjectOffset
    {
      GrabState(isObjectGrabbed, grabbedObjectIndex, grabbedObjectOffset)
    }

    /** A left click: the grab scan sets the four kind flags (cleared, then raised by its loops), and the grab toggles. */
    method ToggleGrabObject() returns (ghost nearestShape: int)
      requires Valid()
      modifies this`isSphere, this`isAABB3, this`isCylinder, this`isOBB3
      modifies this`isObjectGrabbed, this`grabbedObjectIndex, this`grabbedObjectOffset
      ensures Valid()
      ensures Walked().FlagsMatch(isSphere, isAABB3, isCylinder, isOBB3)
      ensures AnyHit(Walked().Grab()) <==> isSphere || isAABB3 || isCylinder || isOBB3
      ensures Toggled(Walked(), position, old(Grabbing()), LastKind(isSphere, isAABB3, isCylinder, isOBB3, false),
                      nearestShape, Grabbing())
    {
      var w := Walked();
      var g, s, a, c, o, n := ToggleGrab(w, kernels.ray.noImpact, position, Grabbing());
      isSphere, isAABB3, isCylinder, isOBB3 := s, a, c, o;
      isObjectGrabbed, grabbedObjectIndex, grabbedObjectOffset := g.grabbed, g.index, g.offset;
      nearestShape := n;
      assert Walked() == w && Grabbing() == g;
    }

    /**
     * The grab-move block of Update: for each kind whose flag is up and whose
     * container is long enough, the shape at the grab index is moved to the
     * target; several kinds can be moved at once.
     */
    method MoveGrabbedObject(f: Frame, forward: Vec3)
      requires Valid() && isObjectGrabbed
      modifies this`spheres, this`aabb3s, this`cylinders, this`obb3s
      ensures var i, target := grabbedObjectIndex, GrabTarget(position, forward);
              spheres == (if isSphere && i < |old(spheres)| then old(spheres)[i := old(spheres)[i].(center := target)]
                          else old(spheres)) &&
              aabb3s == (if isAABB3 && i < |old(aabb3s)| then old(aabb3s)[i := MovedAABB3(old(aabb3s)[i], target)]
                         else old(aabb3s)) &&
              cylinders == (if isCylinder && i < |old(cylinders)| then old(cylinders)[i := old(cylinders)[i].(start := target)]
                            else old(cylinders)) &&
              obb3s == (if isOBB3 && i < |old(obb3s)|
                        then old(obb3s)[i := MovedOBB3(kernels.orientationBasis, old(obb3s)[i], target, f)]
                        else old(obb3s))
    {
      var target := Add3(position, Scale3(Scale3(forward, 2.0), 1.5));
      var i := grabbedObjectIndex;
      spheres := MoveSphere(spheres, i, isSphere, target);
      aabb3s := MoveAABB3(aabb3s, i, isAABB3, target);
      cylinders := MoveCylinder(cylinders, i, isCylinder, target);
      obb3s := MoveOBB3(obb3s, i, isOBB3, kernels.orientationBasis, target, f);
    }

    // -------------------------------------------------------------------
    // Shapes, rasterizer mode, nearest points, overlaps.

    method RandomizeShapes(rolls: ShapeRolls)
      modifies this`spheres, this`aabb3s, this`cylinders, this`obb3s, this`planes
      ensures spheres == RandomSpheres(kernels.lightBlue, rolls.sphere)
      ensures aabb3s == RandomAABB3s(kernels.lightBlue, rolls.aabb3)
      ensures cylinders == RandomCylinders(kernels.lightBlue, rolls.cylinder)
      ensures obb3s == RandomOBB3s(kernels.lightBlue, rolls.obb3)
      ensures planes == RandomPlanes(rolls.plane)
    {
      var c := kernels.lightBlue;
      var ss: seq<Sphere> := [];
      for i := 0 to NumSpheres
        invariant ss == RandomSpheres(c, rolls.sphere)[..i]
      {
        ss := ss + [RandomSphere(c, rolls.sphere(i))];
      }
      spheres := ss;
      var bs: seq<AABB3D> := [];
      for i := 0 to NumAABB3s
        invariant bs == RandomAABB3s(c, rolls.aabb3)[..i]
      {
        bs := bs + [RandomAABB3(c, rolls.aabb3(i))];
      }
      aabb3s := bs;
      var cs: seq<Cylinder> := [];
      for i := 0 to NumCylinders
        invariant cs == RandomCylinders(c, rolls.cylinder)[..i]
      {
        cs := cs + [RandomCylinder(c, rolls.cylinder(i))];
      }
      cylinders := cs;
      var os: seq<OBB3D> := [];
      for i := 0 to NumOBB3s
        invariant os == RandomOBB3s(c, rolls.obb3)[..i]
      {
        os := os + [RandomOBB3(c, rolls.obb3(i))];
      }
      obb3s := os;
      var ps: seq<Plane3D> := [];
      for i := 0 to NumPlanes
        invariant ps == RandomPlanes(rolls.plane)[..i]
      {
        ps := ps + [RandomPlane(rolls.plane(i))];
      }
      planes := ps;
      assert ss == RandomSpheres(c, rolls.sphere)[..NumSpheres];
      assert bs == RandomAABB3s(c, rolls.aabb3)[..NumAABB3s];
      assert cs == RandomCylinders(c, rolls.cylinder)[..NumCylinders];
      assert os == RandomOBB3s(c, rolls.obb3)[..NumOBB3s];
      assert ps == RandomPlanes(rolls.plane)[..NumPlanes];
    }

    static function Flipped(m: RasterizerMode): RasterizerMode
    {
      if m == SolidCullBack then WireframeCullNone else SolidCullBack
    }

    /** R alternates the two modes and the texture flag follows. */
    method ToggleRasterizerMode(f: Frame)
      requires Valid()
      modifies this`currentRasterizerMode, this`isSolidShapeTexture
      ensures Valid()
      ensures currentRasterizerMode == if WasPressed(f, KeyR) then Flipped(old(currentRasterizerMode))
                                       else old(currentRasterizerMode)
    {
      if WasPressed(f, KeyR) {
        if currentRasterizerMode == SolidCullBack {
          currentRasterizerMode := WireframeCullNone;
          isSolidShapeTexture := false;
        } else {
          currentRasterizerMode := SolidCullBack;
          isSolidShapeTexture := true;
        }
      }
    }

    /** The candidates of GetPointClosestToPlayer, container after container. */
    function Candidates(): seq<Vec3>
      reads this`nearestSpherePoints, this`nearestAABB3Points, this`nearestCylinderPoints
      reads this`nearestOBB3Points, this`nearestPlanePoints
    {
      nearestSpherePoints + nearestAABB3Points + nearestCylinderPoints + nearestOBB3Points + nearestPlanePoints
    }

    /**
     * Unless the position is locked, each container's nearest points are
     * recomputed from the camera position, then the closest of them is kept.
     */
    method GetNearestPointCheck()
      modifies this`nearestSpherePoints, this`nearestAABB3Points, this`nearestCylinderPoints
      modifies this`nearestOBB3Points, this`nearestPlanePoints, this`closestPointToPlayer
      ensures isPositionLocked ==>
                unchanged(this`nearestSpherePoints, this`nearestAABB3Points, this`nearestCylinderPoints,
                          this`nearestOBB3Points, this`nearestPlanePoints, this`closestPointToPlayer)
      ensures !isPositionLocked ==> NearestPointsFrom(position, Shapes(), planes) && ClosestToPlayer()
    {
      if !isPositionLocked {
        var nk := kernels.nearest;
        nearestSpherePoints := CollectPoints(spheres, OnSphere(nk, position));
        nearestAABB3Points := CollectPoints(aabb3s, OnAABB3(nk, position));
        nearestCylinderPoints := CollectPoints(cylinders, OnCylinder(nk, position));
        nearestOBB3Points := CollectPoints(obb3s, OnOBB3(nk, position));
        nearestPlanePoints := CollectPoints(planes, OnPlane(nk, position));
        GetPointClosestToPlayer();
      }
    }

    /**
     * The locking routine's nearest points: the shapes' points nearest to
     * the reference position, but the planes' nearest to the camera position.
     */
    method GetNearestPointForRefPosition()
      modifies this`nearestSpherePoints, this`nearestAABB3Points, this`nearestCylinderPoints
      modifies this`nearestOBB3Points, this`nearestPlanePoints
      ensures NearestPointsFrom(refPosition, Shapes(), planes)
    {
      var nk := kernels.nearest;
      nearestSpherePoints := CollectPoints(spheres, OnSphere(nk, refPosition));
      nearestAABB3Points := CollectPoints(aabb3s, OnAABB3(nk, refPosition));
      nearestCylinderPoints := CollectPoints(cylinders, OnCylinder(nk, refPosition));
      nearestOBB3Points := CollectPoints(obb3s, OnOBB3(nk, refPosition));
      nearestPlanePoints := CollectPoints(planes, OnPlane(nk, position));
    }

    /** The running minimum over all candidates with the 99999 sentinel. */
    method GetPointClosestToPlayer()
      modifies this`closestPointToPlayer
      ensures ClosestToPlayer()
    {
      closestPointToPlayer := ClosestCandidate(Candidates(), DistanceFrom(position), Zero3);
    }

    /**
     * The brightness advances by 200 per second and gives the pulse colour;
     * the eleven sweeps paint the overlapping shapes with it.
     */
    method ShapevsShapeOverlap(deltaSeconds: real)
      modifies this`colorBrightness, this`spheres, this`aabb3s, this`cylinders, this`obb3s
      ensures colorBrightness == old(colorBrightness) + 200.0 * deltaSeconds
      ensures Painted(spheres, aabb3s, cylinders, obb3s) ==
              Overlapped(kernels.overlap, planes, PulseColour(kernels.overlap.pulseValue(colorBrightness)),
                         old(Painted(spheres, aabb3s, cylinders, obb3s)))
      ensures |spheres| == |old(spheres)| && |aabb3s| == |old(aabb3s)| &&
              |cylinders| == |old(cylinders)| && |obb3s| == |old(obb3s)|
    {
      colorBrightness := colorBrightness + 200.0 * deltaSeconds;
      var k := kernels.overlap;
      var c := PulseColour(k.pulseValue(colorBrightness));
      var ns, na, nc, no, np := |spheres|, |aabb3s|, |cylinders|, |obb3s|, |planes|;
      var p := Painted(spheres, aabb3s, cylinders, obb3s);
      p := ForEachPair(p, ns, SphereVsSphere(k, c));
      p := ForEachPair(p, na, AABB3VsAABB3(k, c));
      p := ForEachCross(p, ns, na, SphereVsAABB3(k, c));
      p := ForEachPair(p, nc, CylinderVsCylinder(k, c));
      p := ForEachCross(p, nc, ns, CylinderVsSphere(k, c));
      p := ForEachCross(p, nc, na, CylinderVsAABB3(k, c));
      p := ForEachCross(p, nc, no, CylinderVsOBB3(k, c));
      p := ForEachCross(p, no, ns, OBB3VsSphere(k, c));
      p := ForEachCross(p, no, np, OBB3VsPlane(k, planes, c));
      p := ForEachCross(p, ns, np, SphereVsPlane(k, planes, c));
      p := ForEachCross(p, na, np, AABB3VsPlane(k, planes, c));
      spheres, aabb3s, cylinders, obb3s := p.spheres, p.aabb3s, p.cylinders, p.obb3s;
      OverlapOnlyRecolours(k, planes, c, old(Painted(spheres, aabb3s, cylinders, obb3s)));
    }
  }

  // ---------------------------------------------------------------------
  // What the selection and the grab toggle promise.

  function Hit(d: real): RaycastResult<Vec3>
  {
    RaycastResult(true, d, Zero3)
  }

  /**
   * The kind flags are not exclusive: a sphere hit at distance 5 followed by
   * a nearer AABB3 hit at distance 3 raises both the sphere and the AABB3
   * flag, and the nearest hit is the AABB3's.
   */
  lemma SeveralKindFlags()
    ensures HasRecord([], [Hit(5.0)]) && HasRecord([Hit(5.0)], [Hit(3.0)])
    ensures IsNearest([Hit(5.0)] + [Hit(3.0)], 1)
  {
    assert [] + [Hit(5.0)] == [Hit(5.0)];
    assert IsRecordInBlock([], [Hit(5.0)], 0);
    assert IsRecordInBlock([Hit(5.0)], [Hit(3.0)], 0);
  }

  /**
   * Ties keep the earlier container: a sphere hit and an AABB3 hit at the
   * same distance leave the AABB3 flag down and the sphere as the nearest.
   */
  lemma TieKeepsEarlierKind()
    ensures HasRecord([], [Hit(4.0)]) && !HasRecord([Hit(4.0)], [Hit(4.0)])
    ensures IsNearest([Hit(4.0)] + [Hit(4.0)], 0)
  {
    var s := [Hit(4.0)] + [Hit(4.0)];
    assert [] + [Hit(4.0)] == [Hit(4.0)];
    assert IsRecordInBlock([], [Hit(4.0)], 0);
    assert s[1].impactDist == s[0].impactDist;
    assert !IsRecordInBlock([Hit(4.0)], [Hit(4.0)], 0);
  }
}
