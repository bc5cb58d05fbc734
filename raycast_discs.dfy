/**
 * The raycast-versus-discs demo (GameRaycastVsDiscs): ten random discs, a ray
 * that is put back to its starting position at the start of every frame and
 * then edited, and the nearest disc the ray hits.
 */
module RaycastVsDiscs {
  import opened Geometry
  import opened Input
  import opened Rng
  import opened Selection
  import opened GameCommon
  import RayEditing

  datatype Disc = Disc(center: Vec2, radius: real)

  const NumDiscs: nat := 10
  const MinDiscRadius: real := 10.0
  const MaxDiscRadius: real := 170.0

  /** The engine routines the demo calls, as uninterpreted function values. */
  datatype Kernels = Kernels(
    raycastVsDisc: (Vec2, Vec2, real, Vec2, real) -> RaycastResult<Vec2>,  // (start, direction, maxDist, centre, radius)
    normalized: Vec2 -> Vec2,          // Vec2::GetNormalized
    length: Vec2 -> real,              // Vec2::GetLength
    noImpact: RaycastResult<Vec2>)     // a default-constructed RaycastResult2D

  /** The three rolls behind one disc: centre x and y, then radius. */
  datatype DiscRoll = DiscRoll(x: Fraction, y: Fraction, radius: Fraction)

  /** One disc of RandomizeDiscs. */
  function RandomDisc(c: Common, r: DiscRoll): (d: Disc)
    ensures MinDiscRadius <= d.radius <= MaxDiscRadius
  {
    Disc(Vec2(RollInRange(0.0, c.screenSizeX, r.x), RollInRange(0.0, c.screenSizeY, r.y)),
         RollInRange(MinDiscRadius, MaxDiscRadius, r.radius))
  }

  function RandomDiscs(c: Common, rolls: nat -> DiscRoll): (r: seq<Disc>)
    ensures |r| == NumDiscs
  {
    seq(NumDiscs, i requires 0 <= i => RandomDisc(c, rolls(i)))
  }

  /** Where Update puts the ray before editing it. */
  function ResetStart(c: Common): Vec2 { Vec2(c.screenCenterX, c.screenCenterY) }

  const ResetEnd := Vec2(900.0, 300.0)

  class GameRaycastVsDiscs {
    const common: Common
    const kernels: Kernels
    /** m_rayCastStart and m_rayCastEnd. */
    const ray: RayEditing.RayEditor
    var discs: seq<Disc>

    /** The constructor leaves the ray at its default, both ends at the origin. */
    constructor (common: Common, kernels: Kernels, rolls: nat -> DiscRoll)
      ensures this.common == common && this.kernels == kernels
      ensures ray.start == Zero2 && ray.end == Zero2
      ensures discs == RandomDiscs(common, rolls)
    {
      this.common := common;
      this.kernels := kernels;
      ray := new RayEditing.RayEditor(Zero2, Zero2);
      discs := [];
      new;
      RandomizeDiscs(rolls);
    }

    /**
     * The ray is reset before it is edited, so what the ray is after a frame
     * depends on that frame's input alone: no movement survives into the next
     * frame.
     */
    method Update(f: Frame, rolls: nat -> DiscRoll)
      modifies this, ray
      ensures discs == if WasPressed(f, KeyF8) then RandomDiscs(common, rolls) else old(discs)
      ensures (ray.start, ray.end) == RayEditing.EditedRay(ResetStart(common), ResetEnd, f, false)
    {
      ray.start := ResetStart(common);
      ray.end := ResetEnd;
      if WasPressed(f, KeyF8) {
        RandomizeDiscs(rolls);
      }
      ray.ArrowMovement(f, false);
    }

    method RandomizeDiscs(rolls: nat -> DiscRoll)
      modifies this
      ensures discs == RandomDiscs(common, rolls)
    {
      ghost var full := RandomDiscs(common, rolls);
      discs := [];
      var i := 0;
      while i < NumDiscs
        invariant 0 <= i <= NumDiscs
        invariant discs == full[..i]
      {
        var center := Vec2(RollInRange(0.0, common.screenSizeX, rolls(i).x), RollInRange(0.0, common.screenSizeY, rolls(i).y));
        assert full[i] == Disc(center, RollInRange(MinDiscRadius, MaxDiscRadius, rolls(i).radius));
        assert full[..i + 1] == full[..i] + [full[i]];
        discs := discs + [Disc(center, RollInRange(MinDiscRadius, MaxDiscRadius, rolls(i).radius))];
        i := i + 1;
      }
    }

    /** What the ray reports for each disc, in disc order. */
    function Hits(): (r: seq<RaycastResult<Vec2>>)
      reads this, ray
      ensures |r| == |discs|
    {
      var start, startToEnd, ds := ray.start, Sub(ray.end, ray.start), discs;
      seq(|ds|, i requires 0 <= i < |ds| =>
        kernels.raycastVsDisc(start, kernels.normalized(startToEnd), kernels.length(startToEnd), ds[i].center, ds[i].radius))
    }

    /**
     * The selection loop of DrawRaycast: the reported disc is the lowest index
     * among the hits of minimal impact distance; with no hit, the index stays 0.
     */
    method NearestDisc() returns (didHit: bool, nearestDisc: int, nearestImpact: RaycastResult<Vec2>)
      ensures didHit <==> AnyHit(Hits())
      ensures didHit ==> IsNearest(Hits(), nearestDisc) && nearestImpact == Hits()[nearestDisc]
      ensures !didHit ==> nearestDisc == 0 && nearestImpact == kernels.noImpact
    {
      didHit, nearestDisc, nearestImpact := NearestHit(Hits(), kernels.noImpact, 0);
    }
  }

  /** Every disc of a RandomizeDiscs has a radius in [10, 170]. */
  lemma RandomDiscsRadii(c: Common, rolls: nat -> DiscRoll)
    ensures forall i :: 0 <= i < |RandomDiscs(c, rolls)| ==>
              MinDiscRadius <= RandomDiscs(c, rolls)[i].radius <= MaxDiscRadius
  {
    var ds := RandomDiscs(c, rolls);
    forall i | 0 <= i < |ds| ensures MinDiscRadius <= ds[i].radius <= MaxDiscRadius {
      assert ds[i] == RandomDisc(c, rolls(i));
    }
  }
}
