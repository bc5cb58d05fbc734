/**
 * The raycast-versus-AABB2 demo (GameRaycastVsAABB2s): ten random boxes, an
 * editable ray whose end can be snapped level with or plumb to its start, and
 * the nearest box the ray hits.
 */
module RaycastVsAABB2s {
  import opened Geometry
  import opened Input
  import opened Rng
  import opened Selection
  import opened GameCommon
  import RayEditing

  datatype AABB2 = AABB2(mins: Vec2, maxs: Vec2)

  const NumAABB2s: nat := 10
  const AABB2MinSize: real := 20.0
  const AABB2MaxSize: real := 200.0

  /** The engine routines the demo calls, as uninterpreted function values. */
  datatype Kernels = Kernels(
    raycastVsAABB2: (Vec2, Vec2, real, AABB2) -> RaycastResult<Vec2>,  // (start, direction, maxDist, box)
    normalized: Vec2 -> Vec2,          // Vec2::GetNormalized
    length: Vec2 -> real,              // Vec2::GetLength
    noImpact: RaycastResult<Vec2>)     // a default-constructed RaycastResult2D

  /** The four rolls behind one box: mins x and y, then width and height. */
  datatype BoxRoll = BoxRoll(minX: Fraction, minY: Fraction, width: Fraction, height: Fraction)

  /** One box of RandomizeAABB2s. */
  function RandomBox(c: Common, r: BoxRoll): AABB2
  {
    var mins := Vec2(RollInRange(0.0, c.screenSizeX - AABB2MaxSize, r.minX),
                     RollInRange(0.0, c.screenSizeY - AABB2MaxSize, r.minY));
    AABB2(mins, Add(mins, Vec2(RollInRange(AABB2MinSize, AABB2MaxSize, r.width),
                               RollInRange(AABB2MinSize, AABB2MaxSize, r.height))))
  }

  function RandomBoxes(c: Common, rolls: nat -> BoxRoll): (r: seq<AABB2>)
    ensures |r| == NumAABB2s
  {
    seq(NumAABB2s, i requires 0 <= i => RandomBox(c, rolls(i)))
  }

  class GameRaycastVsAABB2s {
    const common: Common
    const kernels: Kernels
    /** m_rayCastStart and m_rayCastEnd. */
    const ray: RayEditing.RayEditor
    var boxes: seq<AABB2>

    constructor (common: Common, kernels: Kernels, rolls: nat -> BoxRoll)
      ensures this.common == common && this.kernels == kernels
      ensures ray.start == Vec2(common.screenCenterX, common.screenCenterY) && ray.end == Vec2(900.0, 300.0)
      ensures boxes == RandomBoxes(common, rolls)
    {
      this.common := common;
      this.kernels := kernels;
      ray := new RayEditing.RayEditor(Vec2(common.screenCenterX, common.screenCenterY), Vec2(900.0, 300.0));
      boxes := [];
      new;
      RandomizeAABB2s(rolls);
    }

    /** F8 re-rolls the boxes, then the ray is edited with the V/H snaps. */
    method Update(f: Frame, rolls: nat -> BoxRoll)
      modifies this, ray
      ensures boxes == if WasPressed(f, KeyF8) then RandomBoxes(common, rolls) else old(boxes)
      ensures (ray.start, ray.end) == RayEditing.EditedRay(old(ray.start), old(ray.end), f, true)
    {
      if WasPressed(f, KeyF8) {
        RandomizeAABB2s(rolls);
      }
      ray.ArrowMovement(f, true);
    }

    method RandomizeAABB2s(rolls: nat -> BoxRoll)
      modifies this
      ensures boxes == RandomBoxes(common, rolls)
    {
      ghost var full := RandomBoxes(common, rolls);
      boxes := [];
      var i := 0;
      while i < NumAABB2s
        invariant 0 <= i <= NumAABB2s
        invariant boxes == full[..i]
      {
        var mins := Vec2(RollInRange(0.0, common.screenSizeX - AABB2MaxSize, rolls(i).minX),
                         RollInRange(0.0, common.screenSizeY - AABB2MaxSize, rolls(i).minY));
        var maxs := Add(mins, Vec2(RollInRange(AABB2MinSize, AABB2MaxSize, rolls(i).width),
                                   RollInRange(AABB2MinSize, AABB2MaxSize, rolls(i).height)));
        assert full[i] == AABB2(mins, maxs);
        assert full[..i + 1] == full[..i] + [full[i]];
        boxes := boxes + [AABB2(mins, maxs)];
        i := i + 1;
      }
    }

    /** What the ray reports for each box, in box order. */
    function Hits(): (r: seq<RaycastResult<Vec2>>)
      reads this, ray
      ensures |r| == |boxes|
    {
      var start, startToEnd, bs := ray.start, Sub(ray.end, ray.start), boxes;
      seq(|bs|, i requires 0 <= i < |bs| =>
        kernels.raycastVsAABB2(start, kernels.normalized(startToEnd), kernels.length(startToEnd), bs[i]))
    }

    /**
     * The selection loop of DrawRaycast: the reported box is the lowest index
     * among the hits of minimal impact distance; with no hit, the index stays 0.
     */
    method NearestBox() returns (didHit: bool, nearestAABB2: int, nearestImpact: RaycastResult<Vec2>)
      ensures didHit <==> AnyHit(Hits())
      ensures didHit ==> IsNearest(Hits(), nearestAABB2) && nearestImpact == Hits()[nearestAABB2]
      ensures !didHit ==> nearestAABB2 == 0 && nearestImpact == kernels.noImpact
    {
      didHit, nearestAABB2, nearestImpact := NearestHit(Hits(), kernels.noImpact, 0);
    }
  }

  /**
   * Every rolled box is between 20 and 200 wide and high, so its maxs exceed
   * its mins on both axes; its mins lie in [0, screen size - 200], so the
   * whole box lies on screen on both axes.
   */
  lemma RandomBoxExtents(c: Common, r: BoxRoll)
    ensures var b := RandomBox(c, r);
            AABB2MinSize <= b.maxs.x - b.mins.x <= AABB2MaxSize &&
            AABB2MinSize <= b.maxs.y - b.mins.y <= AABB2MaxSize &&
            b.mins.x < b.maxs.x && b.mins.y < b.maxs.y
    ensures var b := RandomBox(c, r);
            AABB2MaxSize <= c.screenSizeX ==> 0.0 <= b.mins.x <= c.screenSizeX - AABB2MaxSize && b.maxs.x <= c.screenSizeX
    ensures var b := RandomBox(c, r);
            AABB2MaxSize <= c.screenSizeY ==> 0.0 <= b.mins.y <= c.screenSizeY - AABB2MaxSize && b.maxs.y <= c.screenSizeY
  {
  }

  /** Every box of a RandomizeAABB2s, all ten of them, has positive extents. */
  lemma RandomBoxesExtents(c: Common, rolls: nat -> BoxRoll)
    ensures forall i :: 0 <= i < |RandomBoxes(c, rolls)| ==>
              RandomBoxes(c, rolls)[i].mins.x < RandomBoxes(c, rolls)[i].maxs.x &&
              RandomBoxes(c, rolls)[i].mins.y < RandomBoxes(c, rolls)[i].maxs.y
  {
    forall i | 0 <= i < |RandomBoxes(c, rolls)| {
      RandomBoxExtents(c, rolls(i));
    }
  }
}
