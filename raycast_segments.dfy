/**
 * The raycast-versus-line-segments demo (GameRaycastVsLinesegments): ten
 * random segments, none longer than 200, an editable ray, and the nearest
 * segment the ray hits.
 */
module RaycastVsLineSegments {
  import opened Geometry
  import opened Input
  import opened Rng
  import opened Selection
  import opened GameCommon
  import RayEditing

  datatype LineSegment = LineSegment(start: Vec2, end: Vec2)

  const NumLines: nat := 10
  const LineMaxLength: real := 200.0

  /** The engine routines the demo calls, as uninterpreted function values. */
  datatype Kernels = Kernels(
    raycastVsLineSegment: (Vec2, Vec2, real, Vec2, Vec2) -> RaycastResult<Vec2>,  // (start, direction, maxDist, lineStart, lineEnd)
    normalized: Vec2 -> Vec2,          // Vec2::GetNormalized
    length: Vec2 -> real,              // Vec2::GetLength
    noImpact: RaycastResult<Vec2>)     // a default-constructed RaycastResult2D

  /** The four rolls behind one segment: start x and y, end x and y. */
  datatype SegmentRoll = SegmentRoll(startX: Fraction, startY: Fraction, endX: Fraction, endY: Fraction)

  function RolledPoint(c: Common, x: Fraction, y: Fraction): Vec2
  {
    Vec2(RollInRange(0.0, c.screenSizeX, x), RollInRange(0.0, c.screenSizeY, y))
  }

  /**
   * One segment of RandomizeLineSegments: the rolled end is pulled in along
   * the segment's direction to LINE_MAX_LENGTH when the segment is longer.
   */
  function RandomSegment(c: Common, k: Kernels, r: SegmentRoll): LineSegment
  {
    var start := RolledPoint(c, r.startX, r.startY);
    var end := RolledPoint(c, r.endX, r.endY);
    var direction := Sub(end, start);
    var len := k.length(direction);
    if len > LineMaxLength then
      LineSegment(start, Add(start, Scale(Scale(direction, 1.0 / len), LineMaxLength)))
    else
      LineSegment(start, end)
  }

  function RandomSegments(c: Common, k: Kernels, rolls: nat -> SegmentRoll): (r: seq<LineSegment>)
    ensures |r| == NumLines
  {
    seq(NumLines, i requires 0 <= i => RandomSegment(c, k, rolls(i)))
  }

  class GameRaycastVsLinesegments {
    const common: Common
    const kernels: Kernels
    /** m_rayCastStart and m_rayCastEnd. */
    const ray: RayEditing.RayEditor
    var segments: seq<LineSegment>

    constructor (common: Common, kernels: Kernels, rolls: nat -> SegmentRoll)
      ensures this.common == common && this.kernels == kernels
      ensures ray.start == Vec2(common.screenCenterX, common.screenCenterY) && ray.end == Vec2(900.0, 300.0)
      ensures segments == RandomSegments(common, kernels, rolls)
    {
      this.common := common;
      this.kernels := kernels;
      ray := new RayEditing.RayEditor(Vec2(common.screenCenterX, common.screenCenterY), Vec2(900.0, 300.0));
      segments := [];
      new;
      RandomizeLineSegments(rolls);
    }

    /** F8 re-rolls the segments, then the ray is edited. */
    method Update(f: Frame, rolls: nat -> SegmentRoll)
      modifies this, ray
      ensures segments == if WasPressed(f, KeyF8) then RandomSegments(common, kernels, rolls) else old(segments)
      ensures (ray.start, ray.end) == RayEditing.EditedRay(old(ray.start), old(ray.end), f, false)
    {
      if WasPressed(f, KeyF8) {
        RandomizeLineSegments(rolls);
      }
      ray.ArrowMovement(f, false);
    }

    method RandomizeLineSegments(rolls: nat -> SegmentRoll)
      modifies this
      ensures segments == RandomSegments(common, kernels, rolls)
    {
      ghost var full := RandomSegments(common, kernels, rolls);
      segments := [];
      var i := 0;
      while i < NumLines
        invariant 0 <= i <= NumLines
        invariant segments == full[..i]
      {
        var start := RolledPoint(common, rolls(i).startX, rolls(i).startY);
        var end := RolledPoint(common, rolls(i).endX, rolls(i).endY);
        var direction := Sub(end, start);
        var len := kernels.length(direction);
        if len > LineMaxLength {
          direction := Scale(direction, 1.0 / len);
          direction := Scale(direction, LineMaxLength);
          end := Add(start, direction);
        }
        assert full[i] == LineSegment(start, end);
        assert full[..i + 1] == full[..i] + [full[i]];
        segments := segments + [LineSegment(start, end)];
        i := i + 1;
      }
    }

    /** What the ray reports for each segment, in segment order. */
    function Hits(): (r: seq<RaycastResult<Vec2>>)
      reads this, ray
      ensures |r| == |segments|
    {
      var start, startToEnd, lines := ray.start, Sub(ray.end, ray.start), segments;
      seq(|lines|, i requires 0 <= i < |lines| =>
        kernels.raycastVsLineSegment(start, kernels.normalized(startToEnd), kernels.length(startToEnd),
                                     lines[i].start, lines[i].end))
    }

    /**
     * The selection loop of DrawRaycast: the reported segment is the lowest
     * index among the hits of minimal impact distance; with no hit, the "hit"
     * branch is not taken and the index stays 0.
     */
    method NearestSegment() returns (didHit: bool, nearestLine: int, nearestImpact: RaycastResult<Vec2>)
      ensures didHit <==> AnyHit(Hits())
      ensures didHit ==> IsNearest(Hits(), nearestLine) && nearestImpact == Hits()[nearestLine]
      ensures !didHit ==> nearestLine == 0 && nearestImpact == kernels.noImpact
    {
      didHit, nearestLine, nearestImpact := NearestHit(Hits(), kernels.noImpact, 0);
    }
  }

  /**
   * A rolled segment keeps its rolled start. A segment no longer than 200
   * keeps its rolled end; a longer one keeps its direction (its new span is a
   * positive multiple of the rolled one) and, when `length` is the true
   * length, gets length exactly 200.
   */
  lemma RandomSegmentClipped(c: Common, k: Kernels, r: SegmentRoll)
    ensures var s := RandomSegment(c, k, r);
            var start := RolledPoint(c, r.startX, r.startY);
            var end := RolledPoint(c, r.endX, r.endY);
            var len := k.length(Sub(end, start));
            s.start == start &&
            (len <= LineMaxLength ==> s.end == end) &&
            (len > LineMaxLength ==> Sub(s.end, s.start) == Scale(Sub(end, start), LineMaxLength / len) &&
                                      LineMaxLength / len > 0.0) &&
            (len > LineMaxLength && len * len == DistSq(end, start) ==> DistSq(s.end, s.start) == LineMaxLength * LineMaxLength)
  {
    var s := RandomSegment(c, k, r);
    var start := RolledPoint(c, r.startX, r.startY);
    var end := RolledPoint(c, r.endX, r.endY);
    var d := Sub(end, start);
    var len := k.length(d);
    if len > LineMaxLength {
      var q := LineMaxLength / len;
      assert q * len == LineMaxLength;
      var v := Scale(Scale(d, 1.0 / len), LineMaxLength);
      assert v.x == d.x * q && v.y == d.y * q;
      assert Sub(s.end, s.start) == v;
      if len * len == DistSq(end, start) {
        calc {
          DistSq(s.end, s.start);
          v.x * v.x + v.y * v.y;
          (d.x * q) * (d.x * q) + (d.y * q) * (d.y * q);
          { assert (d.x * q) * (d.x * q) == (d.x * d.x) * (q * q);
            assert (d.y * q) * (d.y * q) == (d.y * d.y) * (q * q); }
          (d.x * d.x + d.y * d.y) * (q * q);
          (len * len) * (q * q);
          { assert (len * len) * (q * q) == (q * len) * (q * len); }
          LineMaxLength * LineMaxLength;
        }
      }
    }
  }
}
