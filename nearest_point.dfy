/**
 * The nearest-point demo (GameNearestPoint): a player point moved by keys or
 * the mouse, the nearest point to it on each of seven shapes, and the closest
 * of those seven.
 */
module NearestPoint {
  import opened Geometry
  import opened Input
  import opened Selection
  import opened GameCommon

  datatype AABB2 = AABB2(mins: Vec2, maxs: Vec2)

  datatype OBB2 = OBB2(center: Vec2, iBasisNormal: Vec2, halfDimensions: Vec2)

  /** The seven shapes of the demo, as RandomShapes leaves them. */
  datatype Shapes = Shapes(
    discCenter: Vec2, discRadius: real,
    alignedBox: AABB2,
    orientedBox: OBB2,
    boneStart: Vec2, boneEnd: Vec2, capsuleRadius: real,
    ccw0: Vec2, ccw1: Vec2, ccw2: Vec2,
    start: Vec2, end: Vec2, thickness: real,
    infiniteStart: Vec2, infiniteEnd: Vec2, infiniteThickness: real)

  /** The engine's nearest-point routines, as uninterpreted function values. */
  datatype Kernels = Kernels(
    nearestOnDisc: (Vec2, Vec2, real) -> Vec2,              // GetNearestPointOnDisc2D
    nearestOnAABB: (Vec2, AABB2) -> Vec2,                   // GetNearestPointOnAABB2D
    nearestOnOBB: (Vec2, OBB2) -> Vec2,                     // GetNearestPointOnOBB2D
    nearestOnCapsule: (Vec2, Vec2, Vec2, real) -> Vec2,     // GetNearestPointOnCapsule2D
    nearestOnTriangle: (Vec2, Vec2, Vec2, Vec2) -> Vec2,    // GetNearestPointOnTriangle2D
    nearestOnSegment: (Vec2, Vec2, Vec2) -> Vec2,           // GetNearestPointOnLineSegment2D
    nearestOnInfiniteLine: (Vec2, Vec2, Vec2) -> Vec2)      // GetNearestPointOnInfiniteLine2D

  /** Squared distance to the player point, the measure GetClosestPointToPlayer minimises. */
  function DistanceTo(player: Vec2): Vec2 -> real
  {
    p => DistSq(p, player)
  }

  /** Where PlayerMovement's keys take the point, each of the four directions at most once. */
  function KeyMoved(p: Vec2, f: Frame, movement: real): Vec2
  {
    var up := IsDown(f, KeyUp) || IsDown(f, KeyE);
    var down := IsDown(f, KeyDown) || IsDown(f, KeyD);
    var left := IsDown(f, KeyLeft) || IsDown(f, KeyS);
    var right := IsDown(f, KeyRight) || IsDown(f, KeyF);
    Vec2(p.x + (if right then movement else 0.0) - (if left then movement else 0.0),
         p.y + (if up then movement else 0.0) - (if down then movement else 0.0))
  }

  class GameNearestPoint {
    const common: Common
    const kernels: Kernels
    var playerPoint: Vec2
    var shapes: Shapes
    var nearestDiscPoint: Vec2
    var nearestAABBPoint: Vec2
    var nearestOBBPoint: Vec2
    var nearestCapsulePoint: Vec2
    var nearestTrianglePoint: Vec2
    var nearestLineSegmentPoint: Vec2
    var nearestInfiniteLinePoint: Vec2
    var closestPointToPlayer: Vec2

    /** `initial` stands for the first RandomShapes. */
    constructor (common: Common, kernels: Kernels, initial: Shapes)
      ensures this.common == common && this.kernels == kernels && shapes == initial
      ensures playerPoint == Vec2(common.screenCenterX, common.screenCenterY)
    {
      this.common := common;
      this.kernels := kernels;
      shapes := initial;
      playerPoint := Vec2(common.screenCenterX, common.screenCenterY);
      nearestDiscPoint, nearestAABBPoint, nearestOBBPoint, nearestCapsulePoint := Zero2, Zero2, Zero2, Zero2;
      nearestTrianglePoint, nearestLineSegmentPoint, nearestInfiniteLinePoint := Zero2, Zero2, Zero2;
      closestPointToPlayer := Zero2;
    }

    /** The seven nearest points in the order GetClosestPointToPlayer lists them. */
    function Points(): (r: seq<Vec2>)
      reads this
      ensures |r| == 7
    {
      [nearestDiscPoint, nearestAABBPoint, nearestOBBPoint, nearestCapsulePoint,
       nearestTrianglePoint, nearestLineSegmentPoint, nearestInfiniteLinePoint]
    }

    /** The seven nearest points to p on the current shapes. */
    function NearestPointsTo(p: Vec2): (r: seq<Vec2>)
      reads this
      ensures |r| == 7
    {
      var s := shapes;
      [kernels.nearestOnDisc(p, s.discCenter, s.discRadius),
       kernels.nearestOnAABB(p, s.alignedBox),
       kernels.nearestOnOBB(p, s.orientedBox),
       kernels.nearestOnCapsule(p, s.boneStart, s.boneEnd, s.capsuleRadius),
       kernels.nearestOnTriangle(p, s.ccw0, s.ccw1, s.ccw2),
       kernels.nearestOnSegment(p, s.start, s.end),
       kernels.nearestOnInfiniteLine(p, s.infiniteStart, s.infiniteEnd)]
    }

    /**
     * One frame: F8 puts new shapes in place (`rolled` stands for what
     * RandomShapes rolls), then the player moves, then all seven nearest points
     * are recomputed from the moved point and the closest is chosen.
     */
    method Update(f: Frame, deltaSeconds: real, rolled: Shapes)
      modifies this
      ensures shapes == if WasPressed(f, KeyF8) then rolled else old(shapes)
      ensures playerPoint == if IsDown(f, LeftMouse) then f.cursor
                             else KeyMoved(old(playerPoint), f, common.playerSpeed * deltaSeconds)
      ensures Points() == NearestPointsTo(playerPoint)
      ensures AnyBelowSentinel(Points(), DistanceTo(playerPoint)) ==>
                exists k :: IsClosest(Points(), DistanceTo(playerPoint), k) && closestPointToPlayer == Points()[k]
      ensures !AnyBelowSentinel(Points(), DistanceTo(playerPoint)) ==> closestPointToPlayer == Zero2
    {
      if WasPressed(f, KeyF8) {
        shapes := rolled;
      }
      PlayerMovement(f, deltaSeconds);
      GetNearestPointCheck();
    }

    /** Keys move the player by speed times dt per axis; a held left button puts it at the cursor. */
    method PlayerMovement(f: Frame, deltaSeconds: real)
      modifies this`playerPoint
      ensures playerPoint == if IsDown(f, LeftMouse) then f.cursor
                             else KeyMoved(old(playerPoint), f, common.playerSpeed * deltaSeconds)
      ensures shapes == old(shapes)
      ensures Points() == old(Points()) && closestPointToPlayer == old(closestPointToPlayer)
    {
      var movement := common.playerSpeed * deltaSeconds;
      if IsDown(f, KeyUp) || IsDown(f, KeyE) {
        playerPoint := playerPoint.(y := playerPoint.y + movement);
      }
      if IsDown(f, KeyDown) || IsDown(f, KeyD) {
        playerPoint := playerPoint.(y := playerPoint.y - movement);
      }
      if IsDown(f, KeyLeft) || IsDown(f, KeyS) {
        playerPoint := playerPoint.(x := playerPoint.x - movement);
      }
      if IsDown(f, KeyRight) || IsDown(f, KeyF) {
        playerPoint := playerPoint.(x := playerPoint.x + movement);
      }
      if IsDown(f, LeftMouse) {
        playerPoint := f.cursor;
      }
    }

    method GetNearestPointCheck()
      modifies this
      ensures playerPoint == old(playerPoint) && shapes == old(shapes)
      ensures Points() == NearestPointsTo(playerPoint)
      ensures AnyBelowSentinel(Points(), DistanceTo(playerPoint)) ==>
                exists k :: IsClosest(Points(), DistanceTo(playerPoint), k) && closestPointToPlayer == Points()[k]
      ensures !AnyBelowSentinel(Points(), DistanceTo(playerPoint)) ==> closestPointToPlayer == Zero2
    {
      var s := shapes;
      nearestDiscPoint := kernels.nearestOnDisc(playerPoint, s.discCenter, s.discRadius);
      nearestAABBPoint := kernels.nearestOnAABB(playerPoint, s.alignedBox);
      nearestOBBPoint := kernels.nearestOnOBB(playerPoint, s.orientedBox);
      nearestCapsulePoint := kernels.nearestOnCapsule(playerPoint, s.boneStart, s.boneEnd, s.capsuleRadius);
      nearestTrianglePoint := kernels.nearestOnTriangle(playerPoint, s.ccw0, s.ccw1, s.ccw2);
      nearestLineSegmentPoint := kernels.nearestOnSegment(playerPoint, s.start, s.end);
      nearestInfiniteLinePoint := kernels.nearestOnInfiniteLine(playerPoint, s.infiniteStart, s.infiniteEnd);
      GetClosestPointToPlayer();
    }

    /**
     * The first of the seven points whose squared distance to the player is
     * minimal among those below 99999; when one is, no candidate is closer.
     */
    method GetClosestPointToPlayer()
      modifies this
      ensures playerPoint == old(playerPoint) && shapes == old(shapes) && Points() == old(Points())
      ensures AnyBelowSentinel(Points(), DistanceTo(playerPoint)) ==>
                exists k :: IsClosest(Points(), DistanceTo(playerPoint), k) && closestPointToPlayer == Points()[k]
      ensures AnyBelowSentinel(Points(), DistanceTo(playerPoint)) ==>
                forall j :: 0 <= j < 7 ==> DistSq(closestPointToPlayer, playerPoint) <= DistSq(Points()[j], playerPoint)
      ensures !AnyBelowSentinel(Points(), DistanceTo(playerPoint)) ==> closestPointToPlayer == Zero2
    {
      var closest := ClosestCandidate(Points(), DistanceTo(playerPoint), Zero2);
      closestPointToPlayer := closest;
    }
  }

  /**
   * Each of the four directions moves the point by exactly the frame's
   * movement on its axis; an arrow and its letter together count once, and
   * opposite directions cancel.
   */
  lemma KeyMovesPerAxis(p: Vec2, f: Frame, m: real)
    ensures var q := KeyMoved(p, f, m);
            (q.x - p.x == m || q.x - p.x == 0.0 || q.x - p.x == -m) &&
            (q.y - p.y == m || q.y - p.y == 0.0 || q.y - p.y == -m)
    ensures IsDown(f, KeyUp) && IsDown(f, KeyE) && !IsDown(f, KeyDown) && !IsDown(f, KeyD) ==>
              KeyMoved(p, f, m).y == p.y + m
    ensures (IsDown(f, KeyLeft) || IsDown(f, KeyS)) && (IsDown(f, KeyRight) || IsDown(f, KeyF)) ==>
              KeyMoved(p, f, m).x == p.x
  {
  }
}
