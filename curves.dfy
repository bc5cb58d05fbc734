/**
 * The curves demo (Game2DCurves): a table of fifteen easing functions
 * browsed with W and E, a random cubic Bezier curve and a random spline,
 * a subdivision count changed with M and N, and a point that moves along
 * the spline at constant speed.
 *
 * The easing functions, the Bezier and spline evaluation and the pane
 * arithmetic of InitializePanes belong to the engine; the panes are given
 * to the model and a spline is modelled by its control points.
 */
module Curves {
  import opened Geometry
  import opened Input
  import opened Rng

  datatype AABB2 = AABB2(mins: Vec2, maxs: Vec2)

  datatype CubicBezier = CubicBezier(a: Vec2, b: Vec2, c: Vec2, d: Vec2)

  /** The names of the entries of g_easingFunctions, in table order. */
  const EasingNames: seq<string> := [
    "SmoothStart2", "SmoothStart3", "SmoothStart4", "SmoothStart5", "SmoothStart6",
    "SmoothStop2", "SmoothStop3", "SmoothStop4", "SmoothStop5", "SmoothStop6",
    "SmoothStep3", "SmoothStep5", "Hesitate3", "Hesitate5", "CustomFunky"]

  const NumEasingFuncs: int := |EasingNames|

  const MinSubdivisions: int := 2
  const MaxSubdivisions: int := 2048

  // ---------------------------------------------------------------------
  // Browsing the easing table.

  /**
   * GetNextEasingFunction's new index. C++ `%` truncates toward zero; for an
   * index of the table the operand is never negative, so it agrees with
   * Dafny's `%`.
   */
  function NextEasing(i: int): (r: int)
    requires 0 <= i < NumEasingFuncs
    ensures 0 <= r < NumEasingFuncs
    ensures i < NumEasingFuncs - 1 ==> r == i + 1
    ensures i == NumEasingFuncs - 1 ==> r == 0
  {
    (i + 1) % NumEasingFuncs
  }

  /** GetPreviousEasingFunction's new index; the operand is never negative for a table index. */
  function PreviousEasing(i: int): (r: int)
    requires 0 <= i < NumEasingFuncs
    ensures 0 <= r < NumEasingFuncs
    ensures 0 < i ==> r == i - 1
    ensures i == 0 ==> r == NumEasingFuncs - 1
  {
    (i - 1 + NumEasingFuncs) % NumEasingFuncs
  }

  /** Next and previous undo each other, in either order. */
  lemma NextPreviousInverse(i: int)
    requires 0 <= i < NumEasingFuncs
    ensures PreviousEasing(NextEasing(i)) == i
    ensures NextEasing(PreviousEasing(i)) == i
  {
  }

  /** NextAndPreviousInputs: W steps back, then E steps forward. */
  function BrowsedEasing(i: int, f: Frame): (r: int)
    requires 0 <= i < NumEasingFuncs
    ensures 0 <= r < NumEasingFuncs
    ensures WasPressed(f, KeyW) == WasPressed(f, KeyE) ==> r == i
    ensures WasPressed(f, KeyW) && !WasPressed(f, KeyE) ==> r == PreviousEasing(i)
    ensures WasPressed(f, KeyE) && !WasPressed(f, KeyW) ==> r == NextEasing(i)
  {
    var afterW := if WasPressed(f, KeyW) then PreviousEasing(i) else i;
    NextPreviousInverse(i);
    if WasPressed(f, KeyE) then NextEasing(afterW) else afterW
  }

  // ---------------------------------------------------------------------
  // The subdivision count.

  function Pow2(k: nat): (r: nat)
    ensures r >= 1
  {
    if k == 0 then 1 else 2 * Pow2(k - 1)
  }

  /** The values m_numSubdivisions can take: 2, 4, ..., 2048. */
  ghost predicate IsSubdivisionCount(n: int)
  {
    exists k: nat :: 1 <= k <= 11 && n == Pow2(k)
  }

  /** M: double, capped at 2048. */
  function Doubled(n: int): (r: int)
    requires IsSubdivisionCount(n)
    ensures IsSubdivisionCount(r)
    ensures n < MaxSubdivisions ==> r == 2 * n
    ensures n == MaxSubdivisions ==> r == n
  {
    SubdivisionCountSteps(n);
    if n * 2 > MaxSubdivisions then MaxSubdivisions else n * 2
  }

  /** N: halve (integer division), with a floor of 2. */
  function Halved(n: int): (r: int)
    requires IsSubdivisionCount(n)
    ensures IsSubdivisionCount(r)
    ensures n > MinSubdivisions ==> 2 * r == n
    ensures n == MinSubdivisions ==> r == n
  {
    SubdivisionCountSteps(n);
    if n / 2 < MinSubdivisions then MinSubdivisions else n / 2
  }

  /** A count below the cap doubles to a count; a count above the floor halves exactly to one. */
  lemma SubdivisionCountSteps(n: int)
    requires IsSubdivisionCount(n)
    ensures MinSubdivisions <= n <= MaxSubdivisions
    ensures n < MaxSubdivisions ==> IsSubdivisionCount(2 * n) && 2 * n <= MaxSubdivisions
    ensures n > MinSubdivisions ==> IsSubdivisionCount(n / 2) && 2 * (n / 2) == n && MinSubdivisions <= n / 2
  {
    var k: nat :| 1 <= k <= 11 && n == Pow2(k);
    Pow2Below(1, k);
    Pow2Below(k, 11);
    if k < 11 {
      assert 2 * n == Pow2(k + 1);
    }
    if k > 1 {
      assert n == 2 * Pow2(k - 1);
      assert n / 2 == Pow2(k - 1);
    }
  }

  lemma {:induction false} Pow2Below(j: nat, k: nat)
    requires j <= k
    ensures Pow2(j) <= Pow2(k)
    ensures j < k ==> 2 * Pow2(j) <= Pow2(k)
    decreases k
  {
    if j < k {
      Pow2Below(j, k - 1);
    }
  }

  /** IncreaseDecreaseSubdivisions: M, then N. */
  function Subdivided(n: int, f: Frame): (r: int)
    requires IsSubdivisionCount(n)
    ensures IsSubdivisionCount(r)
  {
    var afterM := if WasPressed(f, KeyM) then Doubled(n) else n;
    if WasPressed(f, KeyN) then Halved(afterM) else afterM
  }

  /** M and N in one frame restore any count below the cap; the cap itself drops to 1024. */
  lemma MThenNRestores(n: int, f: Frame)
    requires IsSubdivisionCount(n) && WasPressed(f, KeyM) && WasPressed(f, KeyN)
    ensures n < MaxSubdivisions ==> Subdivided(n, f) == n
    ensures n == MaxSubdivisions ==> Subdivided(n, f) == 1024
  {
    var k: nat :| 1 <= k <= 11 && n == Pow2(k);
    Pow2Below(k, 11);
  }

  /** Every subdivision count lies in [2, 2048]. */
  lemma SubdivisionCountBounds(n: int)
    requires IsSubdivisionCount(n)
    ensures MinSubdivisions <= n <= MaxSubdivisions && n % 2 == 0
  {
    var k: nat :| 1 <= k <= 11 && n == Pow2(k);
    Pow2Below(1, k);
    Pow2Below(k, 11);
    assert n == 2 * Pow2(k - 1);
  }

  // ---------------------------------------------------------------------
  // Random curves.

  datatype PointRoll = PointRoll(x: Fraction, y: Fraction)

  /**
   * The rolls of one RandomizeCurves: the easing index and the number of
   * control points as raw integer draws, the Bezier's four points, and per
   * control point the extra x offset (a roll in [20, 200]) and the y roll.
   */
  datatype CurveRolls = CurveRolls(easing: nat, a: PointRoll, b: PointRoll, c: PointRoll, d: PointRoll,
                                   controlPoints: nat, offsetX: nat -> Fraction, y: nat -> Fraction)

  function RolledPoint(pane: AABB2, r: PointRoll): Vec2
  {
    Vec2(RollInRange(pane.mins.x, pane.maxs.x, r.x), RollInRange(pane.mins.y, pane.maxs.y, r.y))
  }

  function RolledBezier(pane: AABB2, rolls: CurveRolls): CubicBezier
  {
    CubicBezier(RolledPoint(pane, rolls.a), RolledPoint(pane, rolls.b),
                RolledPoint(pane, rolls.c), RolledPoint(pane, rolls.d))
  }

  function ControlPointCount(rolls: CurveRolls): (n: int)
    ensures 4 <= n <= 6
  {
    RollIntInRange(4, 6, rolls.controlPoints)
  }

  /** The horizontal step: the pane width over the point count, minus one. */
  function StepX(pane: AABB2, rolls: CurveRolls): real
  {
    (pane.maxs.x - pane.mins.x) / ControlPointCount(rolls) as real - 1.0
  }

  /** The spline's control points, one per loop iteration, in index order. */
  function SplinePoints(pane: AABB2, rolls: CurveRolls): seq<Vec2>
  {
    var stepX := StepX(pane, rolls);
    seq(ControlPointCount(rolls), i requires 0 <= i =>
      Vec2(pane.mins.x + i as real * stepX + RollInRange(20.0, 200.0, rolls.offsetX(i)),
           RollInRange(pane.mins.y, pane.maxs.y, rolls.y(i))))
  }

  /** The spline loop of RandomizeCurves: one control point pushed per iteration. */
  method RollSplinePoints(pane: AABB2, rolls: CurveRolls) returns (points: seq<Vec2>)
    ensures points == SplinePoints(pane, rolls)
  {
    var controlPoints := RollIntInRange(4, 6, rolls.controlPoints);
    var stepX := (pane.maxs.x - pane.mins.x) / controlPoints as real - 1.0;
    ghost var full := SplinePoints(pane, rolls);
    points := [];
    for i := 0 to controlPoints
      invariant points == full[..i]
    {
      var xPosition := pane.mins.x + i as real * stepX + RollInRange(20.0, 200.0, rolls.offsetX(i));
      var yPosition := RollInRange(pane.mins.y, pane.maxs.y, rolls.y(i));
      assert full[i] == Vec2(xPosition, yPosition);
      assert full[..i + 1] == full[..i] + [full[i]];
      points := points + [Vec2(xPosition, yPosition)];
    }
    assert full[..controlPoints] == full;
  }
  /**
   * The spline has four to six points; point i sits 20 to 200 units right of
   * i steps into the pane and, for a well-formed pane, within its height.
   */
  lemma SplinePointsPlaced(pane: AABB2, rolls: CurveRolls)
    ensures var p := SplinePoints(pane, rolls);
            4 <= |p| <= 6 &&
            forall i :: 0 <= i < |p| ==>
              pane.mins.x + i as real * StepX(pane, rolls) + 20.0 <= p[i].x <= pane.mins.x + i as real * StepX(pane, rolls) + 200.0 &&
              (pane.mins.y <= pane.maxs.y ==> pane.mins.y <= p[i].y <= pane.maxs.y)
  {
    var p := SplinePoints(pane, rolls);
    forall i | 0 <= i < |p|
      ensures pane.mins.x + i as real * StepX(pane, rolls) + 20.0 <= p[i].x <= pane.mins.x + i as real * StepX(pane, rolls) + 200.0
      ensures pane.mins.y <= pane.maxs.y ==> pane.mins.y <= p[i].y <= pane.maxs.y
    {
      var offset := RollInRange(20.0, 200.0, rolls.offsetX(i));
      var y := RollInRange(pane.mins.y, pane.maxs.y, rolls.y(i));
      assert p[i] == Vec2(pane.mins.x + i as real * StepX(pane, rolls) + offset, y);
    }
  }

  /** When a step is wider than the offset range (180 units), the points run strictly left to right. */
  lemma SplinePointsIncreasing(pane: AABB2, rolls: CurveRolls)
    requires StepX(pane, rolls) > 180.0
    ensures var p := SplinePoints(pane, rolls);
            forall i :: 0 <= i < |p| - 1 ==> p[i].x < p[i + 1].x
  {
    var p := SplinePoints(pane, rolls);
    var stepX := StepX(pane, rolls);
    SplinePointsPlaced(pane, rolls);
    forall i | 0 <= i < |p| - 1
      ensures p[i].x < p[i + 1].x
    {
      var lo := pane.mins.x + i as real * stepX;
      assert p[i].x <= lo + 200.0;
      assert (i + 1) as real * stepX == i as real * stepX + stepX;
      assert lo + stepX + 20.0 <= p[i + 1].x;
    }
  }

  // ---------------------------------------------------------------------
  // The constant-speed point on the spline.

  function Sum(s: seq<real>): real
  {
    if |s| == 0 then 0.0 else Sum(s[..|s| - 1]) + s[|s| - 1]
  }

  /** The distance along the curve at the start of segment k. */
  function StartOf(lengths: seq<real>, k: int): real
    requires 0 <= k <= |lengths|
  {
    Sum(lengths[..k])
  }

  /** The distance along the curve at the end of segment k. */
  function EndOf(lengths: seq<real>, k: int): real
    requires 0 <= k < |lengths|
  {
    Sum(lengths[..k + 1])
  }

  /** A segment ends where the next one starts, its own length after its start. */
  lemma EndOfStep(lengths: seq<real>, k: int)
    requires 0 <= k < |lengths|
    ensures EndOf(lengths, k) == StartOf(lengths, k) + lengths[k]
    ensures EndOf(lengths, k) == StartOf(lengths, k + 1)
  {
    assert lengths[..k + 1][..k] == lengths[..k];
  }

  lemma {:induction false} SumNonNegative(s: seq<real>)
    requires forall i :: 0 <= i < |s| ==> s[i] >= 0.0
    ensures Sum(s) >= 0.0
  {
    if |s| > 0 {
      SumNonNegative(s[..|s| - 1]);
    }
  }

  /** Segment k is the first whose end lies at or beyond distance d along the curve. */
  ghost predicate FirstReach(lengths: seq<real>, d: real, k: int)
  {
    0 <= k < |lengths| && EndOf(lengths, k) >= d &&
    forall j :: 0 <= j < k ==> EndOf(lengths, j) < d
  }

  /** No segment end reaches distance d. */
  ghost predicate NoneReach(lengths: seq<real>, d: real)
  {
    forall k :: 0 <= k < |lengths| ==> EndOf(lengths, k) < d
  }

  /** The curve parameter of distance d inside segment k: whole sections before it plus the fraction within. */
  function SectionParameter(lengths: seq<real>, d: real, k: nat, sections: int): real
    requires k < |lengths| && lengths[k] != 0.0 && sections != 0
  {
    (k as real + (d - StartOf(lengths, k)) / lengths[k]) / sections as real
  }

  /**
   * The search's answer for distance d: the parameter inside the first
   * segment that reaches d, or 0 when no segment does.
   */
  ghost predicate IsSearchResult(lengths: seq<real>, d: real, sections: int, paraVal: real)
    requires sections > 0
  {
    (NoneReach(lengths, d) ==> paraVal == 0.0) &&
    forall k :: FirstReach(lengths, d, k) ==>
      lengths[k] != 0.0 && paraVal == SectionParameter(lengths, d, k, sections)
  }

  /**
   * The segment search of AddVertsForSplineCurves: walk the segments with a
   * running travelled distance and stop at the first whose end reaches the
   * distance; the parameter stays 0 when none does. Only the segment the
   * search stops at is divided by, so only its length must be nonzero.
   */
  method ConstantSpeedParameter(lengths: seq<real>, distanceAlongCurve: real, numCurveSections: int)
    returns (paraVal: real)
    requires numCurveSections > 0
    requires forall k :: FirstReach(lengths, distanceAlongCurve, k) ==> lengths[k] != 0.0
    ensures IsSearchResult(lengths, distanceAlongCurve, numCurveSections, paraVal)
  {
    var traveledDistance := 0.0;
    paraVal := 0.0;
    var segmentIndex := 0;
    while segmentIndex < |lengths|
      invariant 0 <= segmentIndex <= |lengths|
      invariant traveledDistance == StartOf(lengths, segmentIndex)
      invariant forall j :: 0 <= j < segmentIndex ==> EndOf(lengths, j) < distanceAlongCurve
      invariant paraVal == 0.0
    {
      EndOfStep(lengths, segmentIndex);
      if traveledDistance + lengths[segmentIndex] >= distanceAlongCurve {
        assert FirstReach(lengths, distanceAlongCurve, segmentIndex);
        var remainingDistance := distanceAlongCurve - traveledDistance;
        var t := remainingDistance / lengths[segmentIndex];
        paraVal := (segmentIndex as real + t) / numCurveSections as real;
        FirstReachUnique(lengths, distanceAlongCurve, segmentIndex);
        break;
      }
      traveledDistance := traveledDistance + lengths[segmentIndex];
      segmentIndex := segmentIndex + 1;
    }
  }

  /** At most one segment is the first to reach a distance. */
  lemma FirstReachUnique(lengths: seq<real>, d: real, k: int)
    requires FirstReach(lengths, d, k)
    ensures forall m :: FirstReach(lengths, d, m) ==> m == k
  {
  }

  /** Some segment reaches d exactly when not NoneReach, and then a first one exists. */
  lemma FirstReachExists(lengths: seq<real>, d: real)
    requires !NoneReach(lengths, d)
    ensures exists k :: FirstReach(lengths, d, k)
  {
    var k :| 0 <= k < |lengths| && EndOf(lengths, k) >= d;
    var m := 0;
    while EndOf(lengths, m) < d
      invariant 0 <= m <= k
      invariant forall j :: 0 <= j < m ==> EndOf(lengths, j) < d
      decreases k - m
    {
      m := m + 1;
    }
    assert FirstReach(lengths, d, m);
  }

  /** A distance within [0, total] is reached by some segment. */
  lemma WithinTotalIsReached(lengths: seq<real>, d: real)
    requires |lengths| > 0 && d <= Sum(lengths)
    ensures !NoneReach(lengths, d)
  {
    assert lengths[..|lengths| - 1 + 1] == lengths;
    assert EndOf(lengths, |lengths| - 1) >= d;
  }

  /** A part of a positive whole, divided by the whole, lies in [0, 1]. */
  lemma FractionInUnitRange(part: real, whole: real)
    requires whole > 0.0 && 0.0 <= part <= whole
    ensures 0.0 <= part / whole <= 1.0
  {
  }

  /** For a distance at least 0, the parameter of the first reaching segment lies in [0, 1]. */
  lemma SectionParameterInUnitRange(lengths: seq<real>, d: real, k: int, sections: int)
    requires forall i :: 0 <= i < |lengths| ==> lengths[i] >= 0.0
    requires sections >= |lengths| && 0.0 <= d
    requires FirstReach(lengths, d, k) && lengths[k] != 0.0
    ensures 0.0 <= SectionParameter(lengths, d, k, sections) <= 1.0
  {
    var before := StartOf(lengths, k);
    if k > 0 {
      EndOfStep(lengths, k - 1);
      assert before < d;
    } else {
      assert lengths[..0] == [];
    }
    EndOfStep(lengths, k);
    FractionInUnitRange(d - before, lengths[k]);
    var t := (d - before) / lengths[k];
    FractionInUnitRange(k as real + t, sections as real);
  }

  /** The segment lengths of a point sequence, by the engine's GetLength. */
  function SegmentLengths(points: seq<Vec2>, length: Vec2 -> real): (r: seq<real>)
    requires |points| >= 1
    ensures |r| == |points| - 1
  {
    seq(|points| - 1, i requires 0 <= i < |points| - 1 => length(Sub(points[i + 1], points[i])))
  }

  /** Segments of nonnegative measured length give nonnegative entries. */
  lemma SegmentLengthsNonNegative(points: seq<Vec2>, length: Vec2 -> real)
    requires |points| >= 1
    requires forall i :: 0 <= i < |points| - 1 ==> length(Sub(points[i + 1], points[i])) >= 0.0
    ensures forall i :: 0 <= i < |points| - 1 ==> SegmentLengths(points, length)[i] >= 0.0
  {
  }

  /** The length loop of AddVertsForSplineCurves: push each segment's length and add it to the total. */
  method MeasureSegments(points: seq<Vec2>, length: Vec2 -> real) returns (segmentLengths: seq<real>, totalLength: real)
    requires |points| >= 1
    ensures segmentLengths == SegmentLengths(points, length)
    ensures totalLength == Sum(segmentLengths)
  {
    segmentLengths := [];
    totalLength := 0.0;
    for i := 0 to |points| - 1
      invariant segmentLengths == SegmentLengths(points, length)[..i]
      invariant totalLength == Sum(segmentLengths)
    {
      var segmentLength := length(Sub(points[i + 1], points[i]));
      assert (segmentLengths + [segmentLength])[..i] == segmentLengths;
      segmentLengths := segmentLengths + [segmentLength];
      totalLength := totalLength + segmentLength;
    }
  }

  // ---------------------------------------------------------------------
  // The demo's state.

  class Game2DCurves {
    /** m_cubicBezierPane and m_splinesPane as InitializePanes leaves them. */
    const bezierPane: AABB2
    const splinesPane: AABB2
    var numSubdivisions: int
    var arePanesShowing: bool
    var currentEasingFunction: int
    /** The name of the table entry m_easing points at. */
    var easing: string
    var currentBezier: CubicBezier
    /** The control points (m_positions) of m_currentSpline. */
    var splinePositions: seq<Vec2>

    ghost predicate Valid()
      reads this
    {
      IsSubdivisionCount(numSubdivisions) &&
      0 <= currentEasingFunction < NumEasingFuncs && easing == EasingNames[currentEasingFunction] &&
      4 <= |splinePositions| <= 6
    }

    constructor (bezierPane: AABB2, splinesPane: AABB2, rolls: CurveRolls)
      ensures Valid()
      ensures this.bezierPane == bezierPane && this.splinesPane == splinesPane
      ensures numSubdivisions == MinSubdivisions && !arePanesShowing
      ensures currentEasingFunction == RollIntInRange(0, NumEasingFuncs - 1, rolls.easing)
      ensures currentBezier == RolledBezier(bezierPane, rolls)
      ensures splinePositions == SplinePoints(splinesPane, rolls)
    {
      this.bezierPane := bezierPane;
      this.splinesPane := splinesPane;
      numSubdivisions := 2;
      arePanesShowing := false;
      currentEasingFunction := 0;
      easing := EasingNames[0];
      new;
      assert IsSubdivisionCount(2) by { assert 2 == Pow2(1); }
      RandomizeCurves(rolls);
    }

    /** RandomizeCurves: a new easing index, Bezier curve and spline. */
    method RandomizeCurves(rolls: CurveRolls)
      modifies this`currentEasingFunction, this`easing, this`currentBezier, this`splinePositions
      ensures currentEasingFunction == RollIntInRange(0, NumEasingFuncs - 1, rolls.easing)
      ensures easing == EasingNames[currentEasingFunction]
      ensures currentBezier == RolledBezier(bezierPane, rolls)
      ensures splinePositions == SplinePoints(splinesPane, rolls)
    {
      currentEasingFunction := RollIntInRange(0, NumEasingFuncs - 1, rolls.easing);
      easing := EasingNames[currentEasingFunction];
      currentBezier := RolledBezier(bezierPane, rolls);
      splinePositions := RollSplinePoints(splinesPane, rolls);
    }

    /** Update: F1 shows or hides the panes, F8 re-rolls, then M/N and W/E. */
    method Update(f: Frame, rolls: CurveRolls)
      requires Valid()
      modifies this`arePanesShowing, this`numSubdivisions, this`currentEasingFunction, this`easing,
               this`currentBezier, this`splinePositions
      ensures Valid()
      ensures arePanesShowing == (old(arePanesShowing) != WasPressed(f, KeyF1))
      ensures numSubdivisions == Subdivided(old(numSubdivisions), f)
      ensures currentEasingFunction ==
                BrowsedEasing(if WasPressed(f, KeyF8) then RollIntInRange(0, NumEasingFuncs - 1, rolls.easing)
                              else old(currentEasingFunction), f)
      ensures currentBezier == if WasPressed(f, KeyF8) then RolledBezier(bezierPane, rolls) else old(currentBezier)
      ensures splinePositions == if WasPressed(f, KeyF8) then SplinePoints(splinesPane, rolls) else old(splinePositions)
    {
      if WasPressed(f, KeyF1) {
        arePanesShowing := !arePanesShowing;
      }
      if WasPressed(f, KeyF8) {
        RandomizeCurves(rolls);
        SplinePointsPlaced(splinesPane, rolls);
      }
      IncreaseDecreaseSubdivisions(f);
      NextAndPreviousInputs(f);
    }

    method IncreaseDecreaseSubdivisions(f: Frame)
      requires IsSubdivisionCount(numSubdivisions)
      modifies this`numSubdivisions
      ensures numSubdivisions == Subdivided(old(numSubdivisions), f)
    {
      if WasPressed(f, KeyM) {
        numSubdivisions := Doubled(numSubdivisions);
      }
      if WasPressed(f, KeyN) {
        numSubdivisions := Halved(numSubdivisions);
      }
    }

    method NextAndPreviousInputs(f: Frame)
      requires 0 <= currentEasingFunction < NumEasingFuncs
      modifies this`currentEasingFunction, this`easing
      ensures currentEasingFunction == BrowsedEasing(old(currentEasingFunction), f)
      ensures easing == EasingNames[currentEasingFunction] || (!WasPressed(f, KeyW) && !WasPressed(f, KeyE) && easing == old(easing))
    {
      if WasPressed(f, KeyW) {
        GetPreviousEasingFunction();
      }
      if WasPressed(f, KeyE) {
        GetNextEasingFunction();
      }
    }

    method GetNextEasingFunction()
      requires 0 <= currentEasingFunction < NumEasingFuncs
      modifies this`currentEasingFunction, this`easing
      ensures currentEasingFunction == NextEasing(old(currentEasingFunction))
      ensures easing == EasingNames[currentEasingFunction]
    {
      currentEasingFunction := (currentEasingFunction + 1) % NumEasingFuncs;
      easing := EasingNames[currentEasingFunction];
    }

    method GetPreviousEasingFunction()
      requires 0 <= currentEasingFunction < NumEasingFuncs
      modifies this`currentEasingFunction, this`easing
      ensures currentEasingFunction == PreviousEasing(old(currentEasingFunction))
      ensures easing == EasingNames[currentEasingFunction]
    {
      currentEasingFunction := (currentEasingFunction - 1 + NumEasingFuncs) % NumEasingFuncs;
      easing := EasingNames[currentEasingFunction];
    }
  }

  /** The distance covered in `phase` at the average speed over `sections` sections. */
  function AverageSpeedDistanceAt(total: real, sections: int, phase: real): real
    requires sections > 0
  {
    total / sections as real * phase
  }

  /**
   * The constant-speed point of AddVertsForSplineCurves for the spline's
   * control points: measure the segments, turn the phase into a distance at
   * the average section speed, and search. `phase` is fmod(totalTime,
   * numCurveSections); for a phase in [0, numCurveSections] the parameter
   * lies in [0, 1]. Segments may have zero length, except the one the
   * search stops at, which the source divides by.
   */
  method ConstantSpeedSplineParameter(positions: seq<Vec2>, length: Vec2 -> real, phase: real) returns (paraVal: real)
    requires |positions| >= 2
    requires forall i :: 0 <= i < |positions| - 1 ==> length(Sub(positions[i + 1], positions[i])) >= 0.0
    requires var lengths := SegmentLengths(positions, length);
             forall k :: FirstReach(lengths, AverageSpeedDistanceAt(Sum(lengths), |positions| - 1, phase), k) ==>
               lengths[k] != 0.0
    ensures var lengths := SegmentLengths(positions, length);
            IsSearchResult(lengths, AverageSpeedDistanceAt(Sum(lengths), |positions| - 1, phase), |positions| - 1, paraVal)
    ensures 0.0 <= phase <= (|positions| - 1) as real ==> 0.0 <= paraVal <= 1.0
  {
    var numCurveSections := |positions| - 1;
    var segmentLengths, totalLength := MeasureSegments(positions, length);
    SegmentLengthsNonNegative(positions, length);
    var speed := totalLength / numCurveSections as real;
    var distanceAlongCurve := speed * phase;
    assert distanceAlongCurve == AverageSpeedDistanceAt(totalLength, numCurveSections, phase);
    paraVal := ConstantSpeedParameter(segmentLengths, distanceAlongCurve, numCurveSections);
    SearchResultInUnitRange(segmentLengths, totalLength, numCurveSections, phase, paraVal);
  }

  /** The search's answer at the average-speed distance of a phase in [0, sections] lies in [0, 1]. */
  lemma SearchResultInUnitRange(lengths: seq<real>, total: real, sections: int, phase: real, paraVal: real)
    requires |lengths| == sections > 0 && total == Sum(lengths)
    requires forall i :: 0 <= i < |lengths| ==> lengths[i] >= 0.0
    requires IsSearchResult(lengths, AverageSpeedDistanceAt(total, sections, phase), sections, paraVal)
    ensures 0.0 <= phase <= sections as real ==> 0.0 <= paraVal <= 1.0
  {
    if 0.0 <= phase <= sections as real {
      var d := AverageSpeedDistanceAt(total, sections, phase);
      SpeedReachesSegment(lengths, total, sections, phase);
      var k :| FirstReach(lengths, d, k);
      SectionParameterInUnitRange(lengths, d, k, sections);
    }
  }

  /** At the average section speed, a phase in [0, sections] is reached by some first segment. */
  lemma SpeedReachesSegment(lengths: seq<real>, total: real, sections: int, phase: real)
    requires |lengths| == sections > 0 && total == Sum(lengths)
    requires forall i :: 0 <= i < |lengths| ==> lengths[i] >= 0.0
    requires 0.0 <= phase <= sections as real
    ensures 0.0 <= AverageSpeedDistanceAt(total, sections, phase)
    ensures exists k :: FirstReach(lengths, AverageSpeedDistanceAt(total, sections, phase), k)
  {
    var d := AverageSpeedDistanceAt(total, sections, phase);
    SumNonNegative(lengths);
    AverageSpeedDistance(total, sections as real, phase);
    WithinTotalIsReached(lengths, d);
    FirstReachExists(lengths, d);
  }

  /** Travelling at total / s for a time in [0, s] covers between 0 and total. */
  lemma AverageSpeedDistance(total: real, s: real, phase: real)
    requires total >= 0.0 && s > 0.0 && 0.0 <= phase <= s
    ensures 0.0 <= total / s * phase <= total
  {
    var speed := total / s;
    assert speed >= 0.0;
    assert speed * phase <= speed * s;
    assert speed * s == total;
  }
}
