/**
 * Ray start/end editing, shared by the 2D raycast demos and Pachinko
 * (each has an ArrowMovement with the same key handling):
 *
 *   ESDF moves the start by one unit (E up, S left, D down, F right),
 *   IJKL moves the end the same way, the arrow keys move both;
 *   in the AABB2 demo, V then copies the start's x into the end and H its y;
 *   finally the left mouse button puts the start at the cursor and the right
 *   mouse button puts the end there.
 */
module RayEditing {
  import opened Geometry
  import opened Input

  const Up := Vec2(0.0, 1.0)
  const LeftDir := Vec2(-1.0, 0.0)
  const DownDir := Vec2(0.0, -1.0)
  const RightDir := Vec2(1.0, 0.0)

  /** How far the arrow keys move both ends in one frame. */
  function ArrowDelta(f: Frame): Vec2
  {
    Vec2(Axis(f, KeyRight, KeyLeft), Axis(f, KeyUp, KeyDown))
  }

  /** How far the held keys move the start in one frame. */
  function StartKeyDelta(f: Frame): Vec2
  {
    Add(Vec2(Axis(f, KeyF, KeyS), Axis(f, KeyE, KeyD)), ArrowDelta(f))
  }

  /** How far the held keys move the end in one frame. */
  function EndKeyDelta(f: Frame): Vec2
  {
    Add(Vec2(Axis(f, KeyL, KeyJ), Axis(f, KeyI, KeyK)), ArrowDelta(f))
  }

  /** The ray after the key moves, the optional V/H snaps and the mouse override. */
  function EditedRay(start: Vec2, end: Vec2, f: Frame, snaps: bool): (Vec2, Vec2)
  {
    var s := Add(start, StartKeyDelta(f));
    var e0 := Add(end, EndKeyDelta(f));
    var e := if snaps then Vec2(if WasPressed(f, KeyV) then s.x else e0.x,
                                if WasPressed(f, KeyH) then s.y else e0.y)
             else e0;
    (if IsDown(f, LeftMouse) then f.cursor else s,
     if IsDown(f, RightMouse) then f.cursor else e)
  }

  class RayEditor {
    var start: Vec2
    var end: Vec2

    constructor (start0: Vec2, end0: Vec2)
      ensures start == start0 && end == end0
    {
      start, end := start0, end0;
    }

    method KeyMoves(f: Frame)
      modifies this
      ensures start == Add(old(start), StartKeyDelta(f))
      ensures end == Add(old(end), EndKeyDelta(f))
    {
      MoveStartByLetters(f);
      MoveEndByLetters(f);
      MoveBothByArrows(f);
    }

    method MoveStartByLetters(f: Frame)
      modifies this
      ensures start == Add(old(start), Vec2(Axis(f, KeyF, KeyS), Axis(f, KeyE, KeyD)))
      ensures end == old(end)
    {
      if IsDown(f, KeyE) { start := Add(start, Up); }
      if IsDown(f, KeyS) { start := Add(start, LeftDir); }
      if IsDown(f, KeyD) { start := Add(start, DownDir); }
      if IsDown(f, KeyF) { start := Add(start, RightDir); }
    }

    method MoveEndByLetters(f: Frame)
      modifies this
      ensures start == old(start)
      ensures end == Add(old(end), Vec2(Axis(f, KeyL, KeyJ), Axis(f, KeyI, KeyK)))
    {
      if IsDown(f, KeyI) { end := Add(end, Up); }
      if IsDown(f, KeyJ) { end := Add(end, LeftDir); }
      if IsDown(f, KeyK) { end := Add(end, DownDir); }
      if IsDown(f, KeyL) { end := Add(end, RightDir); }
    }

    method MoveBothByArrows(f: Frame)
      modifies this
      ensures start == Add(old(start), ArrowDelta(f))
      ensures end == Add(old(end), ArrowDelta(f))
    {
      if IsDown(f, KeyUp) { start := Add(start, Up); end := Add(end, Up); }
      if IsDown(f, KeyLeft) { start := Add(start, LeftDir); end := Add(end, LeftDir); }
      if IsDown(f, KeyDown) { start := Add(start, DownDir); end := Add(end, DownDir); }
      if IsDown(f, KeyRight) { start := Add(start, RightDir); end := Add(end, RightDir); }
    }

    method SnapAxes(f: Frame)
      modifies this
      ensures start == old(start)
      ensures end == Vec2(if WasPressed(f, KeyV) then start.x else old(end).x,
                          if WasPressed(f, KeyH) then start.y else old(end).y)
    {
      if WasPressed(f, KeyV) { end := end.(x := start.x); }
      if WasPressed(f, KeyH) { end := end.(y := start.y); }
    }

    method MouseOverride(f: Frame)
      modifies this
      ensures start == if IsDown(f, LeftMouse) then f.cursor else old(start)
      ensures end == if IsDown(f, RightMouse) then f.cursor else old(end)
    {
      if IsDown(f, LeftMouse) { start := f.cursor; }
      if IsDown(f, RightMouse) { end := f.cursor; }
    }

    /** ArrowMovement; `snaps` selects the AABB2 demo's variant with V/H. */
    method ArrowMovement(f: Frame, snaps: bool)
      modifies this
      ensures (start, end) == EditedRay(old(start), old(end), f, snaps)
    {
      KeyMoves(f);
      if snaps {
        SnapAxes(f);
      }
      MouseOverride(f);
    }
  }

  // ---------------------------------------------------------------------
  // What one frame of editing does.

  /**
   * The arrow keys move both ends alike, so only ESDF and IJKL change the
   * vector from start to end; without the mouse and the snaps, the change is
   * exactly the IJKL move minus the ESDF move.
   */
  lemma ArrowsKeepSpan(start: Vec2, end: Vec2, f: Frame)
    requires !IsDown(f, LeftMouse) && !IsDown(f, RightMouse)
    ensures var r := EditedRay(start, end, f, false);
            Sub(r.1, r.0) == Add(Sub(end, start),
                                 Vec2(Axis(f, KeyL, KeyJ) - Axis(f, KeyF, KeyS),
                                      Axis(f, KeyI, KeyK) - Axis(f, KeyE, KeyD)))
  {
  }

  /** ESDF moves only the start and IJKL only the end, one unit per key. */
  lemma LetterKeysMoveOneEnd(start: Vec2, end: Vec2, f: Frame)
    requires !IsDown(f, LeftMouse) && !IsDown(f, RightMouse)
    requires !IsDown(f, KeyUp) && !IsDown(f, KeyDown) && !IsDown(f, KeyLeft) && !IsDown(f, KeyRight)
    ensures var r := EditedRay(start, end, f, false);
            r.0 == Add(start, Vec2(Axis(f, KeyF, KeyS), Axis(f, KeyE, KeyD))) &&
            r.1 == Add(end, Vec2(Axis(f, KeyL, KeyJ), Axis(f, KeyI, KeyK)))
  {
  }

  /** A mouse button sets its end absolutely, whatever keys are held. */
  lemma MouseWins(start: Vec2, end: Vec2, f: Frame, snaps: bool)
    ensures IsDown(f, LeftMouse) ==> EditedRay(start, end, f, snaps).0 == f.cursor
    ensures IsDown(f, RightMouse) ==> EditedRay(start, end, f, snaps).1 == f.cursor
  {
  }

  /** V and H snap after the key moves: the ray ends up vertical or horizontal. */
  lemma SnapsAlignEnds(start: Vec2, end: Vec2, f: Frame)
    requires !IsDown(f, LeftMouse) && !IsDown(f, RightMouse)
    ensures var r := EditedRay(start, end, f, true);
            (WasPressed(f, KeyV) ==> r.1.x == r.0.x) &&
            (WasPressed(f, KeyH) ==> r.1.y == r.0.y) &&
            r.0 == Add(start, StartKeyDelta(f))
  {
  }
}
