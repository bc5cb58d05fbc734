/**
 * One frame of input as the demos read it: the keys held down
 * (InputSystem::IsKeyDown), the keys that went down this frame
 * (InputSystem::WasKeyJustPressed), and the point of the game scene under
 * the mouse cursor (the scene box's GetPointAtUV of the normalised cursor).
 */
module Input {
  import opened Geometry

  datatype Key =
    | KeyE | KeyS | KeyD | KeyF
    | KeyI | KeyJ | KeyK | KeyL
    | KeyUp | KeyDown | KeyLeft | KeyRight
    | KeyV | KeyH | KeyG | KeyN | KeyM | KeyW | KeyB | KeyP | KeyR | KeyO | KeyT
    | KeySpace | KeyLeftBracket | KeyRightBracket
    | KeyF1 | KeyF6 | KeyF7 | KeyF8
    | LeftMouse | RightMouse

  datatype Frame = Frame(down: set<Key>, pressed: set<Key>, cursor: Vec2)

  predicate IsDown(f: Frame, k: Key) { k in f.down }

  predicate WasPressed(f: Frame, k: Key) { k in f.pressed }

  /** +1 if only the positive key is held, -1 if only the negative one, else 0. */
  function Axis(f: Frame, positive: Key, negative: Key): (r: real)
    ensures -1.0 <= r <= 1.0
    ensures IsDown(f, positive) == IsDown(f, negative) ==> r == 0.0
  {
    (if IsDown(f, positive) then 1.0 else 0.0) - (if IsDown(f, negative) then 1.0 else 0.0)
  }
}
