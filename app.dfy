/**
 * The application shell: which demo ("game mode") is running, how F7 and F6
 * cycle through the seven modes, and the clock time scale a mode sets when
 * its game is created. The demos themselves are the other modules; here a
 * created game is represented by the kind of demo that was constructed.
 */
module App {
  import opened Input

  /** The GameMode enumeration, in declaration order. */
  const NearestPointMode: nat := 0
  const RaycastVsDiscsMode: nat := 1
  const RaycastVsLineSegmentsMode: nat := 2
  const RaycastVsAABB2sMode: nat := 3
  const ShapesAndQueries3DMode: nat := 4
  const Curves2DMode: nat := 5
  const Pachinko2DMode: nat := 6
  const GameModeCount: nat := 7

  /** Time scales the curves and pachinko modes give the game clock. */
  const CurvesTimeScale: real := 0.5
  const PachinkoTimeScale: real := 2.0

  datatype GameKind =
    | NearestPointGame
    | RaycastVsDiscsGame
    | RaycastVsLineSegmentsGame
    | RaycastVsAABB2sGame
    | TestShapes3DGame
    | Curves2DGame
    | Pachinko2DGame

  datatype Option<T> = None | Some(value: T)

  /** The mode after the current one, wrapping from the last to the first. */
  function NextGameMode(mode: nat): (r: nat)
    ensures r < GameModeCount
    ensures mode + 1 < GameModeCount ==> r == mode + 1
    ensures mode + 1 == GameModeCount ==> r == NearestPointMode
  {
    (mode + 1) % GameModeCount
  }

  /**
   * The mode before the current one, wrapping from the first to the last.
   * The enumeration is never negative, so adding the count first keeps the
   * left operand non-negative and the C++ remainder agrees with Dafny's.
   */
  function PreviousGameMode(mode: nat): (r: nat)
    ensures r < GameModeCount
    ensures 0 < mode < GameModeCount ==> r == mode - 1
    ensures mode == NearestPointMode ==> r == Pachinko2DMode
  {
    (mode - 1 + GameModeCount) % GameModeCount
  }

  /** Next and previous undo each other on every valid mode. */
  lemma NextPreviousInverse(mode: nat)
    requires mode < GameModeCount
    ensures PreviousGameMode(NextGameMode(mode)) == mode
    ensures NextGameMode(PreviousGameMode(mode)) == mode
  {
  }

  /** Pressing F7 k times in a row. */
  function NextTimes(mode: nat, k: nat): nat
  {
    if k == 0 then mode else NextGameMode(NextTimes(mode, k - 1))
  }

  /** Stepping a reduced value by one agrees with stepping the value itself. */
  lemma ModStep(x: nat)
    ensures (x % GameModeCount + 1) % GameModeCount == (x + 1) % GameModeCount
  {
    var q, r := x / GameModeCount, x % GameModeCount;
    assert x == GameModeCount * q + r;
    if r + 1 < GameModeCount {
      assert x + 1 == GameModeCount * q + (r + 1);
    } else {
      assert x + 1 == GameModeCount * (q + 1);
    }
  }

  /** Each press of F7 advances the mode by one, modulo the mode count. */
  lemma {:induction false} NextTimesAdvances(mode: nat, k: nat)
    requires mode < GameModeCount
    ensures NextTimes(mode, k) == (mode + k) % GameModeCount
  {
    if k > 0 {
      NextTimesAdvances(mode, k - 1);
      ModStep(mode + k - 1);
    }
  }

  /** How many presses of F7 lead from one mode to another. */
  function StepsTo(mode: nat, target: nat): (k: nat)
    ensures k < GameModeCount
  {
    (target - mode + GameModeCount) % GameModeCount
  }

  /** Seven presses of F7 return to the starting mode, and every mode is reached on the way. */
  lemma NextCyclesThroughAllModes(mode: nat)
    requires mode < GameModeCount
    ensures NextTimes(mode, GameModeCount) == mode
    ensures forall target :: 0 <= target < GameModeCount ==> NextTimes(mode, StepsTo(mode, target)) == target
  {
    NextTimesAdvances(mode, GameModeCount);
    assert (mode + GameModeCount) % GameModeCount == mode;
    forall target | 0 <= target < GameModeCount
      ensures NextTimes(mode, StepsTo(mode, target)) == target
    {
      var k := StepsTo(mode, target);
      if mode <= target {
        assert k == target - mode;
      } else {
        assert k == target - mode + GameModeCount;
        assert (mode + k) % GameModeCount == (target + GameModeCount) % GameModeCount;
      }
      NextTimesAdvances(mode, k);
    }
  }

  /** The game CreateNewGameForMode constructs for a mode, or none (null) outside the enumeration. */
  function GameFor(mode: nat): (g: Option<GameKind>)
    ensures g.Some? <==> mode < GameModeCount
    ensures g == Some(Curves2DGame) <==> mode == Curves2DMode
    ensures g == Some(Pachinko2DGame) <==> mode == Pachinko2DMode
  {
    if mode == NearestPointMode then Some(NearestPointGame)
    else if mode == RaycastVsDiscsMode then Some(RaycastVsDiscsGame)
    else if mode == RaycastVsLineSegmentsMode then Some(RaycastVsLineSegmentsGame)
    else if mode == RaycastVsAABB2sMode then Some(RaycastVsAABB2sGame)
    else if mode == ShapesAndQueries3DMode then Some(TestShapes3DGame)
    else if mode == Curves2DMode then Some(Curves2DGame)
    else if mode == Pachinko2DMode then Some(Pachinko2DGame)
    else None
  }

  /** Different modes create different kinds of game. */
  lemma GameForInjective(m1: nat, m2: nat)
    requires GameFor(m1).Some? && GameFor(m1) == GameFor(m2)
    ensures m1 == m2
  {
  }

  /** The clock time scale once the game for a mode is created. */
  function TimeScaleFor(mode: nat, timeScale: real): (r: real)
    ensures mode == Curves2DMode ==> r == CurvesTimeScale
    ensures mode == Pachinko2DMode ==> r == PachinkoTimeScale
    ensures mode != Curves2DMode && mode != Pachinko2DMode ==> r == timeScale
  {
    if mode == Curves2DMode then CurvesTimeScale
    else if mode == Pachinko2DMode then PachinkoTimeScale
    else timeScale
  }

  /** The mode after one frame's F7 (applied first) and F6 (applied second). */
  function SwitchedMode(mode: nat, f: Frame): nat
  {
    var afterF7 := if WasPressed(f, KeyF7) then NextGameMode(mode) else mode;
    if WasPressed(f, KeyF6) then PreviousGameMode(afterF7) else afterF7
  }

  /** The time scale after one frame's F7 and F6 game creations. */
  function SwitchedTimeScale(mode: nat, timeScale: real, f: Frame): real
  {
    var afterF7 := if WasPressed(f, KeyF7) then NextGameMode(mode) else mode;
    var scaleF7 := if WasPressed(f, KeyF7) then TimeScaleFor(afterF7, timeScale) else timeScale;
    if WasPressed(f, KeyF6) then TimeScaleFor(PreviousGameMode(afterF7), scaleF7) else scaleF7
  }

  /**
   * F7 and F6 in the same frame leave the mode where it was, and a frame with
   * exactly one of them moves one step forward or back.
   */
  lemma SwitchedModeCases(mode: nat, f: Frame)
    requires mode < GameModeCount
    ensures SwitchedMode(mode, f) < GameModeCount
    ensures WasPressed(f, KeyF7) && WasPressed(f, KeyF6) ==> SwitchedMode(mode, f) == mode
    ensures !WasPressed(f, KeyF7) && !WasPressed(f, KeyF6) ==> SwitchedMode(mode, f) == mode
    ensures WasPressed(f, KeyF7) && !WasPressed(f, KeyF6) ==> SwitchedMode(mode, f) == NextGameMode(mode)
    ensures !WasPressed(f, KeyF7) && WasPressed(f, KeyF6) ==> SwitchedMode(mode, f) == PreviousGameMode(mode)
  {
    NextPreviousInverse(mode);
  }

  /**
   * Pressing both keys on the curves or pachinko mode leaves that mode's time
   * scale in force even though a neighbouring mode was created in between,
   * since the last creation is of the mode's own game.
   */
  lemma BothKeysRestoreModeTimeScale(mode: nat, timeScale: real, f: Frame)
    requires mode < GameModeCount
    requires WasPressed(f, KeyF7) && WasPressed(f, KeyF6)
    ensures mode == Curves2DMode ==> SwitchedTimeScale(mode, timeScale, f) == CurvesTimeScale
    ensures mode == Pachinko2DMode ==> SwitchedTimeScale(mode, timeScale, f) == PachinkoTimeScale
  {
    NextPreviousInverse(mode);
  }

  class App {
    var currentGameMode: nat
    var game: Option<GameKind>
    var timeScale: real

    /** The running game is always the one for the current, valid mode. */
    predicate Valid()
      reads this
    {
      currentGameMode < GameModeCount && game == GameFor(currentGameMode)
    }

    /** Construction and Startup: the nearest-point demo runs first. */
    constructor (initialTimeScale: real)
      ensures Valid()
      ensures currentGameMode == NearestPointMode && game == Some(NearestPointGame)
      ensures timeScale == initialTimeScale
    {
      currentGameMode := NearestPointMode;
      game := Some(NearestPointGame);
      timeScale := initialTimeScale;
    }

    method GetNextGameMode() returns (r: nat)
      ensures r == NextGameMode(currentGameMode)
    {
      r := (currentGameMode + 1) % GameModeCount;
    }

    method GetPreviousGameMode() returns (r: nat)
      ensures r == PreviousGameMode(currentGameMode)
    {
      r := (currentGameMode - 1 + GameModeCount) % GameModeCount;
    }

    /** Records the mode, sets its time scale and builds its game (none for an unknown mode). */
    method CreateNewGameForMode(mode: nat) returns (created: Option<GameKind>)
      modifies this
      ensures currentGameMode == mode
      ensures created == GameFor(mode)
      ensures timeScale == TimeScaleFor(mode, old(timeScale))
    {
      currentGameMode := mode;
      if mode == NearestPointMode {
        return Some(NearestPointGame);
      }
      if mode == RaycastVsDiscsMode {
        return Some(RaycastVsDiscsGame);
      }
      if mode == RaycastVsLineSegmentsMode {
        return Some(RaycastVsLineSegmentsGame);
      }
      if mode == RaycastVsAABB2sMode {
        return Some(RaycastVsAABB2sGame);
      }
      if mode == ShapesAndQueries3DMode {
        return Some(TestShapes3DGame);
      }
      if mode == Curves2DMode {
        timeScale := CurvesTimeScale;
        return Some(Curves2DGame);
      }
      if mode == Pachinko2DMode {
        timeScale := PachinkoTimeScale;
        return Some(Pachinko2DGame);
      } else {
        return None;
      }
    }

    /** The mode-switching part of a frame: F7 steps forward, then F6 steps back. */
    method Update(f: Frame)
      requires Valid()
      modifies this
      ensures Valid()
      ensures currentGameMode == SwitchedMode(old(currentGameMode), f)
      ensures timeScale == SwitchedTimeScale(old(currentGameMode), old(timeScale), f)
      ensures !WasPressed(f, KeyF7) && !WasPressed(f, KeyF6) ==> game == old(game)
    {
      if WasPressed(f, KeyF7) {
        var next := GetNextGameMode();
        currentGameMode := next;
        game := CreateNewGameForMode(currentGameMode);
      }
      if WasPressed(f, KeyF6) {
        var previous := GetPreviousGameMode();
        currentGameMode := previous;
        game := CreateNewGameForMode(currentGameMode);
      }
    }
  }
}
