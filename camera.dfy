/** The first-person camera (camera.h, camera.cpp): the state `Camera::inputs` updates
    once per frame from the keyboard and mouse, and the invariants it keeps.
    `Step` is the pure account of one call; `Camera.Inputs` performs it in place. */
module CameraControl {
  import opened Glm

  // Window size from globals.h, used to normalise cursor displacement.
  const WINDOW_WIDTH: real := 1300.0
  const WINDOW_HEIGHT: real := 1300.0
  const HALF_WW: real := WINDOW_WIDTH / 2.0
  const HALF_WH: real := WINDOW_HEIGHT / 2.0

  const SLOW_VEL: real := 4.0
  const FAST_VEL: real := 8.0
  const SENSITIVITY: real := 100.0

  const FOV: real := 45.0          // degrees
  const NEAR_PLANE: real := 0.01
  const FAR_PLANE: real := 1000.0

  /** The world up axis, glm::normalize of (0, 1, 0), which is (0, 1, 0) itself. */
  const UP: Vec3 := Vec3(0.0, 1.0, 0.0)
  const INITIAL_POSITION: Vec3 := Vec3(0.0, 0.0, 2.0)
  const INITIAL_DIRECTION: Vec3 := Vec3(0.0, 0.0, -1.0)

  /** What `inputs` polls from the window: whether each key and the left mouse button is
      held, and where the cursor is when it is read without having been recentred. */
  datatype Devices = Devices(
    leftShift: bool,
    w: bool, a: bool, s: bool, d: bool, space: bool, leftControl: bool,
    leftButton: bool,
    cursorX: real, cursorY: real
  )

  /** Requests `inputs` makes of the window's cursor. */
  datatype CursorCommand = HideCursor | ShowCursor | SetCursorPos(x: real, y: real)

  datatype CameraState = CameraState(position: Vec3, direction: Vec3, firstClick: bool)

  datatype StepResult = StepResult(state: CameraState, resetFrames: bool, cursor: seq<CursorCommand>)

  predicate AnyMoveKey(dev: Devices) {
    dev.w || dev.a || dev.s || dev.d || dev.space || dev.leftControl
  }

  /** The speed tier: fast exactly when left shift is held, and always positive. */
  function Speed(leftShift: bool): (v: real)
    ensures v == FAST_VEL <==> leftShift
    ensures v > 0.0
  {
    if leftShift then FAST_VEL else SLOW_VEL
  }

  /** How far a held key moves the camera this frame: curVel * frameTime. */
  function StepLength(leftShift: bool, frameTime: real): real {
    Speed(leftShift) * frameTime
  }

  /** The strafe axis, normalize(cross(direction, Up)). */
  function Right(trig: Trig, direction: Vec3): Vec3 {
    trig.normalize(Cross(direction, UP))
  }

  /** One key's update: add `step` along `axis` when the key is held. */
  function Move(p: Vec3, held: bool, step: real, axis: Vec3): Vec3 {
    if held then Add(p, Scale(step, axis)) else p
  }

  /** The position after the six translation keys, added one after the other in the
      order W, A, S, D, Space, LeftCtrl, each by `step` along its axis. */
  function Translate(trig: Trig, p: Vec3, direction: Vec3, step: real, dev: Devices): (r: Vec3)
    ensures !AnyMoveKey(dev) ==> r == p
  {
    var right := Right(trig, direction);
    var p1 := Move(p, dev.w, step, direction);
    var p2 := Move(p1, dev.a, step, Neg(right));
    var p3 := Move(p2, dev.s, step, Neg(direction));
    var p4 := Move(p3, dev.d, step, right);
    var p5 := Move(p4, dev.space, step, UP);
    Move(p5, dev.leftControl, step, Neg(UP))
  }

  /** What one key contributes, whatever the others do. */
  function Contribution(held: bool, step: real, axis: Vec3): Vec3 {
    if held then Scale(step, axis) else ZERO3
  }

  /** The net displacement as a sum of six independent per-key terms. */
  function Displacement(trig: Trig, direction: Vec3, step: real, dev: Devices): Vec3 {
    var right := Right(trig, direction);
    Add(Add(Add(Add(Add(Contribution(dev.w, step, direction),
                        Contribution(dev.a, step, Neg(right))),
                    Contribution(dev.s, step, Neg(direction))),
                Contribution(dev.d, step, right)),
            Contribution(dev.space, step, UP)),
        Contribution(dev.leftControl, step, Neg(UP)))
  }

  /** Degrees of pitch and yaw for a cursor at (x, y): proportional to its displacement
      from the centre of the window, zero at the centre. */
  function RotX(cursorY: real): (r: real)
    ensures r == (cursorY - HALF_WH) / 13.0
  {
    SENSITIVITY * (cursorY - HALF_WH) / WINDOW_HEIGHT
  }

  function RotY(cursorX: real): (r: real)
    ensures r == (cursorX - HALF_WW) / 13.0
  {
    SENSITIVITY * (cursorX - HALF_WW) / WINDOW_WIDTH
  }

  /** The pitch guard: an orientation is accepted when its angle to Up differs from 90°
      by at most 85°. */
  predicate PitchAllowed(angleToUp: real) {
    var off := angleToUp - 90.0;
    (if off < 0.0 then -off else off) <= 85.0
  }

  /** The orientation the guard protects: its angle to Up lies in [5°, 175°]. */
  ghost predicate LookValid(trig: Trig, direction: Vec3) {
    PitchAllowed(trig.Angle(direction, UP))
  }

  /** The look branch, taken while the left button is held: pitch about the strafe axis
      (kept only if the guard accepts it), then yaw about Up. On the first pressed frame
      the cursor has just been put at the centre, so that is where it is read. */
  function Look(trig: Trig, direction: Vec3, firstClick: bool, dev: Devices): (r: Vec3)
    ensures trig.Valid() && LookValid(trig, direction) ==> LookValid(trig, r)
  {
    var mouseX := if firstClick then WINDOW_WIDTH / 2.0 else dev.cursorX;
    var mouseY := if firstClick then WINDOW_HEIGHT / 2.0 else dev.cursorY;
    var candidate := trig.rotateDeg(direction, -RotX(mouseY), Right(trig, direction));
    var pitched := if PitchAllowed(trig.Angle(candidate, UP)) then candidate else direction;
    var r := trig.rotateDeg(pitched, -RotY(mouseX), UP);
    assert trig.Valid() ==> trig.Angle(r, UP) == trig.Angle(pitched, UP) by {
      if trig.Valid() {
        YawKeepsAngleToUp(trig, pitched, -RotY(mouseX));
      }
    }
    r
  }

  function LookCursor(firstClick: bool): seq<CursorCommand> {
    [HideCursor]
    + (if firstClick then [SetCursorPos(WINDOW_WIDTH / 2.0, WINDOW_HEIGHT / 2.0)] else [])
    + [SetCursorPos(HALF_WW, HALF_WH)]
  }

  /** One call of `inputs(frameTime, resetFrames)`. The reset flag comes out set exactly
      when it went in set, a movement key is held or the left button is pressed. */
  function Step(trig: Trig, c: CameraState, frameTime: real, dev: Devices, resetFrames: bool): (r: StepResult)
    ensures r.resetFrames <==> resetFrames || AnyMoveKey(dev) || dev.leftButton
    ensures r.state.firstClick <==> !dev.leftButton
  {
    var position := Translate(trig, c.position, c.direction, StepLength(dev.leftShift, frameTime), dev);
    var moved := resetFrames || AnyMoveKey(dev);
    if dev.leftButton then
      StepResult(CameraState(position, Look(trig, c.direction, c.firstClick, dev), false), true,
                 LookCursor(c.firstClick))
    else
      StepResult(CameraState(position, c.direction, true), moved, [ShowCursor])
  }

  // ---------------------------------------------------------------------------------
  // Properties of one step

  /** The fast tier is exactly twice the slow one. */
  lemma SpeedTiers()
    ensures Speed(true) == 2.0 * Speed(false) > Speed(false) > 0.0
  {
  }

  /** The projection constants: a 45° field of view and a near plane in front of the far one. */
  lemma ProjectionPlanes()
    ensures FOV == 45.0 && NEAR_PLANE == 0.01 && FAR_PLANE == 1000.0
    ensures 0.0 < FOV < 180.0 && 0.0 < NEAR_PLANE < FAR_PLANE
  {
  }

  /** The guard accepts exactly the angles in [5°, 175°]. */
  lemma PitchAllowedRange(angleToUp: real)
    ensures PitchAllowed(angleToUp) <==> 5.0 <= angleToUp <= 175.0
  {
  }

  lemma MoveIsContribution(p: Vec3, held: bool, step: real, axis: Vec3)
    ensures Move(p, held, step, axis) == Add(p, Contribution(held, step, axis))
  {
  }

  lemma AddAssoc(p: Vec3, a: Vec3, b: Vec3)
    ensures Add(Add(p, a), b) == Add(p, Add(a, b))
  {
  }

  /** The keys' contributions are independent and add up: the sequential updates equal
      the start position plus the sum of the per-key terms. */
  lemma TranslateIsAdditive(trig: Trig, p: Vec3, direction: Vec3, step: real, dev: Devices)
    ensures Translate(trig, p, direction, step, dev) == Add(p, Displacement(trig, direction, step, dev))
  {
    var right := Right(trig, direction);
    var c1 := Contribution(dev.w, step, direction);
    var c2 := Contribution(dev.a, step, Neg(right));
    var c3 := Contribution(dev.s, step, Neg(direction));
    var c4 := Contribution(dev.d, step, right);
    var c5 := Contribution(dev.space, step, UP);
    var c6 := Contribution(dev.leftControl, step, Neg(UP));
    var p1 := Move(p, dev.w, step, direction);
    var p2 := Move(p1, dev.a, step, Neg(right));
    var p3 := Move(p2, dev.s, step, Neg(direction));
    var p4 := Move(p3, dev.d, step, right);
    var p5 := Move(p4, dev.space, step, UP);
    MoveIsContribution(p, dev.w, step, direction);
    MoveIsContribution(p1, dev.a, step, Neg(right));
    AddAssoc(p, c1, c2);
    MoveIsContribution(p2, dev.s, step, Neg(direction));
    AddAssoc(p, Add(c1, c2), c3);
    MoveIsContribution(p3, dev.d, step, right);
    AddAssoc(p, Add(Add(c1, c2), c3), c4);
    MoveIsContribution(p4, dev.space, step, UP);
    AddAssoc(p, Add(Add(Add(c1, c2), c3), c4), c5);
    MoveIsContribution(p5, dev.leftControl, step, Neg(UP));
    AddAssoc(p, Add(Add(Add(Add(c1, c2), c3), c4), c5), c6);
  }

  /** A key and its opposite contribute opposite terms. */
  lemma OppositeContributions(held: bool, step: real, axis: Vec3)
    ensures Add(Contribution(held, step, axis), Contribution(held, step, Neg(axis))) == ZERO3
  {
  }

  /** W with S, A with D, and Space with LeftCtrl cancel out. */
  lemma OpposingKeysCancel(trig: Trig, p: Vec3, direction: Vec3, step: real, dev: Devices)
    requires dev.w == dev.s && dev.a == dev.d && dev.space == dev.leftControl
    ensures Translate(trig, p, direction, step, dev) == p
  {
    TranslateIsAdditive(trig, p, direction, step, dev);
    var right := Right(trig, direction);
    OppositeContributions(dev.w, step, direction);
    OppositeContributions(dev.d, step, right);
    OppositeContributions(dev.space, step, UP);
  }

  /** Holding only W at the slow speed with the button released moves the camera by
      4·frameTime along its look direction and changes nothing else. */
  lemma ForwardScenario(trig: Trig, c: CameraState, frameTime: real, cursorX: real, cursorY: real)
    ensures var dev := Devices(false, true, false, false, false, false, false, false, cursorX, cursorY);
            var r := Step(trig, c, frameTime, dev, false);
            && r.state.position == Add(c.position, Scale(SLOW_VEL * frameTime, c.direction))
            && r.state.direction == c.direction
            && r.resetFrames
  {
    var dev := Devices(false, true, false, false, false, false, false, false, cursorX, cursorY);
    TranslateIsAdditive(trig, c.position, c.direction, SLOW_VEL * frameTime, dev);
    var c1 := Contribution(true, SLOW_VEL * frameTime, c.direction);
    assert Displacement(trig, c.direction, SLOW_VEL * frameTime, dev)
        == Add(Add(Add(Add(Add(c1, ZERO3), ZERO3), ZERO3), ZERO3), ZERO3);
  }

  /** Keys move only the position: two device states that differ only in the movement
      keys and the speed modifier give the same direction, firstClick and cursor requests. */
  lemma KeysMoveOnlyPosition(trig: Trig, c: CameraState, frameTime: real, dev1: Devices, dev2: Devices, reset: bool)
    requires dev1.leftButton == dev2.leftButton
    requires dev1.cursorX == dev2.cursorX && dev1.cursorY == dev2.cursorY
    ensures Step(trig, c, frameTime, dev1, reset).state.direction == Step(trig, c, frameTime, dev2, reset).state.direction
    ensures Step(trig, c, frameTime, dev1, reset).state.firstClick == Step(trig, c, frameTime, dev2, reset).state.firstClick
    ensures Step(trig, c, frameTime, dev1, reset).cursor == Step(trig, c, frameTime, dev2, reset).cursor
  {
  }

  /** With the button released: firstClick is re-armed, the direction is untouched, the
      reset flag only records movement keys, and the cursor is shown again. */
  lemma ReleasedButton(trig: Trig, c: CameraState, frameTime: real, dev: Devices, reset: bool)
    requires !dev.leftButton
    ensures var r := Step(trig, c, frameTime, dev, reset);
            && r.state.firstClick && r.state.direction == c.direction
            && (r.resetFrames <==> reset || AnyMoveKey(dev))
            && r.cursor == [ShowCursor]
            && (!AnyMoveKey(dev) ==> r.state.position == c.position)
  {
    var step := StepLength(dev.leftShift, frameTime);
    TranslateIsAdditive(trig, c.position, c.direction, step, dev);
  }

  /** While the button is held the reset flag is set every frame and the cursor ends each
      frame recentred. */
  lemma PressedButton(trig: Trig, c: CameraState, frameTime: real, dev: Devices, reset: bool)
    requires dev.leftButton
    ensures var r := Step(trig, c, frameTime, dev, reset);
            && r.resetFrames && !r.state.firstClick
            && r.cursor[0] == HideCursor
            && r.cursor[|r.cursor| - 1] == SetCursorPos(HALF_WW, HALF_WH)
  {
  }

  /** The first engaged frame reads the cursor at the centre, so it turns the camera by
      zero: the direction does not jump, whatever the cursor's real position. */
  lemma FirstClickNoJump(trig: Trig, c: CameraState, frameTime: real, dev: Devices, reset: bool)
    requires trig.Valid()
    requires c.firstClick && dev.leftButton
    ensures var r := Step(trig, c, frameTime, dev, reset);
            && r.state.direction == c.direction
            && !r.state.firstClick && r.resetFrames
  {
    assert RotX(WINDOW_HEIGHT / 2.0) == 0.0 && RotY(WINDOW_WIDTH / 2.0) == 0.0;
    var candidate := trig.rotateDeg(c.direction, -0.0, Right(trig, c.direction));
    assert candidate == c.direction;
    assert trig.rotateDeg(c.direction, -0.0, UP) == c.direction;
  }

  /** Rotating about Up keeps the angle to Up. */
  lemma YawKeepsAngleToUp(trig: Trig, v: Vec3, a: real)
    requires trig.Valid()
    ensures trig.Angle(trig.rotateDeg(v, a, UP), UP) == trig.Angle(v, UP)
  {
    var r := trig.rotateDeg(v, a, UP);
    assert r.y == v.y;
    assert Dot(r, UP) == r.y && Dot(v, UP) == v.y;
  }

  /** The pitch guard is an invariant: from an orientation within [5°, 175°] of Up, any
      input keeps it there. */
  lemma LookValidPreserved(trig: Trig, c: CameraState, frameTime: real, dev: Devices, reset: bool)
    requires trig.Valid() && LookValid(trig, c.direction)
    ensures LookValid(trig, Step(trig, c, frameTime, dev, reset).state.direction)
  {
    if dev.leftButton {
      var mouseX := if c.firstClick then WINDOW_WIDTH / 2.0 else dev.cursorX;
      var mouseY := if c.firstClick then WINDOW_HEIGHT / 2.0 else dev.cursorY;
      var candidate := trig.rotateDeg(c.direction, -RotX(mouseY), Right(trig, c.direction));
      var pitched := if PitchAllowed(trig.Angle(candidate, UP)) then candidate else c.direction;
      assert LookValid(trig, pitched);
      YawKeepsAngleToUp(trig, pitched, -RotY(mouseX));
    }
  }

  /** The two outcomes of the guard while the button is held: an accepted pitch is kept and
      then yawed; a rejected one is dropped, the yaw still applies to the old direction, and
      the angle to Up is then exactly the old one. */
  lemma LookGuardBranches(trig: Trig, c: CameraState, frameTime: real, dev: Devices, reset: bool)
    requires dev.leftButton
    ensures var mouseX := if c.firstClick then WINDOW_WIDTH / 2.0 else dev.cursorX;
            var mouseY := if c.firstClick then WINDOW_HEIGHT / 2.0 else dev.cursorY;
            var candidate := trig.rotateDeg(c.direction, -RotX(mouseY), Right(trig, c.direction));
            var d := Step(trig, c, frameTime, dev, reset).state.direction;
            && (PitchAllowed(trig.Angle(candidate, UP)) ==> d == trig.rotateDeg(candidate, -RotY(mouseX), UP))
            && (!PitchAllowed(trig.Angle(candidate, UP)) ==> d == trig.rotateDeg(c.direction, -RotY(mouseX), UP))
            && (!PitchAllowed(trig.Angle(candidate, UP)) && trig.Valid() ==> trig.Angle(d, UP) == trig.Angle(c.direction, UP))
  {
    var mouseX := if c.firstClick then WINDOW_WIDTH / 2.0 else dev.cursorX;
    if trig.Valid() {
      YawKeepsAngleToUp(trig, c.direction, -RotY(mouseX));
    }
  }

  /** The initial direction is perpendicular to Up, so the initial state satisfies the
      guard. */
  lemma InitialLookValid(trig: Trig)
    requires trig.Valid()
    ensures Dot(INITIAL_DIRECTION, UP) == 0.0
    ensures LookValid(trig, INITIAL_DIRECTION)
  {
    assert trig.Angle(INITIAL_DIRECTION, UP) == trig.acosDeg(0.0);
  }

  // ---------------------------------------------------------------------------------
  // The camera object

  class Camera {
    const trig: Trig
    var position: Vec3
    var direction: Vec3
    var firstClick: bool

    function State(): CameraState
      reads this
    {
      CameraState(position, direction, firstClick)
    }

    /** A fresh camera sits at (0, 0, 2) looking down -z, with the look mode not engaged. */
    constructor (trig: Trig)
      ensures this.trig == trig
      ensures State() == CameraState(INITIAL_POSITION, INITIAL_DIRECTION, true)
    {
      this.trig := trig;
      position := INITIAL_POSITION;
      direction := INITIAL_DIRECTION;
      firstClick := true;
    }

    /** `inputs(frameTime, resetFrames)`: the by-reference flag is passed in and returned. */
    method Inputs(frameTime: real, dev: Devices, resetFrames: bool)
      returns (reset: bool, cursor: seq<CursorCommand>)
      modifies this
      ensures StepResult(State(), reset, cursor) == Step(trig, old(State()), frameTime, dev, resetFrames)
    {
      ghost var c := State();
      var moved := HandleKeys(frameTime, dev);
      reset := resetFrames || moved;
      if dev.leftButton {
        reset := true;
      }
      cursor := HandleMouse(dev);
      ghost var r := Step(trig, c, frameTime, dev, resetFrames);
      assert position == r.state.position;
      assert direction == r.state.direction;
      assert cursor == r.cursor;
    }

    /** The key half of `inputs`: the speed tier, then the six translation keys. */
    method HandleKeys(frameTime: real, dev: Devices) returns (moved: bool)
      modifies this`position
      ensures position == Translate(trig, old(position), direction, StepLength(dev.leftShift, frameTime), dev)
      ensures moved == AnyMoveKey(dev)
    {
      moved := false;
      ghost var start := position;
      ghost var right := Right(trig, direction);
      var curVel := SLOW_VEL;
      if dev.leftShift {
        curVel := FAST_VEL;
      }
      ghost var step := curVel * frameTime;
      assert step == StepLength(dev.leftShift, frameTime);
      if dev.w {
        position := Add(position, Scale(curVel * frameTime, direction));
        moved := true;
      }
      ghost var p1 := position;
      assert p1 == Move(start, dev.w, step, direction);
      if dev.a {
        position := Add(position, Scale(curVel * frameTime, Neg(trig.normalize(Cross(direction, UP)))));
        moved := true;
      }
      ghost var p2 := position;
      assert p2 == Move(p1, dev.a, step, Neg(right));
      if dev.s {
        position := Add(position, Scale(curVel * frameTime, Neg(direction)));
        moved := true;
      }
      ghost var p3 := position;
      assert p3 == Move(p2, dev.s, step, Neg(direction));
      if dev.d {
        position := Add(position, Scale(curVel * frameTime, trig.normalize(Cross(direction, UP))));
        moved := true;
      }
      ghost var p4 := position;
      assert p4 == Move(p3, dev.d, step, right);
      if dev.space {
        position := Add(position, Scale(curVel * frameTime, UP));
        moved := true;
      }
      ghost var p5 := position;
      assert p5 == Move(p4, dev.space, step, UP);
      if dev.leftControl {
        position := Add(position, Scale(curVel * frameTime, Neg(UP)));
        moved := true;
      }
    }

    /** The mouse half of `inputs`: look around while the left button is held, re-arm
        `firstClick` when it is released. */
    method HandleMouse(dev: Devices) returns (cursor: seq<CursorCommand>)
      modifies this`direction, this`firstClick
      ensures direction == (if dev.leftButton then Look(trig, old(direction), old(firstClick), dev) else old(direction))
      ensures firstClick == !dev.leftButton
      ensures cursor == (if dev.leftButton then LookCursor(old(firstClick)) else [ShowCursor])
    {
      if dev.leftButton {
        cursor := [HideCursor];
        var mouseX, mouseY := dev.cursorX, dev.cursorY;
        if firstClick {
          cursor := cursor + [SetCursorPos(WINDOW_WIDTH / 2.0, WINDOW_HEIGHT / 2.0)];
          mouseX, mouseY := WINDOW_WIDTH / 2.0, WINDOW_HEIGHT / 2.0;
          firstClick := false;
        }
        var rotX := SENSITIVITY * (mouseY - HALF_WH) / WINDOW_HEIGHT;
        var rotY := SENSITIVITY * (mouseX - HALF_WW) / WINDOW_WIDTH;
        var newOrientation := trig.rotateDeg(direction, -rotX, trig.normalize(Cross(direction, UP)));
        if PitchAllowed(trig.Angle(newOrientation, UP)) {
          direction := newOrientation;
        }
        direction := trig.rotateDeg(direction, -rotY, UP);
        cursor := cursor + [SetCursorPos(HALF_WW, HALF_WH)];
      } else {
        cursor := [ShowCursor];
        firstClick := true;
      }
    }
  }
}
