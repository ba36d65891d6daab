/** The two pieces of per-frame state the scene itself keeps besides the camera: the
    render-mode toggle and reset flag driven by `Scene::keyInput`, and the frame-time
    accounting of `Scene::updateFPS`. */
module SceneInput {

  // Values of GLFW's constants (glfw3.h).
  const GLFW_RELEASE: int := 0
  const GLFW_PRESS: int := 1
  const GLFW_REPEAT: int := 2
  const GLFW_KEY_M: int := 77

  /** The arguments of one key callback. */
  datatype KeyEvent = KeyEvent(key: int, scancode: int, action: int, mods: int)

  /** `randmode`, the render-mode toggle sent to the kernel, and `resetFrames`. */
  datatype ModeFlags = ModeFlags(randmode: int, resetFrames: bool)

  /** The scene's initial flags: mode 0, no reset pending. */
  const INITIAL_FLAGS: ModeFlags := ModeFlags(0, false)

  predicate IsTogglePress(e: KeyEvent) {
    e.action == GLFW_PRESS && e.key == GLFW_KEY_M
  }

  /** `keyInput`: pressing M flips the mode between 0 and 1 and raises the reset flag;
      any other key or action leaves both alone. */
  function KeyStep(f: ModeFlags, e: KeyEvent): (r: ModeFlags)
    ensures IsTogglePress(e) ==> r.resetFrames && (r.randmode == 0 || r.randmode == 1) && r.randmode != f.randmode
    ensures IsTogglePress(e) && (f.randmode == 0 || f.randmode == 1) ==> r.randmode == 1 - f.randmode
    ensures !IsTogglePress(e) ==> r == f
  {
    if IsTogglePress(e) then
      ModeFlags(if f.randmode == 0 then 1 else 0, true)
    else
      f
  }

  /** The callbacks of one poll, delivered in order. */
  function KeySteps(f: ModeFlags, events: seq<KeyEvent>): (r: ModeFlags)
    ensures f.resetFrames ==> r.resetFrames
    ensures (f.randmode == 0 || f.randmode == 1) ==> (r.randmode == 0 || r.randmode == 1)
    decreases |events|
  {
    if events == [] then f else KeySteps(KeyStep(f, events[0]), events[1..])
  }

  function TogglePresses(events: seq<KeyEvent>): nat
  {
    if events == [] then 0
    else (if IsTogglePress(events[0]) then 1 else 0) + TogglePresses(events[1..])
  }

  predicate AnyTogglePress(events: seq<KeyEvent>) {
    exists i :: 0 <= i < |events| && IsTogglePress(events[i])
  }

  /** Two presses of M restore the mode and leave a reset pending. */
  lemma TwoPressesRestore(f: ModeFlags, e1: KeyEvent, e2: KeyEvent)
    requires f.randmode == 0 || f.randmode == 1
    requires IsTogglePress(e1) && IsTogglePress(e2)
    ensures KeySteps(f, [e1, e2]) == ModeFlags(f.randmode, true)
  {
    var f1 := KeyStep(f, e1);
    assert [e1, e2][1..] == [e2];
    assert KeySteps(f, [e1, e2]) == KeySteps(f1, [e2]);
    assert [e2][1..] == [];
    assert KeySteps(f1, [e2]) == KeyStep(f1, e2);
  }

  /** Over a whole poll: the reset flag ends raised exactly when it was raised already or
      M was pressed, and the mode ends flipped once per press. */
  lemma {:induction false} KeyStepsEffect(f: ModeFlags, events: seq<KeyEvent>)
    requires f.randmode == 0 || f.randmode == 1
    ensures KeySteps(f, events).resetFrames <==> f.resetFrames || AnyTogglePress(events)
    ensures KeySteps(f, events).randmode == (f.randmode + TogglePresses(events)) % 2
    decreases |events|
  {
    if events != [] {
      var f1 := KeyStep(f, events[0]);
      KeyStepsEffect(f1, events[1..]);
      if AnyTogglePress(events) && !IsTogglePress(events[0]) {
        var i :| 0 <= i < |events| && IsTogglePress(events[i]);
        assert IsTogglePress(events[1..][i - 1]);
      }
      if AnyTogglePress(events[1..]) {
        var i :| 0 <= i < |events[1..]| && IsTogglePress(events[1..][i]);
        assert IsTogglePress(events[i + 1]);
      }
      if IsTogglePress(events[0]) {
        assert AnyTogglePress(events) by { assert IsTogglePress(events[0]); }
      }
    }
  }

  /** Only the press of M acts: releasing it or holding it down until it repeats leaves
      both flags alone. */
  lemma ReleaseAndRepeatIgnored(f: ModeFlags, scancode: int, mods: int)
    ensures KeyStep(f, KeyEvent(GLFW_KEY_M, scancode, GLFW_RELEASE, mods)) == f
    ensures KeyStep(f, KeyEvent(GLFW_KEY_M, scancode, GLFW_REPEAT, mods)) == f
    ensures KeyStep(f, KeyEvent(GLFW_KEY_M, scancode, GLFW_PRESS, mods)) != f
  {
  }

  /** A poll without an M press changes neither flag. */
  lemma {:induction false} OtherKeysChangeNothing(f: ModeFlags, events: seq<KeyEvent>)
    requires forall i :: 0 <= i < |events| ==> !IsTogglePress(events[i])
    ensures KeySteps(f, events) == f
    decreases |events|
  {
    if events != [] {
      assert !IsTogglePress(events[0]);
      OtherKeysChangeNothing(f, events[1..]);
    }
  }

  // ---------------------------------------------------------------------------------
  // Frame-time accounting

  /** The window over which frame times are averaged, in seconds. */
  const FPS_INTERVAL: real := 1.0 / 30.0

  /** `prevTime`, `curTime`, `counter` and `frameTime`. */
  datatype FpsClock = FpsClock(prevTime: real, curTime: real, counter: nat, frameTime: real)

  /** The scene's initial accounting: no frames counted, a small positive frame time. */
  const INITIAL_FPS: FpsClock := FpsClock(0.0, 0.0, 0, 0.0001)

  /** `updateFPS` with the clock reading `now`: count the frame, and once at least a
      thirtieth of a second has passed since the last update, set the frame time to the
      average over the frames counted and start a new window. */
  function FpsStep(f: FpsClock, now: real): (r: FpsClock)
    ensures r.curTime == now
    ensures f.frameTime > 0.0 ==> r.frameTime > 0.0
    ensures r.counter == 0 <==> now - f.prevTime >= FPS_INTERVAL
    ensures r.counter == 0 ==> r.prevTime == now && r.frameTime * (f.counter + 1) as real == now - f.prevTime
    ensures r.counter != 0 ==> r.counter == f.counter + 1 && r.prevTime == f.prevTime && r.frameTime == f.frameTime
  {
    var timeDiff := now - f.prevTime;
    var counter := f.counter + 1;
    if timeDiff >= FPS_INTERVAL then
      FpsClock(now, now, 0, timeDiff / counter as real)
    else
      FpsClock(f.prevTime, now, counter, f.frameTime)
  }

  /** The initial accounting has a positive frame time, so every later one has too. */
  lemma InitialFps()
    ensures INITIAL_FPS.counter == 0 && INITIAL_FPS.prevTime == 0.0 && INITIAL_FPS.frameTime > 0.0
  {
  }
}
