/** The render loop of `Scene::draw` as a pure account: what one iteration sends to the
    kernel and what state it leaves, and the run of iterations until the window closes or
    Escape is pressed. The GL calls become an ordered trace of abstract events. */
module RenderLoop {
  import opened Glm
  import opened CameraControl
  import opened SceneInput
  import opened Accumulation
  import SceneSetup

  /** Work groups dispatched per frame in x and y. */
  const COMP_DIM_X: nat := 128
  const COMP_DIM_Y: nat := 128

  /** The corners of the normalised-device square at far depth, in homogeneous form. */
  const FRUST00: Vec4 := Vec4(-1.0, -1.0, 1.0, 1.0)
  const FRUST10: Vec4 := Vec4(1.0, -1.0, 1.0, 1.0)
  const FRUST01: Vec4 := Vec4(-1.0, 1.0, 1.0, 1.0)
  const FRUST11: Vec4 := Vec4(1.0, 1.0, 1.0, 1.0)

  /** frustXY for X, Y in {0, 1}. */
  function FrustumCorner(x: nat, y: nat): Vec4
    requires x < 2 && y < 2
  {
    if x == 0 then (if y == 0 then FRUST00 else FRUST01)
    else (if y == 0 then FRUST10 else FRUST11)
  }

  /** Corner XY has x = -1 for X = 0 and +1 for X = 1, likewise y, and depth and w 1. */
  lemma FrustumCorners(x: nat, y: nat)
    requires x < 2 && y < 2
    ensures FrustumCorner(x, y) == Vec4(2.0 * x as real - 1.0, 2.0 * y as real - 1.0, 1.0, 1.0)
  {
  }

  /** What the outside world supplies to one iteration: the window's close request, the
      Escape key, the two clock readings (the one `updateFPS` takes and the one sent as
      `time`), the key callbacks delivered by `glfwPollEvents`, and the devices `inputs`
      polls. */
  datatype FrameInput = FrameInput(
    shouldClose: bool, escape: bool,
    fpsNow: real, timeNow: real,
    keyEvents: seq<KeyEvent>, devices: Devices)

  /** The per-frame uniforms the kernel reads. */
  datatype FrameUniforms = FrameUniforms(
    time: real, cameraPos: Vec3, cameraDir: Vec3, randMode: int, numAccumFrames: nat)

  datatype GlEvent =
    | SetUniforms(uniforms: FrameUniforms)
    | DispatchCompute(x: nat, y: nat, z: nat)
    | MemoryBarrier
    | DrawScreenQuad(indexCount: nat)
    | SwapBuffers
    | Cursor(command: CursorCommand)

  /** What the loop carries from one iteration to the next: the camera, the scene's flags,
      its frame-time accounting and the local sample counter. */
  datatype LoopState = LoopState(camera: CameraState, flags: ModeFlags, fps: FpsClock, numAccumFrames: nat)

  datatype FrameResult = FrameResult(state: LoopState, uniforms: FrameUniforms, events: seq<GlEvent>)

  datatype Trace = Trace(state: LoopState, uniforms: seq<FrameUniforms>, events: seq<GlEvent>)

  predicate Stops(inp: FrameInput) {
    inp.shouldClose || inp.escape
  }

  /** Dispatch, barrier, then present: the kernel's writes are visible before the quad
      samples the image. */
  function PresentEvents(u: FrameUniforms): (r: seq<GlEvent>)
    ensures WellOrdered(r)
    ensures |r| == 5 && r[0] == SetUniforms(u) && r[4] == SwapBuffers
  {
    [SetUniforms(u), DispatchCompute(COMP_DIM_X, COMP_DIM_Y, 1), MemoryBarrier,
     DrawScreenQuad(|SceneSetup.QUAD_INDICES|), SwapBuffers]
  }

  function CursorEvents(cs: seq<CursorCommand>): (r: seq<GlEvent>)
    ensures |r| == |cs| && forall i :: 0 <= i < |cs| ==> r[i] == Cursor(cs[i])
  {
    seq(|cs|, i requires 0 <= i < |cs| => Cursor(cs[i]))
  }

  /** One iteration: update the frame time, send the uniforms with the sample count (0
      when the reset flag is up, which clears it), dispatch and present, count the sample,
      deliver the key callbacks, then let the camera read the devices. */
  function Frame(trig: Trig, s: LoopState, inp: FrameInput): (r: FrameResult)
    ensures r.uniforms.numAccumFrames == SentNow(s.numAccumFrames, s.flags.resetFrames)
    ensures r.state.numAccumFrames == r.uniforms.numAccumFrames + 1
    ensures r.uniforms.cameraPos == s.camera.position && r.uniforms.cameraDir == s.camera.direction
    ensures r.uniforms.randMode == s.flags.randmode && r.uniforms.time == inp.timeNow
    ensures r.state.fps == FpsStep(s.fps, inp.fpsNow)
    ensures |r.events| >= 5 && r.events[..5] == PresentEvents(r.uniforms)
    ensures forall i :: 5 <= i < |r.events| ==> r.events[i].Cursor?
  {
    var fps := FpsStep(s.fps, inp.fpsNow);
    var count := SentNow(s.numAccumFrames, s.flags.resetFrames);
    var u := FrameUniforms(inp.timeNow, s.camera.position, s.camera.direction, s.flags.randmode, count);
    var keys := KeySteps(ModeFlags(s.flags.randmode, false), inp.keyEvents);
    var step := Step(trig, s.camera, fps.frameTime, inp.devices, keys.resetFrames);
    FrameResult(LoopState(step.state, ModeFlags(keys.randmode, step.resetFrames), fps, count + 1),
                u, PresentEvents(u) + CursorEvents(step.cursor))
  }

  /** Iterations until the first input that closes the window or presses Escape (or the
      inputs run out). */
  function Run(trig: Trig, s: LoopState, inputs: seq<FrameInput>): (r: Trace)
    ensures |r.uniforms| <= |inputs|
    ensures |r.events| >= 5 * |r.uniforms|
    ensures r.uniforms == [] ==> r.state == s && r.events == []
    decreases |inputs|
  {
    if inputs == [] || Stops(inputs[0]) then Trace(s, [], [])
    else
      var f := Frame(trig, s, inputs[0]);
      var rest := Run(trig, f.state, inputs[1..]);
      Trace(rest.state, [f.uniforms] + rest.uniforms, f.events + rest.events)
  }

  /** Running from input i on, when input i does not stop the loop, is one iteration
      followed by the run from input i + 1. */
  lemma RunUnfold(trig: Trig, s: LoopState, inputs: seq<FrameInput>, i: nat)
    requires i < |inputs| && !Stops(inputs[i])
    ensures var f := Frame(trig, s, inputs[i]);
            var rest := Run(trig, f.state, inputs[i + 1..]);
            Run(trig, s, inputs[i..]) == Trace(rest.state, [f.uniforms] + rest.uniforms, f.events + rest.events)
  {
    assert inputs[i..][1..] == inputs[i + 1..];
  }

  /** The loop's bookkeeping: appending one iteration's uniforms and events to what has
      been sent so far keeps the whole run equal to the sent prefix plus the remaining run. */
  lemma RunExtend(trig: Trig, s: LoopState, inputs: seq<FrameInput>, i: nat,
                  whole: Trace, uniforms: seq<FrameUniforms>, events: seq<GlEvent>)
    requires i < |inputs| && !Stops(inputs[i])
    requires var r := Run(trig, s, inputs[i..]);
             whole == Trace(r.state, uniforms + r.uniforms, events + r.events)
    ensures var f := Frame(trig, s, inputs[i]);
            var r := Run(trig, f.state, inputs[i + 1..]);
            whole == Trace(r.state, (uniforms + [f.uniforms]) + r.uniforms, (events + f.events) + r.events)
  {
    var f := Frame(trig, s, inputs[i]);
    var r := Run(trig, f.state, inputs[i + 1..]);
    RunUnfold(trig, s, inputs, i);
    assert uniforms + ([f.uniforms] + r.uniforms) == (uniforms + [f.uniforms]) + r.uniforms;
    assert events + (f.events + r.events) == (events + f.events) + r.events;
  }

  /** Once the inputs are exhausted or input i stops the loop, nothing more happens. */
  lemma RunStopped(trig: Trig, s: LoopState, inputs: seq<FrameInput>, i: nat)
    requires i <= |inputs| && (i == |inputs| || Stops(inputs[i]))
    ensures Run(trig, s, inputs[i..]) == Trace(s, [], [])
  {
  }

  /** The number of iterations before the first stopping input. */
  function FramesRun(inputs: seq<FrameInput>): (n: nat)
    ensures n <= |inputs|
    ensures forall k :: 0 <= k < n ==> !Stops(inputs[k])
    ensures n < |inputs| ==> Stops(inputs[n])
  {
    if inputs == [] || Stops(inputs[0]) then 0 else 1 + FramesRun(inputs[1..])
  }

  /** The loop runs exactly one iteration per input before the first stopping one. */
  lemma {:induction false} RunLength(trig: Trig, s: LoopState, inputs: seq<FrameInput>)
    ensures |Run(trig, s, inputs).uniforms| == FramesRun(inputs)
    decreases |inputs|
  {
    if inputs != [] && !Stops(inputs[0]) {
      RunLength(trig, Frame(trig, s, inputs[0]).state, inputs[1..]);
    }
  }

  // ---------------------------------------------------------------------------------
  // The reset flag across iterations

  /** What an iteration's input does to the flag: an M press, a movement key or the left
      button. */
  predicate Raises(inp: FrameInput) {
    AnyTogglePress(inp.keyEvents) || AnyMoveKey(inp.devices) || inp.devices.leftButton
  }

  /** The flag is cleared before the callbacks run, so at the top of the next iteration it
      is up exactly when this iteration's input raised it, and the mode has flipped once
      per M press. */
  lemma FrameRaises(trig: Trig, s: LoopState, inp: FrameInput)
    requires s.flags.randmode == 0 || s.flags.randmode == 1
    ensures Frame(trig, s, inp).state.flags.resetFrames <==> Raises(inp)
    ensures Frame(trig, s, inp).state.flags.randmode == (s.flags.randmode + TogglePresses(inp.keyEvents)) % 2
  {
    KeyStepsEffect(ModeFlags(s.flags.randmode, false), inp.keyEvents);
  }

  /** The flag seen at the top of each of n iterations: the carried one, then whatever
      the previous iteration's input raised. */
  function StartResets(first: bool, inputs: seq<FrameInput>, n: nat): (r: seq<bool>)
    requires n <= |inputs|
    ensures |r| == n
    ensures n > 0 ==> r[0] == first
    ensures forall k :: 0 < k < n ==> r[k] == Raises(inputs[k - 1])
    decreases n
  {
    if n == 0 then [] else [first] + StartResets(Raises(inputs[0]), inputs[1..], n - 1)
  }

  function Counts(us: seq<FrameUniforms>): (r: seq<nat>)
    ensures |r| == |us| && forall i :: 0 <= i < |us| ==> r[i] == us[i].numAccumFrames
  {
    seq(|us|, i requires 0 <= i < |us| => us[i].numAccumFrames)
  }

  predicate ModeValid(s: LoopState) {
    s.flags.randmode == 0 || s.flags.randmode == 1
  }

  /** The counts the loop sends are the reset-counter account of the flags seen at the
      top of each iteration. */
  lemma {:induction false} RunAccumulation(trig: Trig, s: LoopState, inputs: seq<FrameInput>)
    requires ModeValid(s)
    ensures |Run(trig, s, inputs).uniforms| <= |inputs|
    ensures Counts(Run(trig, s, inputs).uniforms)
         == Sent(s.numAccumFrames, StartResets(s.flags.resetFrames, inputs, |Run(trig, s, inputs).uniforms|))
    decreases |inputs|
  {
    if inputs != [] && !Stops(inputs[0]) {
      var f := Frame(trig, s, inputs[0]);
      FrameRaises(trig, s, inputs[0]);
      RunAccumulation(trig, f.state, inputs[1..]);
      var rest := Run(trig, f.state, inputs[1..]);
      RunFirst(trig, s, inputs);
      AccumulationCons(s.numAccumFrames, s.flags.resetFrames, inputs, f.uniforms, rest.uniforms, f.state);
    }
  }

  /** Unfolds one iteration of a run that does not stop at once. */
  lemma RunFirst(trig: Trig, s: LoopState, inputs: seq<FrameInput>)
    requires inputs != [] && !Stops(inputs[0])
    ensures var f := Frame(trig, s, inputs[0]);
            var rest := Run(trig, f.state, inputs[1..]);
            Run(trig, s, inputs) == Trace(rest.state, [f.uniforms] + rest.uniforms, f.events + rest.events)
  {
  }

  /** The inductive step of RunAccumulation, stated over plain values. */
  lemma AccumulationCons(carried: nat, first: bool, inputs: seq<FrameInput>,
                         u: FrameUniforms, rest: seq<FrameUniforms>, next: LoopState)
    requires |rest| < |inputs|
    requires u.numAccumFrames == SentNow(carried, first)
    requires next.numAccumFrames == u.numAccumFrames + 1
    requires next.flags.resetFrames == Raises(inputs[0])
    requires Counts(rest) == Sent(next.numAccumFrames, StartResets(next.flags.resetFrames, inputs[1..], |rest|))
    ensures Counts([u] + rest) == Sent(carried, StartResets(first, inputs, |rest| + 1))
  {
    var tail := StartResets(next.flags.resetFrames, inputs[1..], |rest|);
    assert StartResets(first, inputs, |rest| + 1) == [first] + tail;
    SentCons(carried, first, tail);
    CountsCons(u, rest);
  }

  lemma SentCons(carried: nat, first: bool, rest: seq<bool>)
    ensures Sent(carried, [first] + rest) == [SentNow(carried, first)] + Sent(SentNow(carried, first) + 1, rest)
  {
    assert ([first] + rest)[1..] == rest;
  }

  lemma CountsCons(u: FrameUniforms, us: seq<FrameUniforms>)
    ensures Counts([u] + us) == [u.numAccumFrames] + Counts(us)
  {
  }

  /** A reset raised in iteration k, by the camera or by M, is consumed at the top of
      iteration k + 1, which sends 0. */
  lemma ResetConsumedNextFrame(trig: Trig, s: LoopState, inputs: seq<FrameInput>, k: nat)
    requires ModeValid(s)
    requires k + 1 < |Run(trig, s, inputs).uniforms| && Raises(inputs[k])
    ensures Run(trig, s, inputs).uniforms[k + 1].numAccumFrames == 0
  {
    RunAccumulation(trig, s, inputs);
    var n := |Run(trig, s, inputs).uniforms|;
    ResetSendsZero(s.numAccumFrames, StartResets(s.flags.resetFrames, inputs, n), k + 1);
  }

  /** An iteration whose predecessor raised nothing sends one more than its predecessor:
      the count goes up by exactly one per present. */
  lemma QuietFrameIncrements(trig: Trig, s: LoopState, inputs: seq<FrameInput>, k: nat)
    requires ModeValid(s)
    requires k + 1 < |Run(trig, s, inputs).uniforms| && !Raises(inputs[k])
    ensures Run(trig, s, inputs).uniforms[k + 1].numAccumFrames
         == Run(trig, s, inputs).uniforms[k].numAccumFrames + 1
  {
    RunAccumulation(trig, s, inputs);
    var n := |Run(trig, s, inputs).uniforms|;
    NoResetIncrements(s.numAccumFrames, StartResets(s.flags.resetFrames, inputs, n), k);
  }

  /** From the start of `draw` (count 0) with no reset pending and no input raising one,
      iteration k (counting from 0) sends k. */
  lemma QuietRun(trig: Trig, s: LoopState, inputs: seq<FrameInput>, k: nat)
    requires ModeValid(s) && s.numAccumFrames == 0 && !s.flags.resetFrames
    requires k < |Run(trig, s, inputs).uniforms|
    requires forall j :: 0 <= j < k ==> !Raises(inputs[j])
    ensures Run(trig, s, inputs).uniforms[k].numAccumFrames == k
  {
    RunAccumulation(trig, s, inputs);
    var n := |Run(trig, s, inputs).uniforms|;
    QuietFrames(0, StartResets(s.flags.resetFrames, inputs, n), k);
  }

  // ---------------------------------------------------------------------------------
  // Invariants of the loop state

  /** The loop's invariant: a mode of 0 or 1, a positive frame time, and an orientation
      the pitch guard accepts. */
  ghost predicate LoopInvariant(trig: Trig, s: LoopState) {
    ModeValid(s) && s.fps.frameTime > 0.0 && LookValid(trig, s.camera.direction)
  }

  lemma FramePreserves(trig: Trig, s: LoopState, inp: FrameInput)
    requires trig.Valid() && LoopInvariant(trig, s)
    ensures LoopInvariant(trig, Frame(trig, s, inp).state)
  {
    var fps := FpsStep(s.fps, inp.fpsNow);
    var keys := KeySteps(ModeFlags(s.flags.randmode, false), inp.keyEvents);
    FrameRaises(trig, s, inp);
    LookValidPreserved(trig, s.camera, fps.frameTime, inp.devices, keys.resetFrames);
  }

  lemma {:induction false} RunPreserves(trig: Trig, s: LoopState, inputs: seq<FrameInput>)
    requires trig.Valid() && LoopInvariant(trig, s)
    ensures LoopInvariant(trig, Run(trig, s, inputs).state)
    ensures forall k :: 0 <= k < |Run(trig, s, inputs).uniforms| ==>
              (Run(trig, s, inputs).uniforms[k].randMode == 0 || Run(trig, s, inputs).uniforms[k].randMode == 1)
    decreases |inputs|
  {
    if inputs != [] && !Stops(inputs[0]) {
      var f := Frame(trig, s, inputs[0]);
      FramePreserves(trig, s, inputs[0]);
      RunPreserves(trig, f.state, inputs[1..]);
      var rest := Run(trig, f.state, inputs[1..]);
      assert Run(trig, s, inputs).uniforms == [f.uniforms] + rest.uniforms;
    }
  }

  /** The scene's state before the first iteration of `draw`: mode 0, no reset, the
      initial frame-time accounting, a fresh camera and a count of 0. */
  function InitialLoopState(): LoopState {
    LoopState(CameraState(INITIAL_POSITION, INITIAL_DIRECTION, true), INITIAL_FLAGS, INITIAL_FPS, 0)
  }

  lemma InitialInvariant(trig: Trig)
    requires trig.Valid()
    ensures LoopInvariant(trig, InitialLoopState())
  {
    InitialLookValid(trig);
  }

  // ---------------------------------------------------------------------------------
  // Ordering of the GL events

  /** Every presentation of the image is directly preceded by a memory barrier, which is
      directly preceded by a dispatch of the kernel over the full 128 × 128 grid of work
      groups, and every dispatch is of that grid. */
  predicate WellOrdered(evs: seq<GlEvent>) {
    && (forall i :: 0 <= i < |evs| && evs[i].DrawScreenQuad? ==>
          i >= 2 && evs[i - 1] == MemoryBarrier && evs[i - 2] == DispatchCompute(COMP_DIM_X, COMP_DIM_Y, 1))
    && (forall i :: 0 <= i < |evs| && evs[i].DispatchCompute? ==>
          evs[i] == DispatchCompute(COMP_DIM_X, COMP_DIM_Y, 1))
  }

  /** One iteration's events are well ordered. */
  lemma FrameOrdered(u: FrameUniforms, evs: seq<GlEvent>)
    requires |evs| >= 5 && evs[..5] == PresentEvents(u)
    requires forall i :: 5 <= i < |evs| ==> evs[i].Cursor?
    ensures WellOrdered(evs)
  {
    forall i | 0 <= i < |evs|
      ensures evs[i].DrawScreenQuad? ==>
                i >= 2 && evs[i - 1] == MemoryBarrier && evs[i - 2] == DispatchCompute(COMP_DIM_X, COMP_DIM_Y, 1)
      ensures evs[i].DispatchCompute? ==> evs[i] == DispatchCompute(COMP_DIM_X, COMP_DIM_Y, 1)
    {
      if i < 5 {
        assert evs[i] == evs[..5][i];
        if i >= 2 {
          assert evs[i - 1] == evs[..5][i - 1] && evs[i - 2] == evs[..5][i - 2];
        }
      }
    }
  }

  lemma OrderedConcat(a: seq<GlEvent>, b: seq<GlEvent>)
    requires WellOrdered(a) && WellOrdered(b)
    ensures WellOrdered(a + b)
  {
    var c := a + b;
    forall i | 0 <= i < |c|
      ensures c[i].DrawScreenQuad? ==>
                i >= 2 && c[i - 1] == MemoryBarrier && c[i - 2] == DispatchCompute(COMP_DIM_X, COMP_DIM_Y, 1)
      ensures c[i].DispatchCompute? ==> c[i] == DispatchCompute(COMP_DIM_X, COMP_DIM_Y, 1)
    {
      if i >= |a| {
        assert c[i] == b[i - |a|];
        if i - |a| >= 2 {
          assert c[i - 1] == b[i - |a| - 1] && c[i - 2] == b[i - |a| - 2];
        }
      }
    }
  }

  /** Over a whole run, the image is never presented before the kernel's writes are made
      visible, and every dispatch covers the full grid. */
  lemma {:induction false} RunOrdering(trig: Trig, s: LoopState, inputs: seq<FrameInput>)
    ensures WellOrdered(Run(trig, s, inputs).events)
    decreases |inputs|
  {
    if inputs != [] && !Stops(inputs[0]) {
      var f := Frame(trig, s, inputs[0]);
      RunOrdering(trig, f.state, inputs[1..]);
      RunFirst(trig, s, inputs);
      FrameOrdered(f.uniforms, f.events);
      OrderedConcat(f.events, Run(trig, f.state, inputs[1..]).events);
    }
  }
}
