/** The scene object (scene.h, scene.cpp): the state it keeps, the set-up its constructor
    performs, the key callback and its static trampoline, the frame-time update and the
    render loop. Each method is proved against the pure account in SceneInput,
    SceneSetup and RenderLoop. */
module SceneControl {
  import opened Glm
  import opened Objects
  import opened Marshal
  import opened CameraControl
  import opened SceneInput
  import opened Accumulation
  import opened SceneSetup
  import opened RenderLoop

  class Scene {
    const camera: Camera

    var randmode: int
    var resetFrames: bool

    // The three primitive collections, in upload order; the scene keeps no triangles.
    var spheres: seq<Sphere>
    var quads: seq<Quad>
    var pointLights: seq<PointLight>

    var screenQuadVerts: seq<real>
    var screenQuadInds: seq<nat>
    var vertexAttribs: seq<VertexAttrib>

    var uniformBuffers: seq<UniformBuffer>

    var prevTime: real
    var curTime: real
    var counter: nat
    var frameTime: real

    function Flags(): ModeFlags
      reads this`randmode, this`resetFrames
    {
      ModeFlags(randmode, resetFrames)
    }

    function Clock(): FpsClock
      reads this`prevTime, this`curTime, this`counter, this`frameTime
    {
      FpsClock(prevTime, curTime, counter, frameTime)
    }

    /** The render loop's state with the given sample count. */
    function LoopStateAt(numAccumFrames: nat): LoopState
      reads this`randmode, this`resetFrames, this`prevTime, this`curTime, this`counter, this`frameTime, camera
    {
      LoopState(camera.State(), Flags(), Clock(), numAccumFrames)
    }

    /** What the constructor establishes and every method keeps: non-empty collections
        uploaded as they are, the constant screen quad, and the render loop's invariant
        (a mode of 0 or 1, a positive frame time, an orientation the pitch guard accepts)
        under the trigonometric laws. */
    ghost predicate Valid()
      reads this, camera
    {
      && Ready()
      && camera.trig.Valid()
      && LoopInvariant(camera.trig, LoopStateAt(0))
    }

    /** The set-up half of `Valid`, over the fields only the constructor writes. */
    ghost predicate Ready()
      reads this`spheres, this`quads, this`pointLights, this`uniformBuffers,
            this`screenQuadVerts, this`screenQuadInds
    {
      SetUp(pointLights, spheres, quads, uniformBuffers, screenQuadVerts, screenQuadInds)
    }

    /** Non-empty collections uploaded as they are, and the constant screen quad. */
    static ghost predicate SetUp(pointLights: seq<PointLight>, spheres: seq<Sphere>, quads: seq<Quad>,
                                 buffers: seq<UniformBuffer>, verts: seq<real>, inds: seq<nat>)
    {
      && spheres != [] && quads != [] && pointLights != []
      && buffers == UniformBuffers(pointLights, spheres, quads)
      && verts == QUAD_VERTICES && inds == QUAD_INDICES
    }

    /** `Scene(window)`: a fresh camera, the initial flags and clock, then the screen quad,
        the scene's records and their buffers. `rand(i)` is the i-th value of
        rand() / RAND_MAX after seeding. */
    constructor (trig: Trig, rand: nat -> real)
      requires trig.Valid()
      ensures Valid()
      ensures camera.trig == trig && fresh(camera)
      ensures camera.State() == CameraState(INITIAL_POSITION, INITIAL_DIRECTION, true)
      ensures Flags() == INITIAL_FLAGS
      ensures Clock() == INITIAL_FPS
      ensures spheres == SceneSpheres(rand)
      ensures pointLights == [DefaultPointLight()] && quads == [DefaultQuad()]
      ensures vertexAttribs == QUAD_ATTRIBS
    {
      camera := new Camera(trig);
      randmode := 0;
      resetFrames := false;
      spheres := [];
      quads := [];
      pointLights := [];
      screenQuadVerts := [];
      screenQuadInds := [];
      vertexAttribs := [];
      uniformBuffers := [];
      prevTime := 0.0;
      curTime := 0.0;
      counter := 0;
      frameTime := 0.0001;
      new;
      assert LoopStateAt(0) == InitialLoopState();
      InitialInvariant(trig);
      SetupScene(rand);
    }

    /** The set-up calls of the constructor, on empty collections: the screen quad, the
        scene's records, then their buffers. */
    method SetupScene(rand: nat -> real)
      requires spheres == [] && pointLights == [] && quads == []
      modifies this`screenQuadVerts, this`screenQuadInds, this`vertexAttribs,
               this`spheres, this`pointLights, this`quads, this`uniformBuffers
      ensures Ready()
      ensures spheres == SceneSpheres(rand)
      ensures pointLights == [DefaultPointLight()] && quads == [DefaultQuad()]
      ensures vertexAttribs == QUAD_ATTRIBS
    {
      SetupScreenQuad();
      SetupSceneObjects(rand);
      assert spheres == SceneSpheres(rand);
      SetupComputeShaderData();
    }

    /** `keyInput`: M pressed flips the mode and raises the reset flag. */
    method KeyInput(key: int, scancode: int, action: int, mods: int)
      requires Valid()
      modifies this`randmode, this`resetFrames
      ensures Valid()
      ensures Flags() == KeyStep(old(Flags()), KeyEvent(key, scancode, action, mods))
    {
      if action == GLFW_PRESS {
        if key == GLFW_KEY_M {
          if randmode == 0 {
            randmode := 1;
          } else {
            randmode := 0;
          }
          resetFrames := true;
        }
      }
    }

    /** `keyInputSetup`: GLFW calls it with the window, whose user pointer is the scene;
        the arguments are forwarded unchanged. */
    static method KeyInputSetup(userPointer: Scene, key: int, scancode: int, action: int, mods: int)
      requires userPointer.Valid()
      modifies userPointer`randmode, userPointer`resetFrames
      ensures userPointer.Valid()
      ensures userPointer.Flags() == KeyStep(old(userPointer.Flags()), KeyEvent(key, scancode, action, mods))
    {
      userPointer.KeyInput(key, scancode, action, mods);
    }

    /** `glfwPollEvents`: the queued key callbacks, delivered in order. */
    method PollEvents(events: seq<KeyEvent>)
      requires Valid()
      modifies this`randmode, this`resetFrames
      ensures Valid()
      ensures Flags() == KeySteps(old(Flags()), events)
    {
      var i := 0;
      while i < |events|
        invariant 0 <= i <= |events|
        invariant Valid()
        invariant KeySteps(Flags(), events[i..]) == KeySteps(old(Flags()), events)
      {
        assert events[i..][1..] == events[i + 1..];
        var e := events[i];
        KeyInputSetup(this, e.key, e.scancode, e.action, e.mods);
        i := i + 1;
      }
    }

    /** `updateFPS` with the clock reading `now`. */
    method UpdateFps(now: real)
      requires Valid()
      modifies this`prevTime, this`curTime, this`counter, this`frameTime
      ensures Valid()
      ensures Clock() == FpsStep(old(Clock()), now)
    {
      curTime := now;
      var timeDiff := curTime - prevTime;
      counter := counter + 1;
      if timeDiff >= FPS_INTERVAL {
        frameTime := timeDiff / counter as real;
        prevTime := curTime;
        counter := 0;
      }
    }

    /** `setupScreenQuad`: the vertex and index arrays and the attribute layout. */
    method SetupScreenQuad()
      modifies this`screenQuadVerts, this`screenQuadInds, this`vertexAttribs
      ensures screenQuadVerts == QUAD_VERTICES && screenQuadInds == QUAD_INDICES
      ensures vertexAttribs == QUAD_ATTRIBS
    {
      screenQuadVerts := [
        -1.0, -1.0, 0.0, 0.0, 0.0,
        -1.0,  1.0, 0.0, 0.0, 1.0,
         1.0,  1.0, 0.0, 1.0, 1.0,
         1.0, -1.0, 0.0, 1.0, 0.0
      ];
      screenQuadInds := [0, 2, 1, 0, 3, 2];
      vertexAttribs := [VertexAttrib(0, 3, 0), VertexAttrib(1, 2, 3)];
    }

    /** `setupSceneObjects`: the 4 × 4 grid of random balls in loop order, the sunset
        sphere, and one default sentinel each for point lights and quads. */
    method SetupSceneObjects(rand: nat -> real)
      modifies this`spheres, this`pointLights, this`quads
      ensures spheres == old(spheres) + SceneSpheres(rand)
      ensures pointLights == old(pointLights) + [DefaultPointLight()]
      ensures quads == old(quads) + [DefaultQuad()]
    {
      var ball: nat := 0;
      var i := -NUM_X / 2;
      while i < NUM_X / 2
        invariant -NUM_X / 2 <= i <= NUM_X / 2
        invariant ball == (i + NUM_X / 2) * NUM_Y
        invariant spheres == old(spheres) + RandomBalls(rand, ball)
        invariant pointLights == old(pointLights) && quads == old(quads)
      {
        var j := -NUM_Y / 2;
        while j < NUM_Y / 2
          invariant -NUM_Y / 2 <= j <= NUM_Y / 2
          invariant ball == (i + NUM_X / 2) * NUM_Y + (j + NUM_Y / 2)
          invariant spheres == old(spheres) + RandomBalls(rand, ball)
          invariant pointLights == old(pointLights) && quads == old(quads)
        {
          RandomBallsSnoc(rand, ball);
          spheres := spheres + [RandomBall(rand, ball)];
          ball := ball + 1;
          j := j + 1;
        }
        i := i + 1;
      }
      spheres := spheres + [SUNSET_SPHERE];
      pointLights := pointLights + [DefaultPointLight()];
      quads := quads + [DefaultQuad()];
    }

    /** `setupComputeShaderData`: one uniform buffer per category. The buffers are
        uploaded from the address of each collection's first element, so each collection
        must be non-empty. */
    method SetupComputeShaderData()
      requires spheres != [] && quads != [] && pointLights != []
      modifies this`uniformBuffers
      ensures uniformBuffers == UniformBuffers(pointLights, spheres, quads)
    {
      var lightBuffer := UniformBuffer("pointLightData", POINT_LIGHT_BINDING,
                                       |pointLights| * POINT_LIGHT_BYTES, Pack(pointLights, PointLightWords));
      var sphereBuffer := UniformBuffer("sphereData", SPHERE_BINDING,
                                        |spheres| * SPHERE_BYTES, Pack(spheres, SphereWords));
      var quadBuffer := UniformBuffer("quadData", QUAD_BINDING,
                                      |quads| * QUAD_BYTES, Pack(quads, QuadWords));
      uniformBuffers := [lightBuffer, sphereBuffer, quadBuffer];
    }

    /** `draw`: iterate until the window is asked to close or Escape is pressed, one
        iteration per input. Returns the uniforms sent and the GL events issued. */
    method Draw(inputs: seq<FrameInput>) returns (uniforms: seq<FrameUniforms>, events: seq<GlEvent>)
      requires Valid()
      modifies this`randmode, this`resetFrames, this`prevTime, this`curTime, this`counter, this`frameTime, camera
      ensures Valid()
      ensures var r := Run(camera.trig, old(LoopStateAt(0)), inputs);
              && uniforms == r.uniforms && events == r.events
              && camera.State() == r.state.camera && Flags() == r.state.flags && Clock() == r.state.fps
    {
      ghost var whole := Run(camera.trig, LoopStateAt(0), inputs);
      var numAccumFrames: nat := 0;
      uniforms, events := [], [];
      var i := 0;
      while i < |inputs| && !inputs[i].shouldClose
        invariant 0 <= i <= |inputs|
        invariant Valid()
        invariant var r := Run(camera.trig, LoopStateAt(numAccumFrames), inputs[i..]);
                  whole == Trace(r.state, uniforms + r.uniforms, events + r.events)
      {
        if inputs[i].escape {
          break;
        }
        ghost var s := LoopStateAt(numAccumFrames);
        var u, frameEvents;
        u, frameEvents, numAccumFrames := Iteration(inputs[i], numAccumFrames);
        RunExtend(camera.trig, s, inputs, i, whole, uniforms, events);
        uniforms := uniforms + [u];
        events := events + frameEvents;
        i := i + 1;
      }
      RunStopped(camera.trig, LoopStateAt(numAccumFrames), inputs, i);
    }

    /** One pass of the loop body of `draw`, with the local sample count carried in and
        out. */
    method Iteration(inp: FrameInput, numAccumFrames: nat) returns (u: FrameUniforms, frameEvents: seq<GlEvent>, count: nat)
      requires Valid()
      modifies this`randmode, this`resetFrames, this`prevTime, this`curTime, this`counter, this`frameTime, camera
      ensures Valid()
      ensures FrameResult(LoopStateAt(count), u, frameEvents) == Frame(camera.trig, old(LoopStateAt(numAccumFrames)), inp)
    {
      u, frameEvents, count := Present(inp, numAccumFrames);
      var cursorEvents := React(inp);
      frameEvents := frameEvents + cursorEvents;
    }

    /** The first half of an iteration: update the frame time, send the uniforms with the
        sample count (0 when a reset is pending, which clears it), dispatch the kernel,
        present the image, and count the sample. */
    method Present(inp: FrameInput, numAccumFrames: nat) returns (u: FrameUniforms, frameEvents: seq<GlEvent>, count: nat)
      requires Valid()
      modifies this`resetFrames, this`prevTime, this`curTime, this`counter, this`frameTime
      ensures Valid()
      ensures Clock() == FpsStep(old(Clock()), inp.fpsNow)
      ensures u == FrameUniforms(inp.timeNow, camera.position, camera.direction, randmode,
                                 SentNow(numAccumFrames, old(resetFrames)))
      ensures randmode == old(randmode) && !resetFrames
      ensures count == u.numAccumFrames + 1
      ensures frameEvents == PresentEvents(u)
    {
      count := numAccumFrames;
      UpdateFps(inp.fpsNow);
      u := FrameUniforms(inp.timeNow, camera.position, camera.direction, randmode, 0);
      if resetFrames {
        count := 0;
        resetFrames := false;
      }
      u := u.(numAccumFrames := count);
      frameEvents := [SetUniforms(u), DispatchCompute(COMP_DIM_X, COMP_DIM_Y, 1), MemoryBarrier,
                      DrawScreenQuad(|screenQuadInds|), SwapBuffers];
      count := count + 1;
    }

    /** The second half: deliver the queued key callbacks, then let the camera read the
        devices with the frame time just measured, passing it the reset flag by reference. */
    method React(inp: FrameInput) returns (cursorEvents: seq<GlEvent>)
      requires Valid()
      modifies this`randmode, this`resetFrames, camera
      ensures Valid()
      ensures var keys := KeySteps(old(Flags()), inp.keyEvents);
              var step := Step(camera.trig, old(camera.State()), frameTime, inp.devices, keys.resetFrames);
              && camera.State() == step.state
              && Flags() == ModeFlags(keys.randmode, step.resetFrames)
              && cursorEvents == CursorEvents(step.cursor)
    {
      ghost var before := camera.State();
      PollEvents(inp.keyEvents);
      ghost var keys := Flags();
      var reset, cursor := camera.Inputs(frameTime, inp.devices, resetFrames);
      resetFrames := reset;
      cursorEvents := CursorEvents(cursor);
      LookValidPreserved(camera.trig, before, frameTime, inp.devices, keys.resetFrames);
    }
  }
}
