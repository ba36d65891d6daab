# RayTracerOpenGL2 — a verified model of the scene and camera logic

RayTracerOpenGL2 is a real-time path tracer. A compute kernel renders into a texture, and
a full-screen quad presents that texture. Around the GPU calls, the C++ host keeps a small
amount of exact state, and this project models that state in Dafny:

- **The scene records** (`object.h`, `object.cpp`). `Material`, `PointLight`, `Sphere`,
  `Triangle` and `Quad` are built only from vec4 fields. The model gives their
  constructors and their layout as a sequence of vec4 words.
- **Buffer marshalling.** Each category of records is uploaded as one uniform buffer:
  - the records lie end to end;
  - the buffer's size is count × record size;
  - the buffers sit at binding points 5, 6 and 7.
- **Scene set-up** (`Scene::Scene`, `setupScreenQuad`, `setupSceneObjects`,
  `setupComputeShaderData`):
  - the constant screen quad;
  - the 4 × 4 grid of random balls plus the sunset sphere;
  - the all-zero sentinels that keep every buffer non-empty.
- **The camera** (`Camera::inputs`):
  - the speed tier;
  - six translation keys that add independent displacements;
  - the reset flag, which `inputs` only ever sets;
  - the look mode engaged by the left button, with its `firstClick` recentring;
  - the pitch guard that keeps the view within [5°, 175°] of Up.
- **The render loop** (`Scene::draw`, `Scene::keyInput`, `Scene::updateFPS`):
  - the sample counter the kernel averages over;
  - the reset flag that restarts it;
  - the M key that flips the random mode;
  - the frame-time average;
  - the order of dispatch, barrier and present.

The modules are:

- `Glm` (`glm.dfy`): vectors over the reals, plus the trigonometric helpers as function values.
- `Objects` (`objects.dfy`): the records.
- `Marshal` (`marshal.dfy`): generic packing.
- `SceneSetup` (`scene_setup.dfy`): screen quad, scene contents and buffers.
- `CameraControl` (`camera.dfy`): the pure `Step` function and the `Camera` class.
- `Accumulation` (`accumulation.dfy`): the sample counter.
- `SceneInput` (`scene_input.dfy`): the key callback and the frame-time update.
- `RenderLoop` (`render_loop.dfy`): one iteration of `draw`, and a run of them.
- `SceneControl` (`scene.dfy`): the `Scene` class.

The two classes update their fields in place. Each method is proved equal to a pure
function of the old state:

- `Camera.Inputs` is proved against `Step`.
- `Scene.KeyInput` is proved against `KeyStep`.
- `Scene.UpdateFps` is proved against `FpsStep`.
- `Scene.Draw` is proved against `Run`.

The lemmas about those functions state what the program promises.

`Scene.Valid` is the scene's invariant. The constructor establishes it. `KeyInput`,
`KeyInputSetup`, `PollEvents`, `UpdateFps`, `Draw`, `Iteration`, `Present` and `React`
require it and keep it. The set-up methods (`SetupScene`, `SetupScreenQuad`,
`SetupSceneObjects`, `SetupComputeShaderData`) do not keep it: they run only inside the
constructor, from empty collections, as their C++ counterparts are private members called
from the constructor (scene.h:43-45, scene.cpp:28-32). It says:
- the three collections are non-empty and uploaded as they are;
- the screen quad is the constant one;
- the trigonometric laws hold;
- the render loop's invariant holds: the mode is 0 or 1, the frame time is positive, and
  the view is inside the pitch guard.

External inputs become parameters:

- Window polling (keys, mouse button, cursor position, close request) becomes the
  `Devices` and `FrameInput` records.
- The clock (`glfwGetTime`) becomes the real readings in each `FrameInput`.
- The seeded `rand()` stream becomes a function `rand: nat -> real` that gives the i-th
  value of `rand() / RAND_MAX`.
- The GL calls become an ordered trace of `GlEvent` values.

## Model

| member | source | states |
|---|---|---|
| Objects.DefaultMaterial | object.cpp:6-12 | every word of the default material is zero, so it is not an emitter and it keeps the colour convention |
| Objects.NewMaterial | object.cpp:13-19 | the five arguments land in the five words in the same order, and the light power is `data.w` |
| Objects.DefaultPointLight | object.cpp:24-27 | the default point light is all zero words with light power 0, an inert sentinel |
| Objects.NewPointLight | object.cpp:28-31 | the words are `pos` followed by the material's words, unchanged |
| Objects.DefaultSphere | object.cpp:36-39 | the default sphere is all zero words, with radius 0 and light power 0 |
| Objects.NewSphere | object.cpp:40-43 | the words are `posRad` then the material; the centre is `posRad.xyz` and the radius `posRad.w` |
| Objects.DefaultTriangle | object.cpp:48-53 | the default triangle is all zero words |
| Objects.NewTriangle | object.cpp:54-60 | as written: the three vertices are stored and the material words are the zero material's, whatever the argument |
| Objects.NewTriangleDropsMaterial | object.cpp:54-60 | any non-zero material passed to the value constructor is not the stored one, even after reading the record back from its words |
| Objects.NewTriangleWithMaterial | object.cpp:54-60 | corrected: vertices and material are all stored, and the material survives the layout round trip |
| Objects.DefaultQuad | object.cpp:65-71 | the default quad is all zero words with light power 0 |
| Objects.NewQuad | object.cpp:72-78 | the words are the corners in the order c00, c10, c01, c11, then the material |
| Objects.MaterialWords | object.h:22-50 | a material is 5 words, and its first word is (smoothness, glossiness, index of refraction, light power), the layout the kernel reads |
| Objects.PointLightWords | object.h:57-64 | a point light is 6 words, with the material after the position |
| Objects.SphereWords | object.h:66-75 | a sphere is 6 words, with the material after `posRad` |
| Objects.TriangleWords | object.h:77-86 | a triangle is 8 words, with the material after the three vertices |
| Objects.QuadWords | object.h:88-99 | a quad is 9 words, with the material after the four corners |
| Objects.MaterialFromWords | object.h:17-51 | any slice of 5 words is the layout of the material read from it |
| Objects.PointLightFromWords | object.h:57-64 | any slice of 6 words is the layout of the point light read from it |
| Objects.SphereFromWords | object.h:66-75 | any slice of 6 words is the layout of the sphere read from it |
| Objects.TriangleFromWords | object.h:77-86 | any slice of 8 words is the layout of the triangle read from it |
| Objects.QuadFromWords | object.h:88-99 | any slice of 9 words is the layout of the quad read from it |
| Objects.DecodeEncode | object.h:17-99 | reading any record back from its words gives the record |
| Objects.EncodeDecode | object.h:17-99 | every slice of a record's length is the layout of exactly one record |
| Marshal.PackLength | scene.cpp:250 | a buffer of records of n words holds n × count words |
| Marshal.PackIndex | scene.cpp:262 | word j of record i sits at index n·i + j of the buffer |
| Marshal.PackSlice | scene.cpp:262 | record i is exactly the slice n·i .. n·i + n of the buffer |
| Marshal.UnpackPack | scene.cpp:274 | splitting a packed buffer into records gives back the collection in order |
| Marshal.PackNonEmpty | scene.cpp:250 | a non-empty collection gives a non-empty buffer |
| SceneSetup.RecordSizes | object.h:6-15 | the records take 80, 96, 96, 128 and 144 bytes, each a multiple of 16 |
| SceneSetup.ScreenQuadLayout | scene.cpp:79-111 | the quad is 4 vertices at stride 5 (80 bytes) with 6 indices below 4 (24 bytes); each vertex's texture coordinate is ((x+1)/2, (y+1)/2); the two attributes tile the stride |
| SceneSetup.ScreenQuadCoversViewport | scene.cpp:79-89 | the two index triangles have the same winding and share only the diagonal 0–2; together they use all four corners, and their areas add up to the whole viewport |
| SceneSetup.RandomBall | scene.cpp:132-138 | every grid ball has zero emission, so it is not an emitter and keeps the colour convention; its index of refraction is 0 or its draw plus 1 |
| SceneSetup.RandomBalls | scene.cpp:129-140 | the grid loop pushes n balls, and ball k is built from the k-th group of sixteen draws |
| SceneSetup.RandomBallShape | scene.cpp:132-138 | with draws in [0, 1], a ball's centre lies in [-5, 5]³ and its radius in [0.2, 1.2]; it is not an emitter and its index of refraction is 0 or in [1, 2] |
| SceneSetup.SunsetIsEmitter | scene.cpp:145-146 | the sunset sphere is an emitter of power 100 at (40, 5, 50) with radius 10, and it keeps the emitter convention |
| SceneSetup.UniformBuffers | scene.cpp:246-280 | there are three buffers at bindings 5, 6 and 7; each byte size is count × sizeof(record), equals 16 × its word count and is a multiple of 16; all are positive when the collections are non-empty |
| SceneSetup.BindingsDistinct | scene.cpp:254-278 | the three binding indices are pairwise distinct |
| SceneSetup.UniformBuffersRoundTrip | scene.cpp:250-274 | each buffer reads back as its collection, and sphere i is words 6i .. 6i + 6 of the sphere buffer |
| SceneSetup.SceneCollections | scene.cpp:129-217 | the scene has 17 spheres; the point-light and quad sentinels are all zero with no light power; every buffer is non-empty |
| CameraControl.Speed | camera.cpp:30-33 | the speed is `fastVel` exactly when left shift is held, and it is always positive |
| CameraControl.SpeedTiers | camera.h:33-34 | the fast tier is exactly twice the slow one |
| CameraControl.ProjectionPlanes | camera.h:38 | the field of view is 45°, the near plane 0.01 and the far plane 1000, so the near plane is in front of the far one |
| CameraControl.RotX | camera.cpp:80 | the pitch amount is proportional to the cursor's vertical offset from the centre |
| CameraControl.RotY | camera.cpp:81 | the yaw amount is proportional to the cursor's horizontal offset from the centre |
| CameraControl.PitchAllowedRange | camera.cpp:87 | the guard accepts exactly the angles to Up in [5°, 175°] |
| CameraControl.Translate | camera.cpp:34-57 | with no movement key held the position is unchanged |
| CameraControl.Look | camera.cpp:61-95 | from an orientation the pitch guard accepts, the look branch leaves one it accepts |
| CameraControl.Step | camera.cpp:27-102 | the reset flag comes out set exactly when it went in set, a movement key is held or the button is pressed; `firstClick` comes out as "button released" |
| CameraControl.TranslateIsAdditive | camera.cpp:34-57 | the six sequential key updates equal the start position plus the sum of independent per-key terms |
| CameraControl.OpposingKeysCancel | camera.cpp:34-57 | W with S, A with D, and Space with LeftCtrl cancel to no net move |
| CameraControl.ForwardScenario | camera.cpp:34-37 | W alone at the slow tier moves by 4·frameTime along the direction, leaves the direction alone and sets the reset flag |
| CameraControl.KeysMoveOnlyPosition | camera.cpp:34-57 | the movement keys and shift change neither direction, nor `firstClick`, nor the cursor requests |
| CameraControl.ReleasedButton | camera.cpp:97-102 | with the button released, `firstClick` is re-armed, the direction is untouched and the cursor is shown; the flag only records movement keys, and without them the position is unchanged |
| CameraControl.PressedButton | camera.cpp:61-95 | with the button held, the reset flag is set and `firstClick` is cleared; the cursor is hidden first and recentred last |
| CameraControl.FirstClickNoJump | camera.cpp:66-81 | on the first engaged frame the cursor is read at the centre, so the direction does not change |
| CameraControl.YawKeepsAngleToUp | camera.cpp:92 | the yaw about Up keeps the angle to Up |
| CameraControl.LookValidPreserved | camera.cpp:84-92 | the pitch guard is an invariant: from a direction the guard accepts, every input leaves one the guard accepts |
| CameraControl.LookGuardBranches | camera.cpp:84-92 | with the button held, an accepted pitch is kept and then yawed about Up; a rejected pitch is dropped, the yaw still applies to the old direction, and the angle to Up stays exactly the old one |
| CameraControl.InitialLookValid | camera.h:42-43 | the initial direction is perpendicular to Up, so the guard accepts it |
| CameraControl.Camera.constructor | camera.cpp:4-8 | a new camera is at (0, 0, 2), looks along (0, 0, -1) and has `firstClick` set |
| CameraControl.Camera.Inputs | camera.cpp:27-102 | the new position, direction, `firstClick`, reset flag and cursor requests are those of `Step` |
| CameraControl.Camera.HandleKeys | camera.cpp:30-57 | the position becomes the six-key translation of the old one, and the result reports whether a movement key was held |
| CameraControl.Camera.HandleMouse | camera.cpp:60-102 | the look branch or the release branch, as `Look` and `LookCursor` describe them |
| Accumulation.SentNow | scene.cpp:343-347 | a raised flag sends 0; otherwise the carried count is sent |
| Accumulation.Sent | scene.cpp:321-374 | one count per frame; a frame that starts with the flag up sends 0, and frame k never sends more than the carried count plus k |
| Accumulation.SentIsSinceReset | scene.cpp:343-374 | the count sent in frame k is the number of frames since the last reset, or the carried count plus k when there was none |
| Accumulation.ResetSendsZero | scene.cpp:343-347 | a frame that starts with the flag raised sends 0 |
| Accumulation.NoResetIncrements | scene.cpp:347-374 | without a reset, a frame sends one more than the frame before |
| Accumulation.QuietFrames | scene.cpp:321-374 | with no reset, frame k sends the carried count plus k |
| Accumulation.CountSinceLastReset | scene.cpp:343-374 | n quiet frames after a reset, the count sent is n |
| SceneInput.KeyStep | scene.cpp:49-62 | an M press flips the mode (between 0 and 1) and raises the flag; any other key or action changes nothing |
| SceneInput.KeySteps | scene.cpp:378 | a poll never clears a raised reset flag and keeps the mode in {0, 1} |
| SceneInput.TwoPressesRestore | scene.cpp:52-55 | two M presses restore the mode and leave the flag raised |
| SceneInput.KeyStepsEffect | scene.cpp:49-62 | over a poll, the flag ends raised exactly when it was raised already or M was pressed, and the mode ends flipped once per press |
| SceneInput.ReleaseAndRepeatIgnored | scene.cpp:49-62 | a RELEASE or REPEAT of M changes neither flag; only its PRESS does |
| SceneInput.OtherKeysChangeNothing | scene.cpp:50-60 | a poll without an M press changes neither flag |
| SceneInput.FpsStep | scene.cpp:301-316 | the update records the reading; the counter resets exactly when a thirtieth of a second has passed, and then the frame time × frames counted equals the elapsed time; otherwise it counts up and keeps the frame time; the frame time stays positive |
| SceneInput.InitialFps | scene.h:71-74 | the counter and `prevTime` start at 0, and the frame time starts positive |
| RenderLoop.FrustumCorners | scene.h:61-64 | corner XY is (2X − 1, 2Y − 1, 1, 1) |
| RenderLoop.PresentEvents | scene.cpp:337-377 | five events, uniforms first and swap last, with the present directly after a barrier that directly follows a 128 × 128 × 1 dispatch |
| RenderLoop.Frame | scene.cpp:325-384 | an iteration sends the camera, mode and clock of the start of the frame; it sends a count of 0 when the flag is up and the carried count otherwise, and carries that count plus one; its events begin with uniforms, dispatch, barrier, present and swap, and then come the cursor requests |
| RenderLoop.Run | scene.cpp:325-384 | at most one iteration per input, at least five events per iteration, and a loop that stops at once changes nothing and issues nothing |
| RenderLoop.RunLength | scene.cpp:325-327 | the loop runs exactly one iteration per input before the first close request or Escape |
| RenderLoop.FrameRaises | scene.cpp:343-382 | the flag at the top of the next iteration is up exactly when this iteration's input pressed M, held a movement key or held the button; the mode flips once per M press |
| RenderLoop.RunAccumulation | scene.cpp:321-384 | the counts sent over a run are the sample-counter account of the flags seen at the top of each iteration |
| RenderLoop.ResetConsumedNextFrame | scene.cpp:343-382 | a reset raised in iteration k, by the camera or by M, makes iteration k + 1 send 0 |
| RenderLoop.QuietFrameIncrements | scene.cpp:347-374 | after an iteration that raised nothing, the next one sends exactly one more |
| RenderLoop.QuietRun | scene.cpp:321-374 | from the start of `draw`, with nothing raised, iteration k sends k |
| RenderLoop.FramePreserves | scene.cpp:325-384 | an iteration keeps the mode in {0, 1}, the frame time positive and the view inside the pitch guard |
| RenderLoop.RunPreserves | scene.cpp:325-384 | the same holds over a whole run, and every mode sent is 0 or 1 |
| RenderLoop.InitialInvariant | scene.h:39-40 | the scene's initial state (mode 0, no reset, fresh camera and clock) satisfies the loop invariant |
| RenderLoop.FrameOrdered | scene.cpp:363-373 | within an iteration, the present directly follows a barrier, which directly follows a full-grid dispatch |
| RenderLoop.RunOrdering | scene.cpp:363-373 | over a run, no present comes before its barrier and dispatch, and every dispatch is 128 × 128 × 1 |
| SceneControl.Scene.constructor | scene.cpp:7-33 | a new scene satisfies `Valid`: a fresh camera, mode 0, no reset, the initial clock and the constant screen quad; its spheres are the grid and the sunset, with one sentinel each for lights and quads, and its buffers are uploaded from them |
| SceneControl.Scene.SetupScene | scene.cpp:28-32 | from empty collections, the three set-up calls leave the quad, the scene's records and their buffers in place |
| SceneControl.Scene.KeyInput | scene.cpp:49-62 | the flags become `KeyStep` of the old flags, and `Valid` is kept |
| SceneControl.Scene.KeyInputSetup | scene.h:34-37 | the callback forwards its four arguments unchanged to the registered scene |
| SceneControl.Scene.PollEvents | scene.cpp:378 | the queued callbacks are applied in order, and `Valid` is kept |
| SceneControl.Scene.UpdateFps | scene.cpp:301-316 | the clock fields become `FpsStep` of the old ones, and `Valid` is kept |
| SceneControl.Scene.SetupScreenQuad | scene.cpp:79-106 | the vertex array, the index array and the attribute layout are the constant quad |
| SceneControl.Scene.SetupSceneObjects | scene.cpp:129-217 | the nested loop appends the 16 balls in loop order, then the sunset sphere; one default sentinel is appended to lights and one to quads |
| SceneControl.Scene.SetupComputeShaderData | scene.cpp:246-280 | the buffers become `UniformBuffers` of the three collections |
| SceneControl.Scene.Draw | scene.cpp:318-385 | the uniforms sent, the events issued, and the final camera, flags and clock are those of `Run` from the scene's state with count 0; `Valid` holds afterwards, so the mode stays 0 or 1, the frame time positive and the view inside the pitch guard |
| SceneControl.Scene.Iteration | scene.cpp:328-383 | one pass of the loop body leaves the state, uniforms and events of `Frame`, and keeps `Valid` |
| SceneControl.Scene.Present | scene.cpp:328-377 | the clock becomes `FpsStep`; the uniforms carry the camera, the mode and the count `SentNow`, which clears the flag; the events are `PresentEvents`; the count carried out is one more |
| SceneControl.Scene.React | scene.cpp:378-382 | the flags and camera become those of the key callbacks followed by `Step` with the frame time just measured, and `Valid` is kept |

## Left out

- The GL and GLFW calls themselves are not modelled: window and context creation
  (`main.cpp`), shader loading (`shaders.cpp`), texture and buffer objects, and the stb_image
  skybox load. They are foreign calls. Uniform uploads, dispatch, barrier, draw, swap and
  cursor requests appear only as abstract events in the trace.
- `Camera::matrix` (lookAt, perspective, inverse) and the unprojection of the four frustum
  corners into `ray00`–`ray11` are not modelled. They are float matrix numerics. The
  uniforms therefore carry no rays. The frustum corner constants are modelled.
- glm's `rotate` and `normalize`, and the arc cosine inside glm's `angle`, are function
  values in `Trig`, not computed. `Trig.Angle` itself is computed, as the arc cosine of
  the dot product clamped to [-1, 1]. Only three laws are assumed about the function values: a rotation by 0 is the identity; a rotation about
  Up keeps the y component; acos(0) is 90°. The scene's constructor takes these laws as
  its precondition, and `Scene.Valid` includes them. Angles are in degrees, because the
  `glm::radians` conversions cancel out of every comparison.
- Float and double rounding is not modelled: all arithmetic is over the reals. This
  includes the `(float)` cast of the time uniform and `frameTime` being a float.
- Integer width is not modelled: the `int` sample count and the `unsigned` frame counter
  are unbounded. A wrap after 2³¹ frames is not captured.
- The `rand()` stream is a parameter. The draws are assigned to the arguments in their
  written order, but C++ leaves the evaluation order of function arguments unspecified, so
  a compiler may assign them differently.
- On the first engaged frame, `glfwGetCursorPos` is assumed to return the centre the
  cursor was just moved to.
- `updateFPS` also builds and sets the window title string. That side effect is not
  modelled.
- `keyInput` also prints the new mode to standard output on every M press
  (scene.cpp:56). That output is not modelled.
- `Scene.Draw` runs over a finite sequence of frame inputs, one per iteration. The real
  loop is unbounded, so the model covers every finite prefix.
- The destructors are not modelled; they only release GL objects and pointers.
- The commented-out alternative scenes and the storage-buffer upload path are not
  modelled; they are dead code.
- The header comment in `object.h` speaks of storage buffers, but the code uploads
  uniform buffers (bindings 5–7). The model follows the code.

## Findings

| source | as written | input that shows it | evidently intended | confidence | as-written member | corrected member |
|---|---|---|---|---|---|---|
| object.cpp:54-60 | the value constructor of `Triangle` stores `Material()` and ignores its `material_` argument | `Triangle(p0, p1, p2, m)` with `m.data = (0, 0, 0, 50)`: the stored material has light power 0, so an emissive triangle would not emit | store `material_`, as the other four value constructors do | medium, not executed | Objects.NewTriangle, Objects.NewTriangleDropsMaterial | Objects.NewTriangleWithMaterial |
