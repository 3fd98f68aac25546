# Live camera viewer: control logic, render dispatch, pose hold and scene list

A Dafny model of the original logic in a webcam viewer. The viewer captures
frames, filters them on the CPU or with GLSL shaders, and can warp them
interactively. The model covers:

- **InputHandler** (`input_handler.dfy`): the edge-triggered controls of
  `src/InputHandler.cpp`. The filter index is clamped to [-1, 3] and the
  render mode to [0, 1]. Resolution presets set the global base width. Any
  action resets the frame statistics. Mouse-button press anchors are
  captured on the press. The interactive affine transform has reset, drag
  and wheel-zoom rules. Each category has its own "changed" latch, so a held
  key acts once.
- **MainApp** (`main_app.dfy`): the older `controlApp` of `main.cpp`, with a
  single latch shared by all eight keys. Also `resetAverage` and the GPU
  shader switch of its main loop.
- **AppUtilities** (`app_utilities.dfy`): from `src/AppUtilities.cpp`:
  - the translation, scale and rotation matrices and the composer with its
    `needsTransform` decision;
  - the nearest-neighbour inverse warp over a 2-D pixel array;
  - the shader dispatch with the two-pass pixelation and its render-target
    sizes;
  - the framebuffer create/resize lifecycle over an abstract GL handle
    allocator.
- **Experiments** (`experiments.dfy`): the benchmark driver of
  `src/Experiments.cpp`. It covers the label-to-filter mapping,
  `controlAppFromConfig`, and the frame loop that skips empty captures and
  accumulates statistics.
- **TestGlfw** (`test_glfw.dfy`): the augmented-reality loop of
  `src/testGLFW.cpp`. The last valid board pose is held for up to two
  seconds of failed detections. The pose is converted to a view matrix by
  flipping the camera's y and z axes and is transposed into the renderer's
  column-major layout.
- **SceneGraph** (`scene.dfy`): the scene list of `common/Scene.cpp`:
  append, an ordered render pass that skips null entries, and the
  destructor.

Key and button states, the cursor position and the frame clock are inputs.
Floating-point values are `real`. The square root, cosine and sine are
function parameters. Pose detection and solving enter as a `Detection`
value per frame. The global `BASE_WIDTH` is passed in and returned.
Handlers that mutate objects are methods on classes, with `modifies`
clauses. Each is tied to a pure step function, and the properties across
many frames are lemmas about those step functions.

## Model

| member | source | states |
|---|---|---|
| InputHandler.FrameStats.Reset | src/InputHandler.cpp:9-12 | both totals become zero |
| InputHandler.FrameStats.AddFrame | src/InputHandler.cpp:14-17 | the total time grows by the frame time and the frame count by exactly one |
| InputHandler.TrackButton | src/InputHandler.cpp:23-49 | a button's anchor is captured only on the released-to-pressed transition and is otherwise kept; the held flag follows the button |
| InputHandler.HeldButtonKeepsTrack | src/InputHandler.cpp:24-32 | while a button stays held, its anchor and held flag do not change, wherever the cursor moves |
| InputHandler.AnchorFixedWhileHeld | src/InputHandler.cpp:24-31 | a press followed by any number of held polls leaves the anchor at the cursor position of the press |
| InputHandler.HandleMouseInput | src/InputHandler.cpp:19-50 | records cursor and buttons, updates both anchors by the transition rule, and leaves the scroll count alone |
| InputHandler.EdgeLatch | src/InputHandler.cpp:59-69 | an action fires iff some key of the category is down and the latch is clear; afterwards the latch is set iff some key is down |
| InputHandler.ClampedLatchStep | src/InputHandler.cpp:59-69 | a value in [lo, hi] stays there; it changes only when the latch fires; "next" alone steps up below hi, "previous" alone steps down above lo; with both held it first steps up below hi, then down above lo (3 becomes 2 at the top) |
| InputHandler.RunStaysInRange | src/InputHandler.cpp:53-61 | over any key sequence, a filter index or render mode that starts in range stays in range |
| InputHandler.FiresOncePerPress | src/InputHandler.cpp:59-69 | over any key sequence, the handler fires exactly as often as the category goes from no key down to some key down |
| InputHandler.LatchedHoldChangesNothing | src/InputHandler.cpp:59-69 | while the latch is set and a key stays held, neither the value nor the statistics change |
| InputHandler.HoldingIncAdvancesOnce | src/InputHandler.cpp:59-69 | holding "next" for any number n > 0 of frames advances the value by one step, and only once |
| InputHandler.HandleFilterInput | src/InputHandler.cpp:52-70 | new filter index and latch as the latch step gives them; the statistics are reset iff the action fired |
| InputHandler.HandleRenderModeInput | src/InputHandler.cpp:72-90 | the same for the render mode in [0, 1] with up/down and its own latch |
| InputHandler.ResolutionStep | src/InputHandler.cpp:98-121 | when unlatched, the first pressed digit in the order 1, 2, 3, 4 selects 240, 720, 1080 or 1600; the output flag is raised and never lowered; the width is unchanged when nothing fires |
| InputHandler.ResolutionFiresOncePerPress | src/InputHandler.cpp:98-121 | a preset fires exactly once per press of the digit keys, and a raised output flag stays raised |
| InputHandler.HeldDigitFiresOnce | src/InputHandler.cpp:98-121 | holding a digit for any number of frames applies its preset exactly once |
| InputHandler.BaseWidthIsPresetAfterFiring | src/InputHandler.cpp:101-112 | after any run in which a preset fired, the base width is one of 240, 720, 1080, 1600 |
| InputHandler.PresetKeptWithoutFiring | src/InputHandler.cpp:98-112 | a run in which no preset fires leaves the base width unchanged |
| InputHandler.HandleResolutionInput | src/InputHandler.cpp:92-122 | new base width, output flag and latch as the resolution step gives them; the statistics are reset iff a preset fired |
| InputHandler.ControlApp | src/InputHandler.cpp:161-167 | runs mouse, filter, render mode, resolution and quit in order; each result is that handler's step; the mouse state records the cursor, both button flags and both anchors, and keeps its scroll count; the statistics are reset iff any action fired; a close is requested iff escape is down |
| InputHandler.ZoomFactor | src/InputHandler.cpp:154 | the zoom for k wheel ticks, 1.1^k, is positive for every integer k |
| InputHandler.ZoomRoundTrip | src/InputHandler.cpp:153-155 | zooming in by k ticks and out by k ticks cancel exactly |
| InputHandler.AffineStep | src/InputHandler.cpp:129-159 | space alone resets to the identity transform; a right drag sets the rotation to the drag distance, a left drag sets the translation to the drag offset, otherwise both keep or reset; a nonzero scroll multiplies the (reset) scale by 1.1^scroll and clamps it below at 0.1, and no scroll keeps or resets it |
| InputHandler.RotationIsUnsignedDistance | src/InputHandler.cpp:139-144 | with a non-negative square root, the right-drag rotation is never negative and is the same for opposite drags |
| InputHandler.ScaleNeverBelowMin | src/InputHandler.cpp:153-158 | starting at scale 0.1 or more, no sequence of resets, drags and wheel ticks takes the scale below 0.1 |
| InputHandler.HandleAffineInput | src/InputHandler.cpp:129-159 | the new transform is the affine step from the previous one, using the mouse anchors; the scroll count is consumed to 0 |
| MainApp.ResetAverage | main.cpp:115-118 | both totals become zero |
| MainApp.ControlApp | main.cpp:120-195 | all outputs equal one step of the single-latch control function |
| MainApp.LatchedFreezes | main.cpp:151-194 | while the latch is set, filter, render mode, base width, output flag and statistics stay as they are; only the latch changes, clearing iff all eight keys are up |
| MainApp.LatchTransition | main.cpp:184-194 | afterwards the latch is set iff (it was set or an arrow is down) and some key is down, so digits never set it |
| MainApp.UnlatchedResolution | main.cpp:158-190 | unlatched, the output flag equals "some digit is down", the highest-numbered pressed digit picks 480/720/1080/1600, no digit keeps the width, and any key resets the statistics |
| MainApp.RangesPreserved | main.cpp:151-155 | over any key sequence, the filter index stays in [-1, 3] and the render mode in [0, 1] |
| MainApp.HeldDigitReappliesEveryFrame | main.cpp:151-194 | holding "2" alone for n frames applies the preset on all n frames; the resize flag is raised and the statistics are zeroed, and the latch stays clear |
| MainApp.SelectShader | main.cpp:442-495 | multi-pass iff GPU path and filter 1; on the GPU path -1, 0, 1 and 2 install "none", "greyscale", "none" and "sincity", and any other index keeps the previous shaders; the CPU path resets both to "none" while latched and otherwise keeps them |
| MainApp.SelectionMatchesDispatch | main.cpp:444-485 | for filters -1..2 on the GPU path, the inline switch selects the same quad shader and multi-pass decision as applyShaderFilters (src/AppUtilities.cpp:185-255), and the same current shader wherever that installs one |
| MainApp.ModeThreeKeepsPreviousShader | main.cpp:445-485 | stepping from filter 2 to 3 on the GPU path leaves "sincity" installed |
| AppUtilities.TranslationMatrix | src/AppUtilities.cpp:113-118 | the identity except for entries (0,2) = xoff and (1,2) = yoff |
| AppUtilities.TranslationMoves | src/AppUtilities.cpp:113-118 | the translation matrix moves every point by (xoff, yoff) |
| AppUtilities.TranslationInverse | src/AppUtilities.cpp:127-128 | translating by the negated offsets undoes a translation |
| AppUtilities.ScaleMatrix | src/AppUtilities.cpp:132-139 | the linear part is diag(xscale, yscale) |
| AppUtilities.ScaleAboutCenter | src/AppUtilities.cpp:132-139 | the scale matrix maps p to centre + (xscale·(p.x - centre.x), yscale·(p.y - centre.y)) |
| AppUtilities.ScaleFixesCenter | src/AppUtilities.cpp:132-139 | the scale matrix maps its centre to itself, for any scale factors |
| AppUtilities.RotationMatrix | src/AppUtilities.cpp:120-130 | the linear part is the rotation (cos, -sin; sin, cos) |
| AppUtilities.RotationAboutCenter | src/AppUtilities.cpp:120-130 | the rotation matrix rotates every point's offset from the centre by the angle and adds the centre back |
| AppUtilities.RotationFixesCenter | src/AppUtilities.cpp:120-130 | the rotation matrix maps its centre to itself, for any angle |
| AppUtilities.TransformationMatrix | src/AppUtilities.cpp:148-173 | needsTransform iff \|scale-1\| > 0.0001 or \|rotation\| > 0.1 or \|tx\| > 0.1 or \|ty\| > 0.1; otherwise the matrix is the identity |
| AppUtilities.CompositeOrder | src/AppUtilities.cpp:152-171 | the composite is I·S·R·T: a point is first translated, then rotated and scaled about (cols/2+tx, rows/2+ty), each factor being the identity when switched off |
| AppUtilities.PureTranslationComposite | src/AppUtilities.cpp:148-173 | with no rotation, unit scale and a translation beyond 0.1, the composite moves every point by exactly the translation |
| AppUtilities.Round | src/AppUtilities.cpp:56-57 | rounding lands within one half of the value |
| AppUtilities.TranslationWarpShifts | src/AppUtilities.cpp:54-57 | with the inverse of a whole-pixel translation by (dx, dy), destination (row, col) samples source (row-dy, col-dx), so a marked pixel moves exactly by the translation |
| AppUtilities.TransformImageBackwards | src/AppUtilities.cpp:49-65 | a new image of the same size; each pixel is the source pixel at the rounded inverse-mapped position when that lies inside the image, and black otherwise |
| AppUtilities.ApplyShaderFilters | src/AppUtilities.cpp:185-255 | multi-pass iff mode 1; -1, 0 and 2 install "none", "greyscale" and "sincity" on the video texture; any other mode falls back to "none"; mode 1 draws through "none" into the small target at a tenth of the size, then from its texture to the screen at full size |
| AppUtilities.SmallIsTenthOfFull | src/AppUtilities.cpp:210-213 | for every base width and aspect ratio, the small target is exactly the full target divided by 10 (truncated) in both dimensions |
| AppUtilities.Gl.GenFramebuffer | src/AppUtilities.cpp:77 | hands out a fresh nonzero name and makes it a live framebuffer |
| AppUtilities.Gl.GenTexture | src/AppUtilities.cpp:79-81 | hands out a fresh nonzero name with storage of the given size |
| AppUtilities.Gl.Attach | src/AppUtilities.cpp:84 | records the texture as the framebuffer's colour attachment |
| AppUtilities.Gl.DeleteTexture | src/AppUtilities.cpp:95 | the texture is no longer live; names not in use, 0 included, are ignored |
| AppUtilities.Gl.DeleteFramebuffer | src/AppUtilities.cpp:96 | the framebuffer and its attachment record are removed, and the attached texture stays live; names not in use are ignored |
| AppUtilities.CreateFbo | src/AppUtilities.cpp:75-92 | a new framebuffer with a new texture of the requested size as its attachment; returns that framebuffer when complete and 0 otherwise, and on failure both new objects stay allocated |
| AppUtilities.ResizeFbo | src/AppUtilities.cpp:94-101 | the old texture and framebuffer are deleted and new ones created at the new size. The name counter advances by two. The attachment map loses the old framebuffer's entry and gains the new framebuffer's, and keeps every other entry. A successful resize returns the newly issued framebuffer, and a failed one returns 0. A successful resize of a live framebuffer leaves the number of live framebuffers unchanged |
| AppUtilities.ResizeTargets | main.cpp:430-437 | resizing the full target and then the small one (the same two calls are at src/App.cpp:213-220) gives each a texture of its own size: full, and a tenth of full. A complete target is a live framebuffer attached to its own texture, so the second resize keeps the first target's attachment. The two targets get distinct framebuffers and textures |
| Experiments.ModeForLabel | src/Experiments.cpp:66-70 | "greyframeScale", "pixelated", "sincity" and "blur" map to 0, 1, 2 and 3 (iff), anything else to -1 |
| Experiments.InitialModeForLabel | src/Experiments.cpp:91-95 | the starting filter index is in [-1, 3] |
| Experiments.LabelTablesDiffer | src/Experiments.cpp:91-95 | the starting table agrees with the control table except that "blur" and "sincity" swap indices |
| Experiments.ConfigStep | src/Experiments.cpp:63-79 | mode from the label; render mode 1 iff GPU; width set to the configured one; the flag is raised (never cleared) and the statistics reset iff the width differed |
| Experiments.ConfigIdempotent | src/Experiments.cpp:66-78 | a second call with the same configuration changes nothing and does not reset the statistics again |
| Experiments.ControlAppFromConfig | src/Experiments.cpp:63-79 | the outputs and the statistics are those of the configuration step |
| Experiments.FramesReadPositive | src/Experiments.cpp:122-125 | the count of frames read is positive iff some capture is non-empty |
| Experiments.AllEmptyCountsNothing | src/Experiments.cpp:122-125 | a run of empty captures counts no frames and no time |
| Experiments.TestConfiguration | src/Experiments.cpp:86-217 | frames counted = non-empty captures and time = their sum; width = the configured one; one resize iff the width changed and some frame was read; the final filter comes from the control table if a frame was read, otherwise from the starting table |
| Experiments.GreyscaleLookupMisses | src/Experiments.cpp:283 | the label "greyframeScale" selects filter 0, whose dispatched shader name "greyscale" is not among the names the benchmark registers |
| Experiments.DispatchedShadersRegistered | src/App.cpp:89-93 | with shaders registered under the application's names, every shader the dispatch selects, for any filter index, is registered |
| TestGlfw.HoldStep | src/testGLFW.cpp:431-463 | a pose is valid iff at least 6 corners and 6 matched points were found and the solver succeeded; a valid pose is snapshotted, held and the timer set to 2; otherwise a held pose is restored and the timer runs down by the frame time; the hold ends when the timer reaches 0; drawn iff valid or held |
| TestGlfw.HoldWhileTimeRemains | src/testGLFW.cpp:449-460 | after a valid pose, a run of failed frames still holds it iff every prefix of the run took less time than the timer had left; the held pose is then the snapshot and the timer has run down by the elapsed time |
| TestGlfw.NotFoundStaysLost | src/testGLFW.cpp:449-460 | once lost, a pose stays lost until a valid one is solved, and the snapshot is kept |
| TestGlfw.PoseTracker.constructor | src/testGLFW.cpp:397-404 | nothing held, the timer full at 2, no snapshot |
| TestGlfw.PoseTracker.Update | src/testGLFW.cpp:431-463 | the loop variables, validity and drawing decision are those of the hold step |
| TestGlfw.NewView | src/testGLFW.cpp:473-485 | a 4x4 matrix whose bottom row is (0, 0, 0, 1) |
| TestGlfw.ViewConvertsCoordinates | src/testGLFW.cpp:472-485 | the view matrix takes a board point p to R p + t with y and z negated, i.e. rows 1, 2 of R and components 1, 2 of t negated |
| TestGlfw.ViewAr | src/testGLFW.cpp:462-493 | a new 4x4 matrix; when drawn, viewAR[c][r] = newView(r, c) for all r, c; otherwise the identity |
| SceneGraph.VisitsMatchEntries | common/Scene.cpp:15-31 | every visit of the render pass is of a non-null entry with a shader, and uses that entry's own shader and object |
| SceneGraph.VisitsAscending | common/Scene.cpp:16 | visits are in strictly ascending index order, so no entry is drawn twice |
| SceneGraph.RenderableVisited | common/Scene.cpp:15-31 | every non-null entry with a shader is visited: bound, then drawn |
| SceneGraph.SkippedNeverVisited | common/Scene.cpp:17-26 | a null entry or one without a shader is never visited |
| SceneGraph.Scene.AddObject | common/Scene.cpp:33-36 | appends at the end: length grows by one and earlier entries are unchanged |
| SceneGraph.Scene.Render | common/Scene.cpp:15-31 | the visits made are exactly the render trace of the list |
| SceneGraph.Scene.Destroy | common/Scene.cpp:4-11 | every non-null entry is deleted and the list is left empty |

## Left out

- Windowing, GL and OpenCV calls are not modelled: window creation, shader compilation, uniforms, draw calls, capture, filters, undistortion, board detection, `solvePnP`, `Rodrigues`, calibration. They are foreign code. Their results enter as parameters (`Detection`, `Mat33`, the completeness verdict of a framebuffer). `src/Calibration.cpp` is not part of this model.
- `src/App.cpp` `main` is not modelled, apart from its two consecutive target resizes (AppUtilities.ResizeTargets, src/App.cpp:213-220). It is per-frame orchestration of the modelled handlers. It is otherwise cited for the shader names it registers (src/App.cpp:89-93).
- `getModelMatrix`, the AR projection matrix, `initWindow`, `addShader`, `setShaderMVP`, `timeFunction`, `applyCVFilter` and `getRandomRange` are left out. They are glm/GL/OpenCV arithmetic, timing or randomness.
- Console output and the label tables used only for printing are left out. In particular, the bounds check of the label lookups (`filterLabels.at(mode + 1)`, `renderLabels.at(renderMode)`) is not modelled. That check throws only for an index out of range, and it cannot trigger from the in-range start, because RunStaysInRange and RangesPreserved keep both indices in range. So is the final FPS average, including its division when no frame was read.
- The aspect-ratio uniform update at the end of `applyShaderFilters` is left out: it is a GL call.
- Floating point: all `float`/`double` values are reals. Conversions to `int` are modelled as truncation toward zero, and overflow of those conversions is not modelled.
- GL object names come from one increasing counter. Real GL keeps separate namespaces for framebuffers and textures.
- Matrices store their top two rows. Every matrix the source builds has the bottom row (0, 0, 1), and the warp reads only the first two components.
- `std::map::operator[]` default insertion is not modelled: the dispatch returns shader names, not looked-up pointers.
- The Rodrigues output is taken to be the 3x3 rotation by rows. When the solver is attempted, its rvec/tvec are taken to be written whatever its verdict.
- InputHandler.ZoomFactor: computes 1.1^k exactly over the reals. The rounding of `pow(1.1f, …)` in single precision is not captured.
- InputHandler.AffineStep: the square root is a parameter. The rotation property assumes only that it is non-negative on non-negative inputs.
- InputHandler.HandleAffineInput: the unused `prevFrameRotation` parameter is accepted and ignored, as in the source.
- AppUtilities.RotationMatrix: takes the cosine and sine of the angle as inputs instead of computing them from degrees.
- AppUtilities.TransformImageBackwards: takes the already inverted matrix. `M.inv()` and the behaviour for a singular matrix are not modelled.
- AppUtilities.Round: its contract only bounds the result within one half. The body does round halves away from zero, as the C library does.
- Experiments.TestConfiguration: the per-frame random transforms, the warp, the shader dispatch and the rendering are left out; those operations are modelled on their own. The resize is counted rather than performed.
- SceneGraph.Scene.Destroy: deletion is reported as the list of deleted objects. The contract states which objects are deleted, not how often; an object listed twice would be deleted twice in the source.
- TestGlfw.NewView: the matrix is built from the rotation rows and translation directly. Its contract states the shape, and ViewConvertsCoordinates states what it does to points.

The two versions of controlApp (`main.cpp` and `src/InputHandler.cpp`) differ; the model follows each as written:
- `main.cpp` uses the preset 480 for key 1, and `src/InputHandler.cpp` uses 240.
- In `main.cpp`, digit keys never set the shared latch. So that version does not trigger only once per press for resolution keys (see Findings).

## Findings

| source | as written | input that shows it | evidently intended | confidence | as-written member | corrected member |
|---|---|---|---|---|---|---|
| main.cpp:151-194 | only an arrow sets `hasChanged`, so a held digit passes the `!hasChanged` guard on every frame | hold "2" alone for n frames: the preset is re-applied, `resolutionChanged` is raised and the statistics are reset n times, which forces n resizes | a held digit acts once per press, like the arrows; the later handler in src/InputHandler.cpp does this with its own resolution latch | high, not executed | MainApp.HeldDigitReappliesEveryFrame | InputHandler.HeldDigitFiresOnce |
| src/Experiments.cpp:283 | the benchmark registers the greyscale shader under "greyframeScale", but the dispatch looks up "greyscale" (src/AppUtilities.cpp:204) | configuration filter "greyframeScale" with the GPU path and a non-empty frame: mode 0 looks up "greyscale", gets a default-inserted null pointer, and `applyShader` dereferences it | register the shader under "greyscale", as src/App.cpp:90 does | high, not executed | Experiments.GreyscaleLookupMisses | Experiments.DispatchedShadersRegistered |
