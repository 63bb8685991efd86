# Bevy Space Program experiments — a Dafny model of the per-frame decision rules

The repository holds three Bevy (Rust) experiments. Each is one `main.rs`
whose ECS systems read inputs, resources and queries once per frame and
then write components, resources and `NextState` requests. The model keeps
the decisions those systems make and leaves the rendering, physics and
asset loading to the engine. The three experiments are:

- **Experiment 001**: a Loading → Generating → Spawning → Running pipeline,
  field-of-view zoom with key-pair camera axes, an R-key reset of the
  I-key command pods (the first pod has no `Velocity`, so R never moves it), and Escape to exit.
- **Experiment 002**: an asset gate from Loading to PreRunning, PreRunning
  systems that always move on to Running, the crosshair table for the
  camera's nearest object, and `cursor_grab_system`. That system handles
  cursor grab and release, exit on Escape, and the Rapier time-scale keys.
- **Experiment 003**: the targeting overlay and the `AutomationState`
  machine. The overlay has the nearest-to-centre picker with its "close
  call" rule, the target reticle and label table, and Enter to retarget.
  The state machine has F to toggle, auto-focus until aligned, and the
  HUD's "Tracking" name.

The model is organised as follows:

- **Modules:** one per concern, imported by name.
  - `Common`: shared values.
  - `CursorGrab`: the left-click/Escape logic that experiments 002 and 003
    share word for word.
  - `TimeScale`, `NavigationApp`: experiment 002.
  - `LoadingPipeline`, `CameraControls`: experiment 001.
  - `Targeting`, `Automation`: experiment 003.
- **State as classes:** a system that updates components or resources in
  place is a method on a class holding those fields.
- **State requests:** Bevy's `NextState` is a `pending` field. An
  `ApplyTransition` method makes a requested state current. `Frame`
  methods run one frame's systems and then the transition; where Bevy
  leaves the order of two systems open, they do so in either order.
- **Pure rules as functions:** each decision rule is also a function. The
  methods are proved against those functions, and lemmas state what the
  functions promise.
- **Engine computations as inputs:**
  - camera projections are a `Projection` value: behind the camera, or in
    front with a viewport position, whether that position is inside the
    overlay camera's rectangle, and the overlay position if one was found;
  - vector length is a function parameter `length`;
  - query lookups are booleans or `Option`s.
- **Panics:** `todo!()`, a failing `expect` and a missing required resource
  are modelled as the `Panics` case of an `Outcome`.

Some behaviour of the source is modelled exactly as written:

- **Nav-ring lookup:** the experiment 002 gate looks up the nav-ball scene
  and mesh in place of the nav-ring ones
  (`experiment_002/main.rs:124-161`). `NavigationApp.AssetsReady` says so,
  and `NavigationApp.NavRingNeverChecked` proves that the nav-ring
  handles never affect the gate.
- **Inverted zoom names:** in experiment 001, `CAMERA_ZOOM_MINIMUM` (π/2)
  is the largest field of view and `CAMERA_ZOOM_MAXIMUM` (π/1000) the
  smallest.
- **Enter with nothing on screen:** in experiment 003, Enter sets the
  target to `None` when nothing is projectable. The HUD then reaches
  `todo!()` in any state (`Automation.RetargetOnNothingPanics`), and
  `focus_on_target` reaches it too, but only while the state is
  FocusingOnTarget, since it runs only in that state
  (`experiment_003/main.rs:50`).

## Model

| member | source | states |
|---|---|---|
| Targeting.ReplacementRule | src/bin/experiment_003/main.rs:918-937 | a candidate no closer to the centre than the best never replaces it; one less than 3.0 closer replaces it exactly when strictly larger; one at least 3.0 closer always replaces it |
| Targeting.AcceptedIsCloser | src/bin/experiment_003/main.rs:918-937 | each loop step keeps the best or replaces it by the candidate (position, entity, size, on-screen) with a strictly smaller length |
| Targeting.PickFacts | src/bin/experiment_003/main.rs:895-945 | after the loop, on-screen holds exactly when an entity was chosen; with none chosen the running state is the initial sentinel one; a chosen entity is one of the candidates with its own overlay position and size; the best length never exceeds the sentinel's and is below it once something is chosen |
| Targeting.NothingProjectable | src/bin/experiment_003/main.rs:903-945 | when no candidate has both projections succeed, the loop ends in its initial state: no entity, not on screen |
| Targeting.NeverFarther | src/bin/experiment_003/main.rs:918-938 | one loop step never increases the best length |
| Targeting.WithinCloseCallOfEvery | src/bin/experiment_003/main.rs:903-945 | the picked position is less than 3.0 farther from the centre than every projectable candidate, whatever the iteration order |
| Targeting.ClearWinnerIsPicked | src/bin/experiment_003/main.rs:903-945 | a candidate at least 3.0 closer than the sentinel and than every other projectable candidate is picked, whatever sizes and order |
| Targeting.PickNearest | src/bin/experiment_003/main.rs:895-945 | the loop over the four running variables computes the fold `Pick`, with on-screen exactly when an entity was chosen |
| Targeting.TargetDisplayFor | src/bin/experiment_003/main.rs:967-1021 | reticle and label show exactly when the target is in front of the camera, inside the rectangle and has an overlay position; then the reticle is at that position and the label 15 px below and right of the viewport position; otherwise both hide |
| Targeting.TargetingOverlay.constructor | src/bin/experiment_003/main.rs:135-144 | cursor reticle hidden, target reticle visible, label hidden at top 100 / left 10 reading "Test Label", target the initial entity (also lines 223-231, 513, 677-679, 751-778) |
| Targeting.TargetingOverlay.UpdateTargetingOverlay | src/bin/experiment_003/main.rs:872-1037 | the picked result is `Pick`; the cursor reticle is shown at it only when something is on screen and never hidden; without a viewport rectangle nothing else changes; with a target whose transform is found the reticle and label follow `TargetDisplayFor`, the label text becoming its name when it has one; Enter sets the target to the picked entity, possibly none |
| CursorGrab.EscapeReleases | src/bin/experiment_002/main.rs:1053-1066 | Escape always leaves the cursor free, visible and the camera defaults disabled, whether or not left was clicked in the same frame |
| CursorGrab.ClickThenEscapeStays | src/bin/experiment_002/main.rs:1053-1066 | a left click and Escape in one frame lock then free the cursor without exiting |
| CursorGrab.ExitNeedsFreeCursor | src/bin/experiment_002/main.rs:1053-1061 | exit is requested exactly when Escape finds the cursor ungrabbed after this frame's left click has been handled; so only on a cursor ungrabbed at the start of the frame |
| CursorGrab.EscapeTwiceExits | src/bin/experiment_002/main.rs:1058-1066 | Escape in two successive frames exits when the second frame has no left click; with a left click in the second frame it does not exit |
| CursorGrab.CursorControls.constructor | src/bin/experiment_002/main.rs:268-270 | cursor free, visible and camera defaults disabled (also experiment_003/main.rs:101-103) |
| CursorGrab.CursorControls.HandleButtons | src/bin/experiment_002/main.rs:1053-1066 | the new cursor state and the exit decision are `AfterButtons` and `ExitRequested` of the old state (the same code is experiment_003/main.rs:1052-1065) |
| Automation.FToggles | src/bin/experiment_003/main.rs:1067-1079 | F switches Idle and FocusingOnTarget, and toggling twice returns to the start |
| Automation.FocusEndsWhenAligned | src/bin/experiment_003/main.rs:1115-1121 | without F, focusing ends exactly when aligned, and Idle stays Idle |
| Automation.TrackingName | src/bin/experiment_003/main.rs:800-810 | the HUD name is the target's name, "none" when the target has no name, and a panic exactly when there is no target |
| Automation.RetargetNamesOnlyPicked | src/bin/experiment_003/main.rs:1031-1033 | after Enter the HUD panics exactly when the picker put nothing on screen (with lines 800-810) |
| Automation.RetargetOnNothingPanics | src/bin/experiment_003/main.rs:1031-1033 | Enter with no projectable candidate clears the target and the HUD then panics (with line 809) |
| Automation.Autofocus.constructor | src/bin/experiment_003/main.rs:29 | the automation state starts Idle with no pending request |
| Automation.Autofocus.InputHandling | src/bin/experiment_003/main.rs:1039-1080 | nothing without a window; otherwise the shared button handling, and F requests the toggled state |
| Automation.Autofocus.FocusOnTarget | src/bin/experiment_003/main.rs:1082-1127 | panics exactly without a target; nothing when the target's transform is gone; Idle is requested when the angle is below 0.01, else the camera takes one step |
| Automation.Autofocus.ApplyTransition | src/bin/experiment_003/main.rs:1072-1076 | a requested state becomes current and the request is cleared |
| Automation.Autofocus.Frame | src/bin/experiment_003/main.rs:43-51 | with either system order, the frame panics exactly when focusing without a target, and the new state is `NextAutomationState` of the old one |
| TimeScale.Faster | src/bin/experiment_002/main.rs:1068-1090 | Period gives min(2·scale, 512) |
| TimeScale.Slower | src/bin/experiment_002/main.rs:1091-1113 | Comma gives max(scale/2, 2^-9) |
| TimeScale.KeysKeepTheRest | src/bin/experiment_002/main.rs:1068-1133 | only an interpolated timestep mode changes, only in its time scale, and Slash overrides Period and Comma of the same frame |
| TimeScale.FasterSlowerOnPowers | src/bin/experiment_002/main.rs:1068-1113 | on 2^k, Period gives 2^(k+1) and Comma 2^(k-1), stopping at 2^9 and 2^-9 |
| TimeScale.KeysStayReachable | src/bin/experiment_002/main.rs:1068-1133 | one frame's keys keep the time scale of the form 2^k with -9 ≤ k ≤ 9 |
| TimeScale.ScalesArePowersOfTwo | src/bin/experiment_002/main.rs:63-67 | from the initial scale 1, every scale reachable over any frames is 2^k with -9 ≤ k ≤ 9, so it lies in [2^-9, 512] |
| TimeScale.PhysicsConfiguration.constructor | src/bin/experiment_002/main.rs:63-67 | interpolated mode with dt 0.016666667, time scale 1 and one substep |
| TimeScale.PhysicsConfiguration.HandleTimeKeys | src/bin/experiment_002/main.rs:1068-1133 | the new timestep mode is `ModeAfterKeys` of the old one |
| NavigationApp.AssetsReady | src/bin/experiment_002/main.rs:124-161 | the gate opens exactly when the nav-ball, nav-ball-orbital and inverted-xyz-ball scenes and meshes are all loaded |
| NavigationApp.NavRingNeverChecked | src/bin/experiment_002/main.rs:124-161 | the nav-ring scene and mesh never affect the gate |
| NavigationApp.CrosshairFor | src/bin/experiment_002/main.rs:897-951 | the crosshair is visible exactly when the object is in front and inside the rectangle; it moves only when it also has an overlay position; the status reads onscreen, offscreen or behind us |
| NavigationApp.Crosshair.constructor | src/bin/experiment_002/main.rs:317-325 | the crosshair starts hidden at the origin and the target display reads "No Target" (line 753) |
| NavigationApp.Crosshair.HighlightNearestObject | src/bin/experiment_002/main.rs:842-954 | with nearest object, its transform, the rectangle and the display all found, the crosshair follows `CrosshairFor`; otherwise nothing changes |
| NavigationApp.CursorGrabSystem | src/bin/experiment_002/main.rs:1041-1134 | nothing without a window; otherwise the shared button handling, then the time-scale keys |
| NavigationApp.AppStates.constructor | src/bin/experiment_002/main.rs:39 | the app starts in Loading with no request |
| NavigationApp.AppStates.WaitForAssetLoading | src/bin/experiment_002/main.rs:113-166 | PreRunning is requested exactly when `AssetsReady` |
| NavigationApp.AppStates.Setup | src/bin/experiment_002/main.rs:251-270 | with a window the cursor is released and Running requested; without one nothing changes (also line 718) |
| NavigationApp.AppStates.UiSetup | src/bin/experiment_002/main.rs:724-775 | Running is always requested |
| NavigationApp.AppStates.ApplyTransition | src/bin/experiment_002/main.rs:160 | a requested state becomes current and the request is cleared |
| NavigationApp.AppStates.LoadingFrame | src/bin/experiment_002/main.rs:113-166 | a Loading frame ends in PreRunning exactly when `AssetsReady`, else in Loading |
| NavigationApp.AppStates.PreRunningFrame | src/bin/experiment_002/main.rs:724-775 | in either system order a PreRunning frame always ends in Running, window or not; the cursor is released only with a window |
| LoadingPipeline.PipelineOrder | src/bin/experiment_001/main.rs:122-314 | the pipeline only moves forward one stage per frame; Loading moves on exactly when all three scenes and meshes are loaded; Generating and Spawning always move on unless they panic |
| LoadingPipeline.ReachableIsConsistent | src/bin/experiment_001/main.rs:161-200 | over any frames from the start, ColliderAssets never exists in Loading or Generating, and Running is never reached without it |
| LoadingPipeline.ThreeFramesToRunning | src/bin/experiment_001/main.rs:122-314 | with everything loaded and every collider produced, three frames take the app from Loading to Running |
| LoadingPipeline.App.constructor | src/bin/experiment_001/main.rs:29 | the app starts in Loading without ColliderAssets |
| LoadingPipeline.App.AppLoading | src/bin/experiment_001/main.rs:122-159 | Generating is requested exactly when all three scenes and all three meshes are loaded |
| LoadingPipeline.App.GenerateResources | src/bin/experiment_001/main.rs:161-200 | panics exactly when a mesh is missing; otherwise ColliderAssets is inserted when all three colliders were produced and Spawning is requested |
| LoadingPipeline.App.InitiateSpawning | src/bin/experiment_001/main.rs:230-314 | panics exactly without ColliderAssets; otherwise Running is requested |
| LoadingPipeline.App.ApplyTransition | src/bin/experiment_001/main.rs:156 | a requested state becomes current and the request is cleared |
| LoadingPipeline.App.Frame | src/bin/experiment_001/main.rs:57-64 | a frame panics exactly when `NextStage` does, and otherwise ends in the stage `NextStage` gives; `app_controls` runs with no state condition, so in every state exit is requested exactly when Escape was pressed this frame (lines 461-468) |
| CameraControls.ClampFov | src/bin/experiment_001/main.rs:374-375 | the result lies in [π/1000, π/2], equals the input inside that range and the nearer bound outside it |
| CameraControls.Zoom | src/bin/experiment_001/main.rs:367-378 | a wheel event scrolling up divides the field of view by 1.1, one scrolling down multiplies it by 1.1, a zero scroll keeps it, each then clamped to [π/1000, π/2] |
| CameraControls.ZoomDirection | src/bin/experiment_001/main.rs:372-375 | from a field of view in range, scrolling up never widens it, scrolling down never narrows it, a zero scroll keeps it |
| CameraControls.ZoomRoundTrip | src/bin/experiment_001/main.rs:372-375 | away from the clamps, one scroll up and one scroll down restore the field of view, in either order (exact arithmetic) |
| CameraControls.ZoomAllStaysInRange | src/bin/experiment_001/main.rs:367-378 | a field of view in range stays in range after any wheel events |
| CameraControls.KeyPrecedence | src/bin/experiment_001/main.rs:380-402 | D beats A, S beats W, left Control beats left Shift and Q beats E; the winning key gives -speed·dt, the other alone +speed·dt, neither 0 |
| CameraControls.CameraControlsSystem | src/bin/experiment_001/main.rs:342-402 | without the camera or a perspective projection nothing changes; otherwise the middle button resets the field of view to π/4, the wheel events are applied in order, and the axes follow the key pairs |
| CameraControls.StateControls | src/bin/experiment_001/main.rs:426-440 | while R is held every pod the query returns, that is every command pod with a `Velocity` (the I-key pods, lines 452-456, not the `initiate_spawning` pod of lines 268-283), is put at (0, 40, 0) with the identity rotation and zero velocities, keeping its scale; otherwise no pod changes |

## Left out

- Rendering, spawning, lights, materials, gizmos and the experiment 003 floating-origin grid are left out: they decide nothing the model can state.
- Asset loading and the Bevy asset server are left out. The loaded assets are an input set.
- The experiment 001 `spawn_camera` system and the I-key pod spawn in `state_controls` are left out: they only spawn entities.
- The experiment 001 `run_app` system is left out: it changes nothing and only logs each rigid body's altitude.
- Camera projections (`world_to_viewport`, `viewport_to_world_2d`, the viewport rectangle) are inputs, and vector length is a given function. The model does not compute them.
- Floating-point rounding is left out: `f32` and `f64` values are exact reals. `PI` is the exact value of the 32-bit float.
- Quaternion and vector math is left out. This covers the mouse-motion rotation, the Home `look_at`, the movement vectors and roll in `camera_controls`, and the rotation step and angle in `focus_on_target`, which are inputs there (`FocusView`).
- Several experiment 002 systems are left out:
  - `modify_gravity` only does physics;
  - `spawn` spawns a dynamic capsule on a right click, and adds a mesh and a material every frame;
  - `update_hud` orients the HUD transforms towards the planet;
  - the ui text systems format HUD text.
- CameraControls.StateControls: takes the queried pods as its input array. It does not model which entities match the query, namely command pods that have a `Velocity`. That is the I-key pods and never the `initiate_spawning` pod.
- HUD text formatting in `ui_text_update` is left out. Only the "Tracking" name decision is modelled.
- A Bevy `single()` / `single_mut()` that panics when not exactly one entity matches is left out. The model assumes exactly one match wherever the source uses them.
- Logging (`info!`, `debug!`, `error!`) and tracing spans are left out.
- `rand` and the Rapier/VHACD collider generation are left out. Which colliders were produced is an input.
- Event readers hand each event to a system once; the model takes one frame's events as a sequence. Events a system leaves unread, which Bevy delivers again the next frame, are not modelled. These are the mouse-motion events when the right button is up, and the wheel events when `camera_controls` returns early for want of the camera or a perspective projection.
- Bevy runs systems of one schedule in an unspecified order, and the model cannot capture that in general. Where two modelled systems share a state request, `Frame` methods prove the result for both orders.
- CameraControls.CameraControlsSystem: returns only the field of view and the four axis amounts, with no camera transform.
- NavigationApp.Crosshair.HighlightNearestObject: keeps only the first line of the target display; the formatted coordinate lines below it are left out.
- Automation.Autofocus.Frame: the `ui_text_update` panic of the same frame is stated separately by `Automation.TrackingName` rather than folded into the frame's outcome.
