# Cricket scene interaction core, in Dafny

This project models the interactive logic of the 3D cricket-stadium scene in
`src/components/BabylonCanvas.tsx`. The rendering is done by Babylon.js, and
the scene itself has three small state machines and one placement routine:

- **Logo drag rotation** (`logoRotationControl`, `resetLogoRotation`). A
  pointer-down anywhere starts a drag. Each pointer-move during a drag turns
  the logo's yaw and pitch by the pointer's movement times 0.005. Each angle
  is clamped to within PI/8 of the rotation captured when the handlers were
  installed. A pointer-up ends the drag and schedules a 10-frame snap-back
  animation to that rotation.
- **Camera orbit and engage latch** (`createCamera`, `flyToBatter`). The
  camera starts at alpha = PI and a before-render observer adds 0.001 to
  alpha every frame. `flyToBatter` clears the observers for good, looks at
  (0, 2, 0) and schedules a 30-frame flight to (-15, 4, 0).
- **Start button** (the pointer-up handler in `createControls`). It disables
  the logo, swaps the start button for the two swing buttons and calls
  `flyToBatter`.
- **Fielder ring** (`randomFielderPositions`). It places `numFielders`
  points on the ground. Point i is at distance r * 25 + 25 and at angle
  i * step + step * r' - 0.5, where step = 2 * PI / numFielders.

Modules, one per file:

- `Babylon` (`babylon.dfy`): the engine objects the core touches. These are
  vectors, `Scalar.Clamp`, animations as keyframe data, a log of
  `beginAnimation` calls, a mesh, an arc-rotate camera and a scene.
- `DragRotation` (`drag_rotation.dfy`): the drag handlers. They are given as
  a class over the mesh and as pure step functions with lemmas about any
  sequence of pointer events.
- `CameraOrbit` (`camera_orbit.dfy`): the camera, one rendered frame, and
  `flyToBatter`.
- `StartControls` (`start_controls.dfy`): the GUI container, the loaded-mesh
  registry and the start handler.
- `Fielders` (`fielders.dfy`): ring placement.
- `SceneSetup` (`scene_setup.dfy`): `createScene`, as far as this state is
  concerned.

Numbers are `real`. `Math.random()` results are passed in as a sequence of
draws. `Math.cos` and `Math.sin` are passed in as uninterpreted functions.
Babylon's animation playback is recorded as data (keyframes plus a
`Playback` entry per `beginAnimation` call) and is never run.

Three places where the evidently intended behaviour and the code differ; the
model follows the code in each:

- Fielders are meant to spread evenly round the ring, each jittered by at
  most half a sector, at a radius between the inner and outer radius, and
  with some minimum spacing between neighbours. The code instead subtracts a
  constant 0.5 radians from every angle, so angle i lies in
  [i * step - 0.5, (i + 1) * step - 0.5). Two neighbours can be arbitrarily
  close in angle. In exact arithmetic the distance lies in [25, 50); in
  doubles a draw just below 1 can round up to exactly 50. The model proves
  what the code gives: angles strictly increase with the index and all lie
  within less than one full turn.
- Pressing start before the logo has loaded is meant to be harmless. The
  code dereferences the logo without a check. The model returns
  `LogoNotLoaded` and changes nothing, because the handler throws before its
  first effect. The start button stays, so a later press can still succeed.
- The drag clamp might be expected to be centred on the rotation at the start
  of each drag. The code centres it on the rotation captured once at setup,
  and the model follows that.

## Model

| member | source | states |
|---|---|---|
| Babylon.Clamp | src/components/BabylonCanvas.tsx:139-149 | the clamped value lies in [min, max]; it equals the input when the input is already in range, and the nearer bound otherwise |
| Babylon.Mesh.SetEnabled | src/components/BabylonCanvas.tsx:368 | `setEnabled(v)` sets the enabled flag to v and touches nothing else |
| Babylon.ArcCamera.constructor | src/components/BabylonCanvas.tsx:162-169 | a new arc-rotate camera has the given alpha, beta, radius and target, no animations, and the default field of view |
| Babylon.ArcCamera.SetTarget | src/components/BabylonCanvas.tsx:233 | the target becomes the new point and the position stays put; if the target was already that point, alpha, beta and radius are unchanged |
| Babylon.Scene.constructor | src/components/BabylonCanvas.tsx:382 | a new scene has no before-render observer and no animations begun |
| Babylon.Scene.BeginAnimation | src/components/BabylonCanvas.tsx:112 | each `beginAnimation` call is appended to the scene's playback log, with its target, frame range and loop flag |
| Babylon.Scene.ClearBeforeRender | src/components/BabylonCanvas.tsx:231 | clearing the before-render observable removes the orbit observer |
| DragRotation.Turned | src/components/BabylonCanvas.tsx:135-149 | after a move, yaw and pitch are within PI/8 of rest and roll is untouched; from an in-bounds start, a rightward (downward) move never raises yaw (pitch), and a leftward (upward) move never lowers it; an unclamped result is exactly rotation - delta * 0.005 |
| DragRotation.OnDown | src/components/BabylonCanvas.tsx:126-130 | pointer-down starts dragging and records the event's coordinates; the rotation is untouched |
| DragRotation.OnMove | src/components/BabylonCanvas.tsx:132-153 | a move while not dragging changes nothing; while dragging it turns the logo by the delta from the last recorded position and records the event's coordinates; in-bounds stays in-bounds; roll never changes |
| DragRotation.OnUp | src/components/BabylonCanvas.tsx:155-156 | pointer-up stops dragging and leaves the recorded position and the rotation as they were |
| DragRotation.RunStaysWithinLimit | src/components/BabylonCanvas.tsx:119-158 | after any sequence of down, move and up events, a logo that started within PI/8 of its setup rotation is still within it, and its roll is unchanged |
| DragRotation.MovesAfterUpAreIgnored | src/components/BabylonCanvas.tsx:132-133 | after a pointer-up, any number of moves leave the whole drag state unchanged |
| DragRotation.RunTracksLastPointer | src/components/BabylonCanvas.tsx:151-152 | from a pointer-down, through downs and moves with no pointer-up, the drag stays on and the recorded position is that of the last event |
| DragRotation.FarDragIsClamped | src/components/BabylonCanvas.tsx:139-143 | with rest (-PI/2, 0, 0), a press followed by a 1000-pixel move right leaves yaw at -PI/8, not at the unclamped -5, and pitch and roll at rest |
| DragRotation.SnapBack | src/components/BabylonCanvas.tsx:89-106 | the snap-back animation animates `rotation` in constant loop mode, from the current rotation at frame 0 to the rest rotation at frame 10, with exactly these two keys |
| DragRotation.ResetLogoRotation | src/components/BabylonCanvas.tsx:83-113 | the mesh's animations become exactly one snap-back from its current rotation to the target, and one non-looping playback over frames 0 to 10 is begun on the mesh |
| DragRotation.LogoRotationControl.constructor | src/components/BabylonCanvas.tsx:115-124 | installing the handlers captures the mesh's current rotation as the original rotation, not dragging, last pointer (0, 0), within bounds |
| DragRotation.LogoRotationControl.PointerDown | src/components/BabylonCanvas.tsx:126-130 | the drag state becomes `OnDown` of the old one; bounds are kept |
| DragRotation.LogoRotationControl.PointerMove | src/components/BabylonCanvas.tsx:132-153 | the drag state and the mesh rotation become `OnMove` of the old ones about the original rotation; after a move during a drag the logo is within bounds |
| DragRotation.LogoRotationControl.PointerUp | src/components/BabylonCanvas.tsx:155-158 | dragging stops, the mesh's animations become exactly one snap-back to the original rotation, and one 0..10 non-looping playback is begun |
| CameraOrbit.CreateCamera | src/components/BabylonCanvas.tsx:161-185 | a fresh camera with alpha PI, beta 1.2, radius 60, target (0, 12, 0) and fov 1.2 is created and its orbit observer is registered, so the scene is in the idle-orbit phase |
| CameraOrbit.RenderFrame | src/components/BabylonCanvas.tsx:180-182 | a frame adds exactly 0.001 to the orbiting camera's alpha and changes nothing else about it; with no observer registered it changes nothing |
| CameraOrbit.IdleOrbitAlpha | src/components/BabylonCanvas.tsx:172-182 | after n idle frames from alpha, the azimuth is alpha + n * 0.001 |
| CameraOrbit.EngagedAlphaHolds | src/components/BabylonCanvas.tsx:231 | with the orbit observer cleared, no number of frames changes alpha through the observer (the flight animation, which is not modelled, still moves the camera) |
| CameraOrbit.AlphaAfterOneMore | src/components/BabylonCanvas.tsx:180-182 | the alpha after n + 1 frames is one more frame applied to the alpha after n frames |
| CameraOrbit.RenderFrames | src/components/BabylonCanvas.tsx:425-427 | n rendered frames give the camera the alpha `AlphaAfter` predicts for the scene's phase: alpha + n * 0.001 while orbiting, unchanged once engaged; nothing else about the camera changes |
| CameraOrbit.HundredIdleFrames | src/components/BabylonCanvas.tsx:172 | from the initial PI, 100 idle frames give PI + 0.1 |
| CameraOrbit.FlyAnimation | src/components/BabylonCanvas.tsx:208-225 | the flight animates `position` in constant loop mode, from the given position at frame 0 to (-15, 4, 0) at frame 30, with exactly these two keys |
| CameraOrbit.FlyToBatter | src/components/BabylonCanvas.tsx:207-235 | the camera's animations become exactly one flight from its current position; the orbit observer is gone (engaged phase); the target is (0, 2, 0); one non-looping 0..30 playback is begun on the camera |
| StartControls.Added | src/components/BabylonCanvas.tsx:374-375 | adding a control keeps the existing controls in order, adds the control only if it was absent, and keeps the list free of duplicates |
| StartControls.Removed | src/components/BabylonCanvas.tsx:371 | removing a control keeps every other control, drops one entry if present, and in a duplicate-free list leaves no trace of it |
| StartControls.FirstIndex | src/components/BabylonCanvas.tsx:371 | the index found holds the control, and no earlier entry does |
| StartControls.RemovedTakesFirstOccurrence | src/components/BabylonCanvas.tsx:371 | removing an absent control leaves the list as it is; otherwise exactly the first occurrence is taken out and the entries before and after it keep their order |
| StartControls.ControlsFor | src/components/BabylonCanvas.tsx:343-378 | the GUI shows the start button exactly in the idle-orbit phase and both swing buttons exactly in the engaged phase, never a control twice |
| StartControls.EngagedControlsSwap | src/components/BabylonCanvas.tsx:366-378 | after the start handler's GUI changes, the start button is gone, both swing buttons are shown, there are no duplicates, and from the start screen the result is exactly [swing left, swing right] |
| StartControls.FullscreenUI.constructor | src/components/BabylonCanvas.tsx:347 | a new fullscreen UI shows no controls |
| StartControls.FullscreenUI.AddControl | src/components/BabylonCanvas.tsx:364 | the controls become `Added` of the old ones |
| StartControls.FullscreenUI.RemoveControl | src/components/BabylonCanvas.tsx:371 | the controls become `Removed` of the old ones |
| StartControls.GameData.constructor | src/components/BabylonCanvas.tsx:20-23 | the mesh registry starts with no logo |
| StartControls.Controls.constructor | src/components/BabylonCanvas.tsx:343-365 | created after the orbit observer is registered, the fresh fullscreen UI shows exactly the start button, matching the idle-orbit phase |
| StartControls.Controls.StartPointerUp | src/components/BabylonCanvas.tsx:366-378 | keeps the GUI in step with the camera phase; with the start button shown (idle orbit) and the logo loaded, the logo is disabled, the start button is replaced by both swing buttons, and `flyToBatter`'s effects follow, so the scene is engaged and a second press finds no button and is a no-op; with the logo missing the handler faults and nothing changes |
| Fielders.AngleStep | src/components/BabylonCanvas.tsx:29 | for a positive count the sector width is positive and count sectors make exactly one full turn |
| Fielders.RandomFielderPositions | src/components/BabylonCanvas.tsx:25-42 | returns exactly numFielders positions (none for a count of zero or less); position i is at distance r * 25 + 25 and angle i * step + step * r' - 0.5 from draw i, with y = 0 |
| Fielders.DistanceInRing | src/components/BabylonCanvas.tsx:27-32 | for a draw in [0, 1), the distance lies in [25, 50) |
| Fielders.AngleInSector | src/components/BabylonCanvas.tsx:29-34 | for a draw in [0, 1), fielder i's angle lies in [i * step - 0.5, (i + 1) * step - 0.5) |
| Fielders.AnglesIncreaseWithinOneTurn | src/components/BabylonCanvas.tsx:29-34 | for i < j, fielder i's angle is smaller than fielder j's, and they differ by less than 2 * PI, so no two fielders share a direction |
| Fielders.FielderOnRing | src/components/BabylonCanvas.tsx:32-38 | if cos^2 + sin^2 = 1, every fielder is on the ground at a squared distance from the centre in [25^2, 50^2) |
| SceneSetup.CreateScene | src/components/BabylonCanvas.tsx:381-412 | a new scene starts in the idle-orbit phase with the camera at alpha PI, nothing animated, and a GUI showing exactly the start button |
| SceneSetup.PlayOpening | src/components/BabylonCanvas.tsx:366-427 | with the logo loaded: after n idle frames alpha is PI + n * 0.001 at the press; the press starts the game and engages the camera; later frames leave alpha where the press left it; a second press reaches no handler |

## Left out

- Asset loading (`loadMeshes`, src/components/BabylonCanvas.tsx:251-341) is not part of this model. It consists of callbacks on Babylon's `AssetsManager` that index loaded meshes by position, clone them and call `lookAt`. That includes the logo task: it sets the logo's rotation to (-PI/2, 0, 0), parents it to the camera, registers it in `gameData` and installs the drag handlers. It also includes the fielder task, which calls `randomFielderPositions(9)`.
- Materials, lighting, the sky colour, the environment texture and button styling (`createMaterials`, `createLighting`, `createSwingButton`, `createStartButton`) are fixed configuration of library objects.
- The engine lifecycle is host I/O: the render loop, the resize listener, `dispose`, and the debug-layer key chord (src/components/BabylonCanvas.tsx:414-453).
- Animation playback is not modelled: Babylon's interpolation, and the frames during which the snap-back and flight animations move the logo and camera. Only the keyframes and each `beginAnimation` call are recorded. So "the logo is back at rest after 10 frames" is stated as "the last key of the only animation is the rest rotation at frame 10".
- A new drag during a snap-back is not modelled: the in-flight animation would also move the logo, and the source leaves that interplay open.
- Floating-point rounding is not modelled: numbers are `real`. `Math.PI` is the decimal 3.141592653589793. So `Fielders.DistanceInRing` holds in exact arithmetic only: in doubles the largest draw below 1 gives a distance that rounds to exactly 50.
- `Math.random` is an input: a sequence of draws, each assumed in [0, 1) where a lemma needs that.
- `Math.cos` and `Math.sin` are uninterpreted function parameters.
- The camera position is not derived from alpha, beta, radius and target; that is trigonometry inside Babylon, so `position` is an unconstrained field.
- Registering the pointer handlers on the scene is not modelled. `scene.onPointerDown = ...` replaces any earlier handler; the source installs one set.
- src/App.tsx (page layout and wallet button) and src/components/TipDev.tsx (a wallet transfer form) are not part of this model.
- Babylon.ArcCamera.SetTarget: leaves alpha, beta and radius unconstrained when the target changes. Babylon re-derives them from the position with trigonometry that is not modelled.
- CameraOrbit.FlyToBatter: for the same reason, says nothing about alpha, beta and radius right after the call. The latch that matters holds: with the observer cleared, `RenderFrame` and `RenderFrames` no longer change alpha through the observer. The flight animation still moves the camera, and that is not modelled.
- StartControls.Controls.StartPointerUp: does not model what the exception does to the host beyond the handler. The model only says that nothing in the scene or GUI changed.
- Fielders.DistanceInRing: states the upper bound 50 as strict in exact arithmetic. With doubles, a draw of 1 - 2^-53 gives a distance that rounds to exactly 50.
