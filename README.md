# BlockifyVR and Pointerlock, modelled in Dafny

This project models the logic of two TurboWarp extensions.

**BlockifyVR** (`extensions/MasterMath/BlockifyVR.js`) keeps its state in module-level
variables, which are modelled as the class `VRExtension.BlockifyVR` and as its value
snapshot `VRModel.VRState`:

- whether the headset is in VR;
- ten button flags, two controller-connected flags and the last button pressed;
- the two thumbsticks;
- the position and rotation of the headset and of both controllers;
- the WebXR projection matrix, the viewer transform and their combined matrix.

These variables are changed by the controller managers' listeners and ticks, the camera
logger's tick, the `pose-matrices` tick and the scene's `enter-vr` and `exit-vr`
listeners. Each of these is an `Event`. `VRModel.Step` gives what one event does, and
`VRModel.Run` gives what a sequence of events does. The class method `Handle` is proved to
do exactly what `Step` says. The reporter blocks (`isButtonPressed`, `controllerConnected`,
`positionOf`, `rotationOf`, `thumbstickDirection`, `isThumbstickDirection`, `getMatrix`) are
functions on `VRState`. JavaScript's `undefined` is `None`.

Two computations are modelled as their own modules:

- `Matrix4`: the combined matrix, which the source writes out as a 16-entry expression. It is
  proved to be the row-by-column product of the inverse view matrix and the projection
  matrix.
- `StageFit`: the arithmetic that sizes the VR display plane on `enter-vr`.

`JsValues` holds `Option` and the `x | 0` conversion (ToInt32).

**Pointerlock** (`extensions/pointerlock.js`) is the class `PointerLockModel.PointerLock`.
It has one method per document listener, one for the host mouse device's replaced `postData`,
one for the wrapper around the runtime step, one for `PROJECT_LOADED`, and one per block. The
calls to the browser (`requestPointerLock`, `exitPointerLock`) and to the original `postData`
are recorded in an effect log. `PointerLockModel.LockStep` is the same behaviour as a value
function, and `Handle` is proved to match it.

## Model

| member | source | states |
|---|---|---|
| JsValues.ToInt32 | extensions/MasterMath/BlockifyVR.js:700 | `x \| 0`: the result is a 32-bit signed integer congruent to the truncated input modulo 2^32, and equal to it when that is in range |
| Matrix4.Combine | extensions/MasterMath/BlockifyVR.js:151-200 | the combined matrix as the tick writes it out, entry by entry; `Matrix4.CombineIsProduct` states what it computes |
| Matrix4.CombineIsProduct | extensions/MasterMath/BlockifyVR.js:151-200 | the written-out combined matrix equals the product inverse-view × projection; entry 4i+j is the row i by column j sum |
| Matrix4.CombineIdentityView | extensions/MasterMath/BlockifyVR.js:151-200 | with an identity inverse view, the combined matrix is the projection matrix |
| StageFit.AspectFit | extensions/MasterMath/BlockifyVR.js:69-78 | the first fit has the stage's aspect ratio, covers the camera view and touches it in one dimension |
| StageFit.FitPlane | extensions/MasterMath/BlockifyVR.js:69-86 | the plane size as computed: it keeps width − height of the aspect fit and matches the camera in the smaller dimension |
| StageFit.FitPlaneDistortsRatio | extensions/MasterMath/BlockifyVR.js:62-86 | for a canvas of aspect 2 and a 4:3 stage, the plane is 3 × 2, which is not the stage's ratio |
| StageFit.FitPlaneKeepingRatio | extensions/MasterMath/BlockifyVR.js:62-86 | the corrected fit keeps the stage's aspect ratio and matches the camera in the smaller dimension |
| StageFit.FitPlaneAgreesForWideStage | extensions/MasterMath/BlockifyVR.js:74-86 | when the stage is wider than the canvas and than a square, the shipped fit and the corrected fit agree |
| VRModel.HandNamed | extensions/MasterMath/BlockifyVR.js:655-658 | the `controllerMenu` entries name exactly the two hands |
| VRModel.ButtonNamed | extensions/MasterMath/BlockifyVR.js:647-650 | the `buttonMenu` entries name exactly the ten buttons |
| VRModel.DeviceNamed | extensions/MasterMath/BlockifyVR.js:634-637 | the `deviceMenu` entries name exactly the headset and the two controllers |
| VRModel.PositionAxis | extensions/MasterMath/BlockifyVR.js:638-641 | the `positionMenu` entries name exactly the three axes |
| VRModel.RotationAxis | extensions/MasterMath/BlockifyVR.js:630-633 | the `rotationMenu` entries name exactly the three axes |
| VRModel.VRState.IsControllerConnected | extensions/MasterMath/BlockifyVR.js:689-696 | a controller's menu name reports that hand's connected flag; any other name reports undefined |
| VRModel.VRState.IsButtonPressed | extensions/MasterMath/BlockifyVR.js:806-850 | each button's menu name reports that button's flag (the repeated "left trigger" test is unreachable); any other name reports undefined |
| VRModel.VRState.PositionOf | extensions/MasterMath/BlockifyVR.js:729-765 | an (axis, device) pair of menu names reports that coordinate of the device's copied position; any other pair reports undefined |
| VRModel.VRState.RotationOf | extensions/MasterMath/BlockifyVR.js:767-804 | the same for the copied rotation |
| VRModel.VRState.ThumbstickValue | extensions/MasterMath/BlockifyVR.js:870-896 | x value, y value or direction of the named hand's stick; undefined before that stick has moved, and undefined for other names |
| VRModel.VRState.IsThumbstickDirection | extensions/MasterMath/BlockifyVR.js:898-924 | for a controller name, true exactly when the stick is pushed strictly beyond 0.95 toward the direction, else false; undefined for any other name |
| VRModel.VRState.GetMatrix | extensions/MasterMath/BlockifyVR.js:699-719 | as written: never the empty string; item k of the chosen matrix for 1 ≤ k ≤ 16, otherwise 0 |
| VRModel.VRState.GetMatrixGuarded | extensions/MasterMath/BlockifyVR.js:699-719 | with the range guard meant: the empty string exactly for items outside 1..16, otherwise as written |
| VRModel.Initial | extensions/MasterMath/BlockifyVR.js:99-121 | out of VR, no last button, no matrices; only the left grip and Y flags and the left controller's flag start as false, all others undefined; every position, rotation and thumbstick reads undefined |
| VRModel.Step | extensions/MasterMath/BlockifyVR.js:58-425 | what each listener and tick does to the variables (enter-vr and exit-vr at 58-96, the pose tick at 140-205, the camera logger at 208-225, the controller managers at 247-425); the `Step*` and `Run*` lemmas state its properties |
| VRModel.Run | extensions/MasterMath/BlockifyVR.js:58-425 | the variables after a sequence of events, one `Step` per event in order; stated by the `Run*` lemmas |
| VRModel.StepLastButton | extensions/MasterMath/BlockifyVR.js:247-425 | only a "down" event changes `lastButtonPressed`, to that button's label |
| VRModel.StepEffects | extensions/MasterMath/BlockifyVR.js:58-96 | a "down" starts the any-button hats once; enter-vr and exit-vr reset the stage to its initial size; no other modelled event calls the runtime |
| VRModel.StepMatrices | extensions/MasterMath/BlockifyVR.js:140-205 | the matrices change only on a pose tick in VR with a reference space and a pose, and then all three are replaced |
| VRModel.RunLastButton | extensions/MasterMath/BlockifyVR.js:247-425 | after any events, `lastButtonPressed` is the label of the last "down" event, or the starting value if there was none |
| VRModel.RunPressed | extensions/MasterMath/BlockifyVR.js:247-425 | a button's flag is true after its last "down", false after its last "up", and otherwise unchanged |
| VRModel.RunConnected | extensions/MasterMath/BlockifyVR.js:247-347 | a hand's connected flag follows its last connect or disconnect |
| VRModel.RunInVR | extensions/MasterMath/BlockifyVR.js:58-96 | `inVR` follows the last enter-vr or exit-vr |
| VRModel.RunHats | extensions/MasterMath/BlockifyVR.js:247-425 | the any-button hats are started exactly once per "down" event |
| VRModel.RunKeepsMatricesAgreed | extensions/MasterMath/BlockifyVR.js:140-205 | every event sequence keeps the combined matrix set exactly when the projection and transform are set, and equal to their product |
| VRModel.CombinedItem | extensions/MasterMath/BlockifyVR.js:699-719 | item k of the combined matrix reports the row-by-column sum for entry k−1 |
| VRModel.ButtonRoundTrip | extensions/MasterMath/BlockifyVR.js:806-850 | reading a button back by its label gives its flag; true right after its "down", false right after its "up" |
| VRModel.TickRoundTrip | extensions/MasterMath/BlockifyVR.js:312-320 | after a controller tick, positionOf and rotationOf report the ticked vectors |
| VRModel.ThresholdIsStrict | extensions/MasterMath/BlockifyVR.js:898-924 | a stick at exactly ±0.95 does not count as pushed |
| VRModel.GetMatrixGuardIsDead | extensions/MasterMath/BlockifyVR.js:701 | item 0 reports 0 as written, and the empty string under the guard that is meant |
| VRExtension.BlockifyVR.constructor | extensions/MasterMath/BlockifyVR.js:99-121 | the variables start as `VRModel.Initial` |
| VRExtension.BlockifyVR.OnButtonDown | extensions/MasterMath/BlockifyVR.js:261-265 | sets the button's flag and `lastButtonPressed` and starts the hats; nothing else changes |
| VRExtension.BlockifyVR.OnButtonUp | extensions/MasterMath/BlockifyVR.js:267-269 | clears that one flag; nothing else changes |
| VRExtension.BlockifyVR.OnControllerConnected | extensions/MasterMath/BlockifyVR.js:252-254 | sets the hand's connected flag |
| VRExtension.BlockifyVR.OnControllerDisconnected | extensions/MasterMath/BlockifyVR.js:255-257 | clears the hand's connected flag |
| VRExtension.BlockifyVR.LogThumbstick | extensions/MasterMath/BlockifyVR.js:322-326 | stores the hand's stick axes and direction |
| VRExtension.BlockifyVR.TickController | extensions/MasterMath/BlockifyVR.js:312-320 | copies the controller's rotation and position |
| VRExtension.BlockifyVR.TickCamera | extensions/MasterMath/BlockifyVR.js:208-225 | copies the headset's rotation and position |
| VRExtension.BlockifyVR.TickPoseMatrices | extensions/MasterMath/BlockifyVR.js:140-205 | in VR with a reference space and a pose, stores projection and transform and their product; otherwise nothing changes |
| VRExtension.BlockifyVR.OnEnterVR | extensions/MasterMath/BlockifyVR.js:58-61 | sets `inVR` and resets the stage to its initial size |
| VRExtension.BlockifyVR.OnExitVR | extensions/MasterMath/BlockifyVR.js:93-96 | clears `inVR` and resets the stage to its initial size |
| VRExtension.BlockifyVR.Handle | extensions/MasterMath/BlockifyVR.js:58-425 | handling an event changes the variables exactly as `VRModel.Step` does |
| PointerLockModel.StageCoord | extensions/pointerlock.js:28-33 | the canvas centre maps to stage 0, and the sign of the stage coordinate tells the side of the centre |
| PointerLockModel.CoordRoundTrip | extensions/pointerlock.js:28-33 | the client-to-stage mapping and its inverse undo each other |
| PointerLockModel.Moved | extensions/pointerlock.js:25-33 | x moves with the event, y moves against it, and the stage coordinates match the client coordinates |
| PointerLockModel.Centre | extensions/pointerlock.js:97-102 | the recentred mouse sits at stage (0, 0), which is the canvas centre |
| PointerLockModel.LockStep | extensions/pointerlock.js:43-112 | what each listener, the replaced `postData`, the step wrapper and the project-load handler do to the state; stated by the lemmas below |
| PointerLockModel.LockRun | extensions/pointerlock.js:43-112 | the state after a sequence of events, in order |
| PointerLockModel.MovesAfterStep | extensions/pointerlock.js:3-105 | after a runtime step while enabled and locked, any run of mouse moves leaves the mouse at the canvas centre plus their summed movement (y against it). The stage position is then that movement scaled to stage units, so the mouse x and y blocks report the change since the previous frame |
| PointerLockModel.StepKeepsMapped | extensions/pointerlock.js:25-105 | every event the extension itself handles (its listeners, the step wrapper, the project-load handler and the block) keeps stage and client coordinates in step; a forwarded host post is modelled as leaving the mouse fields unchanged |
| PointerLockModel.RunKeepsMapped | extensions/pointerlock.js:25-105 | every event sequence keeps them in step, as far as the extension's own writes go; a forwarded host post is modelled as leaving the mouse fields unchanged |
| PointerLockModel.StepForwards | extensions/pointerlock.js:43-49 | a host post reaches the original `postData` only while pointer lock is disabled |
| PointerLockModel.RunSwallowsHostData | extensions/pointerlock.js:43-49 | while no project load or disable intervenes, pointer lock stays enabled and no host post gets through |
| PointerLockModel.HostPostForwardedWhenDisabled | extensions/pointerlock.js:45-48 | while disabled, a host post is passed on unchanged |
| PointerLockModel.PointerLock.constructor | extensions/pointerlock.js:17-18 | starts unlocked and disabled, with no effects |
| PointerLockModel.PointerLock.PostMouseData | extensions/pointerlock.js:25-41 | moves the mouse, and posts the button state only when `isDown` is a boolean |
| PointerLockModel.PointerLock.PostData | extensions/pointerlock.js:43-49 | swallows host data while enabled, and forwards it otherwise |
| PointerLockModel.PointerLock.OnMouseDown | extensions/pointerlock.js:51-64 | on the canvas, posts a press when locked, or requests the lock when enabled; otherwise nothing |
| PointerLockModel.PointerLock.OnMouseUp | extensions/pointerlock.js:65-76 | posts a release when locked, anywhere; otherwise requests the lock when enabled and on the canvas |
| PointerLockModel.PointerLock.OnMouseMove | extensions/pointerlock.js:77-85 | when locked, moves the mouse and posts nothing |
| PointerLockModel.PointerLock.OnPointerLockChange | extensions/pointerlock.js:87-89 | locked exactly when the lock element is the canvas |
| PointerLockModel.PointerLock.AfterStep | extensions/pointerlock.js:94-105 | when enabled, recentres the mouse after the runtime step |
| PointerLockModel.PointerLock.OnProjectLoaded | extensions/pointerlock.js:107-112 | disables pointer lock, and releases a held lock |
| PointerLockModel.PointerLock.SetLocked | extensions/pointerlock.js:156-161 | sets the enabled flag, and releases a held lock when disabling |
| PointerLockModel.PointerLock.IsLocked | extensions/pointerlock.js:163-165 | reports whether the pointer is locked |
| PointerLockModel.PointerLock.Handle | extensions/pointerlock.js:43-112 | handling an event changes the state exactly as `LockStep` does |

## Left out

- The A-Frame scene, the HTML and CSS it injects, and the `custom-controls` component: they only build and configure the page.
- The `update-display` component. Its tick drives the runtime's frame loop (`runtime.frameLoop.stepCallback()`) once per XR frame and flags the stage texture for upload. Driving the runtime's frame loop and the texture flag are outside the model.
- The camera logger's swap of yaw and pitch through `degToRad`. The rotation it copies is an input of `CameraTick`.
- The thumbstick direction is an input. Its `atan2(y, x) * 180 / π + 90` is not modelled, because there is no trigonometry on reals.
- `Math.tan` of the camera's field of view, which gives the camera height in the stage fit. The height is an input.
- IEEE-754 doubles, including NaN and rounding. All numbers are reals.
- `logTrigger`, `logGrip` and `triggerGripValue`. The listeners assign undeclared variables, which throws a ReferenceError in strict-mode code, so these never hold a value.
- `toggleVrMode` (a `confirm` dialog and the scene's enter/exit calls), `headsetConnected` (an A-Frame query) and `getStageWidth`/`getStageHeight` (runtime reads).
- `inVR` and `lastButtonPressed`: these blocks only return the variable. What they report is covered by `VRModel.RunInVR` and `VRModel.RunLastButton`.
- `vm.setStageSize` and `runtime.startHats` are recorded as effects; what the runtime then does is not modelled.
- The scale and position given to the display plane. The stage fit returns the size itself.
- Only `views[0]` of a viewer pose is modelled, since it is the only one the source reads.
- The `getInfo` block and menu metadata, apart from the menu labels themselves.
- The canvas's bounding rectangle and the stage size are fixed when a `PointerLock` is created. Re-reading the rectangle on window resize is not modelled.
- `canvas.contains(e.target)` and "lock element is the canvas" are boolean inputs.
- `Scratch.Cast.toBoolean` in `set pointer lock`: the caller passes the boolean it produces.
- The `pointerlockerror` listener: it only logs to the console.
- The original runtime step that the wrapper calls. `AfterStep` is what runs after it.
- What the host mouse device's original `postData` does with the data it receives. That device is the same object whose `_clientX`, `_clientY`, `_scratchX` and `_scratchY` the extension writes, and the original `postData` sets these four fields from the host's data by its own rule. A forwarded host post (pointer lock disabled) is modelled as leaving them unchanged. So `PointerLockModel.StepKeepsMapped` and `PointerLockModel.RunKeepsMapped` cover only the extension's own writes, not what the host writes.

## Findings

| source | as written | input that shows it | evidently intended | confidence | as-written member | corrected member |
|---|---|---|---|---|---|---|
| extensions/MasterMath/BlockifyVR.js:701 | `item < 1 && item > 16` holds for no item, so `getMatrix` never reports the empty string | ITEM = 0 reports 0 instead of "" | `item < 1 \|\| item > 16`: "" for items outside 1..16 | not executed | VRModel.GetMatrixGuardIsDead | VRModel.VRState.GetMatrixGuarded |
| extensions/MasterMath/BlockifyVR.js:62-86 | the larger dimension is reduced by the amount the smaller one overshoots the camera. This keeps width − height, not the stage's ratio, although the comment at line 62 promises the ratio | camera height 2, canvas aspect 2, stage aspect 4/3: the aspect fit is 4 × 3 and the plane becomes 3 × 2 (ratio 3/2) | scale the aspect fit uniformly so the smaller dimension matches the camera | not executed | StageFit.FitPlaneDistortsRatio | StageFit.FitPlaneKeepingRatio |
