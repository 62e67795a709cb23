# Solar system viewer: control logic

A Dafny model of the discrete control logic in `src/script.js`, a three.js solar-system viewer. The viewer draws a sun, nine bodies and two asteroid belts. The user can click a body to fly the camera to it and show its information card. A control panel with five folders sets speeds, lights, effects and what is displayed.

The model keeps the viewer's state and drops the rendering. Scene objects are records, vectors are triples of reals, and the nearest ray-cast hit is an input.

- `Config` holds the 21 knobs of the `settings` object, in its five folders. It has their declared values, the slider ranges, and the write a control-panel change makes.
- `Bodies` holds the nine bodies, the eleven ray-cast surfaces and the lookup tables: display names, rates, camera offsets, outline targets and card images. It also models `identifyPlanet` as a pure lookup.
- `Camera` models the zoom block of `animate`.
  - Two independent flags drive it: `isMovingTowardsPlanet` and `isZoomingOut`. The approach takes priority.
  - The camera lerps 3% (approach) or 5% (zoom-out) of the way to its target per frame.
  - A flag clears on the frame the camera ends less than one unit from the target. This is compared as a squared distance, so no square root is needed.
  - The lemmas prove how fast the distance shrinks and how many frames an approach or zoom-out takes at most.
- `Asteroids` models the clones `loadAsteroids` makes and the per-frame asteroid update. Random draws, cosines and sines are inputs.
- `Scene` is the whole application state as one value (`AppState`). Every handler is a function of the old state: reset, click, the two ways of closing the panel, one frame, a control-panel change and an asteroid load.
- `Script` holds class `App`, whose fields are the script's globals and the live-object fields it writes. Each handler is a method that updates those fields in place. Its postcondition says the new `Snapshot()` is the matching `Scene` function of the old one. The per-element `forEach` loops are `while` loops with invariants. The sun and body `rotateY` calls and the nine pivot writes of the orbit-speed handler are one statement per body in the script. They are loops over the bodies here too.
- `Properties` states what the handlers promise together:
  - what `reset` restores and what it leaves alone;
  - the three outcomes of a click;
  - the two ways to close the panel;
  - the pause gate and the angle advance;
  - showing the card once per approach;
  - how the control panel and the asteroid loader keep, or break, the agreement between the knobs and the scene.

Behaviour of the code worth knowing:

- **Asteroid count.** Each pack mesh is cloned while `i < n / 12` over the reals. That is `n / 12` rounded up, not down: 84 clones per mesh for 1000 and 250 for 3000.
- **Camera modes.** The camera mode is two booleans, not three states, and both can be set at once.
  - A click during a zoom-out leaves the zoom-out pending behind the approach.
  - Closing the panel during an approach does not stop the approach. The panel is hidden for the whole of an approach (`Properties.ClickKeepsPanelHidden` and the lemmas after it), so this needs a close button that can be pressed while the panel is hidden. The page's HTML is not part of this model.
- **Unrecognised clicks.** The bare Venus and Earth meshes are ray-cast targets, but `identifyPlanet` does not recognise them. One of them is the nearest hit only when the camera is inside that body's atmosphere shell (radius 0.1 more than the body's), because the shell is hit on its front faces only (src/script.js:570-581). A click on one clears `selectedPlanet`. If an approach is running, the frame it ends on throws on `selectedPlanet.name`, and the loop stops. The model records this as `looping := false`.
- **Bloom strength.** The bloom pass is built with strength 1 while the knob says 0.85. `reset` re-reads only the lights, the shadow map and the two passes' `enabled` flags. So after moving, for example, the wireframe knob, `reset` leaves the scene disagreeing with the settings.
- **Orbit-speed knob.** Its handler writes `rotation.y = 0` on each pivot. three.js keeps a pivot's turn as XYZ Euler angles with y in [-pi/2, pi/2]. A turn whose cosine is negative reads back as half turns about x and about z, and the write keeps those. Such a pivot is left at a half turn, on the far side of the sun, not at angle 0 (`Properties.OrbitSpeedClearsPivots`). Which pivots these are is an input. `Scene.IsFlipSet` constrains it on every lap wherever the turn decides it, and leaves open only the narrow windows near a quarter and three quarters of a lap.
- **Asteroid update.** The per-frame update computes the new z from the already updated x, so it is not a rotation. The model keeps it as written (`Asteroids.AdvanceIsNotARotation`).

## Model

| member | source | states |
|---|---|---|
| Config.AssignKeepsInRange | src/script.js:187-249 | the declared values lie in the slider ranges, and a slider write keeps every knob in its range |
| Vectors.Lerp | src/script.js:1035 | `lerp` leaves the displacement to the target scaled by 1 - alpha; alpha 0 stays put, alpha 1 reaches the target |
| Vectors.LerpDistSq | src/script.js:1035-1038 | one lerp step multiplies the squared distance to the target by (1 - alpha)^2 |
| Vectors.Normalize | src/script.js:363 | normalising a non-zero vector of known length gives a unit vector in the same direction, which the length scales back to the input; a zero vector is left as it is |
| Vectors.NormalizeOrigin | src/script.js:363 | `normalize` leaves the zero vector, of length 0, as it is |
| Vectors.OffsetDistSq | src/script.js:363 | a point `k` along a unit vector from a base lies at squared distance k^2 from it |
| Bodies.ClickSurface | src/script.js:878-881 | each body has a ray-cast surface that `identifyPlanet` recognises and that belongs to it |
| Bodies.Identify | src/script.js:369-401 | a hit is recognised exactly when it is not the bare Venus or Earth mesh; it then gives the owning body and that body's camera offset |
| Bodies.IdentifyEveryBody | src/script.js:369-401 | clicking each body's own surface picks it with its offset; the bare mesh picks nothing exactly for the two bodies with an atmosphere |
| Bodies.RecognisedSurfaceUnique | src/script.js:369-401 | every body has exactly one recognised surface |
| Bodies.OutlineTarget | src/script.js:1017-1031 | no hit outlines nothing; an atmosphere hit outlines its owner's planet mesh; any other hit outlines itself |
| Bodies.CardImage | src/script.js:413-444 | a name without data falls back to `earth.png` |
| Bodies.InfoFor | src/script.js:404-470 | the panel shows the given name, with a card exactly when the name has data and a loading note otherwise |
| Bodies.NamesDistinct | src/script.js:759-789 | the nine display names are pairwise distinct |
| Bodies.NamesAreDataKeys | src/script.js:792-874 | the keys of `planetData` are exactly the display names |
| Bodies.CardImagesDistinct | src/script.js:413-444 | every body gets its own image and a full card, never the fallback branch |
| Bodies.OffsetClearsBody | src/script.js:369-401 | each picked body's camera offset clears its sphere, atmosphere and ring |
| Camera.Step | src/script.js:1033-1049 | a frame keeps the target, never sets a flag, reports arrival exactly when the approach flag clears, and does nothing with both flags off |
| Camera.StepApproaching | src/script.js:1033-1042 | an approach frame scales the displacement by 0.97 and the squared distance by 0.9409, keeps a pending zoom-out, and ends exactly below distance 1 |
| Camera.StepZoomingOut | src/script.js:1043-1049 | a zoom-out frame scales the displacement to the overview pose by 0.95 and ends exactly below distance 1 |
| Camera.RunKeepsTarget | src/script.js:1033-1049 | frames never move the approach target |
| Camera.RunNeverRestarts | src/script.js:1033-1049 | no frame starts an approach or a zoom-out |
| Camera.ApproachProgress | src/script.js:1033-1042 | after k frames of an approach the squared distance is the initial one times 0.9409^k, and it is at least 1 while the approach lasts |
| Camera.ZoomOutProgress | src/script.js:1043-1049 | after k frames of a zoom-out the squared distance is the initial one times 0.9025^k, and it is at least 1 while the zoom-out lasts |
| Camera.ApproachHalves | src/script.js:1035 | twelve approach frames at least halve the squared distance |
| Camera.ZoomOutHalves | src/script.js:1044 | seven zoom-out frames at least halve the squared distance |
| Camera.ApproachEnds | src/script.js:1033-1042 | an approach from squared distance below 2^m is over after 12m + 1 frames |
| Camera.ZoomOutEnds | src/script.js:1043-1049 | a zoom-out from squared distance below 2^m is over after 7m + 1 frames |
| Asteroids.RandFloat | src/script.js:641 | `randFloat(low, high)` lies in [low, high], below `high` when low < high |
| Asteroids.CloneCount | src/script.js:639 | the loop runs ceil(n / 12) times: the least c with n <= 12c |
| Asteroids.BeltCounts | src/script.js:1055-1056 | the two belts clone 84 and 250 asteroids per pack mesh |
| Asteroids.CloneOf | src/script.js:640-648 | a clone sits on y = 0, keeps the mesh's rotation and visibility, and has a scale in [0.8, 1.2] |
| Asteroids.CloneOnBelt | src/script.js:641-647 | a clone lies at its drawn orbit radius, which is inside [min, max] |
| Asteroids.MeshClones | src/script.js:639-651 | one mesh contributes one clone per draw, in loop order |
| Asteroids.PackClonesLength | src/script.js:637-653 | one load appends exactly ceil(n / 12) clones per pack mesh |
| Asteroids.PackClonesAt | src/script.js:637-653 | clone i of mesh j's block is made from mesh j and its i-th draw |
| Asteroids.PackClonesFlat | src/script.js:644-648 | every clone of a load sits on y = 0 and has a scale in [0.8, 1.2] |
| Asteroids.Advance | src/script.js:1004-1008 | an asteroid's frame update turns its spin by 0.0001 x multiplier and changes only its x and z |
| Asteroids.AdvanceAtRest | src/script.js:1006-1007 | with no orbital turn an asteroid stays where it is |
| Asteroids.AdvanceIsNotARotation | src/script.js:1006-1007 | because z uses the updated x, the update can move a point off its circle |
| Asteroids.AdvanceAll | src/script.js:1004-1008 | the frame updates every asteroid and only by `Advance` |
| Asteroids.SetVisible | src/script.js:263-267 | the toggle sets the visibility of exactly the listed asteroids and nothing else |
| Scene.InitialState | src/script.js:39-88 | the starting state has all nine bodies; it also takes the knobs from lines 107-138, the sun material and point light from 496 and 502, the bodies from 759-789 and the shadow map from 884 |
| Scene.AdvanceBodies | src/script.js:937-958 | a frame advances each of the nine bodies by its own rates, in order |
| Scene.ClearPivots | src/script.js:187-198 | the orbit-speed handler puts every pivot at angle 0, or at a half turn where three.js reads its turn back flipped, and changes nothing else |
| Scene.WithOrbitPaths | src/script.js:253-261 | the orbit-path handler writes every orbit line's visibility and nothing else |
| Scene.WithWireframe | src/script.js:268-273 | the wireframe handler writes every planet material's flag and nothing else |
| Script.App.constructor | src/script.js:39-88 | the top level builds the initial state, with the knobs, lights, bodies and shadow map set up at lines 107-138, 496, 502, 759-789 and 884 |
| Script.App.Reset | src/script.js:140-182 | `reset` leaves the state `ResetState` gives |
| Script.App.IdentifyPlanet | src/script.js:369-401 | returns the recognised body and stores its offset; otherwise returns none and leaves `offset` alone |
| Script.App.ShowPlanetInfo | src/script.js:404-470 | the panel becomes visible with the card or loading note for the name |
| Script.App.CloseInfo | src/script.js:474-480 | the close button leaves the state `CloseInfoState` gives |
| Script.App.CloseInfoNoZoomOut | src/script.js:483-487 | leaves the state `CloseInfoNoZoomOutState` gives |
| Script.App.MouseDown | src/script.js:339-367 | a click leaves the state `MouseDownState` gives, for the hit, body position and camera distance |
| Script.App.Focus | src/script.js:352-365 | the selected-body block leaves the state `FocusState` gives |
| Script.App.Animate | src/script.js:925-1054 | one `animate` call leaves the state `Frame` gives |
| Script.App.RotateBodies | src/script.js:934-958 | the sun turns by its rate and every body advances by `AdvanceBodies` |
| Script.App.RotateAsteroids | src/script.js:1003-1008 | every asteroid advances by `AdvanceAll` |
| Script.App.HighlightHovered | src/script.js:1010-1031 | the outline selection becomes `OutlineTarget` of the hover; the rest of the pass is kept |
| Script.App.Zoom | src/script.js:1032-1049 | the zoom block leaves the state `ZoomState` gives |
| Script.App.LoadAsteroids | src/script.js:634-657 | the pack's clones are appended to `asteroids`, which is all that changes |
| Script.App.OnChange | src/script.js:185-273 | a control-panel change leaves the state `ChangeState` gives |
| Script.App.OnTimeChange | src/script.js:186-201 | the time folder's handlers leave the state `TimeHandler` gives |
| Script.App.OnCameraChange | src/script.js:203-213 | the camera folder's handlers leave the state `CameraHandler` gives |
| Script.App.OnLightChange | src/script.js:215-228 | the light folder's handlers leave the state `LightHandler` gives |
| Script.App.OnEffectChange | src/script.js:230-249 | the effects folder's handlers leave the state `EffectHandler` gives |
| Script.App.OnDisplayChange | src/script.js:251-273 | the display folder's handlers leave the state `DisplayHandler` gives |
| Script.App.ResetOrbitAngles | src/script.js:187-198 | the nine pivot writes give `ClearPivots` of the bodies |
| Script.App.ShowOrbitPaths | src/script.js:253-261 | the loop gives `WithOrbitPaths` of the bodies |
| Script.App.ShowAsteroidBelts | src/script.js:263-267 | the loop gives `SetVisible` of the asteroids |
| Script.App.ShowWireframe | src/script.js:268-273 | the loop gives `WithWireframe` of the bodies |
| Properties.ResetRestores | src/script.js:140-182 | `reset` restores all 21 knobs to their declared values, puts the camera at (-175, 115, 5) aimed at the origin, and restores the lights and `enabled` flags; a second reset changes nothing |
| Properties.ResetLeavesTheRest | src/script.js:140-182 | `reset` leaves the camera flags, the approach target, the selection, the panel, the bodies (orbit lines and wireframe included) and the asteroids untouched |
| Properties.ResetKeepsSyncOnlyAtDefaults | src/script.js:140-182 | from a scene in agreement with its knobs, the scene still agrees after `reset` if and only if every knob that `reset` does not re-read was already at its declared value |
| Properties.ClickOnNothing | src/script.js:348 | a click with no hit changes nothing |
| Properties.ClickOnBareMesh | src/script.js:349-352 | an unrecognised hit is the bare Venus or Earth mesh, and it clears the selection and nothing else |
| Properties.ClickOnBody | src/script.js:339-367 | a recognised hit selects the body and stores its offset, hides the panel, leaves `accelerationOrbit` at 0 and the other knobs alone, aims the controls at the body, and starts an approach without moving the camera or clearing a zoom-out; unless the camera is at the body, the target lies the offset away from it |
| Properties.ClickTarget | src/script.js:358-363 | a click on a recognised body aims the approach at the body's position plus the normalised camera direction scaled by the body's offset |
| Properties.ClickAtBodyCentre | src/script.js:358-363 | with the camera at the centre of the clicked body, the direction to it is the zero vector, which `normalize` keeps, so the approach target is the body's centre |
| Properties.ApproachTargetDistance | src/script.js:363 | the approach target lies the stored offset from the body along the normalised direction to the camera |
| Properties.ClickDuringZoomOut | src/script.js:352-365 | a click during a zoom-out leaves both camera flags set |
| Properties.ZoomOutResumesAfterArrival | src/script.js:1033-1049 | when an approach ends with a zoom-out pending, the next frame heads 5% of the way back to the overview pose |
| Properties.BareMeshDuringApproach | src/script.js:1038-1040 | an unrecognised click during an approach leaves an approach without a selection, and its last frame stops the loop |
| Properties.TwoWaysToClose | src/script.js:474-487 | both closes hide the panel and set `accelerationOrbit` to 1; only `closeInfo` starts a zoom-out and aims the controls at the origin; nothing else changes |
| Properties.CloseDuringApproach | src/script.js:1033-1043 | closing the panel during an approach keeps the approach, which still takes the next frame |
| Properties.ClickKeepsPanelHidden | src/script.js:339-367 | a click never leaves an approach with the panel shown |
| Properties.HandlersKeepPanelHidden | src/script.js:140-273 | `reset`, both closes and every control-panel change keep the panel hidden while an approach lasts |
| Properties.LoadKeepsPanelHidden | src/script.js:634-657 | loading a belt keeps the panel hidden while an approach lasts |
| Properties.FrameKeepsPanelHidden | src/script.js:1033-1042 | a frame changes the panel only on the frame an approach ends, and keeps it hidden while the approach lasts |
| Properties.StillFrame | src/script.js:927-932 | a paused frame, or any frame after the loop has stopped, changes nothing |
| Properties.RunningFrame | src/script.js:934-958 | a running frame turns each spin by rate x `acceleration` x `timeSpeed` and each pivot by rate x `accelerationOrbit` x `timeSpeed` (not at all at orbit speed 0), and writes no knob, selection or controls |
| Properties.RunningFrameBelts | src/script.js:1003-1008 | a running frame turns every asteroid's spin by 0.0001 x `timeSpeed`, keeps its height, scale and visibility, and leaves it in place at orbit speed 0 |
| Properties.FrameKeepsCoherent | src/script.js:1033-1042 | frames keep every approach paired with a selected body |
| Properties.ArrivalShowsCardOnce | src/script.js:1038-1041 | the frame an approach ends on shows the selected body's card, and the next frame cannot show it again |
| Properties.ArrivalWithoutSelection | src/script.js:1038-1041 | with nothing selected, the frame an approach ends on stops the loop and shows nothing |
| Properties.OrbitSpeedClearsPivots | src/script.js:187-198 | moving the orbit-speed knob sets it and changes only the pivot turns: a pivot within 1.57 of a whole number of laps goes to angle 0, one between 1.572 and 4.71 past a whole number of laps goes to a half turn |
| Properties.OrbitSpeedZeroesAllIff | src/script.js:187-198 | the knob puts every pivot at angle 0 exactly when no pivot reads back flipped |
| Properties.ChangeKeepsInRange | src/script.js:187-249 | every knob stays in its slider range through any control-panel change |
| Properties.ChangeTouchesOnlyItsTargets | src/script.js:185-273 | no knob touches the camera, its flags, the selection, the panel, the sun or the loop, and each list toggle writes only its own field of the elements already listed |
| Properties.ChangeWritesOnlyItsOwn | src/script.js:185-273 | only the orbit-speed knob writes the pivots, only each display toggle its own field, and only each folder its own controls, lights or passes |
| Properties.ChangeKeepsSynced | src/script.js:185-273 | each handler writes what its knob now says, so a scene in agreement with its knobs stays so; the start state is not in agreement until the bloom-strength knob is moved (`Properties.InitialStateFacts`) |
| Properties.TimeChangeKeepsSynced | src/script.js:186-201 | the time folder keeps the scene in agreement with the knobs |
| Properties.CameraChangeKeepsSynced | src/script.js:203-213 | the camera folder keeps the scene in agreement with the knobs |
| Properties.EffectChangeKeepsSynced | src/script.js:230-249 | the effects folder keeps the scene in agreement with the knobs |
| Properties.DisplayChangeKeepsSynced | src/script.js:251-273 | the display folder keeps the scene in agreement with the knobs |
| Properties.LoadAppends | src/script.js:639-651 | a load keeps the asteroids already there and appends ceil(n / 12) clones per mesh, all on y = 0 |
| Properties.LateBeltIgnoresToggle | src/script.js:263-267 | a belt that arrives after the asteroids were hidden is shown, so the scene no longer agrees with the knob |
| Properties.InitialStateFacts | src/script.js:80-83 | the start state has its knobs in range, no approach and the panel hidden, but the bloom strength (1) disagrees with its knob (0.85) |

## Left out

- Rendering is not modelled: the WebGL renderer, the effect composer, tone mapping, the resize handler, the day/night shader, textures and materials. They are library calls with no state the application reads back.
- The `createPlanet` construction is taken as given: nine bodies, each with one pivot angle, spin, atmosphere spin, orbit line and material. Rings and the shadow flags are set up once and never changed; the moons' positions change every frame and are covered by the next line.
- Moon motion is not modelled. It is trigonometry of `performance.now()`, a clock.
- The asteroid turn's cosine and sine are inputs, as are the `Math.random` draws of `loadAsteroids` and the set of pivots whose turn three.js reads back flipped when the orbit-speed knob moves.
- The model does not keep three.js rotation objects. A planet's `spin` is the accumulated `rotateY` turn about the mesh's own axis, which the planet's tilt makes differ from the world y axis, so it is not the mesh's `rotation.y` Euler angle. The pivot and atmosphere turns are likewise unwrapped sums of the per-frame increments. The one place the script reads a turn back as an Euler angle is the orbit-speed handler's `rotation.y = 0`, and that write is modelled with its half-turn outcome (see "Orbit-speed knob" above), not as a reset modulo a full turn.
- The pointer position, `raycaster.intersectObjects` and `getWorldPosition` are not modelled. The nearest hit and the clicked body's world position are inputs.
- The camera's distance from the clicked body is an input, `len`, because the normalisation needs a square root. `Scene.IsDistance` ties it to the camera position.
- Properties.ClickOnBody: the approach target's distance from the body is stated only when the camera is not at the body's centre (len > 0). At len = 0 the claim is false: the target is then the body's centre itself (Properties.ClickAtBodyCentre).
- `camera.lookAt`, `requestAnimationFrame` and `composer.render()` are not modelled. They touch no state the model keeps.
- `controls.update()` is not modelled. It runs at the end of every frame, paused or not, and once inside `reset` (src/script.js:166). With the `autoRotate` knob on it turns `camera.position` about the controls' target, and with damping on (it always is) it carries on the momentum of a drag. The model's camera moves only by the zoom block.
- Properties.ResetRestores, Script.App.Reset: the camera at (-175, 115, 5) and the claim that a second `reset` changes nothing hold only with the controls' auto-rotation off and no drag momentum left. `reset` sets the `autoRotate` knob to false but not `controls.autoRotate`, and its own `controls.update()` turns the camera when that is on.
- Camera.ApproachProgress, Camera.ZoomOutProgress, Camera.ApproachEnds, Camera.ZoomOutEnds, Properties.StillFrame: they describe the program only with `autoRotate` off and no drag momentum left from damping; otherwise `controls.update()` also moves the camera on each frame, paused frames included.
- Bodies.InfoFor: the `planetData[planet]` test is modelled as membership among the object's own keys. In JavaScript a name inherited from `Object.prototype` (such as `toString`) would also take the card branch; the program passes only the nine display names, from `selectedPlanet.name`.
- Asset loading is not modelled, as it is asynchronous. `Script.App.LoadAsteroids` is what the loader's callback does once the pack has arrived, with the pack's meshes as input. The order in which the two belts arrive is the host's.
- The DOM is not modelled beyond the panel's visibility and the card it shows: the info panel's HTML text, the `planetData` strings other than its keys, the close-button toggle of the control panel, and the `showLabels` knob, which has no handler.
- Script.App.Reset: the 21 separate writes to the settings object are one assignment of the declared values. `gui.updateDisplay()` is not modelled.
- The settings object is a record field of the application: the model does not capture other code holding a reference to it.
