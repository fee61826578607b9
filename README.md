# PeasyCam camera controller, in Dafny

PeasyCam is a mouse-driven orbit camera for Processing sketches. The camera's pose (`State`) has three parts: a look-at point (the center), a distance from it, and a rotation. The pose is changed in two ways:

- **Damped channels** (`DampedAction`): six scalar momentum channels — rotation about x, y and z, zoom, and horizontal and vertical pan. Mouse gestures add force to them. Every frame, a channel's action runs with its value, and then the value decays by the damping factor. Once the square of the value no longer exceeds 0.000001, the value snaps to zero.
- **Timed transitions** (`Interpolation`): three transitions, for rotation, center and distance. Starting one stops the competing damped channels. It then eases the pose from a start value to an end value over a duration. The end value is taken once more than 99.5 % of the duration has elapsed.

Each frame's `update` runs all six channels. If any of them was active, it stops the three transitions; otherwise it advances them.

The mouse handler does the following:
- It tracks the pointer and its inverted deltas.
- A press strictly inside the viewport starts a drag.
- During a drag, it chooses the effective rotation constraint: the Shift latch first, then the user's fixed constraint, then all axes.
- It turns the drag into forces on the channels. A left drag rotates, a center drag (or a meta-left drag) pans, and a right drag zooms. The wheel also zooms.
- A double click resets the camera with a timed transition.

`zoom` clamps the distance to its limits and stops the zoom channel whenever a clamp fires. The controller also keeps two saved poses: a push/pop slot and a reset slot.

The project has four layers:

- **`utils.dfy`**, **`geometry.dfy`**: the easing and blending helpers of `PeasyCam.Utils`, the vector and quaternion values, and the pose. The rotation arithmetic of the bundled rotation library is supplied from outside, as the function-valued fields of a `Geometry` value. It covers composition, applying a rotation to a vector, axis-angle construction, slerp, and the distance gain of the rotation speed.
- **`damped.dfy`**, **`interpolation.dfy`**: the `DampedAction` and `Interpolation` classes. Each is proved against a value-level step function (`Step`, `Begin`, `Advance`, `Halted`). The settling and timing properties are proved about those functions.
- **`input.dfy`**, **`model.dfy`**: the whole controller as a value (`Model.Cam`), with every operation written as a function from the old value to the new one. `input.dfy` holds the pure pieces:
  - the 32-bit constraint masks;
  - the Shift latch;
  - the constraint priority;
  - viewport containment;
  - the clamped normalised coordinates that shape rotation forces.
- **`peasycam.dfy`**: the `PeasyCam` class itself. Its fields are the ones the Java class updates in place, and its six channels and three transitions are separate objects. Each method is proved to move the object's abstract value `View()` exactly as the `Model` function of the same name does. **`properties.dfy`** proves what those functions promise.

The wall clock is an explicit `now` parameter, in milliseconds. Real numbers stand in for doubles.

## Model

| member | source | states |
|---|---|---|
| Utils.Smootherstep | src/peasycam3/PeasyCam.java:990-992 | the quintic easing fixes 0, 1/2 and 1, and maps [0, 1] into [0, 1] |
| Utils.SmootherstepSymmetric | src/peasycam3/PeasyCam.java:990-992 | the easing is point-symmetric: easing(1 - x) = 1 - easing(x) |
| Utils.Smoothstep | src/peasycam3/PeasyCam.java:994-996 | the cubic easing fixes 0, 1/2 and 1 |
| Utils.Mix | src/peasycam3/PeasyCam.java:999-1001 | the blend is a at t = 0 and b at t = 1, and lies between a and b for t in [0, 1] |
| Geometry.Mix3 | src/peasycam3/PeasyCam.java:1003-1007 | the component-wise vector blend is a at t = 0 and b at t = 1 |
| Damped.DampedAction.constructor | src/peasycam3/PeasyCam.java:896-899 | a new channel holds 0 with damping 0.85 |
| Damped.DampedAction.AddForce | src/peasycam3/PeasyCam.java:901-903 | the force is added to the value, unclamped |
| Damped.DampedAction.Update | src/peasycam3/PeasyCam.java:905-914 | reports active exactly when value² > 0.000001; returns the pre-decay value for the action; the new value is Step of the old |
| Damped.DampedAction.Stop | src/peasycam3/PeasyCam.java:916-918 | the value becomes exactly 0 |
| Damped.Step | src/peasycam3/PeasyCam.java:905-914 | the value one quiet update later: an inactive value snaps to exactly 0, and a positive damping keeps an active value's sign |
| Damped.StepShrinks | src/peasycam3/PeasyCam.java:905-914 | with damping in [0, 1), an update never grows the magnitude and strictly shrinks a non-zero one |
| Damped.CoastDecay | src/peasycam3/PeasyCam.java:905-914 | after n quiet updates, the magnitude times 1 + n(1 - d) is at most the starting magnitude |
| Damped.Settles | src/peasycam3/PeasyCam.java:905-914 | with damping in [0, 1), a channel left alone is exactly 0 after SettleSteps updates |
| Damped.RestIsStable | src/peasycam3/PeasyCam.java:905-918 | a channel at 0 stays at 0 under any number of updates |
| Timed.Begin | src/peasycam3/PeasyCam.java:860-872 | start stores both ends, the time and the duration; it is armed exactly when the duration is positive (both directions), fires nothing then, and otherwise fires action(1) at once |
| Timed.Advance | src/peasycam3/PeasyCam.java:874-884 | an inactive transition does nothing; an active one always fires, only ever deactivates, and changes no other field |
| Timed.Halted | src/peasycam3/PeasyCam.java:886-888 | stop clears only the active flag |
| Timed.AdvanceCompletes | src/peasycam3/PeasyCam.java:876-880 | an update completes exactly when more than 0.995 of the duration has elapsed, and a completing update fires 1 |
| Timed.AdvanceFiresInUnitRange | src/peasycam3/PeasyCam.java:874-884 | while the clock does not run backwards, the action only receives progress in [0, 1] |
| Timed.ProgressMonotone | src/peasycam3/PeasyCam.java:876 | progress never decreases as the clock advances |
| Timed.BeginThenFinish | src/peasycam3/PeasyCam.java:860-884 | a transition with a positive duration completes, firing 1, on the first update a full duration later |
| Timed.AdvanceMidway | src/peasycam3/PeasyCam.java:874-884 | an update at half the duration fires exactly 0.5 and stays active |
| Timed.AdvanceRunning | src/peasycam3/PeasyCam.java:874-884 | while running and at most 0.995 through, an update fires exactly the elapsed fraction and stays active |
| Timed.AdvanceFiresMonotone | src/peasycam3/PeasyCam.java:874-884 | for one running transition, a later update never fires less than an earlier one |
| Timed.Interpolation.constructor | src/peasycam3/PeasyCam.java:854-858 | a new transition is inactive |
| Timed.Interpolation.Start | src/peasycam3/PeasyCam.java:860-872 | every listed channel is stopped (dampings kept), and the new fields and the immediate action are those of Begin |
| Timed.Interpolation.Update | src/peasycam3/PeasyCam.java:874-884 | the new fields and the action to apply are those of Advance |
| Timed.Interpolation.Stop | src/peasycam3/PeasyCam.java:886-888 | the new fields are those of Halted |
| Input.EffectiveConstraint | src/peasycam3/PeasyCam.java:248-251 | the drag constraint is the Shift latch if positive, else the fixed constraint if positive, else ALL; never empty |
| Input.LatchShift | src/peasycam3/PeasyCam.java:244-246 | with Shift held, nothing latched and the inverted deltas more than 1 apart, the latch becomes YAW when abs(dmx) > abs(dmy) and PITCH otherwise; in every other case it is unchanged |
| Input.FixedConstraint | src/peasycam3/PeasyCam.java:781-786 | exactly the selected axis bits are set, and no bit outside ALL |
| Input.NoFixedAxisMeansAll | src/peasycam3/PeasyCam.java:781-786 | clearing every fixed axis makes a drag fall back to ALL |
| Input.Inside | src/peasycam3/PeasyCam.java:721-725 | only a viewport with positive width and height contains a point |
| Input.EmptyViewportContainsNothing | src/peasycam3/PeasyCam.java:721-725 | a viewport without positive width and height contains no point |
| Input.UnitRatio | src/peasycam3/PeasyCam.java:413-414 | the clamped ratio lies in [0, 1] and equals the plain ratio when that is already in range |
| Input.Ndc | src/peasycam3/PeasyCam.java:413-414 | the normalised pointer coordinate lies in [-1, 1] |
| Input.InsideNdcInterior | src/peasycam3/PeasyCam.java:413-414 | a point strictly inside the viewport maps strictly inside (-1, 1) on both axes |
| Input.YawForce | src/peasycam3/PeasyCam.java:416-418 | the yaw force is the whole horizontal delta at the vertical center, nothing at the top and bottom edges, and nothing without a horizontal delta |
| Input.PitchForce | src/peasycam3/PeasyCam.java:419-421 | the pitch force is the negated vertical delta at the horizontal center, nothing at the left and right edges, and nothing without a vertical delta |
| Input.RollForceX | src/peasycam3/PeasyCam.java:422-423 | the roll from the horizontal delta is nothing across the vertical middle and the whole delta, with opposite signs, at the two edges |
| Input.RollForceY | src/peasycam3/PeasyCam.java:422-424 | the roll from the vertical delta is nothing across the horizontal middle and the whole delta, with opposite signs, at the two edges |
| Input.ForcesBounded | src/peasycam3/PeasyCam.java:416-425 | inside [-1, 1], yaw and pitch forces keep their delta's direction and never exceed it, and each roll part is at most its delta |
| Model.Pushed | src/peasycam3/PeasyCam.java:901-903 | addForce on one channel changes that channel's value by the force and nothing else |
| Model.Stopped | src/peasycam3/PeasyCam.java:916-918 | stop on one channel zeroes it and keeps the other five |
| Model.Initial | src/peasycam3/PeasyCam.java:166-173 | a new controller is well formed, with all three poses equal to the initial one and all six channels at rest with damping 0.85 |
| Model.ZoomClamp | src/peasycam3/PeasyCam.java:455-468 | with consistent limits the result lies in them; no clamp fires exactly when old + dz is inside, and then it is old + dz; an undershoot lands on the minimum and an overshoot on the maximum, each firing the clamp; with min > max the max wins |
| Model.Zoomed | src/peasycam3/PeasyCam.java:455-468 | zoom writes only the distance and the channels |
| Model.PannedX | src/peasycam3/PeasyCam.java:470-472 | panX writes only the center, and a zero step is skipped |
| Model.PannedY | src/peasycam3/PeasyCam.java:474-476 | panY writes only the center, and a zero step is skipped |
| Model.PannedAsWritten | src/peasycam3/PeasyCam.java:478-481 | PeasyCam's pan writes only the center |
| Model.Panned | src/peasycam3/PeasyCam.java:478-481 | the intended pan writes only the center, and (0, 0) changes nothing |
| Model.Rotated | src/peasycam3/PeasyCam.java:495-497 | rotate writes only the rotation, and a zero angle is skipped |
| Model.RotationMult | src/peasycam3/PeasyCam.java:443-445 | the rotation multiplier is never negative when the distance gain and the rotation scale are not |
| Model.ZoomMult | src/peasycam3/PeasyCam.java:435-437 | the zoom multiplier is 0 at distance 0, and never negative for a non-negative distance and scale |
| Model.PanMult | src/peasycam3/PeasyCam.java:439-441 | the pan multiplier is 0 at distance 0, and never negative for a non-negative distance and scale |
| Model.DampedEffect | src/peasycam3/PeasyCam.java:100-105 | a channel's action writes only the pose and, for zoom, may only zero the zoom channel |
| Model.RunChannel | src/peasycam3/PeasyCam.java:905-914 | a channel's update reports active exactly when its value is active |
| Model.RunChannelFrame | src/peasycam3/PeasyCam.java:905-914 | one channel's update writes only the pose and the channels, and an inactive one leaves the pose alone |
| Model.Damp | src/peasycam3/PeasyCam.java:304-309 | the six channel updates write only the pose and the channels, and when none was active the pose is untouched |
| Model.RotationAt | src/peasycam3/PeasyCam.java:517-519 | the timed rotation action writes only the rotation |
| Model.CenterAt | src/peasycam3/PeasyCam.java:513-515 | the timed center action writes only the center, and lands on the end value at t = 1 |
| Model.DistanceAt | src/peasycam3/PeasyCam.java:509-511 | the timed distance action writes only the distance, lands on the end value at t = 1, and stays between the ends for t in [0, 1] |
| Model.RunTimers | src/peasycam3/PeasyCam.java:316-320 | advancing the three transitions keeps them well formed and leaves the channels alone |
| Model.StopTimers | src/peasycam3/PeasyCam.java:312-315 | stopping leaves all three transitions inactive |
| Model.Frame | src/peasycam3/PeasyCam.java:301-325 | a frame keeps the transitions well formed |
| Model.DistanceTo | src/peasycam3/PeasyCam.java:542-544 | starting a distance transition keeps the controller well formed |
| Model.CenterTo | src/peasycam3/PeasyCam.java:562-564 | starting a center transition keeps the controller well formed |
| Model.RotationTo | src/peasycam3/PeasyCam.java:590-592 | starting a rotation transition keeps the controller well formed |
| Model.StateTo | src/peasycam3/PeasyCam.java:660-666 | a null state changes nothing |
| Model.PushState | src/peasycam3/PeasyCam.java:670-672 | the pushed slot takes the current pose, which is returned |
| Model.PopState | src/peasycam3/PeasyCam.java:676-678 | popping keeps the controller well formed |
| Model.PushResetState | src/peasycam3/PeasyCam.java:681-683 | the reset slot takes the current pose, which is returned |
| Model.Reset | src/peasycam3/PeasyCam.java:687-689 | resetting keeps the controller well formed |
| Model.DistanceMinSet | src/peasycam3/PeasyCam.java:528-531 | the stored minimum is max(m, 0.001), never below the lower limit |
| Model.DistanceMaxSet | src/peasycam3/PeasyCam.java:533-536 | the stored maximum is the given one |
| Model.DampingSet | src/peasycam3/PeasyCam.java:764-771 | all six channels take the damping and keep their values, and nothing outside the channels changes |
| Model.ConstraintSet | src/peasycam3/PeasyCam.java:781-786 | the fixed constraint holds exactly the chosen axes, and nothing else changes |
| Model.ViewportSet | src/peasycam3/PeasyCam.java:711-714 | the viewport becomes (x, y, w, h), and nothing else changes |
| Model.WheelZoomed | src/peasycam3/PeasyCam.java:398-400 | the zoom channel gains wheel count × wheel scale, and no other channel or field changes |
| Model.DragZoomed | src/peasycam3/PeasyCam.java:402-404 | the zoom channel gains -dmy, and no other channel or field changes |
| Model.DragPanned | src/peasycam3/PeasyCam.java:406-409 | each pan channel gains its delta exactly when its axis (YAW for x, PITCH for y) is allowed and is untouched otherwise; no other channel changes |
| Model.DragRotated | src/peasycam3/PeasyCam.java:411-426 | only the rotation channels change, and the channel of a disallowed axis is untouched |
| Model.Constrained | src/peasycam3/PeasyCam.java:244-251 | a drag changes only the latch and the effective constraint, never the fixed constraint |
| Model.Dragged | src/peasycam3/PeasyCam.java:240-261 | a drag writes only the constraints, as Constrained, and the channels; without a button only the constraints |
| Model.Tracked | src/peasycam3/PeasyCam.java:206-214 | the old position becomes the previous one, the event's the current one, the deltas are previous minus current, the wheel count is recorded and the drag flag kept |
| Model.Mouse | src/peasycam3/PeasyCam.java:191-270 | the mouse callback keeps the controller well formed |
| Model.Key | src/peasycam3/PeasyCam.java:273-286 | the key callback changes only the Shift latch |
| Controller.PeasyCam.constructor | src/peasycam3/PeasyCam.java:166-173 | the new object's value is Model.Initial, with the viewport set to the canvas |
| Controller.PeasyCam.Zoom | src/peasycam3/PeasyCam.java:455-468 | the new value is Zoomed of the old |
| Controller.PeasyCam.PanX | src/peasycam3/PeasyCam.java:470-472 | the new value is PannedX of the old |
| Controller.PeasyCam.PanY | src/peasycam3/PeasyCam.java:474-476 | the new value is PannedY of the old |
| Controller.PeasyCam.Pan | src/peasycam3/PeasyCam.java:478-481 | the new value is the corrected Panned of the old |
| Controller.PeasyCam.Rotate | src/peasycam3/PeasyCam.java:495-497 | the new value is Rotated of the old |
| Controller.PeasyCam.RotateX | src/peasycam3/PeasyCam.java:483-485 | rotation about +x |
| Controller.PeasyCam.RotateY | src/peasycam3/PeasyCam.java:487-489 | rotation about +y |
| Controller.PeasyCam.RotateZ | src/peasycam3/PeasyCam.java:491-493 | rotation about +z |
| Controller.PeasyCam.GetZoomMult | src/peasycam3/PeasyCam.java:435-437 | equals ZoomMult of the object's value |
| Controller.PeasyCam.GetPanMult | src/peasycam3/PeasyCam.java:439-441 | equals PanMult of the object's value |
| Controller.PeasyCam.GetRotationMult | src/peasycam3/PeasyCam.java:443-445 | equals RotationMult of the object's value |
| Controller.PeasyCam.ApplyDamped | src/peasycam3/PeasyCam.java:100-105 | the channel's action, scaled by its multiplier, as DampedEffect |
| Controller.PeasyCam.RunDamped | src/peasycam3/PeasyCam.java:905-914 | one channel's update, equal to RunChannel in PeasyCam's order (action, then decay) |
| Controller.PeasyCam.RunAllDamped | src/peasycam3/PeasyCam.java:304-309 | the six channels in order, with the non-short-circuit activity flag, as Damp |
| Controller.PeasyCam.StopTimers | src/peasycam3/PeasyCam.java:312-315 | all three transitions stopped, as StopTimers |
| Controller.PeasyCam.RunTimers | src/peasycam3/PeasyCam.java:316-320 | the three transitions advanced in order, each applying its action, as RunTimers |
| Controller.PeasyCam.Update | src/peasycam3/PeasyCam.java:301-325 | the new value is Frame of the old |
| Controller.PeasyCam.SetDistanceBetween | src/peasycam3/PeasyCam.java:509-511 | the new value is DistanceAt of the old |
| Controller.PeasyCam.SetCenterBetween | src/peasycam3/PeasyCam.java:513-515 | the new value is CenterAt of the old |
| Controller.PeasyCam.SetRotationBetween | src/peasycam3/PeasyCam.java:517-519 | the new value is RotationAt of the old |
| Controller.PeasyCam.SetDistance | src/peasycam3/PeasyCam.java:542-544 | the new value is DistanceTo of the old |
| Controller.PeasyCam.SetCenter | src/peasycam3/PeasyCam.java:562-564 | the new value is CenterTo of the old |
| Controller.PeasyCam.SetRotation | src/peasycam3/PeasyCam.java:590-592 | the new value is RotationTo of the old |
| Controller.PeasyCam.GetState | src/peasycam3/PeasyCam.java:652-654 | the current pose, as a value |
| Controller.PeasyCam.SetState | src/peasycam3/PeasyCam.java:660-666 | the new value is StateTo of the old |
| Controller.PeasyCam.PushState | src/peasycam3/PeasyCam.java:670-672 | the new value and the result are PushState of the old |
| Controller.PeasyCam.PopState | src/peasycam3/PeasyCam.java:676-678 | the new value is PopState of the old |
| Controller.PeasyCam.PushResetState | src/peasycam3/PeasyCam.java:681-683 | the new value and the result are PushResetState of the old |
| Controller.PeasyCam.Reset | src/peasycam3/PeasyCam.java:687-689 | the new value is Reset of the old |
| Controller.PeasyCam.SetDistanceMin | src/peasycam3/PeasyCam.java:528-531 | the new value is DistanceMinSet of the old |
| Controller.PeasyCam.SetDistanceMax | src/peasycam3/PeasyCam.java:533-536 | the new value is DistanceMaxSet of the old |
| Controller.PeasyCam.SetRotationConstraint | src/peasycam3/PeasyCam.java:781-786 | the fixed constraint becomes FixedConstraint of the flags |
| Controller.PeasyCam.SetDamping | src/peasycam3/PeasyCam.java:764-771 | the new value is DampingSet of the old |
| Controller.PeasyCam.SetViewport | src/peasycam3/PeasyCam.java:711-714 | the viewport array holds x, y, w, h and nothing else changes |
| Controller.PeasyCam.InsideViewport | src/peasycam3/PeasyCam.java:721-725 | equals Inside of the object's viewport |
| Controller.PeasyCam.MouseWheelZoom | src/peasycam3/PeasyCam.java:398-400 | the zoom channel receives wheel × wheel scale |
| Controller.PeasyCam.MouseDragZoom | src/peasycam3/PeasyCam.java:402-404 | the zoom channel receives -dmy |
| Controller.PeasyCam.MouseDragPan | src/peasycam3/PeasyCam.java:406-409 | each pan channel receives its delta only when its axis is allowed |
| Controller.PeasyCam.MouseDragRotate | src/peasycam3/PeasyCam.java:411-426 | the rotation channels receive the shaped forces of their allowed axes |
| Controller.PeasyCam.Track | src/peasycam3/PeasyCam.java:201-214 | the previous position, the position, the inverted deltas and the wheel count are recorded |
| Controller.PeasyCam.Grab | src/peasycam3/PeasyCam.java:219-225 | a press inside starts the drag, clears the latch and the deltas |
| Controller.PeasyCam.Let | src/peasycam3/PeasyCam.java:263-268 | a release ends the drag and clears the latch |
| Controller.PeasyCam.Constrain | src/peasycam3/PeasyCam.java:244-251 | the latch and the effective constraint, as Constrained |
| Controller.PeasyCam.MouseDrag | src/peasycam3/PeasyCam.java:240-261 | the drag branch: constraints, then the button's gesture, as Dragged |
| Controller.PeasyCam.MouseEvent | src/peasycam3/PeasyCam.java:191-270 | the new value is Mouse of the old |
| Controller.PeasyCam.KeyEvent | src/peasycam3/PeasyCam.java:273-286 | the new value is Key of the old |
| Controller.DecayFirst | src/peasycam3/PeasyCam.java:905-914 | decaying a channel before its action gives the same result as PeasyCam's order, because only zoom's action writes a channel, and then it writes zero |
| Properties.RunChannelMomentum | src/peasycam3/PeasyCam.java:905-914 | one channel's update decays it by one Step (zoom: one Step or to zero), keeps its damping and leaves the other five alone |
| Properties.RunChannelIdle | src/peasycam3/PeasyCam.java:905-914 | an inactive channel is zeroed without running its action |
| Properties.DampMomentum | src/peasycam3/PeasyCam.java:301-309 | every channel decays by one Step (zoom: one Step or to zero), and the frame counts as moving exactly when some channel was active |
| Properties.ActiveChannels | src/peasycam3/PeasyCam.java:304-309 | the or-accumulated flags are true exactly when some channel is active |
| Properties.DampIdle | src/peasycam3/PeasyCam.java:301-309 | with no active channel the damped part only zeroes the channels and reports no motion |
| Properties.FrameMomentum | src/peasycam3/PeasyCam.java:301-325 | whatever the transitions do, a frame decays every channel by one Step and keeps the dampings |
| Properties.FramePreemptsTimers | src/peasycam3/PeasyCam.java:311-315 | with an active channel, all three transitions are halted and none of their actions runs: the pose is what the damped actions left |
| Properties.QuietFrameRunsTimers | src/peasycam3/PeasyCam.java:316-320 | with no active channel, a frame zeroes the channels and advances the three transitions |
| Properties.RunTimersFrame | src/peasycam3/PeasyCam.java:316-320 | the transitions write only the pose and the timers; an idle distance transition leaves the distance alone |
| Properties.RunChannelKeepsLimits | src/peasycam3/PeasyCam.java:455-468 | one channel's update keeps the distance inside consistent limits |
| Properties.FrameKeepsDistanceLimits | src/peasycam3/PeasyCam.java:301-325 | with consistent limits, a distance inside them and no distance transition, a frame keeps the distance inside |
| Properties.TimedDistanceLands | src/peasycam3/PeasyCam.java:542-544 | a distance transition started at rest lands exactly on its target a full duration later, and is then finished |
| Properties.TimedDistanceIgnoresLimits | src/peasycam3/PeasyCam.java:509-511 | a timed or immediate distance transition toward a target outside the limits lands on it, outside the limits; a target of 0 ends below the 0.001 floor |
| Properties.TimedDistanceMidway | src/peasycam3/PeasyCam.java:542-544 | half way through its duration the distance is exactly the midpoint of start and target |
| Properties.ImmediateStateTo | src/peasycam3/PeasyCam.java:660-666 | with a non-positive duration, setState puts distance and center on the target at once and leaves all transitions idle |
| Properties.StateToTargets | src/peasycam3/PeasyCam.java:660-666 | with a positive duration, setState stops every channel and arms all three transitions from the current pose to the target; null changes nothing |
| Properties.PopAndResetTargets | src/peasycam3/PeasyCam.java:670-689 | popState heads for the pushed pose and reset heads for the reset pose |
| Properties.PushThenPop | src/peasycam3/PeasyCam.java:670-678 | push then an immediate pop returns the distance and center to the pushed pose |
| Properties.ZoomStaysInLimits | src/peasycam3/PeasyCam.java:455-468 | with consistent limits zoom stays inside them; an in-range step is taken as is with the channels untouched; an undershoot lands on the minimum, an overshoot on the maximum, and either stops only the zoom channel |
| Properties.ZoomClampIdempotent | src/peasycam3/PeasyCam.java:455-468 | clamping again after a zoom changes nothing |
| Properties.DistanceMinSetClamps | src/peasycam3/PeasyCam.java:528-531 | the new minimum is at least 0.001; the distance is pulled inside the new range, and one already inside is kept |
| Properties.DistanceMaxSetClamps | src/peasycam3/PeasyCam.java:533-536 | the distance is pulled inside the new range, and one already inside is kept |
| Properties.PressStartsDragInside | src/peasycam3/PeasyCam.java:218-226 | a press strictly inside starts a drag, clears the latch and the deltas; a press outside only records the pointer |
| Properties.IdleDragOnlyTracks | src/peasycam3/PeasyCam.java:240-242 | a drag with no drag active only records the pointer |
| Properties.DragConstraintPriority | src/peasycam3/PeasyCam.java:248-251 | during a drag the effective constraint is latch, else fixed, else ALL, never empty, and the fixed constraint is kept |
| Properties.ShiftLatchRules | src/peasycam3/PeasyCam.java:218-282 | the latch is only ever nothing, yaw or pitch; once set it survives every event but a press, a release or the release of Shift |
| Properties.DragGating | src/peasycam3/PeasyCam.java:406-426 | without PITCH the x-rotation and vertical pan channels keep their values, without YAW the y-rotation and horizontal pan ones, without ROLL the z-rotation one |
| Properties.RotateDragBounded | src/peasycam3/PeasyCam.java:411-426 | a rotate drag adds to each rotation channel at most the delta driving it, and touches no other channel |
| Properties.PanAsWrittenIgnoresDy | src/peasycam3/PeasyCam.java:478-481 | PeasyCam's pan(dx, dy) is the intended pan(dx, dx) |
| Properties.PanAsWrittenDropsVertical | src/peasycam3/PeasyCam.java:478-481 | with a rotation that keeps +y in place, PeasyCam's pan(0, 1) leaves the camera as it was, while the intended pan moves the center up by 1 |
| Properties.PanMovesByOffset | src/peasycam3/PeasyCam.java:478-481 | for a rotation that maps sums to sums, the intended pan moves the center by the rotated offset (dx, dy, 0) |
| Properties.PanOrderIrrelevant | src/peasycam3/PeasyCam.java:470-476 | panning along x then y equals panning along y then x |

## Left out

- The rotation library's numerics are parameters of the model, not modelled. These are rotation composition, applying a rotation to a vector, axis-angle construction, `Utils.slerp`, and the `pow(log10(1 + d), 0.5)` gain of `getRotationMult`. They are transcendental floating-point code from a foreign library. Properties about the rotation therefore hold for whatever functions are supplied. `newRotationFromAnglesXYZ` and `getAnglesXYZ` are not modelled.
- IEEE double and float rounding is not modelled: reals stand in for doubles. This also covers:
  - the `float` viewport array;
  - the `(float)` narrowing of the getters;
  - infinities beyond `Double.MAX_VALUE`.

  The NDC clamp does handle division by a zero extent: a positive numerator over zero gives an infinity that clamps to 1. For 0/0, PeasyCam computes NaN. The clamp passes NaN through, so the rotate forces and the channel values they reach become NaN. The next update then finds the channel inactive (NaN² > 0.000001 is false) and zeroes it, dropping any momentum it had. The model takes 0/0 as 0 instead, so the normalised coordinate is -1 and the channels keep their momentum. This only matters when a drag is already under way and the viewport is then shrunk to zero width or height, since a drag can only start strictly inside a non-empty viewport.
- `System.currentTimeMillis` becomes the `now` parameter. The transition's `timer` and `duration` are doubles in PeasyCam but integers of milliseconds here.
- Processing plumbing is left out: `registerMethod`, `draw`, `dispose`, `release`, `apply`, `beginHUD`/`endHUD`, canvas and `user` fields, `autoUpdate`, and `State.toString`/`getRotationString`. They render, print or register callbacks.
- The replaceable mouse handlers `m_left`, `m_center`, `m_right` and `m_wheel` are not modelled. The model calls the default gestures directly, so setting a handler to null (which disables a gesture) is also not modelled.
- Some overloads are left out:
  - the constructor overloads that build the pose from angles, center or distance;
  - the default-duration overloads of `setDistance`, `setCenter`, `setRotation`, `setState`, `popState` and `reset`, which pass `default_interpolation_time`;
  - `setViewport(float[])`.
- The simple scale, viewport and interpolation-time setters and getters are left out. Each copies one field.
- Controller.PeasyCam.constructor: before their first start, the three transitions hold the initial pose's parts as their end values, where PeasyCam holds null. No update reads them while inactive.
- Timed.Interpolation.Update: PeasyCam calls `action(1)` and then `stop()`. The model deactivates first and returns the action for the owner to apply. No action reads the flag, so the result is the same.
- Controller.PeasyCam.PushState: returns the saved pose as an independent value. In PeasyCam, `pushState` returns the very `State` object it stores in `state_pushed` (PeasyCam.java:670-672), and `State`'s fields are public and mutable (PeasyCam.java:932-936). So a caller who changes the returned object also changes what a later `popState` restores. The model does not capture that aliasing, because it keeps poses as values.
- Controller.PeasyCam.PushResetState: the same aliasing, for the `State` object stored in `state_reset` (PeasyCam.java:681-683) and later restored by `reset`. It is not captured, for the same reason.
- Model.DistanceTo: follows PeasyCam, which does not clamp the timed distance path. `setDistance(distance, duration)` (and `setState`, `popState` and `reset`, which go through it) can therefore put the camera outside `[distance_min, distance_max]`, including at distance 0 or below. `Properties.TimedDistanceIgnoresLimits` exhibits this. The model makes no promise that the distance stays within its limits across timed transitions; `Properties.FrameKeepsDistanceLimits` is stated only for frames without a running distance transition.
- Controller.PeasyCam.Pan: models the intended `pan(dx, dy)`. PeasyCam's version is `Model.PannedAsWritten`; see Findings.

## Findings

| source | as written | input that shows it | evidently intended | confidence | as-written member | corrected member |
|---|---|---|---|---|---|---|
| src/peasycam3/PeasyCam.java:478-481 | `pan(dx, dy)` calls `panX(dx)` and then `panY(dx)`, so dy is never used | `pan(0, 1)` with a camera whose rotation keeps +y in place leaves the center unchanged, where a vertical pan of 1 was asked for | `panY(dy)`: the center moves by the camera-relative offset (dx, dy, 0) | not executed | Properties.PanAsWrittenDropsVertical | Properties.PanMovesByOffset |
