# DFSphereView in Dafny

A model of `DFSphereView`, a view that lays a cloud of tag views out on a unit sphere,
turns the sphere in response to pan gestures, inertia and a slow ambient spin, and
projects every point back onto the screen with a depth-dependent scale, stacking order,
opacity and interactivity flag.

The model has five modules:

- `Geometry`: the `simd_double3` and `CGPoint` values (`Vec3`, `Point`), the numeric
  library the view calls (`MathLib`: `pi`, `sqrt`, `sin`, `cos`, and the quaternion
  action `simd_quatd(angle:axis: simd_normalize(direction)).act`), `rotateSphere`
  (`RotateSphere`), and `RotateAll`, the result of running `updateFrameOfPoint` over
  the first `tags.count` coordinates. `Double` is modelled as `real`. The library's
  functions are values held by the view, so they stay uninterpreted. The predicate
  `Lawful` states the real-number laws they obey: an exact non-negative square root,
  `cos² + sin² = 1`, and a rotation that keeps lengths. Lemmas that need these laws
  take `Lawful` as a precondition.
- `Projection`: the arithmetic of `setTagOf` (`ProjectPoint`). It returns the centre,
  the scale `(z + 2) / 3` (also used as `zPosition` and `alpha`) and the flag
  `interactive`, which is false exactly when `z < 0`.
- `Layout`: the golden-angle spiral of `setCloudTags`. Tag `i` of `n` gets the latitude
  `Latitude(n, i) = p2 * i - 1 + p2 / 2` with `p2 = 2 / n`, the radius
  `sqrt(1 - y * y)` and the longitude `pi * (3 - sqrt 5) * i`.
- `Motion`: the drive state (`Drive`): `timer.isPaused`, `inertia.isPaused` and
  `velocity`. It holds the transitions that `timerStart`/`timerStop`,
  `inertiaStart`/`inertiaStop`, `inertiaStep` and `handlePanGesture` make on that state
  (`TimerStarted`, `TimerStopped`, `InertiaStarted`, `InertiaStopped`, `InertiaTicked`,
  `PanDrive`). It also holds the drag axis and angle, the release speed, the inertia
  angle, and the run of inertia ticks (`AfterTicks`, `TicksToStop`).
- `View`: the class `SphereView` with the source's fields. `tags` holds the tag views
  (their `tag` number and the attributes `setTagOf` sets). The other fields are
  `coordinate`, `normalDirection`, `last`, `velocity` and the two paused flags. Each
  callback is a method, and each method's `ensures` ties the new state to the
  functions above. The methods that rotate every tagged coordinate (`UpdateAllFrames`,
  `AutoTurnRotation`, a `.changed` drag sample, a decrementing inertia tick) leave every
  tag showing its own coordinate (`Synced`); `UpdateFrameOfPoint` re-shows only the tag
  it moved, and `SetCloudTags` leaves the tags synced only on a view with no earlier
  coordinates. With a lawful library, every method that changes `coordinate` keeps all
  coordinates on the unit sphere.

## Behaviour of the code worth knowing

- `.began` calls `timerStop()` and then `inertiaStop()`, which restarts the timer, so
  ambient spin keeps running during a drag (`PanDrive`).
- `.ended` always starts inertia, even with a release speed of 0. The next tick then
  stops inertia and resumes the timer (`PanDrive`, `InertiaTicked`).
- From velocity `70 * k` there are `k` decrementing ticks, the last of which rotates by
  angle 0, and inertia stops on tick `k + 1`: from 700 that is the eleventh tick
  (`InertiaFromMultiple`, `LastDecrementMovesNothing`).
- From a velocity that is not a multiple of 70 the last decrementing tick leaves a
  negative velocity and turns the sphere a little backwards before inertia stops
  (`InertiaOvershootTurnsBack`, `InertiaEventuallyStops`).
- `setCloudTags` appends to `coordinate` and never clears it. After a second call the
  tags were animated to the new points, which sit at `coordinate[|old| + i]`, while the
  later ticks rotate and show entries `0..n-1`: the earlier layouts' points for the
  indices they cover, and the new layout's first points beyond them
  (`SphereView.SetCloudTags`).
- With one tag, the tag sits on the equator (`y = 0`) (`SingleTagOnEquator`). The
  square root's argument `1 - y * y` is never negative, so no clamp is needed
  (`LatitudeBounds`).
- Ambient spin and inertia are not always exclusive. Both display links start unpaused
  until the first inertia tick (`FirstTickOfFreshView`), and the public `timerStart`
  can resume the timer while inertia runs (`TimerStartedMayBreakExclusive`).
- A `.changed` sample at the previous location sets `normalDirection` to the zero
  vector. Ambient spin then moves nothing until the next drag sample or layout
  (`StillSampleStopsSpin`).

## Model

| member | source | states |
|---|---|---|
| `Geometry.RotateSphere` | DFSphereViewFramework/DFSphereView.swift:178-184 | a zero direction or a zero angle returns the point unchanged; otherwise the result is the quaternion action of the angle about the direction |
| `Geometry.RotateSphereKeepsLength` | DFSphereViewFramework/DFSphereView.swift:181-183 | with a length-preserving quaternion action, the rotated point has the length of the original |
| `Geometry.RotateAll` | DFSphereViewFramework/DFSphereView.swift:119-121 | rotating the first `count` coordinates keeps the number of coordinates |
| `Geometry.RotateAllAt` | DFSphereViewFramework/DFSphereView.swift:143-145 | entry `i` of the result is the rotated `cs[i]` for `i < count` and `cs[i]` itself otherwise |
| `Geometry.RotateAllIdentity` | DFSphereViewFramework/DFSphereView.swift:179-180 | a zero direction or a zero angle leaves every coordinate where it was |
| `Geometry.RotateAllKeepsUnitSphere` | DFSphereViewFramework/DFSphereView.swift:178-184 | with a lawful library, coordinates on the unit sphere stay on it |
| `Projection.ProjectPoint` | DFSphereViewFramework/DFSphereView.swift:100-114 | `zPosition` and `alpha` both equal the scale; the tag is interactive exactly when `z >= 0` |
| `Projection.ProjectionInsideFrame` | DFSphereViewFramework/DFSphereView.swift:102-104 | for x, y, z in [-1, 1] the centre lies in [0, width] × [0, height] and the scale in [1/3, 1] |
| `Projection.ProjectionDepthMonotone` | DFSphereViewFramework/DFSphereView.swift:104-107 | the scale (and so stacking order and opacity) is strictly increasing in z |
| `Projection.ProjectionAtDepths` | DFSphereViewFramework/DFSphereView.swift:104-113 | z = -1 gives scale 1/3 and no interaction; z = 0 gives 2/3; z = 1 gives 1; both of these are interactive |
| `Layout.Latitude` | DFSphereViewFramework/DFSphereView.swift:37-39 | the latitude `p2 * i - 1 + p2 / 2` of tag `i` of `n` is `(2i + 1) / n - 1`, the centre of the `i`-th of `n` equal bands of [-1, 1] |
| `Layout.LatitudeBounds` | DFSphereViewFramework/DFSphereView.swift:37-39 | every latitude lies in [-1 + 1/n, 1 - 1/n] |
| `Layout.LatitudeIncreasing` | DFSphereViewFramework/DFSphereView.swift:38-39 | latitudes strictly increase with the tag index |
| `Layout.LatitudeSymmetric` | DFSphereViewFramework/DFSphereView.swift:37-39 | `y_i = -y_(n-1-i)`: the layout is symmetric about the equator |
| `Layout.SingleTagOnEquator` | DFSphereViewFramework/DFSphereView.swift:37-39 | with one tag its latitude is 0 |
| `Layout.GoldenAngleBounds` | DFSphereViewFramework/DFSphereView.swift:36 | with an exact square root and a positive `pi`, the golden angle `pi * (3 - sqrt 5)` lies strictly between 0 and `pi` |
| `Layout.LayoutPoint` | DFSphereViewFramework/DFSphereView.swift:39-45 | point `i` has latitude `Latitude(n, i)` and, with an exact square root, sine and cosine, lies on that circle of latitude: `x² + z² = 1 - y²` |
| `Layout.LayoutPoints` | DFSphereViewFramework/DFSphereView.swift:38-46 | exactly `n` points, point `i` at latitude `Latitude(n, i)` |
| `Layout.LayoutPointOnUnitSphere` | DFSphereViewFramework/DFSphereView.swift:36-45 | with an exact square root, sine and cosine, each laid-out point has length 1 |
| `Layout.LayoutOnUnitSphere` | DFSphereViewFramework/DFSphereView.swift:38-46 | the whole layout lies on the unit sphere |
| `Layout.LayoutProjectsInsideFrame` | DFSphereViewFramework/DFSphereView.swift:36-50 | every laid-out tag is placed inside the frame |
| `Motion.TimerStarted` | DFSphereViewFramework/DFSphereView.swift:62-64 | the timer runs; the inertia flag and the velocity are kept |
| `Motion.TimerStopped` | DFSphereViewFramework/DFSphereView.swift:67-69 | the timer is paused, so at most one driver runs; the inertia flag and the velocity are kept |
| `Motion.InertiaStarted` | DFSphereViewFramework/DFSphereView.swift:126-129 | the timer is paused, inertia runs, the velocity is kept |
| `Motion.InertiaStopped` | DFSphereViewFramework/DFSphereView.swift:131-134 | the timer runs, inertia is paused, the velocity is kept |
| `Motion.InertiaTicked` | DFSphereViewFramework/DFSphereView.swift:136-141 | a tick at velocity <= 0 stops inertia and resumes the timer; any other tick takes exactly 70 off and keeps the flags; ticks never leave both drivers running when at most one was |
| `Motion.InertiaAngle` | DFSphereViewFramework/DFSphereView.swift:142 | velocity 0 gives angle 0; on a frame of positive width with a positive frame duration the angle has the sign of the velocity |
| `Motion.TimerStartedMayBreakExclusive` | DFSphereViewFramework/DFSphereView.swift:62-64 | `timerStart` during inertia leaves both drivers running |
| `Motion.FirstTickOfFreshView` | DFSphereViewFramework/DFSphereView.swift:75-80 | both links start unpaused; the first inertia tick pauses inertia and leaves the timer running |
| `Motion.InertiaFromMultiple` | DFSphereViewFramework/DFSphereView.swift:136-147 | from velocity `70k`, tick `j <= k` leaves `70(k - j)`, tick `k + 1` stops inertia and resumes the timer, and there are exactly `k` decrementing ticks |
| `Motion.LastDecrementMovesNothing` | DFSphereViewFramework/DFSphereView.swift:141-145 | the tick that brings the velocity to 0 rotates by angle 0 and moves no coordinate |
| `Motion.InertiaEventuallyStops` | DFSphereViewFramework/DFSphereView.swift:136-147 | from any velocity, the first `TicksToStop` ticks see a positive velocity and keep the flags, leaving a velocity in (-70, 0]; the next tick stops inertia |
| `Motion.InertiaOvershootTurnsBack` | DFSphereViewFramework/DFSphereView.swift:136-145 | from a velocity in (0, 70) the single decrementing tick leaves a negative velocity and a negative angle, and the next tick stops inertia |
| `Motion.DragAxisExample` | DFSphereViewFramework/DFSphereView.swift:157-159 | a drag from (50, 50) to (60, 40) turns about (10, 10, 0) |
| `Motion.DragAxis` | DFSphereViewFramework/DFSphereView.swift:157-159 | the axis has z = 0 and is zero exactly when the pointer did not move |
| `Motion.DragAngle` | DFSphereViewFramework/DFSphereView.swift:160-161 | with an exact square root and a frame of positive width, the angle is non-negative and positive exactly when the pointer moved |
| `Motion.ReleaseSpeed` | DFSphereViewFramework/DFSphereView.swift:169-170 | with an exact square root, the speed is the length of the release velocity: non-negative, squaring to `x² + y²`, and positive exactly when the release velocity is not zero |
| `Motion.StillSampleStopsSpin` | DFSphereViewFramework/DFSphereView.swift:155-166 | a sample at the last location moves no coordinate and leaves a zero spin axis, under which ambient spin moves nothing |
| `Motion.PanDrive` | DFSphereViewFramework/DFSphereView.swift:149-172 | `.began` leaves the timer running and inertia paused; `.ended` sets the release speed, runs inertia and pauses the timer whatever the speed; other states change nothing |
| `View.SphereView.constructor` | DFSphereViewFramework/DFSphereView.swift:71-85 | a new view has no tags or coordinates, a zero spin axis, velocity 0 and both links unpaused |
| `View.SphereView.SetCloudTags` | DFSphereViewFramework/DFSphereView.swift:26-59 | appends exactly the `n` layout points and keeps earlier entries; tag `i` gets number `i` and the projection of point `i`; the spin axis becomes `(a, b, 0)`; the timer runs |
| `View.SphereView.TimerStart` | DFSphereViewFramework/DFSphereView.swift:62-64 | unpauses the timer and changes nothing else |
| `View.SphereView.TimerStop` | DFSphereViewFramework/DFSphereView.swift:67-69 | pauses the timer and changes nothing else |
| `View.SphereView.UpdateFrameOfPoint` | DFSphereViewFramework/DFSphereView.swift:92-98 | requires a valid index; only `coordinate[index]` changes, to its rotation, and only `tags[index]` changes, to its projection; with a lawful library the coordinates stay on the unit sphere |
| `View.SphereView.SetTagOf` | DFSphereViewFramework/DFSphereView.swift:100-114 | only `tags[index]` changes; it gets the projection of the point |
| `View.SphereView.UpdateAllFrames` | DFSphereViewFramework/DFSphereView.swift:143-145 | the coordinates become `RotateAll` of the old ones over all tags, and every tag shows its coordinate |
| `View.SphereView.AutoTurnRotation` | DFSphereViewFramework/DFSphereView.swift:118-122 | one ambient tick rotates every tagged coordinate about `normalDirection` by 0.002 and re-shows every tag |
| `View.SphereView.InertiaStart` | DFSphereViewFramework/DFSphereView.swift:126-129 | the flags become those of `InertiaStarted` |
| `View.SphereView.InertiaStop` | DFSphereViewFramework/DFSphereView.swift:131-134 | the flags become those of `InertiaStopped` |
| `View.SphereView.InertiaStep` | DFSphereViewFramework/DFSphereView.swift:136-147 | at velocity <= 0 it stops inertia and moves nothing; otherwise it decrements first and rotates by the angle of the decremented velocity |
| `View.SphereView.HandlePanGesture` | DFSphereViewFramework/DFSphereView.swift:149-174 | `.began` records the location and leaves spin running; `.changed` rotates by the drag axis and angle, then sets `normalDirection` and `last`; `.ended` starts inertia at the release speed; other states change nothing |

## Left out

- UIKit view work is left out: `addSubview`, `CGAffineTransform` and the `layer`. A tag view is modelled only by its `tag` number and the attributes `setTagOf` sets. It is a value in `tags`, so aliasing with the caller's `UIView` objects is not modelled.
- `UIView.animate` and its random durations are left out. Each tag takes its animation's final state at once.
- `CADisplayLink` creation, run-loop registration and frame delivery are left out. Each callback is a method called explicitly, and `inertia.duration` is a parameter. Only the two paused flags are kept. Nothing stops a caller from invoking a callback while its link is paused.
- `UIPanGestureRecognizer` plumbing is left out. The state, the location and the release velocity are parameters.
- `Double.random(in: -5 ..< 5)` is left out. The two draws are parameters, with their range as a precondition.
- IEEE-754 arithmetic is left out: `Double` and `CGFloat` are `real`. `sqrt`, `sin`, `cos`, `.pi` and the `simd_quatd` action are uninterpreted functions of a `MathLib` value. Their laws are hypotheses (`Lawful`), not axioms.
- Rotation invertibility (turning by θ and then by −θ) is not stated, because the quaternion action is not modelled.
- `View.SphereView.constructor`: requires a positive frame width, because the drag and inertia angles divide by it. The infinities and NaN of a zero-width frame are not modelled.
- Frame resizing is left out. `width` and `height` are fixed when the view is created.
- `View.SphereView.HandlePanGesture`: computes the drag axis, drag angle and release speed through the functions `DragAxis`, `DragAngle` and `ReleaseSpeed`. These spell out the same arithmetic as the inline code.
- `View.SphereView.SetCloudTags`: computes each point through `LayoutPoint`, which spells out the inline arithmetic of the layout loop.
- DFSphereView/ViewController.swift (the demo app) is not part of this model. It has no logic of the view's own.
