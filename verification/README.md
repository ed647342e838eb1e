# Platformer character contact and jump logic, in Dafny

This project models the per-tick contact and jump logic of a 2D kinematic
platformer character (Unity, C#). It has two layers.

- **Ray grid** (`Scripts/Base/RaycastController.cs`, module `Raycast` in
  `raycast_controller.dfy`). The collider bounds are shrunk by a skin width of
  0.03 on every side. The four corners of the shrunk box are the ray origins.
  Each side casts `max(round(extent / 0.25), 2)` rays, spaced so that the first
  and the last ray sit on the two corners of that side.
- **Contact and movement state** (`Scripts/Movement/MovementController.cs`,
  module `Movement` in `movement_controller.dfy`). Each tick the four contact
  flags `below`, `above`, `left` and `right` are cleared. Four ray sweeps then
  run in a fixed order (-X, +X, -Y, +Y) and raise the flags. A downward hit
  counts as ground only when its signed tilt is in `[0, maxSlopeAngle)`. The jump
  routine picks a ground jump, a wall jump, an air jump or nothing. The
  wall-slide routine caps the fall speed and runs a wall-stick timer. The
  air-jump counter and the stick timer persist between ticks.

`engine.dfy` (module `Engine`) holds the engine values both layers use: 2D
vectors, bounds stored as centre and extents, and the answer of a ray query.
`movement_properties.dfy` (module `MovementProperties`) holds the lemmas about
single ticks and about runs of ticks, plus two scenarios on a fresh controller.

Modelling choices:

- Floats are `real`.
- `MovementController` inherits `RaycastController` in C#. Here it holds one
  as the field `rays`.
- `CollisionInfo` is a C# struct, so it is a datatype value here. The
  controller's `collisions` field is reassigned as the sweeps run.
- Every tick method of the source becomes a class method. Each method's
  `ensures` ties its result and new state to a pure function: `Scan`, `Jump`
  or `WallSlide`. The lemmas are stated about those functions.
- The engine ray query is a parameter `query(origin, direction, distance)`. It
  returns no hit, or a hit carrying the angle between the surface normal and
  the left axis. The model computes the signed tilt `90 - angle` itself, as the
  source does.
- The collider's live bounds and the frame time are parameters.

Behaviour of the code worth knowing:

- The air-jump counter is reset only inside the jump routine, on a ground jump
  (`MovementController.cs:102`). The contact scan never resets it.
- The wall-jump test is kept as written, `left || (right && !below)`.
  `WallTestMeansEitherWall` shows that, where it is reached, it means
  "touching either wall".
- The ground filter is one-sided (`MovementController.cs:185-186`). The engine
  angle between the normal and the left axis is unsigned, so `90 - angle` is
  negative exactly when the normal leans right, that is on any floor descending
  to the right. Such a floor is never ground, however slight its tilt, while
  the mirror-image floor is ground up to `maxSlopeAngle`.
  `SlopeFilterIsOneSided` states this, and the model keeps the filter as
  written.

## Model

| member | source | states |
|---|---|---|
| `Raycast.RoundToInt` | Scripts/Base/RaycastController.cs:56-57 | the rounded ratio is the nearest integer, within one half; exact halves go to the even neighbour |
| `Raycast.RayCount` | Scripts/Base/RaycastController.cs:56-57 | a side always gets at least 2 and at most `int.MaxValue` rays; exactly 2 when the rounded ratio is at most 2; the rounded ratio itself when that is in range |
| `Raycast.RaySpacing` | Scripts/Base/RaycastController.cs:59-60 | spacing × (count − 1) equals the side length exactly; with two rays the spacing is the side length |
| `Raycast.ShrunkBounds` | Scripts/Base/RaycastController.cs:38-39 | the shrunk box keeps the centre, moves each side inward by the skin width, and is 2 × skinWidth smaller on both axes (the same shrink is done at lines 49-50) |
| `Raycast.CornerOrigins` | Scripts/Base/RaycastController.cs:41-44 | the four origins form an axis-aligned rectangle: left corners share x, right corners share x, bottom corners share y, top corners share y; bottom-left is the box minimum and top-right its maximum; the sides are the box's width and height |
| `Raycast.RaycastController.constructor` | Scripts/Base/RaycastController.cs:11-23 | ray counts, spacings and origins start at zero |
| `Raycast.RaycastController.UpdateRaycastOrigins` | Scripts/Base/RaycastController.cs:36-45 | the origins become the corners of the collider box shrunk by the skin width |
| `Raycast.RaycastController.CalculateRaySpacing` | Scripts/Base/RaycastController.cs:47-61 | counts and spacings become `RayCount` and `RaySpacing` of the shrunk height (horizontal rays) and width (vertical rays); both counts are at least 2 |
| `Raycast.LastHorizontalRayReachesTop` | Scripts/Base/RaycastController.cs:41-60 | with unchanged bounds, bottom corner y + (horizontalRayCount − 1) × horizontalRaySpacing equals the top corner y, on both sides |
| `Raycast.LastVerticalRayReachesRight` | Scripts/Base/RaycastController.cs:41-60 | with unchanged bounds, left corner x + (verticalRayCount − 1) × verticalRaySpacing equals the right corner x, at bottom and top |
| `Raycast.ShortSideHasTwoRays` | Scripts/Base/RaycastController.cs:56-60 | when the rounded ratio is below 2, the count is exactly 2 and the spacing is the side length itself (0 for a zero-length side) |
| `Raycast.CornersOrderedIffColliderWideEnough` | Scripts/Base/RaycastController.cs:38-44 | bottom-left is below and left of top-right exactly when the collider is at least two skin widths wide and high |
| `Raycast.TwoUnitSideScenario` | Scripts/Base/RaycastController.cs:56-59 | a side 2.0 long after shrinking gets 8 rays, 2/7 apart |
| `Movement.CollisionInfo.Reset` | Scripts/Movement/MovementController.cs:224-228 | all four flags are false afterwards, whatever they were before |
| `Movement.WallDirection` | Scripts/Movement/MovementController.cs:106 | the wall side is -1 exactly when `left` is set, else 1 |
| `Movement.NormalAngle` | Scripts/Movement/MovementController.cs:185 | the signed tilt is 0 exactly for a normal pointing straight up (angle 90 to the left axis) and negative exactly when the normal leans right (angle above 90) |
| `Movement.IsWalkable` | Scripts/Movement/MovementController.cs:185-186 | a hit is ground exactly when its normal's angle to the left axis lies in (90 − maxSlopeAngle, 90]: leaning left by less than the limit, never leaning right; `SlopeLimitIsExclusive` and `SlopeFilterIsOneSided` state the edges |
| `Movement.HorizontalSweep` | Scripts/Movement/MovementController.cs:148-163 | `above` and `below` are kept; a hit going left leaves only `left` raised, a hit going right only `right`; the sweep never raises both sides unless both already were |
| `Movement.VerticalSweep` | Scripts/Movement/MovementController.cs:165-193 | `left` and `right` are kept; no flag is lowered; going up it touches only `above`, going down only `below` |
| `Movement.Scan` | Scripts/Movement/MovementController.cs:140-146 | `above` and `below` are never lowered; a +X hit leaves only `right` raised, whatever the -X sweep found; a -X hit without a +X hit leaves only `left` raised; `ScanAfterReset` gives every flag as an if-and-only-if after a reset |
| `Movement.Jump` | Scripts/Movement/MovementController.cs:98-138 | on the ground the counter becomes 0; otherwise it is unchanged or grows by exactly one, and only while below the limit |
| `Movement.WallSlide` | Scripts/Movement/MovementController.cs:64-96 | outside the wall-slide guard the timer is untouched; the vertical speed is never lowered |
| `Movement.MovementController.constructor` | Scripts/Movement/MovementController.cs:21-26 | the air-jump counter and the stick timer start at 0 and all contact flags are clear |
| `Movement.MovementController.Update` | Scripts/Movement/MovementController.cs:50-62 | one tick clears the flags, places the origins on the shrunk collider, then runs the four sweeps on the new grid; with spacing computed for the same bounds the grid is exactly the grid of those bounds |
| `Movement.MovementController.UpdateCollisions` | Scripts/Movement/MovementController.cs:140-146 | the flags become the four sweeps applied in the order -X, +X, -Y, +Y |
| `Movement.MovementController.DetectHorizontalCollisions` | Scripts/Movement/MovementController.cs:148-163 | if any of the `horizontalRayCount` rays hits, `left` becomes `directionX < 0` and `right` becomes `directionX > 0`; otherwise the flags are unchanged |
| `Movement.MovementController.DetectVerticalCollisions` | Scripts/Movement/MovementController.cs:165-193 | `above` is raised iff the sweep goes up and some ray hits; `below` is raised iff the sweep goes down and some ray hits a slope in [0, maxSlopeAngle); no other flag changes |
| `Movement.MovementController.GetJumpVelocity` | Scripts/Movement/MovementController.cs:98-138 | the returned velocity and the new counter are those of `Jump` for the current flags, input and counter |
| `Movement.MovementController.HandleWallSliding` | Scripts/Movement/MovementController.cs:64-96 | the returned velocity and the new timer are those of `WallSlide` for the current flags, inputs and timer |
| `MovementProperties.ScanAfterReset` | Scripts/Movement/MovementController.cs:140-190 | after a reset and the four sweeps: `right` iff a +X ray hits; `left` iff a -X ray hits and no +X ray does, so never both; `above` iff an upward ray hits; `below` iff a downward ray hits a slope `a` with 0 ≤ a < maxSlopeAngle |
| `MovementProperties.ScanKeepsSidesExclusive` | Scripts/Movement/MovementController.cs:157-160 | the sweeps never raise `left` and `right` together unless both were already raised |
| `MovementProperties.SlopeLimitIsExclusive` | Scripts/Movement/MovementController.cs:185-189 | a tilt exactly at maxSlopeAngle is not ground, nor is a negative tilt (a normal leaning right, any floor descending to the right); a flat floor is ground for a positive limit |
| `MovementProperties.SlopeFilterIsOneSided` | Scripts/Movement/MovementController.cs:185-189 | for any tilt 0 < t < maxSlopeAngle, a floor whose normal leans left by t is ground and its mirror image, leaning right by t, is not |
| `MovementProperties.HorizontalRaysSpanSide` | Scripts/Movement/MovementController.cs:150-153 | on a grid from the same bounds, horizontal ray 0 starts at the bottom corner and the last ray at the top corner of its side |
| `MovementProperties.VerticalRaysSpanSide` | Scripts/Movement/MovementController.cs:167-170 | on a grid from the same bounds, vertical ray 0 starts at the left corner and the last ray at the right corner of its side |
| `MovementProperties.GroundJumpWins` | Scripts/Movement/MovementController.cs:100-104 | with `below` set, the jump is (0, maxJumpForce) and the counter becomes 0, whatever the wall flags |
| `MovementProperties.WallJumpBySide` | Scripts/Movement/MovementController.cs:106-126 | off the ground against a wall: wallJumpOff for no input, wallJumpClimb for input toward the wall, wallLeap otherwise; x kept against a left wall, negated against a right wall; counter unchanged |
| `MovementProperties.WallTestMeansEitherWall` | Scripts/Movement/MovementController.cs:100-128 | once `below` is false, the test `left or (right and not below)` equals `left or right`, and the air-jump test at line 128 always holds when reached |
| `MovementProperties.AirJumpSpendsBudget` | Scripts/Movement/MovementController.cs:128-137 | with no contact: below the limit the jump is (0, maxJumpForce) and the counter grows by one; at or above it the result is zero and the counter unchanged |
| `MovementProperties.NotSlidingChangesNothing` | Scripts/Movement/MovementController.cs:69-95 | outside the guard `(left ∨ right) ∧ ¬below ∧ velocity.y ≤ 0` both the velocity and the timer are unchanged |
| `MovementProperties.SlidingCapsFallSpeed` | Scripts/Movement/MovementController.cs:69-75 | inside the guard the new y is max(velocity.y, −wallSlideSpeedMax) |
| `MovementProperties.StickTimerRunning` | Scripts/Movement/MovementController.cs:77-87 | with the timer positive, x is 0; the timer drops by the frame time only for nonzero input away from the wall, else it is reset to the stick time |
| `MovementProperties.FallOffOnceTimerElapsed` | Scripts/Movement/MovementController.cs:88-92 | while sliding with the timer at or below 0, for any stick time, x passes through and the timer is set to the stick time |
| `MovementProperties.StickAgainAfterFallOff` | Scripts/Movement/MovementController.cs:77-92 | with a positive stick time, the sliding tick after a fall-off tick holds x at 0 again |
| `MovementProperties.AerialJumpsNeverExceedMax` | Scripts/Movement/MovementController.cs:128-134 | over any run of jump requests, a whole-number counter starting within a whole-number limit stays whole and within `[0, limit]` |
| `MovementProperties.AirborneJumpsUntilBudgetSpent` | Scripts/Movement/MovementController.cs:128-137 | for a whole-number start within a whole-number limit, over k requests with no contact the counter ends at min(start + k, limit) |
| `MovementProperties.HoldingTowardWallKeepsTimer` | Scripts/Movement/MovementController.cs:77-92 | one or more sliding ticks with neutral input or input toward the wall leave the timer at exactly the stick time |
| `MovementProperties.PushingAwayDrainsTimer` | Scripts/Movement/MovementController.cs:79-82 | sliding ticks with input away from the wall, while the timer stays positive, lower it by exactly the total elapsed time |
| `MovementProperties.FirstWallSlideTickPassesThrough` | Scripts/Movement/MovementController.cs:77-92 | a fresh controller (timer 0) on its first wall-slide tick keeps velocity.x and sets the timer to the stick time |
| `MovementProperties.TwoAirJumpsScenario` | Scripts/Movement/MovementController.cs:128-137 | with two air jumps allowed and no contact, three requests give (0, F), (0, F), then zero |

## Left out

- `Physics2D.Raycast` and `Physics2D.GetLayerCollisionMask` (MovementController.cs:155, :172) are engine queries. They become the `query` parameter, with the layer mask folded into it.
- `Vector2.Angle` (MovementController.cs:185) is floating-point geometry done by the engine. Its result arrives as `RayHit.angleToLeft`.
- The rigidbody plumbing in `Update` (`rb2d.velocity`, `IsSleeping`, `WakeUp`, MovementController.cs:55-61) is left out. It does not affect the contact flags, the counter or the timer.
- `Time.deltaTime` is the `deltaTime` parameter of `HandleWallSliding`.
- `OnDrawGizmos` (MovementController.cs:195-217) is debug drawing only.
- Component wiring is left out: `Awake`, `Start` and `GetComponent` (MovementController.cs:43-48, RaycastController.cs:25-33). The collider's bounds are passed to the methods that read them. `Start`'s single call to `CalculateRaySpacing` is left to the caller.
- IEEE float rounding is not modelled; all arithmetic is exact in `real`.
- `Raycast.RayCount` does not model the float-to-`int` conversion inside `Mathf.RoundToInt` overflowing for ratios beyond the 32-bit range. The model clamps the exact rounded value instead.
- The settings `movementSpeed`, `faceDirection`, `minJumpForce` and `dashForce`, and the write-only field `currentVelocity`, are read by no algorithm here.
- MovementProperties.AerialJumpsNeverExceedMax: stated only for a whole-number limit and a whole-number start. With a fractional limit the float counter can pass the limit by less than one.
- MovementProperties.AirborneJumpsUntilBudgetSpent: stated only for a whole-number start within a whole-number limit. With a fractional limit the last granted jump can carry the counter past the limit (limit 1.5, start 0: the counter ends at 2).
