/** What the contact sweeps, the jump decision and the wall slide guarantee, one
    tick at a time and over runs of ticks. */
module MovementProperties {
  import opened Engine
  import opened Raycast
  import opened Movement

  // ---------------------------------------------------------------------------
  // Contact flags

  /** After the flags are cleared, the four sweeps leave: `right` exactly when a +X
      ray hits; `left` exactly when a -X ray hits and no +X ray does (the +X sweep
      runs second and overwrites `left`); `above` exactly when an upward ray hits;
      `below` exactly when a downward ray hits a surface whose slope is at least 0
      and strictly below the maximum slope angle. */
  lemma ScanAfterReset(c: CollisionInfo, query: RaycastQuery, g: RayGrid, maxSlopeAngle: real)
    ensures var r := Scan(c.Reset(), query, g, maxSlopeAngle);
      && (r.right <==> AnyHorizontalHit(query, g, 1.0))
      && (r.left <==> AnyHorizontalHit(query, g, -1.0) && !AnyHorizontalHit(query, g, 1.0))
      && !(r.left && r.right)
      && (r.above <==> exists i :: 0 <= i < g.verticalRayCount && VerticalCast(query, g, 1.0, i).Some?)
      && (r.below <==> exists i :: 0 <= i < g.verticalRayCount &&
                         VerticalCast(query, g, -1.0, i).Some? &&
                         0.0 <= 90.0 - VerticalCast(query, g, -1.0, i).value.angleToLeft < maxSlopeAngle)
  {
  }

  /** The sweeps never leave both side flags raised unless they started that way. */
  lemma ScanKeepsSidesExclusive(c: CollisionInfo, query: RaycastQuery, g: RayGrid, maxSlopeAngle: real)
    requires !(c.left && c.right)
    ensures var r := Scan(c, query, g, maxSlopeAngle); !(r.left && r.right)
  {
  }

  /** A hit on a surface tilted exactly at the maximum angle, or whose normal leans
      right (a negative tilt: any floor descending to the right), is not ground. */
  lemma SlopeLimitIsExclusive(h: RayHit, maxSlopeAngle: real)
    ensures NormalAngle(h) == maxSlopeAngle ==> !IsWalkable(h, maxSlopeAngle)
    ensures NormalAngle(h) < 0.0 ==> !IsWalkable(h, maxSlopeAngle)
    ensures h.angleToLeft == 90.0 && maxSlopeAngle > 0.0 ==> IsWalkable(h, maxSlopeAngle)
  {
  }

  /** The slope filter is one-sided: a floor tilted by `t` degrees with its normal
      leaning left is ground while `t` is below the limit, but its mirror image, with
      the normal leaning right by the same `t`, is never ground. */
  lemma SlopeFilterIsOneSided(t: real, maxSlopeAngle: real)
    requires 0.0 < t < maxSlopeAngle
    ensures IsWalkable(RayHit(90.0 - t), maxSlopeAngle)
    ensures !IsWalkable(RayHit(90.0 + t), maxSlopeAngle)
  {
  }

  /** On a grid built from collider bounds `b`, the first horizontal ray of each
      side starts on that side's bottom corner and the last on its top corner. */
  lemma HorizontalRaysSpanSide(b: Bounds)
    ensures var o, h := CornerOrigins(ShrunkBounds(b)), Size(ShrunkBounds(b)).y;
      var n := RayCount(h);
      var s := RaySpacing(h, n);
      && HorizontalRayOrigin(o, s, -1.0, 0) == o.bottomLeft
      && HorizontalRayOrigin(o, s, 1.0, 0) == o.bottomRight
      && HorizontalRayOrigin(o, s, -1.0, n - 1) == o.topLeft
      && HorizontalRayOrigin(o, s, 1.0, n - 1) == o.topRight
  {
    var o, h := CornerOrigins(ShrunkBounds(b)), Size(ShrunkBounds(b)).y;
    var n := RayCount(h);
    var s := RaySpacing(h, n);
    var rise := (n - 1) as real * s;
    LastHorizontalRayReachesTop(b);
    assert Scale(Up, rise) == Vec2(0.0, rise);
    assert Scale(Up, 0 as real * s) == Vec2(0.0, 0.0);
  }

  /** On a grid built from collider bounds `b`, the first vertical ray of each side
      starts on that side's left corner and the last on its right corner. */
  lemma VerticalRaysSpanSide(b: Bounds)
    ensures var o, w := CornerOrigins(ShrunkBounds(b)), Size(ShrunkBounds(b)).x;
      var n := RayCount(w);
      var s := RaySpacing(w, n);
      && VerticalRayOrigin(o, s, -1.0, 0) == o.bottomLeft
      && VerticalRayOrigin(o, s, 1.0, 0) == o.topLeft
      && VerticalRayOrigin(o, s, -1.0, n - 1) == o.bottomRight
      && VerticalRayOrigin(o, s, 1.0, n - 1) == o.topRight
  {
    var o, w := CornerOrigins(ShrunkBounds(b)), Size(ShrunkBounds(b)).x;
    var n := RayCount(w);
    var s := RaySpacing(w, n);
    var run := (n - 1) as real * s;
    LastVerticalRayReachesRight(b);
    assert Scale(Right, run) == Vec2(run, 0.0);
    assert Scale(Right, 0 as real * s) == Vec2(0.0, 0.0);
  }

  // ---------------------------------------------------------------------------
  // One jump request

  /** On the ground the jump goes straight up at full force and refills the
      air-jump budget, whatever the wall flags say. */
  lemma GroundJumpWins(c: CollisionInfo, movementDirection: real, aerialJumps: real, s: Settings)
    requires c.below
    ensures Jump(c, movementDirection, aerialJumps, s) == JumpResult(Vec2(0.0, s.maxJumpForce), 0.0)
  {
  }

  /** Off the ground and touching a wall: no input jumps off, input towards the
      wall climbs, input away leaps; the vector is used as configured against a left
      wall and mirrored in x against a right wall. The counter is unchanged. */
  lemma WallJumpBySide(c: CollisionInfo, movementDirection: real, aerialJumps: real, s: Settings)
    requires !c.below && (c.left || c.right)
    ensures var r := Jump(c, movementDirection, aerialJumps, s);
      var force :=
        if movementDirection == 0.0 then s.wallJumpOff
        else if movementDirection == WallDirection(c) then s.wallJumpClimb
        else s.wallLeap;
      && r.aerialJumps == aerialJumps
      && (c.left ==> r.velocity == force)
      && (!c.left ==> r.velocity == Vec2(-force.x, force.y))
  {
  }

  /** The wall test `left || (right && !below)` is only reached when not on the
      ground, where it means "touching either wall"; and the air-jump test after it
      is then always met. */
  lemma WallTestMeansEitherWall(c: CollisionInfo)
    requires !c.below
    ensures (c.left || (c.right && !c.below)) <==> (c.left || c.right)
    ensures !(c.left || (c.right && !c.below)) ==> !c.left && !c.right && !c.below
  {
  }

  /** In the air with no contact, a jump is granted, spending one air jump, while
      the counter is below the limit; otherwise nothing happens. */
  lemma AirJumpSpendsBudget(c: CollisionInfo, movementDirection: real, aerialJumps: real, s: Settings)
    requires !c.below && !c.left && !c.right
    ensures aerialJumps < s.maxNumberAerialJumps ==>
      Jump(c, movementDirection, aerialJumps, s) == JumpResult(Vec2(0.0, s.maxJumpForce), aerialJumps + 1.0)
    ensures aerialJumps >= s.maxNumberAerialJumps ==>
      Jump(c, movementDirection, aerialJumps, s) == JumpResult(Zero, aerialJumps)
  {
  }

  // ---------------------------------------------------------------------------
  // One wall-slide tick

  /** Away from a wall, on the ground or moving up, the velocity and the timer are
      left alone. */
  lemma NotSlidingChangesNothing(c: CollisionInfo, velocity: Vec2, directionX: real, timer: real, deltaTime: real, s: Settings)
    requires !IsWallSliding(c, velocity)
    ensures WallSlide(c, velocity, directionX, timer, deltaTime, s) == SlideResult(velocity, timer)
  {
  }

  /** While sliding, the fall speed is capped: the result is the larger of the
      current vertical speed and -wallSlideSpeedMax. */
  lemma SlidingCapsFallSpeed(c: CollisionInfo, velocity: Vec2, directionX: real, timer: real, deltaTime: real, s: Settings)
    requires IsWallSliding(c, velocity)
    ensures var y := WallSlide(c, velocity, directionX, timer, deltaTime, s).velocity.y;
      && y >= velocity.y && y >= -s.wallSlideSpeedMax
      && (y == velocity.y || y == -s.wallSlideSpeedMax)
  {
  }

  /** While the stick timer runs, horizontal speed is held at zero; the timer only
      counts down while the input points away from the wall, and is otherwise set
      back to the full stick time. */
  lemma StickTimerRunning(c: CollisionInfo, velocity: Vec2, directionX: real, timer: real, deltaTime: real, s: Settings)
    requires IsWallSliding(c, velocity) && timer > 0.0
    ensures var r := WallSlide(c, velocity, directionX, timer, deltaTime, s);
      && r.velocity.x == 0.0
      && (directionX != 0.0 && directionX != WallDirection(c) ==> r.timeToWallUnstick == timer - deltaTime)
      && (directionX == 0.0 || directionX == WallDirection(c) ==> r.timeToWallUnstick == s.wallStickTme)
  {
  }

  /** Once the timer has run out, whatever the stick time, the horizontal speed
      passes through (the character falls off the wall) and the timer is set back to
      the stick time. */
  lemma FallOffOnceTimerElapsed(c: CollisionInfo, velocity: Vec2, directionX: real, timer: real, deltaTime: real, s: Settings)
    requires IsWallSliding(c, velocity) && timer <= 0.0
    ensures var r := WallSlide(c, velocity, directionX, timer, deltaTime, s);
      r.velocity.x == velocity.x && r.timeToWallUnstick == s.wallStickTme
  {
  }

  /** With a positive stick time, the sliding tick after a fall-off tick holds the
      horizontal speed at zero again. */
  lemma StickAgainAfterFallOff(c: CollisionInfo, velocity: Vec2, directionX: real, timer: real, deltaTime: real,
                               next: SlideTick, s: Settings)
    requires IsWallSliding(c, velocity) && timer <= 0.0 && s.wallStickTme > 0.0
    requires IsWallSliding(next.collisions, next.velocity)
    ensures var r := WallSlide(c, velocity, directionX, timer, deltaTime, s);
      WallSlide(next.collisions, next.velocity, next.directionX, r.timeToWallUnstick, next.deltaTime, s).velocity.x == 0.0
  {
  }

  // ---------------------------------------------------------------------------
  // Runs of jump requests

  /** One jump request: the contact flags and the horizontal input at that time. */
  datatype JumpRequest = JumpRequest(collisions: CollisionInfo, movementDirection: real)

  /** The air-jump counter after a run of jump requests. */
  function AerialJumpsAfter(requests: seq<JumpRequest>, aerialJumps: real, s: Settings): real
    decreases |requests|
  {
    if requests == [] then aerialJumps
    else
      var next := Jump(requests[0].collisions, requests[0].movementDirection, aerialJumps, s).aerialJumps;
      AerialJumpsAfter(requests[1..], next, s)
  }

  predicate IsWhole(x: real) {
    x == x.Floor as real
  }

  /** Below a whole-number limit, a whole number stays within it after adding one,
      and is still whole. */
  lemma WholeStepWithinLimit(x: real, limit: real)
    requires IsWhole(x) && IsWhole(limit) && x < limit
    ensures IsWhole(x + 1.0) && x + 1.0 <= limit
  {
    var n, m := x.Floor, limit.Floor;
    assert n < m;
    assert (x + 1.0).Floor == n + 1;
  }

  predicate NoContact(c: CollisionInfo) {
    !c.below && !c.left && !c.right
  }

  /** With a whole-number limit, a counter that starts as a whole number within the
      limit (the field starts at 0) stays a whole number within the limit, whatever
      the contact flags of the requests. */
  lemma {:induction false} AerialJumpsNeverExceedMax(requests: seq<JumpRequest>, aerialJumps: real, s: Settings)
    requires IsWhole(s.maxNumberAerialJumps) && IsWhole(aerialJumps)
    requires 0.0 <= aerialJumps <= s.maxNumberAerialJumps
    ensures var a := AerialJumpsAfter(requests, aerialJumps, s);
      IsWhole(a) && 0.0 <= a <= s.maxNumberAerialJumps
    decreases |requests|
  {
    if requests != [] {
      var next := Jump(requests[0].collisions, requests[0].movementDirection, aerialJumps, s).aerialJumps;
      if !requests[0].collisions.below && next != aerialJumps {
        WholeStepWithinLimit(aerialJumps, s.maxNumberAerialJumps);
      }
      AerialJumpsNeverExceedMax(requests[1..], next, s);
    }
  }

  /** In the air with no contact, a run of requests grants jumps until the counter
      reaches the limit and then nothing: the counter ends at the smaller of its
      start plus the number of requests and the limit. */
  lemma {:induction false} AirborneJumpsUntilBudgetSpent(requests: seq<JumpRequest>, aerialJumps: real, s: Settings)
    requires forall i :: 0 <= i < |requests| ==> NoContact(requests[i].collisions)
    requires IsWhole(s.maxNumberAerialJumps) && IsWhole(aerialJumps)
    requires aerialJumps <= s.maxNumberAerialJumps
    ensures AerialJumpsAfter(requests, aerialJumps, s) ==
      if aerialJumps + |requests| as real <= s.maxNumberAerialJumps
      then aerialJumps + |requests| as real
      else s.maxNumberAerialJumps
    decreases |requests|
  {
    if requests != [] {
      var next := Jump(requests[0].collisions, requests[0].movementDirection, aerialJumps, s).aerialJumps;
      if aerialJumps < s.maxNumberAerialJumps {
        assert next == aerialJumps + 1.0;
        WholeStepWithinLimit(aerialJumps, s.maxNumberAerialJumps);
      } else {
        assert next == aerialJumps;
      }
      AirborneJumpsUntilBudgetSpent(requests[1..], next, s);
    }
  }

  // ---------------------------------------------------------------------------
  // Runs of wall-slide ticks

  /** One wall-slide tick: contact flags, velocity, horizontal input, tick length. */
  datatype SlideTick = SlideTick(collisions: CollisionInfo, velocity: Vec2, directionX: real, deltaTime: real)

  /** The wall-stick timer after a run of wall-slide ticks. */
  function StickTimerAfter(ticks: seq<SlideTick>, timer: real, s: Settings): real
    decreases |ticks|
  {
    if ticks == [] then timer
    else
      var t := ticks[0];
      StickTimerAfter(ticks[1..], WallSlide(t.collisions, t.velocity, t.directionX, timer, t.deltaTime, s).timeToWallUnstick, s)
  }

  predicate HoldsTowardWall(t: SlideTick) {
    IsWallSliding(t.collisions, t.velocity) && (t.directionX == 0.0 || t.directionX == WallDirection(t.collisions))
  }

  predicate PushesAwayFromWall(t: SlideTick) {
    IsWallSliding(t.collisions, t.velocity) && t.directionX != 0.0 && t.directionX != WallDirection(t.collisions)
  }

  /** Total length of a run of ticks. */
  function TotalTime(ticks: seq<SlideTick>): real
    decreases |ticks|
  {
    if ticks == [] then 0.0 else ticks[0].deltaTime + TotalTime(ticks[1..])
  }

  /** Sliding with the input neutral or towards the wall for one tick or more leaves
      the timer at exactly the stick time, whatever it was before. */
  lemma {:induction false} HoldingTowardWallKeepsTimer(ticks: seq<SlideTick>, timer: real, s: Settings)
    requires |ticks| > 0
    requires forall i :: 0 <= i < |ticks| ==> HoldsTowardWall(ticks[i])
    ensures StickTimerAfter(ticks, timer, s) == s.wallStickTme
    decreases |ticks|
  {
    var t := ticks[0];
    assert HoldsTowardWall(t);
    var next := WallSlide(t.collisions, t.velocity, t.directionX, timer, t.deltaTime, s).timeToWallUnstick;
    assert next == s.wallStickTme;
    if |ticks| > 1 {
      forall i | 0 <= i < |ticks[1..]| ensures HoldsTowardWall(ticks[1..][i]) {
        assert ticks[1..][i] == ticks[i + 1];
      }
      HoldingTowardWallKeepsTimer(ticks[1..], next, s);
    }
  }

  /** Sliding with the input pointing away from the wall, while the timer is still
      positive before each tick, drains it by exactly the time that passed. */
  lemma {:induction false} PushingAwayDrainsTimer(ticks: seq<SlideTick>, timer: real, s: Settings)
    requires forall i :: 0 <= i < |ticks| ==> PushesAwayFromWall(ticks[i])
    requires forall k :: 0 <= k < |ticks| ==> timer - TotalTime(ticks[..k]) > 0.0
    ensures StickTimerAfter(ticks, timer, s) == timer - TotalTime(ticks)
    decreases |ticks|
  {
    if ticks != [] {
      var t, rest := ticks[0], ticks[1..];
      assert ticks[..0] == [];
      assert PushesAwayFromWall(t) && timer > 0.0;
      var next := WallSlide(t.collisions, t.velocity, t.directionX, timer, t.deltaTime, s).timeToWallUnstick;
      assert next == timer - t.deltaTime;
      forall i | 0 <= i < |rest| ensures PushesAwayFromWall(rest[i]) {
        assert rest[i] == ticks[i + 1];
      }
      forall k | 0 <= k < |rest| ensures next - TotalTime(rest[..k]) > 0.0 {
        assert ticks[..k + 1][1..] == rest[..k];
        assert TotalTime(ticks[..k + 1]) == t.deltaTime + TotalTime(rest[..k]);
      }
      PushingAwayDrainsTimer(rest, next, s);
    }
  }

  // ---------------------------------------------------------------------------
  // Scenarios on a controller

  /** A freshly built controller that finds itself sliding down a wall lets its
      horizontal speed through on that first tick, because the stick timer starts
      at 0; the timer is then set to the stick time. */
  method FirstWallSlideTickPassesThrough(settings: Settings, wallOnLeft: bool, velocity: Vec2, directionX: real, deltaTime: real)
    returns (newVelocity: Vec2, timer: real)
    requires velocity.y <= 0.0
    ensures newVelocity.x == velocity.x
    ensures timer == settings.wallStickTme
  {
    var m := new MovementController(settings);
    m.collisions := CollisionInfo(below := false, above := false, left := wallOnLeft, right := !wallOnLeft);
    newVelocity := m.HandleWallSliding(velocity, directionX, deltaTime);
    timer := m.timeToWallUnstick;
  }

  /** With two air jumps allowed and no contact, three jump requests on a fresh
      controller give two upward jumps and then none. */
  method TwoAirJumpsScenario(jumpForce: real) returns (first: Vec2, second: Vec2, third: Vec2)
    ensures first == Vec2(0.0, jumpForce) && second == Vec2(0.0, jumpForce)
    ensures third == Zero
  {
    var m := new MovementController(DefaultSettings.(maxNumberAerialJumps := 2.0, maxJumpForce := jumpForce));
    first := m.GetJumpVelocity();
    second := m.GetJumpVelocity();
    third := m.GetJumpVelocity();
  }
}
