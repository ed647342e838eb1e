/** Contact detection and the jump and wall-slide decisions of a kinematic
    platformer character. Each tick the contact flags are cleared, the ray origins
    are placed on the collider, and four ray sweeps (-X, +X, -Y, +Y) set the flags;
    the jump and wall-slide routines then read the flags together with an air-jump
    counter and a wall-stick timer that persist between ticks. */
module Movement {
  import opened Engine
  import opened Raycast

  /** Which sides of the character touch something. A value type: the controller
      holds one and replaces it as the sweeps run. */
  datatype CollisionInfo = CollisionInfo(below: bool, above: bool, left: bool, right: bool)
  {
    /** Clears every flag, whatever the previous state. */
    function Reset(): (r: CollisionInfo)
      ensures !r.below && !r.above && !r.left && !r.right
    {
      CollisionInfo(below := false, above := false, left := false, right := false)
    }
  }

  /** The tunable settings the contact and jump logic reads. */
  datatype Settings = Settings(
    maxSlopeAngle: real,
    maxNumberAerialJumps: real,
    maxJumpForce: real,
    wallSlideSpeedMax: real,
    wallStickTme: real,
    wallJumpClimb: Vec2,
    wallJumpOff: Vec2,
    wallLeap: Vec2)

  /** The values the settings start with before anyone tunes them. */
  const DefaultSettings := Settings(
    maxSlopeAngle := 70.0,
    maxNumberAerialJumps := 1.0,
    maxJumpForce := 0.0,
    wallSlideSpeedMax := 5.0,
    wallStickTme := 0.25,
    wallJumpClimb := Zero,
    wallJumpOff := Zero,
    wallLeap := Zero)

  /** The side of the wall being touched: -1 for a wall on the left, otherwise 1. */
  function WallDirection(c: CollisionInfo): (d: real)
    ensures d == -1.0 || d == 1.0
    ensures d == -1.0 <==> c.left
  {
    if c.left then -1.0 else 1.0
  }

  // ---------------------------------------------------------------------------
  // The four ray sweeps, as functions of the contact flags before the sweep.

  /** Ray `i` of a horizontal sweep starts on the left or right side of the box,
      `i` spacings above its bottom corner. */
  function HorizontalRayOrigin(o: RaycastOrigins, spacing: real, directionX: real, i: int): Vec2 {
    Plus(if directionX < 0.0 then o.bottomLeft else o.bottomRight, Scale(Up, i as real * spacing))
  }

  /** Ray `i` of a vertical sweep starts on the bottom or top side of the box,
      `i` spacings right of its left corner. */
  function VerticalRayOrigin(o: RaycastOrigins, spacing: real, directionY: real, i: int): Vec2 {
    Plus(if directionY < 0.0 then o.bottomLeft else o.topLeft, Scale(Right, i as real * spacing))
  }

  /** What ray `i` of the horizontal sweep in `directionX` reports: a cast of two
      skin widths along the x axis. */
  function HorizontalCast(query: RaycastQuery, g: RayGrid, directionX: real, i: int): Option<RayHit> {
    query(HorizontalRayOrigin(g.origins, g.horizontalRaySpacing, directionX, i), Scale(Right, directionX), 2.0 * SkinWidth)
  }

  /** What ray `i` of the vertical sweep in `directionY` reports: a cast of two
      skin widths along the y axis. */
  function VerticalCast(query: RaycastQuery, g: RayGrid, directionY: real, i: int): Option<RayHit> {
    query(VerticalRayOrigin(g.origins, g.verticalRaySpacing, directionY, i), Scale(Up, directionY), 2.0 * SkinWidth)
  }

  predicate AnyHorizontalHit(query: RaycastQuery, g: RayGrid, directionX: real) {
    exists i :: 0 <= i < g.horizontalRayCount && HorizontalCast(query, g, directionX, i).Some?
  }

  predicate AnyVerticalHit(query: RaycastQuery, g: RayGrid, directionY: real) {
    exists i :: 0 <= i < g.verticalRayCount && VerticalCast(query, g, directionY, i).Some?
  }

  /** The signed tilt of the surface that was hit, in degrees: 90 minus the unsigned
      angle between its normal and the left axis. It is 0 for a flat floor, positive
      when the normal leans left (a floor rising to the right) and negative when the
      normal leans right (a floor descending to the right). */
  function NormalAngle(h: RayHit): (a: real)
    ensures a == 0.0 <==> h.angleToLeft == 90.0
    ensures a < 0.0 <==> h.angleToLeft > 90.0
  {
    90.0 - h.angleToLeft
  }

  /** A downward hit counts as ground only for a signed tilt in [0, maxSlopeAngle):
      the normal may lean left by less than the limit and may not lean right at all. */
  function IsWalkable(h: RayHit, maxSlopeAngle: real): (b: bool)
    ensures b <==> 90.0 - maxSlopeAngle < h.angleToLeft <= 90.0
  {
    0.0 <= NormalAngle(h) < maxSlopeAngle
  }

  predicate IsGroundCast(hit: Option<RayHit>, maxSlopeAngle: real) {
    hit.Some? && IsWalkable(hit.value, maxSlopeAngle)
  }

  predicate AnyGroundHit(query: RaycastQuery, g: RayGrid, directionY: real, maxSlopeAngle: real) {
    exists i :: 0 <= i < g.verticalRayCount && IsGroundCast(VerticalCast(query, g, directionY, i), maxSlopeAngle)
  }

  /** A horizontal sweep: when any ray hits, the flags of both sides are overwritten
      by the sweep's direction; otherwise nothing changes. */
  function HorizontalSweep(c: CollisionInfo, query: RaycastQuery, g: RayGrid, directionX: real): (r: CollisionInfo)
    ensures r.above == c.above && r.below == c.below
    ensures r.left && r.right ==> c.left && c.right
    ensures directionX < 0.0 && AnyHorizontalHit(query, g, directionX) ==> r.left && !r.right
    ensures directionX > 0.0 && AnyHorizontalHit(query, g, directionX) ==> r.right && !r.left
  {
    if AnyHorizontalHit(query, g, directionX)
    then c.(left := directionX < 0.0, right := directionX > 0.0)
    else c
  }

  /** A vertical sweep: only ever raises `above` (upward) or `below` (downward,
      walkable slopes only). */
  function VerticalSweep(c: CollisionInfo, query: RaycastQuery, g: RayGrid, directionY: real, maxSlopeAngle: real): (r: CollisionInfo)
    ensures r.left == c.left && r.right == c.right
    ensures (c.above ==> r.above) && (c.below ==> r.below)
    ensures directionY >= 0.0 ==> r.below == c.below
    ensures directionY <= 0.0 ==> r.above == c.above
  {
    c.(above := c.above || (directionY > 0.0 && AnyVerticalHit(query, g, directionY)),
       below := c.below || (directionY < 0.0 && AnyGroundHit(query, g, directionY, maxSlopeAngle)))
  }

  /** The four sweeps in their fixed order: -X, +X, -Y, +Y. */
  function Scan(c: CollisionInfo, query: RaycastQuery, g: RayGrid, maxSlopeAngle: real): (r: CollisionInfo)
    ensures (c.above ==> r.above) && (c.below ==> r.below)
    ensures AnyHorizontalHit(query, g, 1.0) ==> r.right && !r.left
    ensures !AnyHorizontalHit(query, g, 1.0) && AnyHorizontalHit(query, g, -1.0) ==> r.left && !r.right
  {
    var afterLeft := HorizontalSweep(c, query, g, -1.0);
    var afterRight := HorizontalSweep(afterLeft, query, g, 1.0);
    var afterDown := VerticalSweep(afterRight, query, g, -1.0, maxSlopeAngle);
    VerticalSweep(afterDown, query, g, 1.0, maxSlopeAngle)
  }

  // ---------------------------------------------------------------------------
  // Jumping and wall sliding, as functions of the flags, the counter and the timer.

  /** The jump velocity together with the air-jump counter after the request. */
  datatype JumpResult = JumpResult(velocity: Vec2, aerialJumps: real)

  /** The jump decision: ground jump, else wall jump, else air jump while the
      budget lasts, else no jump. The wall test keeps the source's grouping
      `left || (right && !below)`. */
  function Jump(c: CollisionInfo, movementDirection: real, aerialJumps: real, s: Settings): (r: JumpResult)
    ensures c.below ==> r.aerialJumps == 0.0
    ensures !c.below ==> r.aerialJumps == aerialJumps ||
                         (r.aerialJumps == aerialJumps + 1.0 && aerialJumps < s.maxNumberAerialJumps)
  {
    if c.below then
      JumpResult(Scale(Up, s.maxJumpForce), 0.0)
    else if c.left || (c.right && !c.below) then
      var wallDirection := WallDirection(c);
      var force :=
        if movementDirection == 0.0 then s.wallJumpOff
        else if movementDirection == wallDirection then s.wallJumpClimb
        else s.wallLeap;
      JumpResult(force.(x := force.x * -wallDirection), aerialJumps)
    else if !c.left && !c.right && !c.below && aerialJumps < s.maxNumberAerialJumps then
      JumpResult(Scale(Up, s.maxJumpForce), aerialJumps + 1.0)
    else
      JumpResult(Zero, aerialJumps)
  }

  /** The slide velocity together with the wall-stick timer after the tick. */
  datatype SlideResult = SlideResult(velocity: Vec2, timeToWallUnstick: real)

  /** Touching a wall, not on the ground, and not moving up. */
  predicate IsWallSliding(c: CollisionInfo, velocity: Vec2) {
    (c.left || c.right) && !c.below && velocity.y <= 0.0
  }

  /** The wall-slide decision: while sliding, horizontal speed is held at zero
      until the stick timer has run out, and the fall speed is capped. */
  function WallSlide(c: CollisionInfo, velocity: Vec2, directionX: real, timeToWallUnstick: real,
                     deltaTime: real, s: Settings): (r: SlideResult)
    ensures !IsWallSliding(c, velocity) ==> r.timeToWallUnstick == timeToWallUnstick
    ensures r.velocity.y >= velocity.y
  {
    var wallDirX := WallDirection(c);
    if !IsWallSliding(c, velocity) then
      SlideResult(velocity, timeToWallUnstick)
    else
      var y := if velocity.y < -s.wallSlideSpeedMax then -s.wallSlideSpeedMax else velocity.y;
      if timeToWallUnstick > 0.0 then
        var timer :=
          if directionX != wallDirX && directionX != 0.0 then timeToWallUnstick - deltaTime
          else s.wallStickTme;
        SlideResult(Vec2(0.0, y), timer)
      else
        SlideResult(Vec2(velocity.x, y), s.wallStickTme)
  }

  // ---------------------------------------------------------------------------

  /** The character controller: the ray grid it inherits, the contact flags, the
      air-jump counter and the wall-stick timer. */
  class MovementController {
    const rays: RaycastController
    const settings: Settings
    /** Horizontal input, written by the caller before a jump request. */
    var movementDirection: real
    var aerialJumps: real
    var timeToWallUnstick: real
    var collisions: CollisionInfo

    /** Fields at their defaults, contact flags freshly cleared. */
    constructor (settings: Settings)
      ensures this.settings == settings && fresh(rays)
      ensures rays.horizontalRayCount == 0 && rays.verticalRayCount == 0
      ensures movementDirection == 0.0 && aerialJumps == 0.0 && timeToWallUnstick == 0.0
      ensures !collisions.below && !collisions.above && !collisions.left && !collisions.right
    {
      rays := new RaycastController();
      this.settings := settings;
      movementDirection, aerialJumps, timeToWallUnstick := 0.0, 0.0, 0.0;
      collisions := CollisionInfo(false, false, false, false);
    }

    /** One tick: clear the flags, place the ray origins on the collider, then sweep.
        The air-jump counter and the stick timer are left alone. */
    method Update(colliderBounds: Bounds, query: RaycastQuery)
      modifies this`collisions, rays`origins
      ensures rays.origins == CornerOrigins(ShrunkBounds(colliderBounds))
      ensures old(rays.Grid()) == GridFor(colliderBounds).(origins := old(rays.origins)) ==>
                rays.Grid() == GridFor(colliderBounds)
      ensures collisions == Scan(old(collisions).Reset(), query, rays.Grid(), settings.maxSlopeAngle)
    {
      collisions := collisions.Reset();
      rays.UpdateRaycastOrigins(colliderBounds);
      UpdateCollisions(query);
    }

    method UpdateCollisions(query: RaycastQuery)
      modifies this`collisions
      ensures collisions == Scan(old(collisions), query, rays.Grid(), settings.maxSlopeAngle)
    {
      DetectHorizontalCollisions(-1.0, query);
      DetectHorizontalCollisions(1.0, query);
      DetectVerticalCollisions(-1.0, query);
      DetectVerticalCollisions(1.0, query);
    }

    /** Casts every horizontal ray; each hit overwrites both side flags. */
    method DetectHorizontalCollisions(directionX: real, query: RaycastQuery)
      modifies this`collisions
      ensures collisions == HorizontalSweep(old(collisions), query, rays.Grid(), directionX)
    {
      var g := rays.Grid();
      var i := 0;
      while i < rays.horizontalRayCount
        invariant 0 <= i && (i <= rays.horizontalRayCount || i == 0)
        invariant g == rays.Grid()
        invariant collisions ==
          if exists j :: 0 <= j < i && HorizontalCast(query, g, directionX, j).Some?
          then old(collisions).(left := directionX < 0.0, right := directionX > 0.0)
          else old(collisions)
      {
        var raycastOrigin := if directionX < 0.0 then rays.origins.bottomLeft else rays.origins.bottomRight;
        raycastOrigin := Plus(raycastOrigin, Scale(Up, i as real * rays.horizontalRaySpacing));

        assert raycastOrigin == HorizontalRayOrigin(g.origins, g.horizontalRaySpacing, directionX, i);
        var hit := query(raycastOrigin, Scale(Right, directionX), 2.0 * SkinWidth);
        assert hit == HorizontalCast(query, g, directionX, i);

        if hit.Some? {
          collisions := collisions.(left := directionX < 0.0, right := directionX > 0.0);
        }
        i := i + 1;
      }
    }

    /** Casts every vertical ray; an upward hit raises `above`, a downward hit on a
        walkable slope raises `below`. */
    method DetectVerticalCollisions(directionY: real, query: RaycastQuery)
      modifies this`collisions
      ensures collisions == VerticalSweep(old(collisions), query, rays.Grid(), directionY, settings.maxSlopeAngle)
    {
      var g := rays.Grid();
      var i := 0;
      while i < rays.verticalRayCount
        invariant 0 <= i && (i <= rays.verticalRayCount || i == 0)
        invariant g == rays.Grid()
        invariant collisions == old(collisions).(
          above := old(collisions).above ||
            (directionY > 0.0 && exists j :: 0 <= j < i && VerticalCast(query, g, directionY, j).Some?),
          below := old(collisions).below ||
            (directionY < 0.0 && exists j :: 0 <= j < i && IsGroundCast(VerticalCast(query, g, directionY, j), settings.maxSlopeAngle)))
      {
        var raycastOrigin := if directionY < 0.0 then rays.origins.bottomLeft else rays.origins.topLeft;
        raycastOrigin := Plus(raycastOrigin, Scale(Right, i as real * rays.verticalRaySpacing));

        assert raycastOrigin == VerticalRayOrigin(g.origins, g.verticalRaySpacing, directionY, i);
        var hit := query(raycastOrigin, Scale(Up, directionY), 2.0 * SkinWidth);
        assert hit == VerticalCast(query, g, directionY, i);

        if hit.Some? {
          if directionY > 0.0 {
            collisions := collisions.(above := true);
          }
          if directionY < 0.0 {
            var normalAngle := 90.0 - hit.value.angleToLeft;
            if normalAngle >= 0.0 && normalAngle < settings.maxSlopeAngle {
              collisions := collisions.(below := true);
            }
          }
        }
        i := i + 1;
      }
    }

    /** Returns the jump velocity for the current contact flags and input; a ground
        jump refills the air-jump budget and an air jump spends one. */
    method GetJumpVelocity() returns (velocity: Vec2)
      modifies this`aerialJumps
      ensures JumpResult(velocity, aerialJumps) == Jump(collisions, movementDirection, old(aerialJumps), settings)
    {
      if collisions.below {
        aerialJumps := 0.0;
        return Scale(Up, settings.maxJumpForce);
      }

      var wallDirection := if collisions.left then -1.0 else 1.0;
      if collisions.left || (collisions.right && !collisions.below) {
        var force := Zero;
        if movementDirection == 0.0 {
          force := settings.wallJumpOff;
        } else if movementDirection == wallDirection {
          force := settings.wallJumpClimb;
        } else {
          force := settings.wallLeap;
        }
        force := force.(x := force.x * -wallDirection);
        return force;
      }

      if !collisions.left && !collisions.right && !collisions.below {
        if aerialJumps < settings.maxNumberAerialJumps {
          aerialJumps := aerialJumps + 1.0;
          return Scale(Up, settings.maxJumpForce);
        }
      }
      return Zero;
    }

    /** Returns the velocity to use against a wall and runs the wall-stick timer;
        `deltaTime` is the length of the tick. */
    method HandleWallSliding(velocity: Vec2, directionX: real, deltaTime: real) returns (newVelocity: Vec2)
      modifies this`timeToWallUnstick
      ensures SlideResult(newVelocity, timeToWallUnstick) ==
              WallSlide(collisions, velocity, directionX, old(timeToWallUnstick), deltaTime, settings)
    {
      var wallDirX := if collisions.left then -1.0 else 1.0;
      newVelocity := velocity;

      if (collisions.left || collisions.right) && !collisions.below && velocity.y <= 0.0 {
        newVelocity := newVelocity.(x := 0.0);
        if velocity.y < -settings.wallSlideSpeedMax {
          newVelocity := newVelocity.(y := -settings.wallSlideSpeedMax);
        }

        if timeToWallUnstick > 0.0 {
          if directionX != wallDirX && directionX != 0.0 {
            timeToWallUnstick := timeToWallUnstick - deltaTime;
          } else {
            timeToWallUnstick := settings.wallStickTme;
          }
        } else {
          newVelocity := newVelocity.(x := velocity.x);
          timeToWallUnstick := settings.wallStickTme;
        }
      }
    }
  }
}
