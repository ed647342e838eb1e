/** The ray grid of a box-shaped character: the collider bounds shrunk by a skin
    width, the four corners the rays start from, and how many rays each side casts
    and how far apart they are. */
module Raycast {
  import opened Engine

  /** Clearance between the collider surface and the ray origins. */
  const SkinWidth: real := 0.03
  /** Target distance between neighbouring rays. */
  const DstBetweenRays: real := 0.25
  /** Largest 32-bit signed integer, the upper end of the ray-count clamp. */
  const IntMaxValue: int := 0x7fff_ffff

  /** Rounding to the nearest integer, halves going to the even neighbour. */
  function RoundToInt(x: real): (n: int)
    ensures -0.5 <= n as real - x <= 0.5
    ensures (n as real - x == 0.5 || x - n as real == 0.5) ==> n % 2 == 0
  {
    var f := x.Floor;
    var frac := x - f as real;
    if frac < 0.5 then f
    else if frac > 0.5 then f + 1
    else if f % 2 == 0 then f
    else f + 1
  }

  function Clamp(value: int, lo: int, hi: int): (r: int)
    requires lo <= hi
    ensures lo <= r <= hi
    ensures lo <= value <= hi ==> r == value
  {
    if value < lo then lo else if value > hi then hi else value
  }

  /** Number of rays cast along a side of length `extent`. */
  function RayCount(extent: real): (n: int)
    ensures 2 <= n <= IntMaxValue
    ensures RoundToInt(extent / DstBetweenRays) <= 2 ==> n == 2
    ensures 2 <= RoundToInt(extent / DstBetweenRays) <= IntMaxValue ==>
              n == RoundToInt(extent / DstBetweenRays)
  {
    Clamp(RoundToInt(extent / DstBetweenRays), 2, IntMaxValue)
  }

  /** Distance between neighbouring rays when `count` rays span `extent`. */
  function RaySpacing(extent: real, count: int): (s: real)
    requires count >= 2
    ensures s * (count - 1) as real == extent
    ensures count == 2 ==> s == extent
  {
    extent / (count - 1) as real
  }

  /** The collider bounds with every side moved inward by the skin width. */
  function ShrunkBounds(b: Bounds): (r: Bounds)
    ensures r.center == b.center
    ensures Min(r) == Vec2(Min(b).x + SkinWidth, Min(b).y + SkinWidth)
    ensures Max(r) == Vec2(Max(b).x - SkinWidth, Max(b).y - SkinWidth)
    ensures Size(r) == Vec2(Size(b).x - 2.0 * SkinWidth, Size(b).y - 2.0 * SkinWidth)
  {
    Expand(b, SkinWidth * -2.0)
  }

  /** The four points rays start from. */
  datatype RaycastOrigins = RaycastOrigins(topLeft: Vec2, topRight: Vec2, bottomLeft: Vec2, bottomRight: Vec2)

  /** The corners of box `b`: an axis-aligned rectangle from its minimum to its maximum. */
  function CornerOrigins(b: Bounds): (o: RaycastOrigins)
    ensures o.bottomLeft == Min(b) && o.topRight == Max(b)
    ensures o.bottomLeft.x == o.topLeft.x && o.bottomRight.x == o.topRight.x
    ensures o.bottomLeft.y == o.bottomRight.y && o.topLeft.y == o.topRight.y
    ensures o.bottomRight.x - o.bottomLeft.x == Size(b).x
    ensures o.topLeft.y - o.bottomLeft.y == Size(b).y
  {
    var mn, mx := Min(b), Max(b);
    RaycastOrigins(Vec2(mn.x, mx.y), Vec2(mx.x, mx.y), Vec2(mn.x, mn.y), Vec2(mx.x, mn.y))
  }

  /** Everything a sweep needs to place its rays. */
  datatype RayGrid = RayGrid(
    origins: RaycastOrigins,
    horizontalRayCount: int,
    verticalRayCount: int,
    horizontalRaySpacing: real,
    verticalRaySpacing: real)

  /** The grid built from collider bounds `b`: origins and spacing from the same box. */
  function GridFor(b: Bounds): RayGrid {
    var s := ShrunkBounds(b);
    var hCount, vCount := RayCount(Size(s).y), RayCount(Size(s).x);
    RayGrid(CornerOrigins(s), hCount, vCount, RaySpacing(Size(s).y, hCount), RaySpacing(Size(s).x, vCount))
  }

  class RaycastController {
    var horizontalRayCount: int
    var verticalRayCount: int
    var horizontalRaySpacing: real
    var verticalRaySpacing: real
    var origins: RaycastOrigins

    /** The fields as the engine initialises them: all zero. */
    constructor ()
      ensures horizontalRayCount == 0 && verticalRayCount == 0
      ensures horizontalRaySpacing == 0.0 && verticalRaySpacing == 0.0
      ensures origins == RaycastOrigins(Zero, Zero, Zero, Zero)
    {
      horizontalRayCount, verticalRayCount := 0, 0;
      horizontalRaySpacing, verticalRaySpacing := 0.0, 0.0;
      origins := RaycastOrigins(Zero, Zero, Zero, Zero);
    }

    function Grid(): RayGrid
      reads this
    {
      RayGrid(origins, horizontalRayCount, verticalRayCount, horizontalRaySpacing, verticalRaySpacing)
    }

    /** Places the four ray origins at the corners of the shrunk collider box. */
    method UpdateRaycastOrigins(colliderBounds: Bounds)
      modifies this`origins
      ensures origins == CornerOrigins(ShrunkBounds(colliderBounds))
      ensures origins.bottomLeft.x == colliderBounds.center.x - colliderBounds.extents.x + SkinWidth
      ensures origins.topRight.y == colliderBounds.center.y + colliderBounds.extents.y - SkinWidth
    {
      var bounds := Expand(colliderBounds, SkinWidth * -2.0);
      var mn, mx := Min(bounds), Max(bounds);
      origins := origins.(bottomLeft := Vec2(mn.x, mn.y));
      origins := origins.(bottomRight := Vec2(mx.x, mn.y));
      origins := origins.(topLeft := Vec2(mn.x, mx.y));
      origins := origins.(topRight := Vec2(mx.x, mx.y));
    }

    /** Chooses the ray counts for the shrunk box and the spacing between its rays;
        RayCount and RaySpacing state what these values guarantee. */
    method CalculateRaySpacing(colliderBounds: Bounds)
      modifies this`horizontalRayCount, this`verticalRayCount, this`horizontalRaySpacing, this`verticalRaySpacing
      ensures horizontalRayCount == RayCount(Size(ShrunkBounds(colliderBounds)).y)
      ensures verticalRayCount == RayCount(Size(ShrunkBounds(colliderBounds)).x)
      ensures horizontalRayCount >= 2 && verticalRayCount >= 2
      ensures horizontalRaySpacing == RaySpacing(Size(ShrunkBounds(colliderBounds)).y, horizontalRayCount)
      ensures verticalRaySpacing == RaySpacing(Size(ShrunkBounds(colliderBounds)).x, verticalRayCount)
      ensures Grid() == GridFor(colliderBounds).(origins := origins)
    {
      var bounds := Expand(colliderBounds, SkinWidth * -2.0);
      var boundsWidth := Size(bounds).x;
      var boundsHeight := Size(bounds).y;

      horizontalRayCount := Clamp(RoundToInt(boundsHeight / DstBetweenRays), 2, IntMaxValue);
      verticalRayCount := Clamp(RoundToInt(boundsWidth / DstBetweenRays), 2, IntMaxValue);

      horizontalRaySpacing := boundsHeight / (horizontalRayCount - 1) as real;
      verticalRaySpacing := boundsWidth / (verticalRayCount - 1) as real;
    }
  }

  /** The `count` rays of a side of length `extent`, placed `spacing` apart from
      `first`, end exactly `extent` further on. */
  lemma LastRayOfSide(first: real, extent: real, count: int, spacing: real)
    requires count == RayCount(extent) && spacing == RaySpacing(extent, count)
    ensures first + (count - 1) as real * spacing == first + extent
  {
    assert spacing * (count - 1) as real == extent;
  }

  /** With the same collider bounds, the last ray of each vertical side lands
      exactly on the top corner of that side. */
  lemma LastHorizontalRayReachesTop(b: Bounds)
    ensures var o, n := CornerOrigins(ShrunkBounds(b)), RayCount(Size(ShrunkBounds(b)).y);
      && o.bottomLeft.y + (n - 1) as real * RaySpacing(Size(ShrunkBounds(b)).y, n) == o.topLeft.y
      && o.bottomRight.y + (n - 1) as real * RaySpacing(Size(ShrunkBounds(b)).y, n) == o.topRight.y
  {
    var o, h := CornerOrigins(ShrunkBounds(b)), Size(ShrunkBounds(b)).y;
    LastRayOfSide(o.bottomLeft.y, h, RayCount(h), RaySpacing(h, RayCount(h)));
  }

  /** With the same collider bounds, the last ray of each horizontal side lands
      exactly on the right corner of that side. */
  lemma LastVerticalRayReachesRight(b: Bounds)
    ensures var o, n := CornerOrigins(ShrunkBounds(b)), RayCount(Size(ShrunkBounds(b)).x);
      && o.bottomLeft.x + (n - 1) as real * RaySpacing(Size(ShrunkBounds(b)).x, n) == o.bottomRight.x
      && o.topLeft.x + (n - 1) as real * RaySpacing(Size(ShrunkBounds(b)).x, n) == o.topRight.x
  {
    var o, w := CornerOrigins(ShrunkBounds(b)), Size(ShrunkBounds(b)).x;
    LastRayOfSide(o.bottomLeft.x, w, RayCount(w), RaySpacing(w, RayCount(w)));
  }

  /** A side whose rounded length ratio is below two gets exactly two rays, one at
      each corner, so the spacing is the whole side (zero for a zero-length side). */
  lemma ShortSideHasTwoRays(extent: real)
    requires RoundToInt(extent / DstBetweenRays) < 2
    ensures RayCount(extent) == 2
    ensures RaySpacing(extent, RayCount(extent)) == extent
  {
  }

  /** The corners of the shrunk box are ordered (bottom-left is the minimum corner,
      top-right the maximum) exactly when the collider is at least two skin widths
      wide and high. */
  lemma CornersOrderedIffColliderWideEnough(b: Bounds)
    ensures var o := CornerOrigins(ShrunkBounds(b));
      (o.bottomLeft.x <= o.topRight.x && o.bottomLeft.y <= o.topRight.y)
      <==> (Size(b).x >= 2.0 * SkinWidth && Size(b).y >= 2.0 * SkinWidth)
  {
  }

  /** A collider 2.06 units high (2.0 once shrunk) gets eight rays on each vertical
      side, 2/7 of a unit apart. */
  lemma TwoUnitSideScenario()
    ensures RayCount(2.0) == 8
    ensures RaySpacing(2.0, 8) == 2.0 / 7.0
    ensures GridFor(Bounds(Zero, Vec2(0.5, 1.03))).horizontalRayCount == 8
  {
    assert RoundToInt(2.0 / DstBetweenRays) == 8;
  }
}
