/** The engine values the two controllers work with: 2D vectors, axis-aligned
    bounds as the engine stores them (a centre and half-sizes), and the answer of a
    ray query. Floating-point components are modelled as reals. */
module Engine {

  /** A 2D vector. */
  datatype Vec2 = Vec2(x: real, y: real)

  const Zero := Vec2(0.0, 0.0)
  const Up := Vec2(0.0, 1.0)
  const Right := Vec2(1.0, 0.0)

  function Plus(a: Vec2, b: Vec2): Vec2 {
    Vec2(a.x + b.x, a.y + b.y)
  }

  function Scale(v: Vec2, k: real): Vec2 {
    Vec2(v.x * k, v.y * k)
  }

  /** An axis-aligned box, stored as its centre and its extents (half of its size). */
  datatype Bounds = Bounds(center: Vec2, extents: Vec2)

  function Min(b: Bounds): Vec2 {
    Vec2(b.center.x - b.extents.x, b.center.y - b.extents.y)
  }

  function Max(b: Bounds): Vec2 {
    Vec2(b.center.x + b.extents.x, b.center.y + b.extents.y)
  }

  function Size(b: Bounds): Vec2 {
    Scale(b.extents, 2.0)
  }

  /** The engine's bounds expansion: the size grows by `amount` along each axis
      (shrinks when `amount` is negative) around the same centre. */
  function Expand(b: Bounds, amount: real): (r: Bounds)
    ensures r.center == b.center
    ensures Size(r) == Vec2(Size(b).x + amount, Size(b).y + amount)
    ensures Min(r) == Vec2(Min(b).x - amount / 2.0, Min(b).y - amount / 2.0)
    ensures Max(r) == Vec2(Max(b).x + amount / 2.0, Max(b).y + amount / 2.0)
  {
    Bounds(b.center, Vec2(b.extents.x + amount * 0.5, b.extents.y + amount * 0.5))
  }

  datatype Option<T> = None | Some(value: T)

  /** What a ray query reports about a hit: the unsigned angle, in degrees, between
      the surface normal at the hit point and the left axis (-1, 0). */
  datatype RayHit = RayHit(angleToLeft: real)

  /** The engine's ray query against the layers the character collides with:
      origin, direction and maximum distance give a hit or nothing. */
  type RaycastQuery = (Vec2, Vec2, real) -> Option<RayHit>
}
