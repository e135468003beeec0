/** Plane geometry used by the sketch: nannou's `Vec2`/`Point2` and the window
    rectangle, with `f32` coordinates abstracted to `real`. */
module Geometry {

  /** A point or a displacement in the plane. */
  datatype Vec2 = Vec2(x: real, y: real)

  /** Component-wise sum, nannou's `+=` on `Vec2`. */
  function Add(a: Vec2, b: Vec2): Vec2 {
    Vec2(a.x + b.x, a.y + b.y)
  }

  function Abs(r: real): real {
    if r < 0.0 then -r else r
  }

  /** The window rectangle as `Rect::left/right/bottom/top` report it. */
  datatype Rect = Rect(left: real, right: real, bottom: real, top: real)
  {
    /** Closed containment: a point on an edge is inside. */
    predicate Contains(p: Vec2) {
      left <= p.x <= right && bottom <= p.y <= top
    }
  }
}
