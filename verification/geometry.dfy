/** Canvas geometry: the editor's 2D vectors, with coordinates as reals. */
module Geometry {

  datatype Vec2 = Vec2(x: real, y: real)

  const Origin := Vec2(0.0, 0.0)

  function Add(a: Vec2, b: Vec2): Vec2 {
    Vec2(a.x + b.x, a.y + b.y)
  }

  function SquaredDistance(a: Vec2, b: Vec2): real {
    (a.x - b.x) * (a.x - b.x) + (a.y - b.y) * (a.y - b.y)
  }

  function Max(a: real, b: real): real {
    if a >= b then a else b
  }

  /** A measured text box: width and height are never negative. */
  type Extent = e: Vec2 | e.x >= 0.0 && e.y >= 0.0 witness Origin
}
