/**
 * The two geometric value types both games use: a 2-D vector (glam's `Vec2`)
 * and an axis-aligned rectangle given by its top-left corner and size
 * (ggez's `Rect`). Coordinates are `real`: f32 rounding is abstracted away.
 */
module Geometry {

  datatype Vec2 = Vec2(x: real, y: real)

  const ZERO: Vec2 := Vec2(0.0, 0.0)

  function Add(a: Vec2, b: Vec2): Vec2 { Vec2(a.x + b.x, a.y + b.y) }

  function Scale(a: Vec2, k: real): Vec2 { Vec2(a.x * k, a.y * k) }

  /** The squared Euclidean length; `length() >= c` is `LengthSq() >= c * c` for `c >= 0`. */
  function LengthSq(a: Vec2): (r: real)
    ensures r >= 0.0
  {
    a.x * a.x + a.y * a.y
  }

  datatype Rect = Rect(x: real, y: real, w: real, h: real)

  /**
   * ggez's `Rect::overlaps`: the closed intervals intersect on both axes.
   * The library's code is not part of this model; no property proved in the
   * games depends on the body of this test.
   */
  predicate Overlaps(a: Rect, b: Rect)
  {
    a.x <= b.x + b.w && a.x + a.w >= b.x && a.y <= b.y + b.h && a.y + a.h >= b.y
  }
}
