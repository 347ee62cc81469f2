/** The value types and the two vector operations the game takes from raylib.
    raylib stores every coordinate as a float32; here float32 is abstracted
    to exact reals. Sign flips and assignments of constant-derived values are
    exact in float32 too; sums such as the ball's step are not. */
module Geometry {

  /** raylib's Vector2: a point or a direction in screen coordinates
      (X grows to the right, Y grows downwards). */
  datatype Vector2 = Vector2(X: real, Y: real)

  /** raylib's Rectangle: top-left corner plus extent. */
  datatype Rectangle = Rectangle(X: real, Y: real, Width: real, Height: real)

  /** rl.Vector2Add: component-wise sum. */
  function Vector2Add(v: Vector2, w: Vector2): (r: Vector2)
  {
    Vector2(v.X + w.X, v.Y + w.Y)
  }

  /** rl.Vector2Scale: both components multiplied by `scale`. */
  function Vector2Scale(v: Vector2, scale: real): (r: Vector2)
  {
    Vector2(v.X * scale, v.Y * scale)
  }

  /** rl.Vector2Normalize computes a square root, so the model takes it as a
      parameter of this type instead of defining it. */
  type Normalizer = Vector2 -> Vector2

  /** rl.CheckCollisionCircleRec(center, radius, rec): raylib's
      circle/rectangle overlap test, taken as a parameter of this type. */
  type CircleRecTest = (Vector2, real, Rectangle) -> bool

  function Abs(x: real): (r: real)
  {
    if x < 0.0 then -x else x
  }
}
