/** Integer 2D vectors, the `Vec2i` of the game's shared math library. */
module Math {

  datatype Vec2i = Vec2i(x: int, y: int)

  const Zero: Vec2i := Vec2i(0, 0)

  /** Component-wise sum (`a + b` on `Vec2i`). */
  function Add(a: Vec2i, b: Vec2i): Vec2i {
    Vec2i(a.x + b.x, a.y + b.y)
  }

  /** Component-wise difference (`a - b` on `Vec2i`). */
  function Sub(a: Vec2i, b: Vec2i): Vec2i {
    Vec2i(a.x - b.x, a.y - b.y)
  }
}
