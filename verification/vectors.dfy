/**
 * Integer grid vectors: the part of rogalik's `Vector2I` that the action
 * layer uses (component-wise `+=` and the Manhattan distance).
 */
module Vectors {

  datatype Vec2 = Vec2(x: int, y: int) {
    /** Component-wise sum, `Vector2I`'s `+=`. */
    function Add(d: Vec2): Vec2 {
      Vec2(x + d.x, y + d.y)
    }
  }

  function Abs(n: int): (r: nat)
    ensures r == n || r == -n
  {
    if n < 0 then -n else n
  }

  /** Taxicab distance |dx| + |dy|. */
  function Manhattan(a: Vec2, b: Vec2): (r: nat)
    ensures r == 0 <==> a == b
  {
    Abs(a.x - b.x) + Abs(a.y - b.y)
  }

  /**
   * The cell reached from `source` after `k` repetitions of `+= dir`.
   * Its contract gives the closed form `source + k * dir`.
   */
  function Walk(source: Vec2, dir: Vec2, k: nat): (r: Vec2)
    ensures r == Vec2(source.x + k * dir.x, source.y + k * dir.y)
  {
    if k == 0 then source else Walk(source, dir, k - 1).Add(dir)
  }
}
