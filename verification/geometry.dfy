/** Positions in the game world. Coordinates are integers and distances are
    compared through their squares, so no square root is needed. */
module Geometry {

  /** A point (x, y, z) in the world. */
  datatype Vector = Vector(x: int, y: int, z: int)

  /** The squared length of `v`. */
  function SquaredMagnitude(v: Vector): (m: nat)
    ensures m == 0 <==> v == Vector(0, 0, 0)
  {
    Square(v.x) + Square(v.y) + Square(v.z)
  }

  /** The squared Euclidean distance between `a` and `b`. */
  function SquaredDistance(a: Vector, b: Vector): (d: nat)
    ensures d == 0 <==> a == b
  {
    SquaredMagnitude(Vector(a.x - b.x, a.y - b.y, a.z - b.z))
  }

  function Square(n: int): (s: nat)
    ensures s == 0 <==> n == 0
  {
    Abs(n) * Abs(n)
  }

  function Abs(n: int): nat {
    if n < 0 then -n else n
  }
}
