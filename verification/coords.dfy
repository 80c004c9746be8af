/** Grid coordinates, shared by every part of the model. */
module Coords {

  /** An `(x, y)` tuple: x grows to the right, y grows downwards, (0, 0) is the top-left corner. */
  datatype Pos = Pos(x: int, y: int)

  function Abs(i: int): (r: nat)
    ensures r == i || r == -i
  {
    if i < 0 then -i else i
  }

  /** `abs(b.x - a.x) + abs(b.y - a.y)` */
  function Manhattan(a: Pos, b: Pos): nat {
    Abs(b.x - a.x) + Abs(b.y - a.y)
  }
}
