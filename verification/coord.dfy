/**
 Three-component real vectors. A position is always the unwrapped (absolute)
 position of a particle: it is never folded back into the periodic cell, so it
 may drift arbitrarily far from the cell after many boundary-crossing moves.
 */
module Coordinates {

  datatype Coord = Coord(x: real, y: real, z: real)

  const Origin := Coord(0.0, 0.0, 0.0)

  /** Componentwise sum; `Sub` undoes it. */
  function Add(a: Coord, b: Coord): (r: Coord)
    ensures Sub(r, b) == a
    ensures Sub(r, a) == b
  {
    Coord(a.x + b.x, a.y + b.y, a.z + b.z)
  }

  /** Componentwise difference: the displacement that takes `b` to `a`. */
  function Sub(a: Coord, b: Coord): Coord
  {
    Coord(a.x - b.x, a.y - b.y, a.z - b.z)
  }

  /** Every component is at least zero. */
  predicate NonNegative(c: Coord)
  {
    c.x >= 0.0 && c.y >= 0.0 && c.z >= 0.0
  }

  /** `a` is at least `b` in every component. */
  predicate Dominates(a: Coord, b: Coord)
  {
    a.x >= b.x && a.y >= b.y && a.z >= b.z
  }

  /**
   The componentwise square (dx², dy², dz²) of a displacement: the quantity
   the histogram accumulates. No component is ever negative.
   */
  function Square(d: Coord): (r: Coord)
    ensures NonNegative(r)
  {
    Coord(d.x * d.x, d.y * d.y, d.z * d.z)
  }

  lemma AddAssociative(a: Coord, b: Coord, c: Coord)
    ensures Add(Add(a, b), c) == Add(a, Add(b, c))
  {
  }

  /** Adding a non-negative vector never decreases any component. */
  lemma AddNonNegativeDominates(a: Coord, b: Coord)
    requires NonNegative(b)
    ensures Dominates(Add(a, b), a)
    ensures NonNegative(a) ==> NonNegative(Add(a, b))
  {
  }
}
