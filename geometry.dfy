/** Lengths, points and angles: integer nanometres and integer microdegrees. */
module Geometry {
  /** A point; both coordinates are lengths in nanometres. */
  datatype Point = Point(x: int, y: int)

  const Origin := Point(0, 0)

  /** An angle in microdegrees. */
  type Angle = int

  /** A length that must be greater than zero (PositiveLength). */
  type PositiveLength = l: int | l > 0 witness 1

  /** A length that must not be negative (UnsignedLength). */
  type UnsignedLength = l: int | l >= 0

  function Add(a: Point, b: Point): Point { Point(a.x + b.x, a.y + b.y) }

  function Sub(a: Point, b: Point): Point { Point(a.x - b.x, a.y - b.y) }

  predicate IsOrigin(p: Point) { p.x == 0 && p.y == 0 }

  /** C++ integer division: the quotient is truncated toward zero. */
  function DivTrunc(a: int, b: int): (q: int)
    requires b > 0
    ensures a >= 0 ==> 0 <= q && 0 <= a - q * b < b
    ensures a < 0 ==> q <= 0 && -b < a - q * b <= 0
  {
    if a >= 0 then a / b else -((-a) / b)
  }

  /** The centre of two points, as `(a + b) / 2` on integer lengths. */
  function Centre(a: Point, b: Point): (c: Point)
    ensures var sx := a.x + b.x; (sx >= 0 ==> 0 <= sx - 2 * c.x <= 1) && (sx < 0 ==> -1 <= sx - 2 * c.x <= 0)
    ensures var sy := a.y + b.y; (sy >= 0 ==> 0 <= sy - 2 * c.y <= 1) && (sy < 0 ==> -1 <= sy - 2 * c.y <= 0)
  {
    Point(DivTrunc(a.x + b.x, 2), DivTrunc(a.y + b.y, 2))
  }

  /** The centre does not depend on the order of the endpoints and lies on a
      degenerate line's only point. */
  lemma CentreSymmetric(a: Point, b: Point)
    ensures Centre(a, b) == Centre(b, a)
    ensures Centre(a, a) == a
  {
  }

  lemma AddSubInverse(a: Point, b: Point)
    ensures Sub(Add(a, b), a) == b
    ensures Add(a, Sub(b, a)) == b
  {
  }
}
