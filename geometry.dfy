/** Two-dimensional points and the vector arithmetic the star map is built on.
    Points are immutable values; every operation returns a new point.
    Coordinates are exact reals, so no floating-point rounding is modelled. */
module Geometry {

  datatype Point = Point(x: real, y: real)

  const Origin: Point := Point(0.0, 0.0)

  function Add(p: Point, q: Point): Point {
    Point(p.x + q.x, p.y + q.y)
  }

  function Subtract(p: Point, q: Point): Point {
    Point(p.x - q.x, p.y - q.y)
  }

  function Multiply(p: Point, m: real): Point {
    Point(p.x * m, p.y * m)
  }

  /** The squared Euclidean distance between two points; never negative. */
  function SquareDist(p: Point, q: Point): (r: real)
    ensures r >= 0.0
  {
    var dx, dy := q.x - p.x, q.y - p.y;
    NonNegativeSquare(dx);
    NonNegativeSquare(dy);
    dx * dx + dy * dy
  }

  lemma NonNegativeSquare(a: real)
    ensures a * a >= 0.0
  {
    if a < 0.0 {
      assert a * a == (-a) * (-a);
    }
  }

  /** Whether `q` lies within distance `minDist` of `p` (the boundary counts as a collision). */
  predicate Collides(p: Point, q: Point, minDist: real) {
    SquareDist(p, q) <= minDist * minDist
  }

  /** Both coordinates rounded down to whole numbers. */
  function Floor(p: Point): (r: Point)
    ensures r.x <= p.x < r.x + 1.0 && r.y <= p.y < r.y + 1.0
    ensures r.x == r.x.Floor as real && r.y == r.y.Floor as real
  {
    Point(p.x.Floor as real, p.y.Floor as real)
  }

  function SquareMagnitude(p: Point): real {
    p.x * p.x + p.y * p.y
  }

  /** `mag` is the (non-negative) square root of the squared magnitude of `p`. */
  predicate IsMagnitude(p: Point, mag: real) {
    mag >= 0.0 && mag * mag == SquareMagnitude(p)
  }

  /** The unit vector in the direction of `p`, given its magnitude; a zero magnitude
      yields the zero vector instead of a division by zero. */
  function Normal(p: Point, mag: real): (r: Point)
    requires IsMagnitude(p, mag)
    ensures p == Origin ==> r == Origin
    ensures mag > 0.0 ==> SquareMagnitude(r) == 1.0 && Multiply(r, mag) == p
  {
    if mag == 0.0 then
      Point(0.0, 0.0)
    else
      UnitAfterDivision(p, mag);
      Point(p.x / mag, p.y / mag)
  }

  lemma UnitAfterDivision(p: Point, mag: real)
    requires mag > 0.0 && mag * mag == SquareMagnitude(p)
    ensures SquareMagnitude(Point(p.x / mag, p.y / mag)) == 1.0
  {
    var a, b := p.x / mag, p.y / mag;
    assert p.x == a * mag && p.y == b * mag;
    calc {
      (a * a + b * b) * (mag * mag);
      (a * mag) * (a * mag) + (b * mag) * (b * mag);
      p.x * p.x + p.y * p.y;
      1.0 * (mag * mag);
    }
    assert mag * mag > 0.0;
  }

  lemma AddSubtractInverse(p: Point, q: Point)
    ensures Subtract(Add(p, q), q) == p
    ensures Add(Subtract(p, q), q) == p
  {
  }

  lemma {:induction false} SquareDistSymmetric(p: Point, q: Point)
    ensures SquareDist(p, q) == SquareDist(q, p)
  {
    var dx, dy := q.x - p.x, q.y - p.y;
    assert (p.x - q.x) * (p.x - q.x) == dx * dx;
    assert (p.y - q.y) * (p.y - q.y) == dy * dy;
  }

  lemma CollidesSymmetric(p: Point, q: Point, minDist: real)
    ensures Collides(p, q, minDist) <==> Collides(q, p, minDist)
  {
    SquareDistSymmetric(p, q);
  }

  /** Moving both points by the same offset does not change their distance. */
  lemma SquareDistTranslate(p: Point, q: Point, d: Point)
    ensures SquareDist(Add(p, d), Add(q, d)) == SquareDist(p, q)
  {
    assert Add(q, d).x - Add(p, d).x == q.x - p.x;
    assert Add(q, d).y - Add(p, d).y == q.y - p.y;
  }

  /** Scaling both points by `m` scales their squared distance by `m * m`. */
  lemma SquareDistScale(p: Point, q: Point, m: real)
    ensures SquareDist(Multiply(p, m), Multiply(q, m)) == m * m * SquareDist(p, q)
  {
    var dx, dy := q.x - p.x, q.y - p.y;
    assert Multiply(q, m).x - Multiply(p, m).x == dx * m;
    assert Multiply(q, m).y - Multiply(p, m).y == dy * m;
    assert (dx * m) * (dx * m) == m * m * (dx * dx);
    assert (dy * m) * (dy * m) == m * m * (dy * dy);
  }
}
