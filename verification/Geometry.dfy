/** Points and vectors of the plane, over the reals. */
module Geometry {

  datatype Vec = Vec(x: real, y: real)

  const ORIGIN := Vec(0.0, 0.0)

  function Min(a: int, b: int): int { if a <= b then a else b }

  function Max(a: int, b: int): int { if a <= b then b else a }

  function Dot(p: Vec, q: Vec): real { p.x * q.x + p.y * q.y }

  function Sub(p: Vec, q: Vec): Vec { Vec(p.x - q.x, p.y - q.y) }

  function SqLen(p: Vec): real { Dot(p, p) }

  function SqDist(p: Vec, q: Vec): real { SqLen(Sub(p, q)) }

  function Times(t: real, d: real): real { t * d }

  /** The point reached after the fraction t of the way from a to b. */
  function Along(a: Vec, b: Vec, t: real): Vec {
    Vec(a.x + Times(t, b.x - a.x), a.y + Times(t, b.y - a.y))
  }

  function Square(x: real): real { x * x }

  lemma SquareSign(x: real)
    ensures Square(x) >= 0.0 && (x != 0.0 ==> Square(x) > 0.0)
  {
    if x > 0.0 {
      ProductPositive(x, x, Square(x));
    } else if x < 0.0 {
      ProductPositive(-x, -x, Square(x));
    }
  }

  /** The product is a parameter of its own because the solver handles it better apart from its factors. */
  lemma ProductPositive(x: real, y: real, p: real)
    requires x > 0.0 && y > 0.0 && p == x * y
    ensures p > 0.0
  {
  }

  lemma ProductSign(x: real, y: real, p: real)
    requires x >= 0.0 && y >= 0.0 && p == x * y
    ensures p >= 0.0
  {
  }

  lemma ProductOrder(a: real, b: real, f: real, af: real, bf: real)
    requires a <= b && f >= 0.0 && af == a * f && bf == b * f
    ensures af <= bf
  {
  }

  lemma SmallerSquare(x: real, y: real)
    requires -y <= x <= y || y <= x <= -y
    ensures Square(x) <= Square(y)
  {
    if -y <= x <= y {
      ProductSign(y - x, y + x, Square(y) - Square(x));
    } else {
      ProductSign(x - y, -(x + y), Square(y) - Square(x));
    }
  }

  lemma LengthSign(v: Vec)
    ensures SqLen(v) >= 0.0 && (v != ORIGIN ==> SqLen(v) > 0.0)
  {
    SquareSign(v.x);
    SquareSign(v.y);
    assert SqLen(v) == Square(v.x) + Square(v.y);
  }
}
