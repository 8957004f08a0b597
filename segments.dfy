/** Points and closed segments in the plane, over exact reals: the
    parametric crossing test that `linesIntersect` performs, and the proof
    that it is exact. */
module Segments {

  datatype Point = Point(x: real, y: real)

  /** The point a fraction `t` of the way from `p` to `q`. */
  function Along(p: Point, q: Point, t: real): Point
  {
    Point(p.x + t * (q.x - p.x), p.y + t * (q.y - p.y))
  }

  /** The closed segments p1-p2 and p3-p4 share a point. */
  ghost predicate SegmentsShare(p1: Point, p2: Point, p3: Point, p4: Point)
  {
    exists t: real, u: real :: 0.0 <= t <= 1.0 && 0.0 <= u <= 1.0 && Along(p1, p2, t) == Along(p3, p4, u)
  }

  /** The determinant of the direction vectors (a1, b1) and (a2, b2). */
  function Det(a1: real, b1: real, a2: real, b2: real): real
  {
    b2 * a1 - a2 * b1
  }

  /** The determinant of the direction vectors of the segments p1-p2 and p3-p4. */
  function Determinant(p1: Point, p2: Point, p3: Point, p4: Point): real
  {
    Det(p2.x - p1.x, p2.y - p1.y, p4.x - p3.x, p4.y - p3.y)
  }

  /** The arithmetic of `linesIntersect`, written with the direction vectors
      (a1, b1) = p2 - p1 and (a2, b2) = p4 - p3 and the offset
      (dx, dy) = p1 - p3: a zero `denom` gives false; otherwise `ua` and `ub`
      must both lie in [0, 1]. */
  function ParametersInRange(a1: real, b1: real, a2: real, b2: real, dx: real, dy: real): bool
  {
    var denom := Det(a1, b1, a2, b2);
    if denom == 0.0 then false
    else
      var ua := (a2 * dy - b2 * dx) / denom;
      var ub := (a1 * dy - b1 * dx) / denom;
      0.0 <= ua <= 1.0 && 0.0 <= ub <= 1.0
  }

  /** The crossing test on the segments p1-p2 and p3-p4. */
  function Crossing(p1: Point, p2: Point, p3: Point, p4: Point): bool
  {
    ParametersInRange(p2.x - p1.x, p2.y - p1.y, p4.x - p3.x, p4.y - p3.y, p1.x - p3.x, p1.y - p3.y)
  }

  /** `o1 + t (a1, b1) == o2 + u (a2, b2)`, where (dx, dy) = o1 - o2. */
  predicate SolvesAt(a1: real, b1: real, a2: real, b2: real, dx: real, dy: real, t: real, u: real)
  {
    t * a1 - u * a2 == -dx && t * b1 - u * b2 == -dy
  }

  /** A non-zero factor cancels. */
  lemma CancelFactor(x: real, y: real, d: real)
    requires d != 0.0 && x * d == y * d
    ensures x == y
  {
    assert (x - y) * d == 0.0;
  }

  /** Cramer's rule: with a non-zero determinant, the two lines through the
      origins meet at exactly one pair of parameters, the quotients `ua` and
      `ub`. */
  lemma QuotientsSolve(a1: real, b1: real, a2: real, b2: real, dx: real, dy: real, t: real, u: real)
    requires Det(a1, b1, a2, b2) != 0.0
    ensures var denom := b2 * a1 - a2 * b1;
      SolvesAt(a1, b1, a2, b2, dx, dy, t, u) <==> t == (a2 * dy - b2 * dx) / denom && u == (a1 * dy - b1 * dx) / denom
  {
    var denom := b2 * a1 - a2 * b1;
    var na, nb := a2 * dy - b2 * dx, a1 * dy - b1 * dx;
    var ua, ub := na / denom, nb / denom;
    assert ua * denom == na;
    assert ub * denom == nb;
    assert (ua * a1 - ub * a2) * denom == na * a1 - nb * a2;
    assert na * a1 - nb * a2 == -dx * denom;
    CancelFactor(ua * a1 - ub * a2, -dx, denom);
    assert (ua * b1 - ub * b2) * denom == na * b1 - nb * b2;
    assert na * b1 - nb * b2 == -dy * denom;
    CancelFactor(ua * b1 - ub * b2, -dy, denom);
    if SolvesAt(a1, b1, a2, b2, dx, dy, t, u) {
      assert na == t * denom;
      assert nb == u * denom;
      CancelFactor(t, ua, denom);
      CancelFactor(u, ub, denom);
    }
  }

  /** The quotients lie in [0, 1] exactly when the determinant is non-zero
      and the two lines meet at parameters in [0, 1]. */
  lemma ParametersInRangeMeaning(a1: real, b1: real, a2: real, b2: real, dx: real, dy: real)
    ensures ParametersInRange(a1, b1, a2, b2, dx, dy) <==> (Det(a1, b1, a2, b2) != 0.0 &&
      exists t: real, u: real :: 0.0 <= t <= 1.0 && 0.0 <= u <= 1.0 && SolvesAt(a1, b1, a2, b2, dx, dy, t, u))
  {
    if Det(a1, b1, a2, b2) != 0.0 {
      var denom := b2 * a1 - a2 * b1;
      var ua, ub := (a2 * dy - b2 * dx) / denom, (a1 * dy - b1 * dx) / denom;
      QuotientsSolve(a1, b1, a2, b2, dx, dy, ua, ub);
      if exists t: real, u: real :: 0.0 <= t <= 1.0 && 0.0 <= u <= 1.0 && SolvesAt(a1, b1, a2, b2, dx, dy, t, u) {
        var t, u :| 0.0 <= t <= 1.0 && 0.0 <= u <= 1.0 && SolvesAt(a1, b1, a2, b2, dx, dy, t, u);
        QuotientsSolve(a1, b1, a2, b2, dx, dy, t, u);
      }
    }
  }

  /** Two points on the segments coincide exactly when their parameters
      solve the pair of linear equations. */
  lemma AlongIffSolves(p1: Point, p2: Point, p3: Point, p4: Point, t: real, u: real)
    ensures Along(p1, p2, t) == Along(p3, p4, u) <==>
      SolvesAt(p2.x - p1.x, p2.y - p1.y, p4.x - p3.x, p4.y - p3.y, p1.x - p3.x, p1.y - p3.y, t, u)
  {
  }

  /** The crossing test is exact: it reports a crossing if and only if the
      determinant is non-zero and the two closed segments share a point. */
  lemma CrossingMeaning(p1: Point, p2: Point, p3: Point, p4: Point)
    ensures Crossing(p1, p2, p3, p4) <==> Determinant(p1, p2, p3, p4) != 0.0 && SegmentsShare(p1, p2, p3, p4)
  {
    var a1, b1, a2, b2, dx, dy := p2.x - p1.x, p2.y - p1.y, p4.x - p3.x, p4.y - p3.y, p1.x - p3.x, p1.y - p3.y;
    ParametersInRangeMeaning(a1, b1, a2, b2, dx, dy);
    if Crossing(p1, p2, p3, p4) {
      var t, u :| 0.0 <= t <= 1.0 && 0.0 <= u <= 1.0 && SolvesAt(a1, b1, a2, b2, dx, dy, t, u);
      AlongIffSolves(p1, p2, p3, p4, t, u);
    }
    if Determinant(p1, p2, p3, p4) != 0.0 && SegmentsShare(p1, p2, p3, p4) {
      var t, u :| 0.0 <= t <= 1.0 && 0.0 <= u <= 1.0 && Along(p1, p2, t) == Along(p3, p4, u);
      AlongIffSolves(p1, p2, p3, p4, t, u);
    }
  }
}
