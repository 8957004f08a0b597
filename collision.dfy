/** `linesIntersect` on two lines of the background: the crossing test on
    their full-length projections, whatever their current length. */
module Collision {
  import opened Lines
  import opened Segments

  /** Each coordinate of a full-length projection has magnitude
      400 * cos(pi/4) = 200 * sqrt 2; this is that value as the browser
      computes it for the cosine leg (the sine leg comes out one unit in
      the last place lower, which the model does not distinguish). The
      parallelism lemmas use only that it is positive; the worked example
      also uses that it exceeds 100. */
  const DiagonalLeg: real := 282.842712474619

  /** Where a line starts. */
  function Origin(l: LineState): Point
  {
    Point(l.x, l.y)
  }

  /** The x offset of a full-length projection: cos(angle) * 400. */
  function ReachX(l: LineState): real
  {
    l.angle.CosSign() as real * DiagonalLeg
  }

  /** The y offset of a full-length projection: sin(angle) * 400. */
  function ReachY(l: LineState): real
  {
    l.angle.SinSign() as real * DiagonalLeg
  }

  /** Where a line would end at full length. */
  function FullEnd(l: LineState): Point
  {
    Point(l.x + ReachX(l), l.y + ReachY(l))
  }

  /** `linesIntersect(line1, line2)`. */
  function LinesIntersect(line1: LineState, line2: LineState): bool
  {
    Crossing(Origin(line1), FullEnd(line1), Origin(line2), FullEnd(line2))
  }

  /** Two directions are parallel when they are equal or opposite. */
  predicate Parallel(a: Angle, b: Angle)
  {
    a == b || a == b.Opposite()
  }

  /** Reference definition: the two full-length projections share a point. */
  ghost predicate ProjectionsMeet(line1: LineState, line2: LineState)
  {
    SegmentsShare(Origin(line1), FullEnd(line1), Origin(line2), FullEnd(line2))
  }

  /** For two diagonal projections the determinant is zero exactly when the
      directions are parallel. */
  lemma DeterminantZeroIffParallel(line1: LineState, line2: LineState)
    ensures Determinant(Origin(line1), FullEnd(line1), Origin(line2), FullEnd(line2)) == 0.0
        <==> Parallel(line1.angle, line2.angle)
  {
    var s1, r1 := line1.angle.CosSign() as real, line1.angle.SinSign() as real;
    var s2, r2 := line2.angle.CosSign() as real, line2.angle.SinSign() as real;
    var h := DiagonalLeg;
    calc {
      Determinant(Origin(line1), FullEnd(line1), Origin(line2), FullEnd(line2));
      Det(ReachX(line1), ReachY(line1), ReachX(line2), ReachY(line2));
      (r2 * h) * (s1 * h) - (s2 * h) * (r1 * h);
      { assert (r2 * h) * (s1 * h) == (r2 * s1) * (h * h); assert (s2 * h) * (r1 * h) == (s2 * r1) * (h * h); }
      (r2 * s1 - s2 * r1) * (h * h);
    }
  }

  /** `linesIntersect` reports a collision exactly when the two directions
      are not parallel and the two full-length segments share a point: a
      crossing of the infinite extensions alone does not count, and parallel
      or collinear projections never collide, even when they overlap. */
  lemma LinesIntersectMeaning(line1: LineState, line2: LineState)
    ensures LinesIntersect(line1, line2) <==> !Parallel(line1.angle, line2.angle) && ProjectionsMeet(line1, line2)
  {
    DeterminantZeroIffParallel(line1, line2);
    CrossingMeaning(Origin(line1), FullEnd(line1), Origin(line2), FullEnd(line2));
  }

  /** A line never collides with one of the same or the opposite direction,
      wherever the two are placed, and in particular never with itself. */
  lemma ParallelNeverIntersect(line1: LineState, line2: LineState)
    requires Parallel(line1.angle, line2.angle)
    ensures !LinesIntersect(line1, line2)
  {
    LinesIntersectMeaning(line1, line2);
  }

  /** The test does not depend on which line comes first. */
  lemma LinesIntersectSymmetric(line1: LineState, line2: LineState)
    ensures LinesIntersect(line1, line2) == LinesIntersect(line2, line1)
  {
    LinesIntersectMeaning(line1, line2);
    LinesIntersectMeaning(line2, line1);
    var p1, p2, p3, p4 := Origin(line1), FullEnd(line1), Origin(line2), FullEnd(line2);
    if SegmentsShare(p1, p2, p3, p4) {
      var t, u :| 0.0 <= t <= 1.0 && 0.0 <= u <= 1.0 && Along(p1, p2, t) == Along(p3, p4, u);
      assert Along(p3, p4, u) == Along(p1, p2, t);
    }
    if SegmentsShare(p3, p4, p1, p2) {
      var t, u :| 0.0 <= t <= 1.0 && 0.0 <= u <= 1.0 && Along(p3, p4, t) == Along(p1, p2, u);
      assert Along(p1, p2, u) == Along(p3, p4, t);
    }
  }
}
