/** `randomAngle` and `generateRandomPosition`, with every `Math.random()`
    value passed in as a real in [0, 1). */
module Placement {
  import opened Lines
  import opened Segments

  /** The 8 x 8 grid the canvas is divided into. */
  const GridSize: nat := 8

  /** `diagonalAngles`, in the order `randomAngle` indexes them. */
  const DiagonalAngles: seq<Angle> := [QuarterPi, ThreeQuarterPi, MinusQuarterPi, MinusThreeQuarterPi]

  /** A value `Math.random()` can return. */
  predicate IsRandom(u: real)
  {
    0.0 <= u < 1.0
  }

  /** `Math.floor(u * n)`: the index a random value picks among `n` choices. */
  function PickIndex(u: real, n: nat): (i: nat)
    requires IsRandom(u) && n > 0
    ensures i < n
    ensures i as real <= u * n as real < i as real + 1.0
  {
    (u * n as real).Floor
  }

  /** `randomAngle()`, given the value its `Math.random()` call returns:
      each of the four diagonals is chosen on exactly one quarter of [0, 1). */
  function RandomAngle(u: real): (a: Angle)
    requires IsRandom(u)
    ensures forall k | 0 <= k < |DiagonalAngles| ::
      a == DiagonalAngles[k] <==> k as real / 4.0 <= u < (k as real + 1.0) / 4.0
  {
    DiagonalAngles[PickIndex(u, |DiagonalAngles|)]
  }

  /** The values of the four `Math.random()` calls of one
      `generateRandomPosition()` (grid column, grid row, offset within the
      cell along x, then along y), followed by the one of the `randomAngle()`
      call that picks the angle the collision check uses. */
  datatype Draw = Draw(cellX: real, cellY: real, offsetX: real, offsetY: real, angle: real)

  predicate ValidDraw(d: Draw)
  {
    IsRandom(d.cellX) && IsRandom(d.cellY) && IsRandom(d.offsetX) && IsRandom(d.offsetY) && IsRandom(d.angle)
  }

  /** `canvas.width / gridSize` (or the height): the extent of one grid cell. */
  function CellSize(extent: nat): real
  {
    extent as real / GridSize as real
  }

  /** One coordinate of `generateRandomPosition`: the start of grid cell `g`
      plus the fraction `u` of a cell. */
  function Coordinate(g: nat, u: real, extent: nat): real
  {
    g as real * CellSize(extent) + u * CellSize(extent)
  }

  /** A coordinate lies inside its grid cell, hence inside the canvas, and
      on a canvas of non-zero extent the cell can be read back from it. */
  lemma CoordinateInCell(g: nat, u: real, extent: nat)
    requires g < GridSize && IsRandom(u)
    ensures var v, c := Coordinate(g, u, extent), CellSize(extent);
      && g as real * c <= v <= (g as real + 1.0) * c
      && 0.0 <= v <= extent as real
      && (extent > 0 ==> v < (g as real + 1.0) * c && v < extent as real && (v / c).Floor == g)
  {
    var c := CellSize(extent);
    var v := Coordinate(g, u, extent);
    CellsFit(g as real + 1.0, extent);
    WithinCell(g, u, c);
    assert v == g as real * c + u * c;
  }

  /** Scaling [g, g + 1) by a cell extent `c`. */
  lemma WithinCell(g: nat, u: real, c: real)
    requires 0.0 <= u < 1.0 && 0.0 <= c
    ensures 0.0 <= g as real * c <= g as real * c + u * c <= (g as real + 1.0) * c
    ensures c > 0.0 ==> g as real * c + u * c < (g as real + 1.0) * c && ((g as real * c + u * c) / c).Floor == g
  {
    var a := g as real;
    ProductBounds(u, c);
    Distribute(a, u, c);
    assert 0.0 <= a * c;
    if c > 0.0 {
      QuotientOf(a * c + u * c, a + u, c);
      FloorOfShift(g, u);
    }
  }

  lemma ProductBounds(u: real, c: real)
    requires 0.0 <= u < 1.0 && 0.0 <= c
    ensures 0.0 <= u * c <= c
    ensures c > 0.0 ==> u * c < c
  {
  }

  lemma Distribute(a: real, u: real, c: real)
    ensures a * c + u * c == (a + u) * c
    ensures (a + 1.0) * c == a * c + c
  {
  }

  lemma QuotientOf(x: real, y: real, c: real)
    requires c != 0.0 && x == y * c
    ensures x / c == y
  {
    var q := x / c;
    assert q * c == x;
    CancelFactor(q, y, c);
  }

  lemma FloorOfShift(g: int, u: real)
    requires 0.0 <= u < 1.0
    ensures (g as real + u).Floor == g
  {
  }

  /** At most `GridSize` cells fit in the canvas. */
  lemma CellsFit(k: real, extent: nat)
    requires 0.0 <= k <= GridSize as real
    ensures 0.0 <= CellSize(extent)
    ensures k * CellSize(extent) <= extent as real
    ensures extent > 0 ==> CellSize(extent) > 0.0
  {
    var c := CellSize(extent);
    assert GridSize as real * c == extent as real;
    assert k * c <= GridSize as real * c;
  }

  /** `generateRandomPosition()` on a canvas of the given size. */
  function GeneratePosition(width: nat, height: nat, d: Draw): Point
    requires ValidDraw(d)
  {
    var gridX := PickIndex(d.cellX, GridSize);
    var gridY := PickIndex(d.cellY, GridSize);
    Point(Coordinate(gridX, d.offsetX, width), Coordinate(gridY, d.offsetY, height))
  }

  /** A generated position lies on the canvas, inside the grid cell its
      first two random values pick, and that cell can be read back from it. */
  lemma PositionInCell(width: nat, height: nat, d: Draw)
    requires ValidDraw(d)
    ensures var p, gridX, gridY := GeneratePosition(width, height, d), PickIndex(d.cellX, GridSize), PickIndex(d.cellY, GridSize);
      && 0.0 <= p.x <= width as real && 0.0 <= p.y <= height as real
      && gridX as real * CellSize(width) <= p.x <= (gridX as real + 1.0) * CellSize(width)
      && gridY as real * CellSize(height) <= p.y <= (gridY as real + 1.0) * CellSize(height)
      && (width > 0 ==> p.x < width as real && (p.x / CellSize(width)).Floor == gridX)
      && (height > 0 ==> p.y < height as real && (p.y / CellSize(height)).Floor == gridY)
  {
    CoordinateInCell(PickIndex(d.cellX, GridSize), d.offsetX, width);
    CoordinateInCell(PickIndex(d.cellY, GridSize), d.offsetY, height);
  }

  /** The line the collision check of one attempt tests: a new line at the
      generated position, with the angle drawn for the check. */
  function Candidate(width: nat, height: nat, d: Draw): (c: LineState)
    requires ValidDraw(d)
    ensures WellFormed(c) && c.active
  {
    var p := GeneratePosition(width, height, d);
    NewLine(p.x, p.y, RandomAngle(d.angle))
  }
}
