# Coming-soon page background: line animation

The coming-soon page draws a background of thin diagonal lines. Every 30
frames the page tries to place a new line. It picks a random cell of an
8 x 8 grid over the canvas, a random point inside that cell and one of the
four diagonal directions. It rejects the spot if a line from there of full
length (400 px) would cross the full-length projection of any line already
on screen. Each line grows by 2 px per frame up to 400 px. It then fades by
0.02 opacity per frame and is deactivated when the opacity reaches zero. At
most 12 lines are kept; pushing a 13th drops the oldest one.

This project models that engine and proves its properties:

- `lines.dfy` (module `Lines`): the constants, the four diagonal angles, a
  line's state, and `class Line` with its constructor and `update`. It proves
  the grow, then fade, then inactive life cycle of exactly 250 frames.
- `segments.dfy` (module `Segments`): the parametric segment-crossing
  arithmetic of `linesIntersect`. Over exact reals it is proved exact: it
  reports a crossing iff the determinant is non-zero and the two closed
  segments share a point.
- `collision.dfy` (module `Collision`): `linesIntersect` on two lines'
  full-length projections. It proves that two lines collide iff their
  directions are not parallel and the projections meet, and that the test is
  symmetric.
- `placement.dfy` (module `Placement`): `randomAngle` and
  `generateRandomPosition`, with each `Math.random()` value passed in as a
  real in [0, 1). It proves that each diagonal is picked on exactly one
  quarter of [0, 1), and that a position lies in its grid cell and on the
  canvas.
- `engine.dfy` (module `Animation`): the spawn policy of `addLine` and the
  frame step of `animate`, stated as functions over values. `class Engine`
  holds the mutable `lines` (a sequence of `Line` objects) and `frameCount`.
  Its methods `IsCollision`, `AddLine` and `Animate` are proved to compute
  exactly those functions.

Two behaviours of the code are modelled as written and proved as lemmas:

- The retry cap is effectively nine: `TenthAttemptNeverPlaces`. `attempts`
  reaches 10 after the tenth try whatever its check found, and
  `attempts < maxAttempts` then rejects it.
- The angle of the line that is pushed is not the angle that was checked:
  `StoredAngleCanCross`. `randomAngle()` is called once in the loop
  condition and again in the `new Line(...)`. The lemma gives a concrete
  placement where the check passes but the pushed line crosses a line on
  screen.

## Model

| member | source | states |
|---|---|---|
| Lines.NewLine | ComingSoonPage/script.js:20-27 | a new line has length 0, full opacity and is active, which is a well-formed state |
| Lines.Line.constructor | ComingSoonPage/script.js:20-27 | the fields of a constructed line are its anchor and angle, length 0, opacity 1 (100 hundredths), active |
| Lines.Updated | ComingSoonPage/script.js:29-37 | an update never changes a line's x, y or angle |
| Lines.UpdatedOnActive | ComingSoonPage/script.js:29-37 | on a well-formed active line: while shorter than 400, length grows by exactly 2 (never past 400) and opacity stays full; once at 400, length is kept, opacity drops by exactly 0.02 and stays >= 0, and active is false exactly when opacity reaches 0; the result is well-formed |
| Lines.Line.Update | ComingSoonPage/script.js:29-37 | the fields after `update()` are exactly the updated state of the fields before |
| Lines.AnimatedWellFormed | ComingSoonPage/script.js:29-37 | a frame keeps a well-formed line well-formed and leaves an inactive line unchanged |
| Lines.AgedGrowing | ComingSoonPage/script.js:29-31 | for k <= 200, k frames after construction a line is 2k long, fully opaque and active |
| Lines.AgedFading | ComingSoonPage/script.js:32-36 | j <= 50 frames after reaching full length a line has opacity 1 - 0.02j and is active exactly while j < 50 |
| Lines.AgedLifetime | ComingSoonPage/script.js:29-37 | a line is active exactly during its first 250 frames; from then on it is full length, transparent, inactive and unchanged |
| Segments.QuotientsSolve | ComingSoonPage/script.js:96-97 | with a non-zero `denom`, `ua` and `ub` are the one and only solution of the two lines' intersection equations |
| Segments.ParametersInRangeMeaning | ComingSoonPage/script.js:93-99 | `denom != 0 && ua, ub in [0, 1]` holds iff the determinant is non-zero and the equations have a solution with both parameters in [0, 1] |
| Segments.CrossingMeaning | ComingSoonPage/script.js:92-99 | the crossing test is true iff the determinant is non-zero and the two closed segments share a point |
| Collision.DeterminantZeroIffParallel | ComingSoonPage/script.js:93-94 | for two diagonal projections `denom` is zero exactly when the directions are equal or opposite |
| Collision.LinesIntersectMeaning | ComingSoonPage/script.js:86-100 | `linesIntersect` is true iff the directions are not parallel and the two full-length projections share a point |
| Collision.ParallelNeverIntersect | ComingSoonPage/script.js:94 | lines of the same or the opposite direction never collide, wherever they are placed |
| Collision.LinesIntersectSymmetric | ComingSoonPage/script.js:86-100 | `linesIntersect(a, b) == linesIntersect(b, a)` |
| Placement.PickIndex | ComingSoonPage/script.js:66 | `Math.floor(u * n)` for u in [0, 1) is an index below n, with index <= u*n < index+1 |
| Placement.RandomAngle | ComingSoonPage/script.js:64-67 | `randomAngle()` returns entry k of `diagonalAngles` iff the random value lies in [k/4, (k+1)/4), for each of the four entries |
| Placement.CoordinateInCell | ComingSoonPage/script.js:79-80 | a coordinate lies in cell g, [g*cell, (g+1)*cell], and in [0, extent]; on a non-empty canvas it is strictly below (g+1)*cell and the extent, and floor(v / cell) == g |
| Placement.PositionInCell | ComingSoonPage/script.js:70-83 | a generated position lies on the canvas and inside the grid cell its first two random values pick, and that cell is read back by dividing by the cell size |
| Placement.Candidate | ComingSoonPage/script.js:123 | the line checked in an attempt is a new line: well-formed and active |
| Animation.IntersectSeesOnlyAnchors | ComingSoonPage/script.js:86-90 | the collision test depends only on where lines start and which way they point, not on their length, opacity or activity |
| Animation.FirstMiss | ComingSoonPage/script.js:120-123 | the first index whose check finds no collision: every earlier check collided, and it did not (or all did) |
| Animation.AttemptsMade | ComingSoonPage/script.js:117-123 | the loop makes 1 to 10 attempts; every attempt before the last collided, and when fewer than 10 were made the last did not |
| Animation.AttemptsMadeCases | ComingSoonPage/script.js:120-126 | the loop stops after attempt j+1 when j < 9 is the first collision-free attempt, and makes all 10 attempts exactly when the first nine collide |
| Animation.AttemptsMadeUnique | ComingSoonPage/script.js:120-123 | any count that meets the loop's exit condition is the count `AttemptsMade` gives |
| Animation.Bounded | ComingSoonPage/script.js:128-130 | a buffer at most one push past capacity (13 lines) is brought back to at most 12; at most one line is dropped, and only from the front, so the kept lines are the newest ones in their order; a buffer within capacity is unchanged |
| Animation.BoundedPush | ComingSoonPage/script.js:127-130 | pushing onto at most 12 lines keeps at most 12; the new line is last; below capacity it is appended, at capacity exactly index 0 is dropped and the rest keep their order |
| Animation.SpawnOnlyOnDelay | ComingSoonPage/script.js:115 | off frames 0, 30, 60, ... `addLine` leaves the lines unchanged |
| Animation.SpawnPlacesFirstFree | ComingSoonPage/script.js:114-131 | when attempt j < 9 is the first collision-free one, `addLine` pushes a new line at attempt j's position, with the separately drawn angle, and then bounds the buffer |
| Animation.TenthAttemptNeverPlaces | ComingSoonPage/script.js:118-126 | when the first nine attempts collide nothing is pushed, whatever the tenth check finds |
| Animation.SpawnPushesAtMostOne | ComingSoonPage/script.js:126-131 | `addLine` either leaves the lines as they were or pushes exactly one new line (length 0, full opacity, active) at the end, then bounds the buffer |
| Animation.StoredAngleCanCross | ComingSoonPage/script.js:123-127 | concrete case, whatever the later attempts draw: the check at (200, 0) towards pi/4 passes against a line from (0, 0) towards pi/4, but the pushed line points towards 3pi/4 and crosses it |
| Animation.AdvancePreserves | ComingSoonPage/script.js:139-141 | the update pass keeps the number and order of lines, never moves or turns a line, leaves inactive lines unchanged and keeps lines well-formed |
| Animation.CollidesAfterAdvance | ComingSoonPage/script.js:103-111 | the update pass never changes what `isCollision` reports |
| Animation.SpawnKeepsSceneOk | ComingSoonPage/script.js:114-133 | `addLine` keeps the engine invariant: at most 12 lines, each well-formed |
| Animation.StepKeepsSceneOk | ComingSoonPage/script.js:136-144 | one `animate()` adds exactly 1 to `frameCount` and keeps the engine invariant |
| Animation.Engine.constructor | ComingSoonPage/script.js:9-16 | the engine starts with no lines at frame 0, satisfying its invariant |
| Animation.Engine.IsCollision | ComingSoonPage/script.js:103-111 | the loop returns true iff a new line at (x, y, angle) intersects some line on screen, active or not |
| Animation.Engine.Search | ComingSoonPage/script.js:116-123 | the do-while loop leaves the lines unchanged and ends with the attempt count `AttemptsMade` gives and the position generated in the last attempt |
| Animation.Engine.PushLine | ComingSoonPage/script.js:127-130 | push then shift-on-overflow: the new states are the bounded old states plus one new line; the line objects stay distinct |
| Animation.Engine.AddLine | ComingSoonPage/script.js:114-133 | the lines after `addLine()` are exactly `Spawn` of the lines before; the frame count is unchanged |
| Animation.Engine.UpdateActive | ComingSoonPage/script.js:139-141 | the states after the `forEach` are exactly the update pass applied to the states before |
| Animation.Engine.NextFrame | ComingSoonPage/script.js:144 | `frameCount++` changes nothing else |
| Animation.Engine.Animate | ComingSoonPage/script.js:136-144 | the engine after `animate()` is exactly one `Step` of the engine before, and the engine invariant is kept |

## Left out

- Canvas drawing: the `ctx` calls of `update` and the end point it returns (script.js:39-59), `clearRect` (137) and the initial canvas sizing (1-6). They are rendering with no effect on the engine state. The canvas width and height are parameters.
- Frame scheduling with `requestAnimationFrame` (145). One call of `animate()` is modelled; the endless loop is the repetition of that step.
- The resize handler, the audio toggle and the cookie-consent banner (script.js:151 onward). They are DOM, audio and cookie plumbing outside the animation engine.
- Floating point. Opacity is counted in exact hundredths, so the fade reaches exactly 0 after 50 steps. Coordinates are exact reals, and `denom === 0` is decided exactly. `Math.cos`/`Math.sin` of a diagonal are its signs times the constant `DiagonalLeg` (400 * cos(pi/4) as a double). In doubles, a fade that stops just above 0 would give one more frame of life, and a rounding of `denom`, `ua` or `ub` could flip a borderline collision. In doubles `400 * Math.sin(Math.PI / 4)` is one unit in the last place below `400 * Math.cos(Math.PI / 4)`, so for two opposite directions `denom` is a tiny non-zero number rather than 0. The differences `p2.x - p1.x` and so on are also rounded per line, so even equal directions need not give `denom === 0`. Collision.ParallelNeverIntersect therefore holds only in this exact-real idealisation, for opposite directions in particular.
- The distribution of `Math.random`. Each call's value is an input in [0, 1): `Draw` holds the five values of one attempt, and `stored` holds the value of the final `randomAngle()` call. Uniformity is not stated.
- The helper methods `Search`, `PushLine`, `UpdateActive` and `NextFrame` split the inline code of `addLine` and `animate` into smaller proved steps; `addLine` and `animate` themselves are `AddLine` and `Animate`.
- Aliasing of line objects is not explored: the engine requires its `Line` objects to be distinct (`Distinct`). The code only ever pushes freshly constructed lines, so this holds; the constructor establishes it and every method keeps it.
