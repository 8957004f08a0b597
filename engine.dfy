/** The line-animation engine: the collision check against the lines on
    screen, the spawn policy of `addLine`, the frame step of `animate`, and
    the mutable engine state (`lines` and `frameCount`) that they update. */
module Animation {
  import opened Lines
  import opened Segments
  import opened Collision
  import opened Placement

  /** Most lines kept on screen at once. */
  const MaxLines: nat := 12
  /** Frames between two spawn attempts. */
  const Delay: nat := 30
  /** Cap on the placement attempts of one `addLine`. */
  const MaxAttempts: nat := 10

  /** `isCollision`: a new line at the candidate's place and angle intersects
      some line on screen, active or not. */
  predicate Collides(lines: seq<LineState>, candidate: LineState)
  {
    exists i | 0 <= i < |lines| :: LinesIntersect(candidate, lines[i])
  }

  predicate AllValid(draws: seq<Draw>)
  {
    forall i | 0 <= i < |draws| :: ValidDraw(draws[i])
  }

  /** The result of the collision check of each attempt, in order. */
  function Checks(lines: seq<LineState>, width: nat, height: nat, draws: seq<Draw>): seq<bool>
    requires AllValid(draws)
  {
    seq(|draws|, i requires 0 <= i < |draws| => Collides(lines, Candidate(width, height, draws[i])))
  }

  /** The index of the first attempt whose check finds no collision
      (`|hits|` when every check does). */
  function FirstMiss(hits: seq<bool>): (k: nat)
    ensures k <= |hits|
    ensures forall j | 0 <= j < k :: hits[j]
    ensures k < |hits| ==> !hits[k]
  {
    if |hits| == 0 || !hits[0] then 0 else 1 + FirstMiss(hits[1..])
  }

  /** The value of `attempts` when the do-while loop of `addLine` exits: it
      stops after the first collision-free attempt or after `MaxAttempts`. */
  function AttemptsMade(hits: seq<bool>): (n: nat)
    requires |hits| == MaxAttempts
    ensures 1 <= n <= MaxAttempts
    ensures forall j | 0 <= j < n - 1 :: hits[j]
    ensures n < MaxAttempts ==> !hits[n - 1]
  {
    var k := FirstMiss(hits);
    if k + 1 < MaxAttempts then k + 1 else MaxAttempts
  }

  /** The loop ends after attempt `j` when `j` is the first collision-free
      attempt among the first nine, and runs all ten attempts when the first
      nine all collide; a line is pushed exactly in the first case. */
  lemma AttemptsMadeCases(hits: seq<bool>)
    requires |hits| == MaxAttempts
    ensures forall j | 0 <= j < MaxAttempts - 1 ::
      (!hits[j] && forall i | 0 <= i < j :: hits[i]) ==> AttemptsMade(hits) == j + 1
    ensures (forall i | 0 <= i < MaxAttempts - 1 :: hits[i]) <==> AttemptsMade(hits) == MaxAttempts
  {
  }

  /** The buffer after a push: `shift()` drops the oldest line once there
      are more than `MaxLines`. A buffer one push past capacity is brought
      back within it; only the oldest lines can go, the rest keep their
      order, and a buffer within capacity is left alone. */
  function Bounded(lines: seq<LineState>): (r: seq<LineState>)
    ensures |lines| <= MaxLines + 1 ==> |r| <= MaxLines
    ensures |lines| - 1 <= |r| <= |lines|
    ensures r == lines[|lines| - |r|..]
    ensures |lines| <= MaxLines ==> r == lines
  {
    if |lines| > MaxLines then lines[1..] else lines
  }

  /** The line `addLine` pushes after attempt `d`: at that attempt's
      position, with the angle of a fresh `randomAngle()` call rather than the
      one that was checked. */
  function Placed(width: nat, height: nat, d: Draw, stored: real): LineState
    requires ValidDraw(d) && IsRandom(stored)
  {
    var position := GeneratePosition(width, height, d);
    NewLine(position.x, position.y, RandomAngle(stored))
  }

  /** `addLine()` on the lines on screen at frame `frame`, on a canvas of the
      given size. `draws[i]` holds the random values of attempt `i` and
      `stored` the one of the `randomAngle()` call that picks the angle the
      new line is given. */
  function Spawn(lines: seq<LineState>, frame: nat, width: nat, height: nat, draws: seq<Draw>, stored: real): seq<LineState>
    requires |draws| == MaxAttempts && AllValid(draws) && IsRandom(stored)
  {
    if frame % Delay != 0 then lines
    else
      var attempts := AttemptsMade(Checks(lines, width, height, draws));
      if attempts < MaxAttempts then
        Bounded(lines + [Placed(width, height, draws[attempts - 1], stored)])
      else lines
  }

  /** The update pass of `animate()`: every active line is updated once. */
  function Advance(lines: seq<LineState>): (r: seq<LineState>)
  {
    seq(|lines|, i requires 0 <= i < |lines| => Animated(lines[i]))
  }

  /** The engine state between two frames. */
  datatype Scene = Scene(lines: seq<LineState>, frameCount: nat)

  /** One call of `animate()`. */
  function Step(s: Scene, width: nat, height: nat, draws: seq<Draw>, stored: real): Scene
    requires |draws| == MaxAttempts && AllValid(draws) && IsRandom(stored)
  {
    Scene(Spawn(Advance(s.lines), s.frameCount, width, height, draws, stored), s.frameCount + 1)
  }

  /** The invariant of the engine: at most `MaxLines` lines, each in a state
      its constructor and updates can reach. */
  ghost predicate SceneOk(s: Scene)
  {
    |s.lines| <= MaxLines && forall i | 0 <= i < |s.lines| :: WellFormed(s.lines[i])
  }

  /** Spawns happen only on frames 0, 30, 60, ...: on any other frame
      `addLine` leaves the lines as they are. */
  lemma SpawnOnlyOnDelay(lines: seq<LineState>, frame: nat, width: nat, height: nat, draws: seq<Draw>, stored: real)
    requires |draws| == MaxAttempts && AllValid(draws) && IsRandom(stored)
    requires frame % Delay != 0
    ensures Spawn(lines, frame, width, height, draws, stored) == lines
  {
  }

  /** On a spawn frame, when attempt `j` is the first whose candidate
      collides with nothing and `j` is one of the first nine, the line pushed
      sits at attempt `j`'s position, with the stored angle, fully opaque and
      not yet grown, behind the lines already there. */
  lemma SpawnPlacesFirstFree(lines: seq<LineState>, frame: nat, width: nat, height: nat, draws: seq<Draw>, stored: real, j: nat)
    requires |draws| == MaxAttempts && AllValid(draws) && IsRandom(stored)
    requires frame % Delay == 0 && j < MaxAttempts - 1
    requires forall i | 0 <= i < j :: Collides(lines, Candidate(width, height, draws[i]))
    requires !Collides(lines, Candidate(width, height, draws[j]))
    ensures Spawn(lines, frame, width, height, draws, stored) == Bounded(lines + [Placed(width, height, draws[j], stored)])
  {
    var hits := Checks(lines, width, height, draws);
    assert AllHit(hits, j);
    AttemptsMadeCases(hits);
    AttemptsMadeUnique(hits, j + 1);
  }

  /** The retry cap is nine, not ten: when the first nine candidates all
      collide, nothing is pushed, even if the tenth is collision-free. */
  lemma TenthAttemptNeverPlaces(lines: seq<LineState>, frame: nat, width: nat, height: nat, draws: seq<Draw>, stored: real)
    requires |draws| == MaxAttempts && AllValid(draws) && IsRandom(stored)
    requires forall i | 0 <= i < MaxAttempts - 1 :: Collides(lines, Candidate(width, height, draws[i]))
    ensures Spawn(lines, frame, width, height, draws, stored) == lines
  {
    AttemptsMadeCases(Checks(lines, width, height, draws));
  }

  /** Pushing onto a buffer of at most `MaxLines` lines keeps it within
      `MaxLines`: below capacity the new line is appended, at capacity the
      oldest line (index 0) is dropped; the others keep their order and the
      new line is last. */
  lemma BoundedPush(lines: seq<LineState>, line: LineState)
    requires |lines| <= MaxLines
    ensures var r := Bounded(lines + [line]);
      && |r| <= MaxLines && r[|r| - 1] == line
      && (|lines| < MaxLines ==> r == lines + [line])
      && (|lines| == MaxLines ==> r == lines[1..] + [line])
  {
    var r := Bounded(lines + [line]);
    if |lines| == MaxLines {
      assert r == (lines + [line])[1..];
      assert (lines + [line])[1..] == lines[1..] + [line];
    }
  }

  /** `addLine` pushes at most one line: the result is either the lines as
      they were, or the lines with one new, fully opaque, not yet grown line
      pushed behind them. */
  lemma SpawnPushesAtMostOne(lines: seq<LineState>, frame: nat, width: nat, height: nat, draws: seq<Draw>, stored: real)
    requires |draws| == MaxAttempts && AllValid(draws) && IsRandom(stored)
    ensures var r := Spawn(lines, frame, width, height, draws, stored);
      || r == lines
      || exists x: real, y: real, a: Angle :: r == Bounded(lines + [NewLine(x, y, a)])
  {
    var r := Spawn(lines, frame, width, height, draws, stored);
    if r != lines {
      var l := Placed(width, height, draws[AttemptsMade(Checks(lines, width, height, draws)) - 1], stored);
      assert r == Bounded(lines + [NewLine(l.x, l.y, l.angle)]);
    }
  }

  /** The collision test looks only at where lines start and which way they
      point, so growing and fading lines change nothing about it. */
  lemma IntersectSeesOnlyAnchors(candidate: LineState, line1: LineState, line2: LineState)
    requires line1.x == line2.x && line1.y == line2.y && line1.angle == line2.angle
    ensures LinesIntersect(candidate, line1) == LinesIntersect(candidate, line2)
  {
    assert Origin(line1) == Origin(line2);
    assert FullEnd(line1) == FullEnd(line2);
  }

  /** The update pass keeps the number and order of lines, never moves or
      turns a line, leaves inactive lines untouched and keeps every line
      well-formed. */
  lemma AdvancePreserves(lines: seq<LineState>)
    ensures var r := Advance(lines);
      && |r| == |lines|
      && (forall i | 0 <= i < |lines| :: r[i].x == lines[i].x && r[i].y == lines[i].y && r[i].angle == lines[i].angle)
      && (forall i | 0 <= i < |lines| :: !lines[i].active ==> r[i] == lines[i])
      && (forall i | 0 <= i < |lines| :: WellFormed(lines[i]) ==> WellFormed(r[i]))
  {
    forall i | 0 <= i < |lines| && WellFormed(lines[i]) {
      AnimatedWellFormed(lines[i]);
    }
  }

  /** A collision check sees the same thing before and after the update pass. */
  lemma CollidesAfterAdvance(lines: seq<LineState>, candidate: LineState)
    ensures Collides(Advance(lines), candidate) == Collides(lines, candidate)
  {
    AdvancePreserves(lines);
    forall i | 0 <= i < |lines| {
      IntersectSeesOnlyAnchors(candidate, Advance(lines)[i], lines[i]);
    }
  }

  /** `addLine` keeps the engine invariant: at most twelve lines, all
      well-formed. */
  lemma SpawnKeepsSceneOk(lines: seq<LineState>, frame: nat, width: nat, height: nat, draws: seq<Draw>, stored: real)
    requires |draws| == MaxAttempts && AllValid(draws) && IsRandom(stored)
    requires SceneOk(Scene(lines, frame))
    ensures SceneOk(Scene(Spawn(lines, frame, width, height, draws, stored), frame))
  {
    var r := Spawn(lines, frame, width, height, draws, stored);
    if r != lines {
      var l := Placed(width, height, draws[AttemptsMade(Checks(lines, width, height, draws)) - 1], stored);
      BoundedPush(lines, l);
      forall i | 0 <= i < |r|
        ensures WellFormed(r[i])
      {
        if |lines| == MaxLines {
          assert i < |r| - 1 ==> r[i] == lines[i + 1];
        } else {
          assert i < |r| - 1 ==> r[i] == lines[i];
        }
      }
    }
  }

  /** One frame adds exactly one to the frame count and keeps the engine
      invariant. */
  lemma StepKeepsSceneOk(s: Scene, width: nat, height: nat, draws: seq<Draw>, stored: real)
    requires |draws| == MaxAttempts && AllValid(draws) && IsRandom(stored)
    requires SceneOk(s)
    ensures Step(s, width, height, draws, stored).frameCount == s.frameCount + 1
    ensures SceneOk(Step(s, width, height, draws, stored))
  {
    AdvancePreserves(s.lines);
    SpawnKeepsSceneOk(Advance(s.lines), s.frameCount, width, height, draws, stored);
  }

  /** The line stored is not the line checked: with one line on screen from
      (0, 0) towards pi/4, an 800 x 800 canvas, a first attempt at (200, 0)
      whose checked angle pi/4 is parallel to it, and a stored angle of 3pi/4,
      the line pushed crosses the line already there, whatever the later
      attempts would have drawn. */
  lemma StoredAngleCanCross(draws: seq<Draw>)
    requires |draws| == MaxAttempts && AllValid(draws)
    requires draws[0] == Draw(0.25, 0.0, 0.0, 0.0, 0.0)
    ensures var existing := NewLine(0.0, 0.0, QuarterPi);
      var r := Spawn([existing], 0, 800, 800, draws, 0.25);
      && !Collides([existing], Candidate(800, 800, draws[0]))
      && r == [existing, NewLine(200.0, 0.0, ThreeQuarterPi)]
      && LinesIntersect(r[1], r[0])
  {
    var existing := NewLine(0.0, 0.0, QuarterPi);
    ExampleAttempt();
    ParallelNeverIntersect(Candidate(800, 800, draws[0]), existing);
    assert !Collides([existing], Candidate(800, 800, draws[0]));
    SpawnPlacesFirstFree([existing], 0, 800, 800, draws, 0.25, 0);
    ExampleCrossing();
  }

  /** The attempt of the example: checked at (200, 0) towards pi/4, stored
      at (200, 0) towards 3pi/4. */
  lemma ExampleAttempt()
    ensures Candidate(800, 800, Draw(0.25, 0.0, 0.0, 0.0, 0.0)) == NewLine(200.0, 0.0, QuarterPi)
    ensures Placed(800, 800, Draw(0.25, 0.0, 0.0, 0.0, 0.0), 0.25) == NewLine(200.0, 0.0, ThreeQuarterPi)
  {
    assert PickIndex(0.25, GridSize) == 2;
    assert PickIndex(0.0, GridSize) == 0;
    assert CellSize(800) == 100.0;
    assert GeneratePosition(800, 800, Draw(0.25, 0.0, 0.0, 0.0, 0.0)) == Point(200.0, 0.0);
    assert PickIndex(0.0, 4) == 0;
    assert PickIndex(0.25, 4) == 1;
  }

  /** The lines of the example cross, at (100, 100). */
  lemma ExampleCrossing()
    ensures LinesIntersect(NewLine(200.0, 0.0, ThreeQuarterPi), NewLine(0.0, 0.0, QuarterPi))
  {
    var h := DiagonalLeg;
    assert ReachX(NewLine(200.0, 0.0, ThreeQuarterPi)) == -h;
    assert ReachY(NewLine(200.0, 0.0, ThreeQuarterPi)) == h;
    assert ReachX(NewLine(0.0, 0.0, QuarterPi)) == h;
    assert ReachY(NewLine(0.0, 0.0, QuarterPi)) == h;
    assert ParametersInRange(-h, h, h, h, 200.0, 0.0);
  }

  /** The check of attempt `k`, made on the generated position and the
    freshly drawn angle, is entry `k` of `Checks`. */
  lemma CheckAt(lines: seq<LineState>, width: nat, height: nat, draws: seq<Draw>, k: nat, hit: bool)
    requires AllValid(draws) && k < |draws|
    requires hit == Collides(lines, NewLine(GeneratePosition(width, height, draws[k]).x,
                                            GeneratePosition(width, height, draws[k]).y,
                                            RandomAngle(draws[k].angle)))
    ensures hit == Checks(lines, width, height, draws)[k]
  {
  }

  /** The first `n` checks all found a collision. */
  predicate AllHit(hits: seq<bool>, n: nat)
    requires n <= |hits|
  {
    forall j | 0 <= j < n :: hits[j]
  }

  /** One more check that found a collision extends the run. */
  lemma AllHitExtend(hits: seq<bool>, n: nat)
    requires n < |hits| && AllHit(hits, n) && hits[n]
    ensures AllHit(hits, n + 1)
  {
  }

  /** The loop count is determined by the check results: it is the one
      `n` whose first `n - 1` checks found a collision and whose last check,
      unless it was the tenth, did not. */
  lemma AttemptsMadeUnique(hits: seq<bool>, n: nat)
    requires |hits| == MaxAttempts && 1 <= n <= MaxAttempts
    requires AllHit(hits, n - 1)
    requires n < MaxAttempts ==> !hits[n - 1]
    ensures AttemptsMade(hits) == n
  {
  }

  /** The two outcomes of a spawn frame, by the loop count. */
  lemma SpawnPushes(lines: seq<LineState>, frame: nat, width: nat, height: nat, draws: seq<Draw>, stored: real, attempts: nat)
    requires |draws| == MaxAttempts && AllValid(draws) && IsRandom(stored)
    requires frame % Delay == 0 && attempts == AttemptsMade(Checks(lines, width, height, draws)) < MaxAttempts
    ensures Spawn(lines, frame, width, height, draws, stored) == Bounded(lines + [Placed(width, height, draws[attempts - 1], stored)])
  {
  }

  lemma SpawnKeeps(lines: seq<LineState>, frame: nat, width: nat, height: nat, draws: seq<Draw>, stored: real)
    requires |draws| == MaxAttempts && AllValid(draws) && IsRandom(stored)
    requires AttemptsMade(Checks(lines, width, height, draws)) == MaxAttempts
    ensures Spawn(lines, frame, width, height, draws, stored) == lines
  {
  }

  /** The state of each line object, in order. */
  function States(ls: seq<Line>): seq<LineState>
    reads ls
  {
    seq(|ls|, i reads ls requires 0 <= i < |ls| => ls[i].State())
  }

  /** The states of an appended line sequence. */
  lemma StatesAppend(ls: seq<Line>, l: Line)
    ensures States(ls + [l]) == States(ls) + [l.State()]
  {
    assert States(ls + [l])[..|ls|] == States(ls);
  }

  /** The engine: the global `lines` array and `frameCount`. */
  class Engine {
    var lines: seq<Line>
    var frameCount: nat

    /** No line object is held twice. */
    ghost predicate Distinct()
      reads this
    {
      forall i, j | 0 <= i < j < |lines| :: lines[i] != lines[j]
    }

    /** Distinct line objects whose states satisfy the engine invariant. */
    ghost predicate Valid()
      reads this, lines
    {
      Distinct() && SceneOk(Current())
    }

    /** The engine state as a value. */
    function Current(): Scene
      reads this, lines
    {
      Scene(States(lines), frameCount)
    }

    /** The page's start: no lines, frame 0. */
    constructor ()
      ensures Valid() && Current() == Scene([], 0)
    {
      lines := [];
      frameCount := 0;
    }

    /** `isCollision(x, y, angle)`: whether a new line there collides with a
      line on screen. Nothing is changed. */
    method IsCollision(x: real, y: real, angle: Angle) returns (hit: bool)
      ensures hit == Collides(States(lines), NewLine(x, y, angle))
    {
      var newLine := new Line(x, y, angle);
      var i := 0;
      while i < |lines|
        invariant 0 <= i <= |lines|
        invariant forall j | 0 <= j < i :: !LinesIntersect(newLine.State(), lines[j].State())
      {
        if LinesIntersect(newLine.State(), lines[i].State()) {
          assert States(lines)[i] == lines[i].State();
          return true;
        }
        i := i + 1;
      }
      return false;
    }

    /** The do-while loop of `addLine()`: generate a position, count the
      attempt, and check it with a freshly drawn angle, until a check finds
      no collision or `MaxAttempts` attempts have been made. */
    method Search(width: nat, height: nat, draws: seq<Draw>) returns (position: Point, attempts: nat)
      requires |draws| == MaxAttempts && AllValid(draws)
      ensures lines == old(lines) && States(lines) == old(States(lines))
      ensures attempts == AttemptsMade(Checks(old(States(lines)), width, height, draws))
      ensures position == GeneratePosition(width, height, draws[attempts - 1])
    {
      ghost var onScreen := States(lines);
      ghost var hits := Checks(onScreen, width, height, draws);
      position := Point(0.0, 0.0);
      attempts := 0;
      var searching := true;
      while searching
        invariant attempts <= MaxAttempts && States(lines) == onScreen
        invariant searching ==> attempts < MaxAttempts && AllHit(hits, attempts)
        invariant !searching ==> 1 <= attempts && position == GeneratePosition(width, height, draws[attempts - 1])
        invariant !searching ==> AllHit(hits, attempts - 1)
        invariant !searching && attempts < MaxAttempts ==> !hits[attempts - 1]
        decreases MaxAttempts - attempts
      {
        ghost var before := attempts;
        position := GeneratePosition(width, height, draws[attempts]);
        attempts := attempts + 1;
        var hit := IsCollision(position.x, position.y, RandomAngle(draws[attempts - 1].angle));
        CheckAt(onScreen, width, height, draws, before, hit);
        if hit {
          AllHitExtend(hits, before);
        }
        searching := hit && attempts < MaxAttempts;
      }
      AttemptsMadeUnique(hits, attempts);
    }

    /** `addLine()`, with the random values of its attempts and of its
      stored angle passed in. */
    method AddLine(width: nat, height: nat, draws: seq<Draw>, stored: real)
      requires |draws| == MaxAttempts && AllValid(draws) && IsRandom(stored)
      requires Distinct()
      modifies this
      ensures Distinct()
      ensures Current() == Scene(Spawn(old(States(lines)), old(frameCount), width, height, draws, stored), old(frameCount))
    {
      ghost var onScreen := States(lines);
      if frameCount % Delay == 0 {
        var position, attempts := Search(width, height, draws);
        if attempts < MaxAttempts {
          SpawnPushes(onScreen, frameCount, width, height, draws, stored, attempts);
          PushLine(position.x, position.y, RandomAngle(stored));
        } else {
          SpawnKeeps(onScreen, frameCount, width, height, draws, stored);
        }
      }
    }

    /** `lines.push(new Line(x, y, angle))`, then `lines.shift()` if that
      made the buffer overflow. */
    method PushLine(x: real, y: real, angle: Angle)
      requires Distinct()
      modifies this
      ensures frameCount == old(frameCount)
      ensures Distinct()
      ensures States(lines) == Bounded(old(States(lines)) + [NewLine(x, y, angle)])
    {
      var line := new Line(x, y, angle);
      ghost var grown := lines + [line];
      StatesAppend(lines, line);
      assert States(grown[1..]) == States(grown)[1..];
      lines := lines + [line];
      if |lines| > MaxLines {
        lines := lines[1..];
      }
    }

    /** The update pass of `animate()`: `update()` on every active line. */
    method UpdateActive()
      requires Distinct()
      modifies lines
      ensures States(lines) == Advance(old(States(lines)))
    {
      var i := 0;
      while i < |lines|
        invariant 0 <= i <= |lines|
        invariant forall j | 0 <= j < |lines| ::
          lines[j].State() == if j < i then Animated(old(lines[j].State())) else old(lines[j].State())
      {
        if lines[i].active {
          lines[i].Update();
        }
        i := i + 1;
      }
    }

    /** One call of `animate()`: update every active line, run `addLine()`,
      and count the frame (drawing and scheduling aside). */
    method Animate(width: nat, height: nat, draws: seq<Draw>, stored: real)
      requires |draws| == MaxAttempts && AllValid(draws) && IsRandom(stored)
      requires Valid()
      modifies this, lines
      ensures Valid()
      ensures Current() == Step(old(Current()), width, height, draws, stored)
    {
      StepKeepsSceneOk(Current(), width, height, draws, stored);
      UpdateActive();
      AddLine(width, height, draws, stored);
      NextFrame();
    }

    /** `frameCount++`. */
    method NextFrame()
      modifies this
      ensures lines == old(lines) && frameCount == old(frameCount) + 1
      ensures States(lines) == old(States(lines))
    {
      frameCount := frameCount + 1;
    }
  }
}
