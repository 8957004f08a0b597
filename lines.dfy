/** One animated line of the coming-soon background: the module constants and
    the growing -> fading -> inactive state machine of `class Line`.

    Opacity is counted in hundredths (1 is 100, the fade step 0.02 is 2), so
    that fading is exact integer arithmetic. */
module Lines {

  /** Full length a line grows to. */
  const LineLength: int := 400
  /** Length added by each update while growing. */
  const GrowthRate: int := 2
  /** Opacity of a new line, in hundredths. */
  const FullOpacity: int := 100
  /** Opacity taken away by each update once fully grown, in hundredths. */
  const FadeRate: int := 2

  /** The four diagonal directions: pi/4, 3pi/4, -pi/4 and -3pi/4. */
  datatype Angle = QuarterPi | ThreeQuarterPi | MinusQuarterPi | MinusThreeQuarterPi
  {
    /** The sign of cos(angle). */
    function CosSign(): (s: int)
      ensures s == 1 || s == -1
    {
      match this
      case QuarterPi => 1
      case ThreeQuarterPi => -1
      case MinusQuarterPi => 1
      case MinusThreeQuarterPi => -1
    }

    /** The sign of sin(angle). */
    function SinSign(): (s: int)
      ensures s == 1 || s == -1
    {
      match this
      case QuarterPi => 1
      case ThreeQuarterPi => 1
      case MinusQuarterPi => -1
      case MinusThreeQuarterPi => -1
    }

    /** The angle pointing the other way (angle + pi). */
    function Opposite(): (r: Angle)
      ensures r.CosSign() == -CosSign() && r.SinSign() == -SinSign()
    {
      match this
      case QuarterPi => MinusThreeQuarterPi
      case ThreeQuarterPi => MinusQuarterPi
      case MinusQuarterPi => ThreeQuarterPi
      case MinusThreeQuarterPi => QuarterPi
    }
  }

  /** The value of a line's fields at one moment. */
  datatype LineState = LineState(x: real, y: real, angle: Angle, length: int, opacity: int, active: bool)

  /** A line as the constructor leaves it: not yet grown, fully opaque, active. */
  function NewLine(x: real, y: real, angle: Angle): (s: LineState)
    ensures WellFormed(s) && s.active
  {
    LineState(x, y, angle, 0, FullOpacity, true)
  }

  /** The state after one call of `update`: grow while short of the full
      length, otherwise fade, and deactivate once the opacity reaches zero. */
  function Updated(s: LineState): (r: LineState)
    ensures r.x == s.x && r.y == s.y && r.angle == s.angle
  {
    if s.length < LineLength then
      s.(length := s.length + GrowthRate)
    else
      var o := s.opacity - FadeRate;
      s.(opacity := o, active := if o <= 0 then false else s.active)
  }

  /** What one animation frame does to a line: only active lines are updated. */
  function Animated(s: LineState): LineState
  {
    if s.active then Updated(s) else s
  }

  /** The line after `n` animation frames. */
  function Aged(s: LineState, n: nat): LineState
    decreases n
  {
    if n == 0 then s else Aged(Animated(s), n - 1)
  }

  /** The states a line can reach from its construction: length is an even
      number up to the full length, opacity stays full while growing and is
      never negative, and the line is active exactly while it is visible. */
  ghost predicate WellFormed(s: LineState)
  {
    && 0 <= s.length <= LineLength && s.length % GrowthRate == 0
    && 0 <= s.opacity <= FullOpacity && s.opacity % FadeRate == 0
    && (s.length < LineLength ==> s.opacity == FullOpacity)
    && (s.active <==> s.opacity > 0)
  }

  /** While growing, an update adds exactly the growth rate and keeps the line
      opaque; once fully grown, it keeps the length and takes exactly the fade
      rate off the opacity, clearing `active` exactly when that reaches zero. */
  lemma UpdatedOnActive(s: LineState)
    requires WellFormed(s) && s.active
    ensures var r := Updated(s);
      && (s.length < LineLength ==> r.length == s.length + GrowthRate <= LineLength && r.opacity == FullOpacity && r.active)
      && (s.length >= LineLength ==> r.length == s.length == LineLength && r.opacity == s.opacity - FadeRate >= 0
                                     && (r.active <==> r.opacity > 0))
      && WellFormed(r)
  {
  }

  /** A frame keeps a well-formed line well-formed. */
  lemma AnimatedWellFormed(s: LineState)
    requires WellFormed(s)
    ensures WellFormed(Animated(s))
    ensures !s.active ==> Animated(s) == s
  {
    if s.active {
      UpdatedOnActive(s);
    }
  }

  /** Growing phase: after `k` frames, for k up to 200, a new line is `2k`
      long and still fully opaque and active. */
  lemma {:induction false} AgedGrowing(x: real, y: real, angle: Angle, k: nat)
    requires k * GrowthRate <= LineLength
    ensures Aged(NewLine(x, y, angle), k) == NewLine(x, y, angle).(length := k * GrowthRate)
  {
    if k > 0 {
      var s := NewLine(x, y, angle);
      AgedGrowing(x, y, angle, k - 1);
      AgedShift(s, k - 1);
    }
  }

  /** Fading phase: `j` frames after reaching full length, for j up to 50,
      the opacity is `100 - 2j` hundredths and the line is active exactly
      while j < 50. */
  lemma {:induction false} AgedFading(x: real, y: real, angle: Angle, j: nat)
    requires j * FadeRate <= FullOpacity
    ensures Aged(NewLine(x, y, angle), LineLength / GrowthRate + j)
         == LineState(x, y, angle, LineLength, FullOpacity - j * FadeRate, j * FadeRate < FullOpacity)
  {
    var s := NewLine(x, y, angle);
    var g := LineLength / GrowthRate;
    if j == 0 {
      AgedGrowing(x, y, angle, g);
    } else {
      AgedFading(x, y, angle, j - 1);
      AgedShift(s, g + j - 1);
    }
  }

  /** A line takes exactly 250 frames from construction to inactivity, and
      stays inactive, full length and transparent from then on. */
  lemma {:induction false} AgedLifetime(x: real, y: real, angle: Angle, n: nat)
    ensures Aged(NewLine(x, y, angle), n).active <==> n < LineLength / GrowthRate + FullOpacity / FadeRate
    ensures n >= LineLength / GrowthRate + FullOpacity / FadeRate ==>
      Aged(NewLine(x, y, angle), n) == LineState(x, y, angle, LineLength, 0, false)
  {
    var g := LineLength / GrowthRate;
    var f := FullOpacity / FadeRate;
    if n <= g {
      AgedGrowing(x, y, angle, n);
    } else if n <= g + f {
      AgedFading(x, y, angle, n - g);
    } else {
      AgedLifetime(x, y, angle, n - 1);
      AgedShift(NewLine(x, y, angle), n - 1);
    }
  }

  /** One more frame at the end of a run. */
  lemma {:induction false} AgedShift(s: LineState, n: nat)
    ensures Aged(s, n + 1) == Animated(Aged(s, n))
    decreases n
  {
    if n > 0 {
      AgedShift(Animated(s), n - 1);
    }
  }

  /** A line of the animated background. `x`, `y` and `angle` are set by the
      constructor and never assigned again; `update` changes the rest. */
  class Line {
    const x: real
    const y: real
    const angle: Angle
    var length: int
    var opacity: int
    var active: bool

    /** The current value of the fields. */
    function State(): LineState
      reads this
    {
      LineState(x, y, angle, length, opacity, active)
    }

    constructor (x: real, y: real, angle: Angle)
      ensures State() == NewLine(x, y, angle)
    {
      this.x := x;
      this.y := y;
      this.angle := angle;
      this.length := 0;
      this.opacity := FullOpacity;
      this.active := true;
    }

    /** Grow, or fade once fully grown (the drawing is not modelled). */
    method Update()
      modifies this
      ensures State() == Updated(old(State()))
    {
      if length < LineLength {
        length := length + GrowthRate;
      } else {
        opacity := opacity - FadeRate;
        if opacity <= 0 {
          active := false;
        }
      }
    }
  }
}
