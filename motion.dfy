/** The motion translator of the controller server: it turns one movement
    sample (an angle in degrees and an intensity) into a direction, the logical
    keys that direction holds, a per-tick displacement and a tick period. */
module Motion {
  import opened Wrappers

  /** The server's configuration record. Only `mouseSensitivity` and
      `movementSpeed` are read by the code; the two bounds are declared and
      never used. */
  datatype Config = Config(
    mouseSensitivity: real,
    movementSpeed: real,
    maxMovementSpeed: real,
    minMovementSpeed: real)

  const DefaultConfig: Config := Config(1.0, 1.0, 2.0, 0.5)

  /** The eight direction labels, plus `Unclassified` for the empty label the
      code starts from before any band has matched. */
  datatype Direction =
    | Unclassified
    | Right | Down | Left | Up
    | DownRight | DownLeft | UpLeft | UpRight
  {
    /** The logical keys the direction holds, in the order the code lists them. */
    function Keys(): seq<char>
    {
      match this
      case Unclassified => []
      case Right => ['d']
      case Down => ['s']
      case Left => ['a']
      case Up => ['w']
      case DownRight => ['s', 'd']
      case DownLeft => ['s', 'a']
      case UpLeft => ['w', 'a']
      case UpRight => ['w', 'd']
    }
  }

  /** One of the four logical keys. */
  predicate IsKey(k: char)
  {
    k == 'w' || k == 'a' || k == 's' || k == 'd'
  }

  /** No key occurs twice. */
  predicate Distinct(ks: seq<char>)
  {
    forall i, j :: 0 <= i < j < |ks| ==> ks[i] != ks[j]
  }

  /** The set of keys in a key list. */
  function Elems(ks: seq<char>): set<char>
  {
    set k | k in ks
  }

  /** The label and the key list the classifier produces. */
  datatype Classification = Classification(direction: Direction, keys: seq<char>)

  /** First stage: the four 90-degree base bands, compared against the raw
      angle in the code's order. The first branch catches everything outside
      [45, 315), so one of the four always fires; the final `else` is the
      code's fall-through, which leaves the label empty. */
  function BaseBand(angle: real): (c: Classification)
    ensures c.direction in {Right, Down, Left, Up}
    ensures c.keys == c.direction.Keys() && |c.keys| == 1
  {
    if angle >= 315.0 || angle < 45.0 then Classification(Right, ['d'])
    else if angle >= 45.0 && angle < 135.0 then Classification(Down, ['s'])
    else if angle >= 135.0 && angle < 225.0 then Classification(Left, ['a'])
    else if angle >= 225.0 && angle < 315.0 then Classification(Up, ['w'])
    else Classification(Unclassified, [])
  }

  /** The four 45-degree diagonal bands. */
  predicate InDiagonalBand(angle: real)
  {
    || (22.5 <= angle < 67.5)
    || (112.5 <= angle < 157.5)
    || (202.5 <= angle < 247.5)
    || (292.5 <= angle < 337.5)
  }

  /** Second stage: a diagonal band, when the angle lies in one, overwrites the
      base result with a two-key result; otherwise the base result stands. */
  function Classify(angle: real): (c: Classification)
    ensures c.direction != Unclassified && c.keys == c.direction.Keys()
    ensures 1 <= |c.keys| <= 2 && Distinct(c.keys)
    ensures forall k :: k in c.keys ==> IsKey(k)
    ensures |c.keys| == 2 <==> InDiagonalBand(angle)
    ensures !InDiagonalBand(angle) ==> c == BaseBand(angle)
  {
    var base := BaseBand(angle);
    if angle >= 22.5 && angle < 67.5 then Classification(DownRight, ['s', 'd'])
    else if angle >= 112.5 && angle < 157.5 then Classification(DownLeft, ['s', 'a'])
    else if angle >= 202.5 && angle < 247.5 then Classification(UpLeft, ['w', 'a'])
    else if angle >= 292.5 && angle < 337.5 then Classification(UpRight, ['w', 'd'])
    else base
  }

  /** The compass points clockwise from 0 degrees, 45 degrees apart, as a
      reference for the two-stage classifier. */
  const Compass: seq<Direction> :=
    [Right, DownRight, Down, DownLeft, Left, UpLeft, Up, UpRight]

  /** The index of the compass point nearest to the angle (ties go clockwise). */
  function Octant(angle: real): (i: int)
    ensures 0 <= i < 8
  {
    ((angle + 22.5) / 45.0).Floor % 8
  }

  /** On [0, 360) the two-stage classifier picks the nearest of the eight
      compass points: diagonal bands win over base bands exactly where a
      diagonal is nearer. */
  lemma ClassifyIsNearestCompassPoint(angle: real)
    requires 0.0 <= angle < 360.0
    ensures Classify(angle).direction == Compass[Octant(angle)]
  {
  }

  /** The code never reduces the angle modulo 360: `Right` is produced exactly
      for angles below 22.5 (negative ones included) and at or above 337.5
      (360 and beyond included). */
  lemma RightExactlyOutsideDiagonals(angle: real)
    ensures Classify(angle) == Classification(Right, ['d']) <==> angle < 22.5 || angle >= 337.5
  {
  }

  /** Each key is held over one 135-degree window of raw angles. */
  lemma KeyWindows(angle: real)
    ensures 'd' in Classify(angle).keys <==> angle < 67.5 || angle >= 292.5
    ensures 's' in Classify(angle).keys <==> 22.5 <= angle < 157.5
    ensures 'a' in Classify(angle).keys <==> 112.5 <= angle < 247.5
    ensures 'w' in Classify(angle).keys <==> 202.5 <= angle < 337.5
  {
  }

  /** The cardinal angles give single keys; 45 and 315 fall in diagonal bands. */
  lemma ClassifyExamples()
    ensures Classify(0.0) == Classification(Right, ['d'])
    ensures Classify(90.0) == Classification(Down, ['s'])
    ensures Classify(180.0) == Classification(Left, ['a'])
    ensures Classify(270.0) == Classification(Up, ['w'])
    ensures Classify(45.0) == Classification(DownRight, ['s', 'd'])
    ensures Classify(315.0) == Classification(UpRight, ['w', 'd'])
    ensures Classify(360.0) == Classification(Right, ['d'])
    ensures Classify(-90.0) == Classification(Right, ['d'])
  {
  }

  /** The interval period in milliseconds: 50 minus 20 per unit of
      `movementSpeed * intensity`, floored at 16. */
  function TickPeriod(config: Config, intensity: real): (ms: real)
    ensures ms >= 16.0
    ensures ms >= 50.0 - config.movementSpeed * intensity * 20.0
    ensures ms == 16.0 || ms == 50.0 - config.movementSpeed * intensity * 20.0
  {
    var moveSpeed := config.movementSpeed * intensity;
    Max(16.0, 50.0 - moveSpeed * 20.0)
  }

  /** With the default configuration, intensity 1 gives 30 ms; a speed of 2.5
      reaches the 16 ms floor. */
  lemma TickPeriodExamples()
    ensures TickPeriod(DefaultConfig, 1.0) == 30.0
    ensures TickPeriod(DefaultConfig, 2.5) == 16.0
    ensures TickPeriod(DefaultConfig.(movementSpeed := 2.5), 1.0) == 16.0
  {
  }

  /** For a non-negative speed, more intensity never lengthens the period. */
  lemma TickPeriodAntitone(config: Config, lo: real, hi: real)
    requires 0.0 <= config.movementSpeed && lo <= hi
    ensures TickPeriod(config, hi) <= TickPeriod(config, lo)
  {
  }

  /** One `movement` message: `angle` is `None` when it is not a number and
      `intensity` is `None` when the field is absent. */
  datatype MovementInput = MovementInput(angle: Option<real>, isActive: bool, intensity: Option<real>)

  /** An absent intensity defaults to 1.0. */
  function IntensityOf(input: MovementInput): (intensity: real)
    ensures input.intensity.None? ==> intensity == 1.0
    ensures input.intensity.Some? ==> intensity == input.intensity.value
  {
    input.intensity.GetOr(1.0)
  }

  /** What one active sample is turned into. */
  datatype MovementPlan = MovementPlan(
    direction: Direction,
    keys: seq<char>,
    dx: real,
    dy: real,
    period: real)

  /** The translator: only an active sample with a numeric angle yields a plan.
      `cosA` and `sinA` are the cosine and sine of the angle, which the host
      computes in floating point. */
  function Plan(config: Config, input: MovementInput, cosA: real, sinA: real): (p: Option<MovementPlan>)
    ensures p.Some? <==> input.isActive && input.angle.Some?
    ensures p.Some? ==>
      && p.value.direction != Unclassified
      && p.value.keys == p.value.direction.Keys()
      && 1 <= |p.value.keys| <= 2 && Distinct(p.value.keys)
      && (forall k :: k in p.value.keys ==> IsKey(k))
      && p.value.period >= 16.0
    ensures p.Some? ==>
      var c := Classify(input.angle.value);
      && p.value.direction == c.direction && p.value.keys == c.keys
      && p.value.period == TickPeriod(config, IntensityOf(input))
    ensures p.Some? && input.intensity.None? && config == DefaultConfig ==> p.value.period == 30.0
  {
    if input.isActive && input.angle.Some? then
      var angle := input.angle.value;
      var intensity := IntensityOf(input);
      var dx := cosA * 10.0 * intensity * config.mouseSensitivity;
      var dy := sinA * 10.0 * intensity * config.mouseSensitivity;
      var c := Classify(angle);
      Some(MovementPlan(c.direction, c.keys, dx, dy, TickPeriod(config, intensity)))
    else
      None
  }
}
