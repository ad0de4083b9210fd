/**
 * One control cycle: pick the target PWM value (forced or from the curve), apply the minimum
 * floor, and write the result to the fan. The command-line options become an explicit
 * configuration value.
 */
module Controller {
  import opened Outcomes
  import opened Units
  import opened Curve

  /** The options that steer the cycle; each is absent unless given on the command line. */
  datatype Config = Config(
    tempMin: Option<int>,  // --min, degrees
    tempMax: Option<int>,  // --max, degrees
    force: Option<int>,    // --force, percentage
    minPwm: Option<int>)   // --minpwm, percentage

  const DEFAULT_TEMP_MIN: int := 40
  const DEFAULT_TEMP_MAX: int := 60
  const DEFAULT_PWM_MIN: int := 60

  /** The lower curve bound: --min if given, else 40 degrees. */
  function TempMin(config: Config): (t: int)
    ensures config.tempMin.Some? ==> t == config.tempMin.value
    ensures config.tempMin.None? ==> t == DEFAULT_TEMP_MIN
  {
    config.tempMin.GetOr(DEFAULT_TEMP_MIN)
  }

  /** The upper curve bound: --max if given, else 60 degrees. */
  function TempMax(config: Config): (t: int)
    ensures config.tempMax.Some? ==> t == config.tempMax.value
    ensures config.tempMax.None? ==> t == DEFAULT_TEMP_MAX
  {
    config.tempMax.GetOr(DEFAULT_TEMP_MAX)
  }

  /** The curve window the configuration selects; the bounds are taken as given, even when inverted. */
  function WindowOf(config: Config): (w: Window)
    ensures w.tempMin == TempMin(config) && w.tempMax == TempMax(config)
    ensures config.tempMin.None? && config.tempMax.None? ==> w == Window(40, 60)
  {
    Window(TempMin(config), TempMax(config))
  }

  /** The floor: 60 by default, else the --minpwm percentage converted (and refused if out of range). */
  function PwmMin(config: Config): (r: Result<int>)
    ensures config.minPwm.None? ==> r == Ok(DEFAULT_PWM_MIN)
    ensures config.minPwm.Some? ==> r == PercentageToPwm(config.minPwm.value)
    ensures config.minPwm.Some? ==>
              (r.Err? <==> config.minPwm.value < 0 || config.minPwm.value > 100)
    ensures r.Err? ==> r.error == PercentageOutOfRange(config.minPwm.value)
    ensures r.Ok? ==> 0 <= r.value <= PWM_MAX
  {
    match config.minPwm
    case Some(percentage) => PercentageToPwm(percentage)
    case None => Ok(DEFAULT_PWM_MIN)
  }

  /** The target value: a forced percentage wins over the temperature curve. */
  function PwmNew(config: Config, milli: int): (r: Result<int>)
    ensures config.force.None? ==> r == Ok(TemperatureToPwm(milli, WindowOf(config)))
    ensures config.force.Some? ==> r == PercentageToPwm(config.force.value)
    ensures config.force.Some? ==> (r.Err? <==> config.force.value < 0 || config.force.value > 100)
    ensures r.Err? ==> r.error == PercentageOutOfRange(config.force.value)
    ensures r.Ok? ==> 0 <= r.value <= PWM_MAX
  {
    match config.force
    case Some(percentage) => PercentageToPwm(percentage)
    case None => Ok(TemperatureToPwm(milli, WindowOf(config)))
  }

  /** With a forced percentage the temperature does not matter. */
  lemma ForceIgnoresTemperature(config: Config, milli1: int, milli2: int)
    requires config.force.Some?
    ensures PwmNew(config, milli1) == PwmNew(config, milli2)
    ensures PwmNew(config, milli1) == PercentageToPwm(config.force.value)
  {
  }

  /** Without a forced percentage the target follows the curve, so it never drops as it gets warmer. */
  lemma CurveTargetMonotone(config: Config, milli1: int, milli2: int)
    requires config.force.None? && milli1 <= milli2
    ensures PwmNew(config, milli1).value <= PwmNew(config, milli2).value
  {
    CurveMonotone(milli1, milli2, WindowOf(config));
  }

  /** With no options the window is 40..60 degrees and the floor is 60. */
  lemma Defaults()
    ensures WindowOf(Config(None, None, None, None)) == Window(40, 60)
    ensures PwmMin(Config(None, None, None, None)) == Ok(60)
  {
  }

  /** A request strictly between 0 and the floor is raised to the floor; anything else passes. */
  function ApplyFloor(pwm: int, floor: int): (r: int)
    ensures r >= pwm
    ensures pwm >= 0 ==> r == 0 || r >= floor
    ensures r != pwm ==> r == floor
    ensures 0 <= pwm <= PWM_MAX && 0 <= floor <= PWM_MAX ==> 0 <= r <= PWM_MAX
  {
    if floor > pwm > 0 then floor else pwm
  }

  /** The floor rule raises a request no further than the nearest admissible value. */
  lemma FloorIsLeastAdmissible(pwm: int, floor: int, v: int)
    requires 0 <= pwm <= v
    requires v == 0 || v >= floor
    ensures ApplyFloor(pwm, floor) <= v
  {
  }

  /** Applying the floor rule twice gives the same as applying it once. */
  lemma FloorIdempotent(pwm: int, floor: int)
    ensures ApplyFloor(ApplyFloor(pwm, floor), floor) == ApplyFloor(pwm, floor)
  {
  }

  /** What a write of `pwm` leaves on the actuator, or why nothing is written. */
  function WriteOutcome(config: Config, pwm: int): (r: Result<int>)
    ensures pwm < 0 || pwm > PWM_MAX ==> r == Err(PwmOutOfRange(pwm))
    ensures 0 <= pwm <= PWM_MAX ==> r.Err? == PwmMin(config).Err?
    ensures r.Ok? ==> 0 <= r.value <= PWM_MAX && r.value >= pwm
    ensures r.Ok? ==> r.value == 0 || r.value >= PwmMin(config).value
    ensures r.Ok? && pwm >= PwmMin(config).value ==> r.value == pwm
    ensures r.Ok? ==> r.value == ApplyFloor(pwm, PwmMin(config).value)
    ensures r.Ok? && pwm == 0 ==> r.value == 0
    ensures r.Ok? && 0 < pwm < PwmMin(config).value ==> r.value == PwmMin(config).value
  {
    if pwm < 0 || pwm > PWM_MAX then
      Err(PwmOutOfRange(pwm))
    else
      match PwmMin(config)
      case Err(e) => Err(e)
      case Ok(floor) => Ok(ApplyFloor(pwm, floor))
  }

  /** The values a write can leave on the actuator are exactly 0 and floor..PWM_MAX. */
  lemma WrittenValues(config: Config, v: int)
    requires PwmMin(config).Ok?
    ensures (exists pwm :: WriteOutcome(config, pwm) == Ok(v)) <==>
            v == 0 || PwmMin(config).value <= v <= PWM_MAX
  {
    if v == 0 || PwmMin(config).value <= v <= PWM_MAX {
      assert WriteOutcome(config, v) == Ok(v);
    }
  }

  /** One whole cycle for a reading of `milli` millidegrees: the target, then the guarded write. */
  function CycleOutcome(config: Config, milli: int): (r: Result<int>)
    ensures PwmNew(config, milli).Err? ==> r == PwmNew(config, milli)
    ensures r.Ok? ==> 0 <= r.value <= PWM_MAX
    ensures r.Ok? ==> PwmMin(config).Ok? && (r.value == 0 || r.value >= PwmMin(config).value)
    ensures r.Ok? ==> r.value >= PwmNew(config, milli).value
    ensures r.Ok? ==>
              PwmNew(config, milli).Ok? &&
              r.value == ApplyFloor(PwmNew(config, milli).value, PwmMin(config).value)
    ensures PwmNew(config, milli).Ok? && PwmMin(config).Ok? ==> r.Ok?
  {
    match PwmNew(config, milli)
    case Err(e) => Err(e)
    case Ok(pwm) => WriteOutcome(config, pwm)
  }

  /** The floor examples: 30 is raised to 60, 0 and 200 pass unchanged. */
  lemma FloorExamples()
    ensures WriteOutcome(Config(None, None, None, None), 30) == Ok(60)
    ensures WriteOutcome(Config(None, None, None, None), 0) == Ok(0)
    ensures WriteOutcome(Config(None, None, None, None), 200) == Ok(200)
    ensures WriteOutcome(Config(None, None, None, None), 256) == Err(PwmOutOfRange(256))
    ensures WriteOutcome(Config(None, None, None, None), -1) == Err(PwmOutOfRange(-1))
  {
  }

  /** End to end: 55 degrees on the default curve; a forced 10% raised to the floor. */
  lemma CycleExamples()
    ensures CycleOutcome(Config(None, None, None, None), 55000) == Ok(191)
    ensures CycleOutcome(Config(None, None, Some(10), None), 55000) == Ok(60)
    ensures CycleOutcome(Config(None, None, Some(101), None), 55000) == Err(PercentageOutOfRange(101))
    ensures CycleOutcome(Config(None, None, None, Some(-5)), 55000) == Err(PercentageOutOfRange(-5))
  {
    DefaultCurveExamples();
  }

  /** The PWM file of the fan: the one value the actuator currently holds. */
  class Fan {
    var pwm: int
    ghost var writes: seq<int>  // every value written, oldest first

    ghost predicate Valid()
      reads this
    {
      0 <= pwm <= PWM_MAX && forall i :: 0 <= i < |writes| ==> 0 <= writes[i] <= PWM_MAX
    }

    constructor (initial: int)
      requires 0 <= initial <= PWM_MAX
      ensures Valid() && pwm == initial && writes == []
    {
      pwm := initial;
      writes := [];
    }

    /** Range-check `value`, apply the floor and write; a refused value writes nothing. */
    method WritePwm(config: Config, value: int) returns (outcome: Outcome)
      requires Valid()
      modifies this
      ensures Valid()
      ensures WriteOutcome(config, value).Err? ==>
                outcome == Fail(WriteOutcome(config, value).error) && pwm == old(pwm) && writes == old(writes)
      ensures WriteOutcome(config, value).Ok? ==>
                outcome == Pass && pwm == WriteOutcome(config, value).value && writes == old(writes) + [pwm]
    {
      if value < 0 || value > PWM_MAX {
        return Fail(PwmOutOfRange(value));
      }
      var floor := PwmMin(config);
      if floor.Err? {
        return Fail(floor.error);
      }
      if floor.value > value > 0 {
        pwm := floor.value;
        writes := writes + [pwm];
        return Pass;
      }
      pwm := value;
      writes := writes + [pwm];
      outcome := Pass;
    }

    /** The script's one cycle: compute the target for the reading and write it. */
    method RunOnce(config: Config, milli: int) returns (outcome: Outcome)
      requires Valid()
      modifies this
      ensures Valid()
      ensures CycleOutcome(config, milli).Err? ==>
                outcome == Fail(CycleOutcome(config, milli).error) && pwm == old(pwm) && writes == old(writes)
      ensures CycleOutcome(config, milli).Ok? ==>
                outcome == Pass && pwm == CycleOutcome(config, milli).value && writes == old(writes) + [pwm]
    {
      var target := PwmNew(config, milli);
      if target.Err? {
        return Fail(target.error);
      }
      outcome := WritePwm(config, target.value);
    }
  }
}
