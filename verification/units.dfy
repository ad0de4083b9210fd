/** Conversion between a 0..100 duty percentage and the fan's raw 0..255 PWM scale. */
module Units {
  import opened Outcomes
  import opened Rounding

  /** The largest raw value the PWM actuator accepts. */
  const PWM_MAX: int := 255

  /** round(percentage / 100 * PWM_MAX); a percentage outside 0..100 is refused. */
  function PercentageToPwm(percentage: int): (r: Result<int>)
    ensures r.Err? <==> percentage < 0 || percentage > 100
    ensures r.Err? ==> r.error == PercentageOutOfRange(percentage)
    ensures r.Ok? ==> 0 <= r.value <= PWM_MAX && IsRoundHalfEven(r.value, percentage * PWM_MAX, 100)
  {
    if percentage < 0 || percentage > 100 then
      Err(PercentageOutOfRange(percentage))
    else
      RoundBetween(percentage * PWM_MAX, 100, 0, PWM_MAX);
      Ok(RoundHalfEven(percentage * PWM_MAX, 100))
  }

  /** round(pwm / PWM_MAX * 100); the caller is trusted to pass a value in range. */
  function PwmToPercentage(pwm: int): (r: int)
    ensures IsRoundHalfEven(r, pwm * 100, PWM_MAX)
    ensures -PWM_MAX < 2 * (pwm * 100 - r * PWM_MAX) < PWM_MAX  // never an exact tie
    ensures 0 <= pwm <= PWM_MAX ==> 0 <= r <= 100
  {
    assert 0 <= pwm <= PWM_MAX ==> 0 <= RoundHalfEven(pwm * 100, PWM_MAX) <= 100 by {
      if 0 <= pwm <= PWM_MAX {
        RoundBetween(pwm * 100, PWM_MAX, 0, 100);
      }
    }
    RoundHalfEven(pwm * 100, PWM_MAX)
  }

  /** Converting a valid percentage to PWM and back gives the same percentage. */
  lemma PercentageRoundTrip(percentage: int)
    requires 0 <= percentage <= 100
    ensures PercentageToPwm(percentage).Ok?
    ensures PwmToPercentage(PercentageToPwm(percentage).value) == percentage
  {
    var pwm := PercentageToPwm(percentage).value;
    // pwm is within half a unit of percentage * 2.55, so percentage is strictly
    // the nearest integer to pwm / 2.55
    assert IsRoundHalfEven(percentage, pwm * 100, PWM_MAX);
    RoundUnique(pwm * 100, PWM_MAX, percentage);
  }

  /** Converting a valid PWM value to a percentage and back lands within one raw unit. */
  lemma PwmRoundTrip(pwm: int)
    requires 0 <= pwm <= PWM_MAX
    ensures PercentageToPwm(PwmToPercentage(pwm)).Ok?
    ensures -1 <= PercentageToPwm(PwmToPercentage(pwm)).value - pwm <= 1
  {
    var percentage := PwmToPercentage(pwm);
    var back := PercentageToPwm(percentage).value;
    // |255 * percentage - 100 * pwm| <= 127 and |100 * back - 255 * percentage| <= 50
    assert -177 <= 100 * (back - pwm) <= 177;
  }

  /** The fixed points of both conversions named in the documentation. */
  lemma ConversionExamples()
    ensures PercentageToPwm(0) == Ok(0)
    ensures PercentageToPwm(10) == Ok(26)
    ensures PercentageToPwm(24) == Ok(61)
    ensures PercentageToPwm(100) == Ok(PWM_MAX)
    ensures PercentageToPwm(-1) == Err(PercentageOutOfRange(-1))
    ensures PercentageToPwm(101) == Err(PercentageOutOfRange(101))
    ensures PwmToPercentage(60) == 24
    ensures PwmToPercentage(PWM_MAX) == 100
  {
  }
}
