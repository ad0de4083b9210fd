/** The temperature curve: a linear ramp between two whole-degree bounds, saturating outside them. */
module Curve {
  import opened Rounding
  import opened Units

  /** The configured ramp, in whole degrees Celsius. Nothing forces tempMin <= tempMax. */
  datatype Window = Window(tempMin: int, tempMax: int)

  /** The sensor reports millidegrees; the controller works in degrees. */
  function Celsius(milli: int): (t: real)
    ensures t * 1000.0 == milli as real
  {
    milli as real / 1000.0
  }

  /**
   * The PWM value for a reading of `milli` millidegrees. A reading at or above tempMax is full
   * speed, one below tempMin is off, and one in between is PWM_MAX * (t - tempMin) / (tempMax - tempMin)
   * rounded half to even. The check on an inverted window in fan_controller.py evaluates a
   * comparison and discards it, so an inverted window is accepted here too.
   */
  function TemperatureToPwm(milli: int, window: Window): (r: int)
    ensures 0 <= r <= PWM_MAX
    ensures Celsius(milli) >= window.tempMax as real ==> r == PWM_MAX
    ensures Celsius(milli) < window.tempMax as real && Celsius(milli) < window.tempMin as real ==> r == 0
    ensures window.tempMin as real <= Celsius(milli) < window.tempMax as real ==>
              window.tempMin < window.tempMax &&
              IsRoundHalfEven(r, PWM_MAX * (milli - 1000 * window.tempMin), 1000 * (window.tempMax - window.tempMin))
  {
    if milli >= 1000 * window.tempMax then
      PWM_MAX
    else if milli < 1000 * window.tempMin then
      0
    else
      // here tempMin <= t < tempMax, so the divisor is positive and the quotient lies in [0, PWM_MAX)
      var n, d := PWM_MAX * (milli - 1000 * window.tempMin), 1000 * (window.tempMax - window.tempMin);
      RoundBetween(n, d, 0, PWM_MAX);
      RoundHalfEven(n, d)
  }

  /** A warmer reading never gives a slower fan, whatever the window. */
  lemma CurveMonotone(milli1: int, milli2: int, window: Window)
    requires milli1 <= milli2
    ensures TemperatureToPwm(milli1, window) <= TemperatureToPwm(milli2, window)
  {
    var lo, hi := 1000 * window.tempMin, 1000 * window.tempMax;
    if lo <= milli1 < hi && lo <= milli2 < hi {
      RoundMonotone(PWM_MAX * (milli1 - lo), PWM_MAX * (milli2 - lo), hi - lo);
    }
  }

  /** On a proper window the ramp leaves no gaps: every PWM value is the result for some reading. */
  lemma RampReachesEveryValue(window: Window, v: int)
    requires window.tempMin < window.tempMax && 0 <= v <= PWM_MAX
    ensures exists milli :: TemperatureToPwm(milli, window) == v
  {
    if v == PWM_MAX {
      assert TemperatureToPwm(1000 * window.tempMax, window) == v;
    } else {
      var span := 1000 * (window.tempMax - window.tempMin);
      // the offset whose ramp value span * v / PWM_MAX rounds to v, well short of span
      var offset := (span * v + 127) / PWM_MAX;
      MulMonotone(1, PWM_MAX - v, span);
      assert -254 <= 2 * (PWM_MAX * offset - v * span) <= 254;
      RoundUnique(PWM_MAX * offset, span, v);
      assert TemperatureToPwm(1000 * window.tempMin + offset, window) == v;
    }
  }

  /**
   * A reading exactly at tempMin is already on the ramp (the lower test is strict), and the
   * ramp starts at 0 there; just below tempMin the fan is off.
   */
  lemma RampStartsAtMin(window: Window)
    requires window.tempMin < window.tempMax
    ensures TemperatureToPwm(1000 * window.tempMin, window) == 0
    ensures TemperatureToPwm(1000 * window.tempMin - 1, window) == 0
  {
    RoundExact(0, 1000 * (window.tempMax - window.tempMin));
  }

  /** With tempMin > tempMax nothing is refused and the ramp is never reached: the fan is on or off. */
  lemma InvertedWindow(milli: int, window: Window)
    requires window.tempMin > window.tempMax
    ensures TemperatureToPwm(milli, window) == if Celsius(milli) >= window.tempMax as real then PWM_MAX else 0
  {
  }

  /** The curve for the default 40..60 degree window. */
  lemma DefaultCurveExamples()
    ensures TemperatureToPwm(39900, Window(40, 60)) == 0
    ensures TemperatureToPwm(40000, Window(40, 60)) == 0
    ensures TemperatureToPwm(50000, Window(40, 60)) == 128
    ensures TemperatureToPwm(55000, Window(40, 60)) == 191
    ensures TemperatureToPwm(60000, Window(40, 60)) == PWM_MAX
    ensures TemperatureToPwm(75000, Window(40, 60)) == PWM_MAX
  {
  }
}
