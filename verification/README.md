# Fan controller core (RockPro64), modelled in Dafny

`fan_controller.py` drives the PWM fan of a RockPro64 board. Each run reads one temperature,
chooses a target PWM value (a forced duty percentage, or a point on a linear temperature curve),
raises small non-zero requests to a minimum floor, and writes the value to the fan's PWM file.
This project models that control logic with the command-line options passed in as an explicit,
immutable `Config` value instead of the module-global `args`.

- `outcomes.dfy` (`Outcomes`): optional options (`Option`), the two refusals (`Error`), `Result` and `Outcome`.
- `rounding.dfy` (`Rounding`): Python's `round` on an exact rational `n/d`, i.e. nearest integer with ties
  to even, with its uniqueness and monotonicity.
- `units.dfy` (`Units`): `percentage_to_pwm` / `pwm_to_percentage` and their round trips.
- `curve.dfy` (`Curve`): `temperature_to_pwm` on integer millidegrees, with saturation, the
  asymmetric bounds, the inverted window and monotonicity.
- `controller.dfy` (`Controller`): option defaults, `get_pwm_min`, `get_pwm_new`, the floor rule,
  the guarded write (`Fan.WritePwm`, a class whose `pwm` field is the actuator) and the script's
  one cycle (`Fan.RunOnce`).

Temperatures are integer millidegrees, as the sensor file holds them; `Curve.Celsius` is the
division by 1000, and the curve's threshold contracts are stated in degrees through it. All
arithmetic is exact: `round(x)` is modelled as half-to-even rounding of the exact rational `x`.

In two places the code does not do what its own text announces; the model follows the code:

- An inverted window (`min > max`) is not refused. The guard at fan_controller.py:91-95 evaluates
  `get_temp_min() > get_temp_max()` and discards the result, so the `ValueError` its message
  describes is never raised;
  `Curve.InvertedWindow` states what happens instead (full speed at or above `max`, off otherwise).
- The help text of `--minpwm` calls 24% "PWM value: 60", but `percentage_to_pwm(24)` is 61
  (`Units.ConversionExamples`); only the default floor, taken without conversion, is 60.

## Model

| member | source | states |
|---|---|---|
| Rounding.RoundHalfEven | fan_controller.py:81 | the result is a nearest integer to n/d, and the even one on an exact tie (Python's `round`) |
| Rounding.RoundUnique | fan_controller.py:81 | any integer that is a half-to-even rounding of n/d is the one `RoundHalfEven` gives |
| Rounding.RoundMonotone | fan_controller.py:100-101 | rounding over one positive divisor keeps the order of the numerators |
| Units.PercentageToPwm | fan_controller.py:76-81 | fails exactly when the percentage is below 0 or above 100, naming it; otherwise a value in 0..255 that is round(p·255/100) |
| Units.PwmToPercentage | fan_controller.py:84-86 | round(v·100/255), never an exact tie, and in 0..100 for v in 0..255 |
| Units.PercentageRoundTrip | fan_controller.py:76-86 | for every p in 0..100, percentage → PWM → percentage gives back exactly p |
| Units.PwmRoundTrip | fan_controller.py:76-86 | for every v in 0..255, PWM → percentage → PWM lands within one raw unit of v |
| Units.ConversionExamples | fan_controller.py:76-86 | 0→0, 10→26, 24→61, 100→255, -1 and 101 refused; PWM 60 is 24%, PWM 255 is 100% |
| Curve.Celsius | fan_controller.py:51-52 | the reading in degrees is the millidegree integer divided by 1000 |
| Curve.TemperatureToPwm | fan_controller.py:89-101 | result in 0..255; at or above max it is 255; below both bounds it is 0; on the ramp min ≤ t < max the divisor max−min is positive and the result is round(255·(t−min)/(max−min)) |
| Curve.CurveMonotone | fan_controller.py:96-101 | for any window, a higher reading never gives a lower PWM value |
| Curve.RampReachesEveryValue | fan_controller.py:96-101 | on a window with min < max every PWM value 0..255 is the result for some reading (the ramp has no gaps) |
| Curve.RampStartsAtMin | fan_controller.py:96-101 | a reading exactly at min is on the ramp and yields 0, as does one just below min |
| Curve.InvertedWindow | fan_controller.py:91-99 | with min > max nothing is refused and the ramp is never reached: 255 at or above max, 0 otherwise |
| Curve.DefaultCurveExamples | fan_controller.py:96-101 | window 40..60: 39.9→0, 40→0, 50→128, 55→191, 60→255, 75→255 |
| Controller.TempMin | fan_controller.py:62-66 | the lower bound is `--min` when given, else 40 |
| Controller.TempMax | fan_controller.py:55-59 | the upper bound is `--max` when given, else 60 |
| Controller.WindowOf | fan_controller.py:55-66 | the curve window is (TempMin, TempMax) as given, not reordered; 40..60 with neither option |
| Controller.PwmMin | fan_controller.py:34-38 | the floor is 60 without `--minpwm`; with it, exactly `PercentageToPwm(minpwm)`, refused exactly when outside 0..100; always in 0..255 |
| Controller.PwmNew | fan_controller.py:41-45 | without `--force` the target is the curve value `TemperatureToPwm(milli, WindowOf(config))`; with it, exactly `PercentageToPwm(force)`, refused exactly when the percentage is outside 0..100; always in 0..255 |
| Controller.ForceIgnoresTemperature | fan_controller.py:41-44 | a forced target is percentage_to_pwm(force) for every reading |
| Controller.CurveTargetMonotone | fan_controller.py:41-45 | an unforced target never drops as the reading rises |
| Controller.Defaults | fan_controller.py:55-66 | with no options the window is 40..60 and the floor is 60 |
| Controller.ApplyFloor | fan_controller.py:116-125 | never lowers the request; a non-negative request ends 0 or at least the floor; it changes only to the floor; stays in 0..255 |
| Controller.FloorIsLeastAdmissible | fan_controller.py:116-125 | the floor rule gives the smallest value ≥ the request that is 0 or ≥ the floor |
| Controller.FloorIdempotent | fan_controller.py:116-125 | applying the floor rule twice is the same as once |
| Controller.WriteOutcome | fan_controller.py:112-125 | a value outside 0..255 is refused; an in-range one is refused exactly when the floor is; the written value is exactly `ApplyFloor(value, floor)`: 0 stays 0, 0 < value < floor becomes the floor, anything else is unchanged; it is in 0..255 and 0 or at least the floor |
| Controller.FloorExamples | fan_controller.py:112-125 | with floor 60: 30→60, 0→0, 200→200; 256 and -1 refused |
| Controller.WrittenValues | fan_controller.py:116-125 | the values a successful write can leave are exactly 0 and floor..255 |
| Controller.CycleOutcome | fan_controller.py:163 | a refused target aborts the cycle; a valid target with a valid floor is always written, and the written value is exactly the floored target, in 0..255, 0 or at least the floor |
| Controller.CycleExamples | fan_controller.py:163 | 55 degrees on defaults writes 191; forcing 10% writes 60 (26 raised to the floor); force 101 or minpwm -5 are refused |
| Controller.Fan.WritePwm | fan_controller.py:104-128 | on refusal nothing is written; otherwise exactly one write of the floored value, and the actuator stays in 0..255 |
| Controller.Fan.RunOnce | fan_controller.py:163 | the actuator ends holding the cycle's value, or is untouched when the cycle is refused |

## Left out

- Argument parsing and the module-level script (fan_controller.py:131-166): options are a `Config` value; line 163 is `Fan.RunOnce`.
- Sensor path choice and file read (fan_controller.py:48-50, 69-73): the reading is a parameter in millidegrees.
- Reading back the PWM file (fan_controller.py:28-31) and the log line (fan_controller.py:14-25): file I/O and formatting only.
- Console output of `write_pwm` (fan_controller.py:106-107, 118-128), including the extra sensor read made only for printing.
- Floating point: the conversions and the curve are exact rational arithmetic with half-to-even rounding; float representation error is not modelled.
- Error kinds and messages: line 113 would raise `TypeError` (it adds a string and an int) rather than `ValueError`; both are the single refusal `PwmOutOfRange`.
- The `int(pwm)` failure path (fan_controller.py:108-111): unreachable for integer input.
- Controller.Fan.WritePwm: an invalid `--minpwm` is refused after the PWM file was opened for writing (fan_controller.py:115-116), which truncates it; the model says only that nothing is written.
- Controller.Fan.WritePwm and Controller.Fan.RunOnce: the PWM file is one integer field; a failed or partial file write is not modelled.
