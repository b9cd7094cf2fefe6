# Distillation dashboard: simulated control panel and radial gauge

This project models the two parts of the Still dashboard that carry logic.

- **The simulated control panel** (`DistillationControl`). It keeps a control mode (temperature or power), a temperature setpoint and a power setpoint, a simulated temperature and power reading, and a run flag. A one-second timer advances the readings:
  - while the system is off, a cooldown step lowers the temperature by half a degree, never below 22, and sets the power to 0;
  - in temperature mode, a bang-bang controller raises the power by two points when the temperature setpoint is strictly above the temperature and lowers it by two points otherwise (equality included), clamped to [0, 100], and the temperature then changes by `power/100 * 0.5 - 0.1`, clamped to [22, 150];
  - in power mode, the power is the power setpoint and the temperature changes by the same formula.

  The emergency-off and restart buttons only clear or set the run flag.
- **The gauge** (`Gauge`). It maps a value and a scale end `max` to the fraction of a half-circle to fill, `min(1, value/max)`, a colour band (below 0.3, below 0.7, otherwise), and eleven tick marks, of which ticks 0, 5 and 10 are major and carry the label `Math.round(i/10 * max)`.

Modules:
- `Numbers` (numbers.dfy): `Math.min`, `Math.max` and `Math.round` over exact reals.
- `Thermal` (thermal.dfy): the panel state as a datatype and every formula of a tick as a pure function, together with `Step` (one tick), `Run` (n ticks) and the lemmas about them.
- `Control` (control.dfy): the panel as a class whose fields are the component's state variables. `Tick` is the timer callback. `EmergencyOff`, `Restart` and the three setters are the handlers. Each method states its new state in terms of `Thermal`.
- `Gauge` (gauge.dfy): the value-to-encoding mapping of the gauge, and the tick loop as a method that builds the sequence of tick marks.

Numbers are `real`. Angles are fractions of pi: the dial runs from 1 (pi) to 2 (2 pi).

Three points of the code shape the model:
- The fill fraction is capped at 1 but not floored at 0 (`Math.min(1, value / max)`, src/components/guage.tsx:45), so a negative value gives a negative fraction and an arc that ends before pi. `Gauge.Percentage` and `Gauge.EndAngle` state this.
- In power mode the power reading is set to the power setpoint without clamping (src/components/distilliation-control.tsx:58). The number inputs pass `Number(e.target.value)` to the setpoint setters (src/components/distilliation-control.tsx:156, 189), so the model's setters take any real. `Thermal.StepPreservesRange` therefore needs a power setpoint in [0, 100] in power mode. The temperature stays in [22, 150] whatever the power.
- In temperature mode the controller compares the setpoint with the closure's `currentTemperature`, while the update starts from React's `prev`. The effect is re-registered on every state change (src/components/distilliation-control.tsx:69), so each tick starts from the current state and these are the same value. A tick is modelled as one atomic step from that state.

## Model

| member | source | states |
|---|---|---|
| `Numbers.Min` | src/components/distilliation-control.tsx:48 | `Math.min` is the smaller of its two arguments (also used at distilliation-control.tsx:54 and 63 and guage.tsx:45) |
| `Numbers.Max` | src/components/distilliation-control.tsx:34 | `Math.max` is the larger of its two arguments (also used at distilliation-control.tsx:48, 54 and 63) |
| `Numbers.Round` | src/components/guage.tsx:100 | `Math.round` gives the integer `r` with `r - 0.5 <= x < r + 0.5`, halves rounding up |
| `Numbers.RoundUnique` | src/components/guage.tsx:100 | any integer within half a unit below / under half a unit above `x` is `Round(x)` |
| `Numbers.RoundOfInteger` | src/components/guage.tsx:100 | rounding an integer gives it back |
| `Thermal.Initial` | src/components/distilliation-control.tsx:15-26 | the initial state is temperature mode, setpoints 75 and 50, 22 degrees, power 0, running; it lies in temperature [22,150] and power [0,100] |
| `Thermal.Cooldown` | src/components/distilliation-control.tsx:34 | cooldown gives `t - 0.5` when that is at least 22 and 22 otherwise; it reaches 22 exactly when `t <= 22.5`, never goes below 22, and never warms an in-range temperature |
| `Thermal.ControlPower` | src/components/distilliation-control.tsx:47-48 | power rises by 2 when the setpoint is strictly above the temperature and falls by 2 otherwise (equality included), saturating at 0 and 100; the result is always in [0,100] |
| `Thermal.TemperatureChange` | src/components/distilliation-control.tsx:53 | the change per tick is positive exactly above 20% power, zero exactly at 20%, and in [-0.1, 0.4] for power in [0,100] |
| `Thermal.Heat` | src/components/distilliation-control.tsx:54 | the new temperature is `t + change` when that lies in [22,150], else the bound it crossed; always in [22,150] |
| `Thermal.Step` | src/components/distilliation-control.tsx:29-66 | a tick keeps mode, setpoints and run flag; off: power 0 and the cooldown temperature `max(22, t - 0.5)`; running: temperature is `max(22, min(150, t + change(p)))` where `p` is the new power, and lies in [22,150]; temperature mode sets the power to the bang-bang result (up 2 when the setpoint is strictly above the temperature, down 2 otherwise, in [0,100]); power mode sets it to the power setpoint |
| `Thermal.Run` | src/components/distilliation-control.tsx:29-69 | n ticks in a row keep mode, setpoints and run flag |
| `Thermal.StepPreservesRange` | src/components/distilliation-control.tsx:29-66 | from an in-range state a tick stays in range, given a power setpoint in [0,100] when it passes through |
| `Thermal.RunPreservesRange` | src/components/distilliation-control.tsx:29-69 | the same for any number of ticks |
| `Thermal.PowerPassthrough` | src/components/distilliation-control.tsx:56-65 | a power-mode tick sets the power to the setpoint exactly, and its result does not depend on the previous power |
| `Thermal.CooldownRun` | src/components/distilliation-control.tsx:30-39 | while off, n ticks give temperature `max(22, t - 0.5 n)` and (for n > 0) power 0 |
| `Thermal.CooldownReachesFloor` | src/components/distilliation-control.tsx:33-37 | enough cooldown ticks reach 22 exactly, and a further tick changes nothing (the stop condition) |
| `Thermal.CooldownMonotone` | src/components/distilliation-control.tsx:33-37 | cooldown temperatures never rise from tick to tick and never drop below 22 |
| `Thermal.BangBangRamp` | src/components/distilliation-control.tsx:45-55 | while the setpoint stays above the temperature, n ticks give power `min(100, p + 2n)` |
| `Thermal.BangBangFall` | src/components/distilliation-control.tsx:45-55 | while the setpoint stays at or below the temperature, n ticks give power `max(0, p - 2n)` |
| `Thermal.NoFixedPoint` | src/components/distilliation-control.tsx:45-55 | with a setpoint in (22, 150], no in-range temperature-mode state is left unchanged by a tick: the controller oscillates and never settles |
| `Thermal.FirstTickFromInitial` | src/components/distilliation-control.tsx:44-55 | the first tick from the initial state gives power 2 and holds the temperature at 22 (21.91 is clamped) |
| `Thermal.FirstPowerModeTick` | src/components/distilliation-control.tsx:56-65 | a power-mode tick at setpoint 50 from 22 degrees gives power 50 and 22.15 degrees |
| `Control.DistillationControl.constructor` | src/components/distilliation-control.tsx:15-26 | a new panel holds the initial state and satisfies the temperature invariant |
| `Control.DistillationControl.Tick` | src/components/distilliation-control.tsx:29-66 | the timer callback replaces the panel's state by `Step` of it, keeps the temperature in [22,150], and reports the cooldown floor exactly when the system is off and the temperature is 22 |
| `Control.DistillationControl.EmergencyOff` | src/components/distilliation-control.tsx:72-74 | only the run flag changes, to false |
| `Control.DistillationControl.Restart` | src/components/distilliation-control.tsx:77-79 | only the run flag changes, to true; readings and setpoints are kept |
| `Control.DistillationControl.SetMode` | src/components/distilliation-control.tsx:123 | only the mode changes |
| `Control.DistillationControl.SetTemperatureSetpoint` | src/components/distilliation-control.tsx:140-156 | only the temperature setpoint changes, to any real (slider at line 140, number input at line 156) |
| `Control.DistillationControl.SetPowerSetpoint` | src/components/distilliation-control.tsx:173-189 | only the power setpoint changes, to any real (slider at line 173, number input at line 189) |
| `Control.StopAndRestart` | src/components/distilliation-control.tsx:72-79 | stopping, one tick and a restart leave the panel running from the cooled-down readings (power 0, no warmer than before), not from the initial state |
| `Gauge.Percentage` | src/components/guage.tsx:45 | the fraction is at most 1, equals 1 exactly when `value >= max`, equals `value/max` below `max`, is negative exactly for negative values and zero exactly for zero |
| `Gauge.EndAngle` | src/components/guage.tsx:45-47 | the value arc sweeps from pi through the filled fraction of pi: at most the half-circle, zero exactly when the value is 0, the whole half-circle exactly when `value >= max`, and backwards for a negative value |
| `Gauge.BandOf` | src/components/guage.tsx:54-61 | green iff the fraction is below 0.3, yellow iff in [0.3, 0.7), red iff at least 0.7; exactly one applies |
| `Gauge.BelowThreshold` | src/components/guage.tsx:45 | for a threshold `c <= 1`, the fraction is below `c` exactly when the value is below `c * max` |
| `Gauge.PercentageMonotone` | src/components/guage.tsx:45 | the fraction never decreases as the value grows |
| `Gauge.BandMonotone` | src/components/guage.tsx:45-61 | for a fixed `max`, the colour band never moves back (red to yellow to green) as the value grows |
| `Gauge.BandBoundaries` | src/components/guage.tsx:45-61 | the colour changes exactly at 30% and 70% of `max` |
| `Gauge.Mark` | src/components/guage.tsx:73-100 | tick `i` lies on the half-circle, is major iff `i` is 0, 5 or 10, and carries a label iff it is major |
| `Gauge.MarkSpacing` | src/components/guage.tsx:74 | ticks are a tenth of pi apart, so their angles strictly increase with `i` |
| `Gauge.MajorLabels` | src/components/guage.tsx:91-100 | the major labels are 0, `Math.round(max/2)` and `Math.round(max)`; the first tick is at pi and the last at 2 pi |
| `Gauge.PanelLabels` | src/components/distilliation-control.tsx:204-205 | the panel's temperature gauge (max 150) is labelled 75 and 150 and its power gauge (max 100) 50 and 100 |
| `Gauge.TickMarks` | src/components/guage.tsx:73-102 | the tick loop produces exactly eleven tick marks, the `i`-th being `Mark(i, max)` |

## Left out

- Timer mechanics: the `setInterval`/`clearInterval` lifecycle, the 1000 ms cadence and the effect's re-registration on every state change. A tick is one call of `Tick`. The interval clearing itself at the cooldown floor is reported by `Tick`'s `floorReached` result.
- IEEE-754 arithmetic: numbers are exact reals, so the cooldown's `newTemp === 22` test is exact here. `NaN` and infinities, which the number inputs and a zero `max` could produce, are not modelled.
- Gauge.Percentage: requires `max > 0`. The panel always passes 150 or 100; division by zero in JavaScript gives an infinity or `NaN`, which reals cannot express.
- The disabling of the setpoint sliders and inputs while the system is off: the setters take any real at any time.
- All canvas output of the gauge: device-pixel-ratio sizing, arcs, lines, fills, the trigonometry for tick endpoints and label positions, fonts and text placement. Tick positions are kept as angles. The colour bands stand for the hex colours `#22c55e`, `#eab308` and `#ef4444`.
- Number formatting with `toFixed` (the gauge's centre text and the panel's readings), the gauge's title and units, and all JSX layout.
- The heater page (src/pages/index.tsx): network polling of the device and power-setting requests, pure presentation around them.
