/**
 * The simulated distillation apparatus: the state the control panel keeps and the
 * step its one-second timer applies to it. Every formula of the step is a pure
 * function here; the panel object in module Control calls them.
 */
module Thermal {
  import opened Numbers

  /** Which setpoint drives the heater. */
  datatype Mode = Temperature | Power

  /** Everything the panel keeps: the chosen mode, both setpoints, the two simulated readings and the run flag. */
  datatype State = State(
    mode: Mode,
    temperatureSetpoint: real,
    powerSetpoint: real,
    temperature: real,
    power: real,
    running: bool)

  /** Ambient temperature: no step takes the simulated temperature below it. */
  const AmbientTemperature: real := 22.0
  /** The hottest temperature a running step can reach. */
  const MaxTemperature: real := 150.0
  /** Full power, in percent. */
  const FullPower: real := 100.0

  /** Temperature and power both lie in their physical ranges. */
  predicate InRange(s: State)
  {
    AmbientTemperature <= s.temperature <= MaxTemperature && 0.0 <= s.power <= FullPower
  }

  /** The settings a tick must not touch are the same in both states. */
  predicate SameSettings(a: State, b: State)
  {
    a.mode == b.mode && a.temperatureSetpoint == b.temperatureSetpoint &&
    a.powerSetpoint == b.powerSetpoint && a.running == b.running
  }

  /** The state a panel starts in. */
  function Initial(): (s: State)
    ensures InRange(s)
    ensures s.running && s.mode == Temperature && s.temperature == AmbientTemperature && s.power == 0.0
    ensures s.temperatureSetpoint == 75.0 && s.powerSetpoint == 50.0
  {
    State(Temperature, 75.0, 50.0, 22.0, 0.0, true)
  }

  /** One cooldown step while the system is off: half a degree colder, never below ambient. */
  function Cooldown(t: real): (r: real)
    ensures r >= AmbientTemperature
    ensures t - 0.5 >= AmbientTemperature ==> r == t - 0.5
    ensures t - 0.5 < AmbientTemperature ==> r == AmbientTemperature
    ensures r == AmbientTemperature <==> t <= AmbientTemperature + 0.5
    ensures t >= AmbientTemperature ==> r <= t
  {
    Max(22.0, t - 0.5)
  }

  /**
   * The bang-bang controller of temperature mode: two points more power while the
   * setpoint is strictly above the temperature, two points less otherwise, kept in [0, 100].
   */
  function ControlPower(setpoint: real, temperature: real, power: real): (r: real)
    ensures 0.0 <= r <= FullPower
    ensures setpoint > temperature && -2.0 <= power <= 98.0 ==> r == power + 2.0
    ensures setpoint > temperature && power >= 98.0 ==> r == FullPower
    ensures setpoint > temperature && power <= -2.0 ==> r == 0.0
    ensures setpoint <= temperature && 2.0 <= power <= 102.0 ==> r == power - 2.0
    ensures setpoint <= temperature && power <= 2.0 ==> r == 0.0
    ensures setpoint <= temperature && power >= 102.0 ==> r == FullPower
  {
    var diff := setpoint - temperature;
    Min(100.0, Max(0.0, power + (if diff > 0.0 then 2.0 else -2.0)))
  }

  /**
   * How much warmer one running tick makes the apparatus at power `p` (percent):
   * half a degree per tick at full power, less a constant loss of a tenth of a degree.
   */
  function TemperatureChange(p: real): (r: real)
    ensures r > 0.0 <==> p > 20.0
    ensures r == 0.0 <==> p == 20.0
    ensures 0.0 <= p <= FullPower ==> -0.1 <= r <= 0.4
  {
    (p / 100.0) * 0.5 - 0.1
  }

  /** The temperature after a running tick at power `p`, kept in [22, 150]. */
  function Heat(t: real, p: real): (r: real)
    ensures AmbientTemperature <= r <= MaxTemperature
    ensures AmbientTemperature <= t + TemperatureChange(p) <= MaxTemperature ==> r == t + TemperatureChange(p)
    ensures t + TemperatureChange(p) < AmbientTemperature ==> r == AmbientTemperature
    ensures t + TemperatureChange(p) > MaxTemperature ==> r == MaxTemperature
  {
    Max(22.0, Min(150.0, t + TemperatureChange(p)))
  }

  /** One tick of the one-second timer. */
  function Step(s: State): (r: State)
    ensures SameSettings(s, r)
    ensures !s.running ==> r.power == 0.0 && r.temperature == Cooldown(s.temperature)
    ensures s.running ==> AmbientTemperature <= r.temperature <= MaxTemperature
    ensures s.running ==> r.temperature == Max(AmbientTemperature, Min(MaxTemperature, s.temperature + TemperatureChange(r.power)))
    ensures s.running && s.mode == Temperature ==>
      r.power == ControlPower(s.temperatureSetpoint, s.temperature, s.power) && 0.0 <= r.power <= FullPower
    ensures s.running && s.mode == Power ==> r.power == s.powerSetpoint
  {
    if !s.running then
      s.(temperature := Cooldown(s.temperature), power := 0.0)
    else
      match s.mode
      case Temperature =>
        var p := ControlPower(s.temperatureSetpoint, s.temperature, s.power);
        s.(power := p, temperature := Heat(s.temperature, p))
      case Power =>
        s.(power := s.powerSetpoint, temperature := Heat(s.temperature, s.powerSetpoint))
  }

  /** `n` consecutive ticks with no change of settings in between. */
  function Run(s: State, n: nat): (r: State)
    ensures SameSettings(s, r)
  {
    if n == 0 then s else Step(Run(s, n - 1))
  }

  /** A tick keeps the readings in range, given a power setpoint in range when it passes through. */
  lemma StepPreservesRange(s: State)
    requires InRange(s)
    requires s.running && s.mode == Power ==> 0.0 <= s.powerSetpoint <= FullPower
    ensures InRange(Step(s))
  {
  }

  /** The same holds for any number of ticks. */
  lemma {:induction false} RunPreservesRange(s: State, n: nat)
    requires InRange(s)
    requires s.running && s.mode == Power ==> 0.0 <= s.powerSetpoint <= FullPower
    ensures InRange(Run(s, n))
  {
    if n > 0 {
      RunPreservesRange(s, n - 1);
      StepPreservesRange(Run(s, n - 1));
    }
  }

  /** In power mode the power reading is the setpoint, whatever the power was before. */
  lemma PowerPassthrough(s: State, p: real)
    requires s.running && s.mode == Power
    ensures Step(s).power == s.powerSetpoint
    ensures Step(s.(power := p)) == Step(s)
  {
  }

  /**
   * While the system is off, `n` ticks take the temperature down by half a degree each,
   * stopping at ambient, and leave the heater off.
   */
  lemma {:induction false} CooldownRun(s: State, n: nat)
    requires !s.running && s.temperature >= AmbientTemperature
    ensures Run(s, n).temperature == Max(AmbientTemperature, s.temperature - 0.5 * n as real)
    ensures n > 0 ==> Run(s, n).power == 0.0
  {
    if n > 0 {
      CooldownRun(s, n - 1);
      var before := s.temperature - 0.5 * (n - 1) as real;
      assert before - 0.5 == s.temperature - 0.5 * n as real;
      assert Run(s, n).temperature == Max(AmbientTemperature, Max(AmbientTemperature, before) - 0.5);
      if before < AmbientTemperature {
        assert Max(AmbientTemperature, before) - 0.5 < AmbientTemperature;
      }
    }
  }

  /**
   * Enough cooldown ticks reach ambient exactly, and from there a further tick changes
   * nothing: the floor the timer stops at.
   */
  lemma CooldownReachesFloor(s: State, n: nat)
    requires !s.running && s.temperature >= AmbientTemperature && n > 0
    requires 0.5 * n as real >= s.temperature - AmbientTemperature
    ensures Run(s, n).temperature == AmbientTemperature
    ensures Step(Run(s, n)) == Run(s, n)
  {
    CooldownRun(s, n);
  }

  /** Cooldown never makes it warmer and never undershoots ambient. */
  lemma {:induction false} CooldownMonotone(s: State, m: nat, n: nat)
    requires !s.running && s.temperature >= AmbientTemperature && m <= n
    ensures AmbientTemperature <= Run(s, n).temperature <= Run(s, m).temperature
  {
    CooldownRun(s, m);
    CooldownRun(s, n);
  }

  /**
   * Temperature mode ramps the power up two points a tick, capped at full power, for as
   * long as the setpoint stays above the temperature.
   */
  lemma {:induction false} BangBangRamp(s: State, n: nat)
    requires s.running && s.mode == Temperature && 0.0 <= s.power <= FullPower
    requires forall k: nat :: k < n ==> Run(s, k).temperature < s.temperatureSetpoint
    ensures Run(s, n).power == Min(FullPower, s.power + 2.0 * n as real)
  {
    if n > 0 {
      BangBangRamp(s, n - 1);
      assert Run(s, n - 1).temperature < s.temperatureSetpoint;
    }
  }

  /**
   * The other half of the controller: power falls two points a tick, floored at zero, for
   * as long as the setpoint is at or below the temperature (equality included).
   */
  lemma {:induction false} BangBangFall(s: State, n: nat)
    requires s.running && s.mode == Temperature && 0.0 <= s.power <= FullPower
    requires forall k: nat :: k < n ==> Run(s, k).temperature >= s.temperatureSetpoint
    ensures Run(s, n).power == Max(0.0, s.power - 2.0 * n as real)
  {
    if n > 0 {
      BangBangFall(s, n - 1);
      assert Run(s, n - 1).temperature >= s.temperatureSetpoint;
    }
  }

  /**
   * With a setpoint in the slider's reach above ambient, the controller never settles:
   * no in-range state of temperature mode is left unchanged by a tick.
   */
  lemma NoFixedPoint(s: State)
    requires s.running && s.mode == Temperature && InRange(s)
    requires AmbientTemperature < s.temperatureSetpoint <= MaxTemperature
    ensures Step(s) != s
  {
    var p := ControlPower(s.temperatureSetpoint, s.temperature, s.power);
    if s.temperatureSetpoint > s.temperature {
      if p == s.power {
        assert s.power == FullPower;
        assert Heat(s.temperature, p) > s.temperature;
      }
    } else {
      if p == s.power {
        assert s.power == 0.0;
        assert Heat(s.temperature, p) < s.temperature;
      }
    }
  }

  /** The first tick from the initial state: power 2, temperature held at ambient (21.91 is clamped). */
  lemma FirstTickFromInitial()
    ensures Step(Initial()).power == 2.0
    ensures Step(Initial()).temperature == AmbientTemperature
  {
  }

  /** A power-mode tick at setpoint 50 from ambient: power 50 and 22.15 degrees. */
  lemma FirstPowerModeTick()
    ensures Step(Initial().(mode := Power)).power == 50.0
    ensures Step(Initial().(mode := Power)).temperature == 22.15
  {
  }
}
