/**
 * The distillation control panel as an object: the component's state variables are
 * fields, and the timer callback and the buttons are methods that update them.
 */
module Control {
  import opened Thermal

  class DistillationControl {
    var mode: Mode
    var temperatureSetpoint: real
    var powerSetpoint: real
    var currentTemperature: real
    var currentPower: real
    var isRunning: bool

    /** The panel's state as a value. */
    function Current(): (s: State)
      reads this
    {
      State(mode, temperatureSetpoint, powerSetpoint, currentTemperature, currentPower, isRunning)
    }

    /** The temperature reading never leaves [22, 150]. */
    ghost predicate Valid()
      reads this
    {
      AmbientTemperature <= currentTemperature <= MaxTemperature
    }

    /** A fresh panel: temperature mode, setpoints 75 and 50, ambient temperature, no power, running. */
    constructor ()
      ensures Valid()
      ensures Current() == Initial()
    {
      mode := Temperature;
      temperatureSetpoint := 75.0;
      powerSetpoint := 50.0;
      currentTemperature := 22.0;
      currentPower := 0.0;
      isRunning := true;
    }

    /**
     * One run of the one-second timer callback. When the system is off, `floorReached`
     * reports that the cooldown has reached ambient, which is when that timer clears itself.
     */
    method Tick() returns (floorReached: bool)
      requires Valid()
      modifies this
      ensures Valid()
      ensures Current() == Step(old(Current()))
      ensures floorReached <==> !isRunning && currentTemperature == AmbientTemperature
    {
      floorReached := false;
      if !isRunning {
        var newTemp := Cooldown(currentTemperature);
        floorReached := newTemp == 22.0;
        currentTemperature := newTemp;
        currentPower := 0.0;
      } else if mode == Temperature {
        var newPower := ControlPower(temperatureSetpoint, currentTemperature, currentPower);
        currentPower := newPower;
        currentTemperature := Heat(currentTemperature, newPower);
      } else {
        currentPower := powerSetpoint;
        currentTemperature := Heat(currentTemperature, powerSetpoint);
      }
    }

    /** The emergency-off button: stop, keeping the readings and the settings. */
    method EmergencyOff()
      modifies this
      ensures Current() == old(Current()).(running := false)
    {
      isRunning := false;
    }

    /** The restart button: run again from the current readings, not from the initial state. */
    method Restart()
      modifies this
      ensures Current() == old(Current()).(running := true)
    {
      isRunning := true;
    }

    /** The mode tabs. */
    method SetMode(m: Mode)
      modifies this
      ensures Current() == old(Current()).(mode := m)
    {
      mode := m;
    }

    /** The temperature slider and number input. */
    method SetTemperatureSetpoint(x: real)
      modifies this
      ensures Current() == old(Current()).(temperatureSetpoint := x)
    {
      temperatureSetpoint := x;
    }

    /** The power slider and number input. */
    method SetPowerSetpoint(x: real)
      modifies this
      ensures Current() == old(Current()).(powerSetpoint := x)
    {
      powerSetpoint := x;
    }
  }

  /** What a caller of the panel can rely on: a restart after an emergency stop resumes from the readings. */
  method StopAndRestart(panel: DistillationControl)
    requires panel.Valid() && panel.isRunning
    modifies panel
    ensures panel.Valid()
    ensures panel.Current() == Step(old(panel.Current()).(running := false)).(running := true)
    ensures panel.currentPower == 0.0 && panel.currentTemperature <= old(panel.currentTemperature)
  {
    panel.EmergencyOff();
    var _ := panel.Tick();
    panel.Restart();
  }
}
