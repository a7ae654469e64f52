/** The proof-of-concept bio-digestor components: a simulated environment with
    an hour-of-day style clock, two on/off devices (the heating pump and the
    agitator's DC motor), two single-value sensors, two valves without
    behaviour, and the micro-controller that reads the sensors it was built
    with.

    Every component is an object whose methods overwrite its fields, so each is
    a class: mutating methods say with `modifies` what they may change and with
    `ensures` what the new state is and what stayed the same; reading methods
    have no `modifies` clause and so change nothing.
 */
module Biodigestor {
  import Clock

  /** The construction parameters of an environment: its temperature and its
      season, which the environment stores and never reads again. */
  datatype Params = Params(temperature: real, season: string)

  /** A call that fails with an exception is modelled as a `Fail` value. */
  datatype Error = MissingAttribute(name: string)

  datatype Outcome = Pass | Fail(error: Error)

  /** The simulated environment. Its clock counts 0, 1, ..., 24 and then
      wraps round to 0; temperature and season are fixed at construction. */
  class Environment {
    var time: int
    var temperature: real
    var season: string

    /** The clock holds one of its 25 values. */
    ghost predicate Valid()
      reads this
    {
      Clock.InRange(time)
    }

    constructor (params: Params)
      ensures Valid()
      ensures time == 0
      ensures temperature == params.temperature && season == params.season
    {
      time := 0;
      temperature := params.temperature;
      season := params.season;
    }

    /** Advances the clock by one step; nothing else changes. */
    method Tick()
      modifies this`time
      ensures time == Clock.Next(old(time))
      ensures old(Valid()) ==> Valid()
      ensures temperature == old(temperature) && season == old(season)
    {
      if time == Clock.Last {
        time := 0;
      } else {
        time := time + 1;
      }
    }
  }

  /** The agitator: a DC motor that is either running or stopped. */
  class Agitator {
    var dcMotorActive: bool

    constructor ()
      ensures !dcMotorActive
    {
      dcMotorActive := false;
    }

    /** Starts the motor, whether or not it was already running. */
    method Agitate()
      modifies this
      ensures dcMotorActive
    {
      dcMotorActive := true;
    }

    /** Stops the motor, whether or not it was already stopped. */
    method Stop()
      modifies this
      ensures !dcMotorActive
    {
      dcMotorActive := false;
    }
  }

  /** The heating pump: either on or off. */
  class Pump {
    var active: bool

    constructor ()
      ensures !active
    {
      active := false;
    }

    /** Switches the pump on, whether or not it was already on. */
    method Activate()
      modifies this
      ensures active
    {
      active := true;
    }

    /** Switches the pump off, whether or not it was already off. */
    method Stop()
      modifies this
      ensures !active
    {
      active := false;
    }
  }

  /** The base dosing valve has no state and no operations. */
  class BaseValve {
    constructor ()
    {
    }
  }

  /** The acid dosing valve has no state and no operations. */
  class AcidValve {
    constructor ()
    {
    }
  }

  /** A cell holding the last temperature reading. */
  class TemperatureSensor {
    var temperature: real

    constructor ()
      ensures temperature == 0.0
    {
      temperature := 0.0;
    }

    /** The stored reading; the sensor is not changed. */
    method GetTemperature() returns (value: real)
      ensures value == temperature
    {
      value := temperature;
    }

    /** Replaces the stored reading with `value`. */
    method SetTemperature(value: real)
      modifies this
      ensures temperature == value
    {
      temperature := value;
    }
  }

  /** A cell holding the last pH reading. */
  class PHSensor {
    var pH: real

    constructor ()
      ensures pH == 0.0
    {
      pH := 0.0;
    }

    /** The stored reading; the sensor is not changed. */
    method GetPH() returns (value: real)
      ensures value == pH
    {
      value := pH;
    }

    /** Replaces the stored reading with `value`. */
    method SetPH(value: real)
      modifies this
      ensures pH == value
    {
      pH := value;
    }
  }

  /** The simulated ESP32 micro-controller. It keeps references to the sensors,
      the pump and the two valves it is built with; the agitator it is given is
      not kept. */
  class MicroController {
    const optimumTemperature: real := 55.0
    const optimumPHLow: real := 6.6
    const optimumPHHigh: real := 7.2

    const temperatureSensor: TemperatureSensor
    const pHSensor: PHSensor
    const pump: Pump
    const baseValve: BaseValve
    const acidValve: AcidValve

    constructor (temperatureSensor: TemperatureSensor, pHSensor: PHSensor, pump: Pump,
                 acidValve: AcidValve, baseValve: BaseValve, agitator: Agitator)
      ensures this.temperatureSensor == temperatureSensor && this.pHSensor == pHSensor
      ensures this.pump == pump && this.acidValve == acidValve && this.baseValve == baseValve
    {
      this.temperatureSensor := temperatureSensor;
      this.pHSensor := pHSensor;
      this.pump := pump;
      this.baseValve := baseValve;
      this.acidValve := acidValve;
    }

    /** The current reading of the temperature sensor given at construction;
        nothing is changed. */
    method GetTemperature() returns (value: real)
      ensures value == temperatureSensor.temperature
    {
      value := temperatureSensor.GetTemperature();
    }

    /** The current reading of the pH sensor given at construction; nothing is
        changed. */
    method GetPH() returns (value: real)
      ensures value == pHSensor.pH
    {
      value := pHSensor.GetPH();
    }

    /** Agitation always fails: the controller holds no agitator, so looking
        one up raises a missing-attribute error before anything is changed. */
    method Agitate() returns (outcome: Outcome)
      ensures outcome == Fail(MissingAttribute("_agitator"))
    {
      outcome := Fail(MissingAttribute("_agitator"));
    }
  }
}
