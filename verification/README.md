# Bio-digestor simulator components, modelled in Dafny

This project models the proof-of-concept component classes of the bio-digestor
simulator (`src/biodigestor.py`):

- **Environment** holds an hour-of-day style clock and the temperature and
  season it was created with. `tick` counts the clock 0, 1, …, 24 and then
  wraps round to 0, so the clock cycles through 25 values; it touches nothing
  else.
- **Pump** and **Agitator** are on/off devices: `activate`/`agitate` switch them
  on and `stop` switches them off, whatever the prior state.
- **TemperatureSensor** and **pHSensor** are single-value cells starting at 0,
  with a getter and a setter.
- **MicroController** keeps the sensors, the pump and the valves it is built
  with and forwards `get_temperature`/`get_pH` to its sensors. It drops the
  agitator it is given, so its `agitate` always fails with a missing-attribute
  error.
- **BaseValve** and **AcidValve** have no state and no operations.

Each class is a Dafny class in module `Biodigestor` (`biodigestor.dfy`) whose
mutating methods say with `modifies` what they may change and with `ensures` the
whole new state; getters have no `modifies` clause, so they provably change
nothing. The clock's transition is also a pure function, `Clock.Next`, in module
`Clock` (`clock.dfy`), together with `Clock.Ticks` (that transition applied `n`
times) and lemmas about the cycle: an in-range clock stays in range, is at
`(t + n) % 25` after `n` ticks, and is back at its starting value exactly when
`n` is a multiple of 25. `Environment.Tick` is tied to this function by its
postcondition `time == Clock.Next(old(time))`.

The code is an early proof of concept: it has no controller policy, no process
model, no activation counters and no agitation timing, and the model adds none.

Representation choices:

- Sensor readings and the environment's temperature are `real`: the code only
  stores and returns them, never computes with them.
- The season is a `string`; the code never inspects it.
- The environment's parameter object becomes the datatype `Params`.
- An exception raised by a call becomes an `Outcome` value `Fail(...)`.

## Model

| member | source | states |
|---|---|---|
| `Clock.Next` | src/biodigestor.py:13-16 | from a clock value in 0..24 the next value is again in 0..24 and equals (t + 1) mod 25; from any other value it is t + 1 |
| `Clock.TicksFormula` | src/biodigestor.py:13-16 | from a clock value t in 0..24, n consecutive ticks leave the clock at (t + n) mod 25 |
| `Clock.TicksInRange` | src/biodigestor.py:13-16 | any number of ticks keeps a clock that starts in 0..24 in 0..24 |
| `Clock.TickCycle` | src/biodigestor.py:13-16 | from a clock value in 0..24, n ticks return the clock to its starting value if and only if n is a multiple of 25: 25 ticks close the cycle and no positive number below 25 does |
| `Clock.TicksPeriodic` | src/biodigestor.py:13-16 | ticking 25 more times from an in-range clock ends at the same value |
| `Clock.TicksAboveLast` | src/biodigestor.py:13-16 | a clock value above 24 never wraps: n ticks add exactly n |
| `Biodigestor.Environment.constructor` | src/biodigestor.py:6-9 | a new environment's clock is 0 (so in range) and it stores the given temperature and season unchanged |
| `Biodigestor.Environment.Tick` | src/biodigestor.py:11-16 | the clock goes from 24 to 0 and from any other value t to t + 1; an in-range clock stays in range; temperature and season are unchanged and nothing else may be modified |
| `Biodigestor.Agitator.constructor` | src/biodigestor.py:61-63 | a new agitator's motor is stopped |
| `Biodigestor.Agitator.Agitate` | src/biodigestor.py:65-67 | afterwards the motor is running, whatever it was before (idempotent) |
| `Biodigestor.Agitator.Stop` | src/biodigestor.py:69-71 | afterwards the motor is stopped, whatever it was before (idempotent) |
| `Biodigestor.Pump.constructor` | src/biodigestor.py:76-78 | a new pump is inactive |
| `Biodigestor.Pump.Activate` | src/biodigestor.py:80-81 | afterwards the pump is active, whatever it was before (idempotent) |
| `Biodigestor.Pump.Stop` | src/biodigestor.py:83-84 | afterwards the pump is inactive, whatever it was before (idempotent) |
| `Biodigestor.TemperatureSensor.constructor` | src/biodigestor.py:97-99 | a new temperature sensor reads 0 |
| `Biodigestor.TemperatureSensor.GetTemperature` | src/biodigestor.py:101-102 | returns the stored reading and changes nothing |
| `Biodigestor.TemperatureSensor.SetTemperature` | src/biodigestor.py:104-105 | the stored reading becomes the given value, so the next GetTemperature returns it |
| `Biodigestor.PHSensor.constructor` | src/biodigestor.py:110-112 | a new pH sensor reads 0 |
| `Biodigestor.PHSensor.GetPH` | src/biodigestor.py:114-115 | returns the stored reading and changes nothing |
| `Biodigestor.PHSensor.SetPH` | src/biodigestor.py:117-118 | the stored reading becomes the given value, so the next GetPH returns it |
| `Biodigestor.MicroController.constructor` | src/biodigestor.py:21-29 | the controller refers to exactly the sensors, pump and valves it was given; the agitator argument is not kept |
| `Biodigestor.MicroController.GetTemperature` | src/biodigestor.py:31-33 | returns the current reading of the temperature sensor given at construction and changes nothing |
| `Biodigestor.MicroController.GetPH` | src/biodigestor.py:35-37 | returns the current reading of the pH sensor given at construction and changes nothing |
| `Biodigestor.MicroController.Agitate` | src/biodigestor.py:39-41 | always fails with a missing-attribute error for `_agitator`, because the constructor never stores the agitator; nothing is changed |

## Left out

- `Biodigestor.Agitator.Agitate`: the method's documentation speaks of agitating for 15 simulated minutes, but no code implements a duration; the motor stays on until `Stop` is called, and the model follows the code.
- `src/main.py` (HTTP routes, CORS middleware, thread and time imports) is I/O glue and is not part of this model.
- `src/utils.py` (`uuid`) draws random characters from the operating system; randomness is not part of this model.
- `MicroController.acidify` and `MicroController.deacidify` have empty bodies, so there is nothing to model.
- `BioDigistor` only stores the objects it is given and is never used; it is not part of this model.
- The `_time_series` lists of several classes are created empty and never read or written afterwards; their element type is unknown, so they are not modelled.
- The controller's optimum temperature (55) and pH range (6.6 to 7.2) are kept as constants of `MicroController`; nothing reads them.
- Python's dynamic typing is not modelled: readings and the environment's temperature are `real`, the season a `string`, and the clock an `int`. A float clock value or a reading of another type is not covered.
