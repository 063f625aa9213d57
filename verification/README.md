# ForRocket rocket state model in Dafny

This project models `forrocket::Rocket` from `src/rocket/rocket.cpp`. It is the
state-and-parameter object that a 6-DoF trajectory integrator queries at every
step. The mission sequencer changes it at staging events. The model has three
modules:

- `RocketMath` (`rocket_math.dfy`) holds the value types. These are the 3- and
  4-vectors, the inertia tensor, and the `Engine`, `SequenceClock`, `Mass` and
  `Parachute` records. It also holds the pure rules the class uses and their
  lemmas:
  - the damping sign convention `NonPositive`;
  - the inert-mass clamp `ClampInert`;
  - the parachute step `OpenOnce`, and its closed form over any number of
    deployments.
- `ForRocket` (`rocket.dfy`) holds the class `Rocket`. It has one field per
  member that `rocket.cpp` reads or writes. Each setter, getter and sequence-of-events handler
  is a method. Its `modifies` clause names exactly the fields the C++ method
  writes, so no other field changes. The getters that write a cached value
  (`length_CG`, `CA`, `Clp`, the inertia tensor, …) say so.
- `FlightScenarios` (`scenarios.dfy`) drives a fresh `Rocket` through short flight
  sequences. These cover the parachute sequence `[a, b]`, the axial-drag table
  switching at cutoff, the centre of gravity and tensor freezing after burnout,
  repeatable damping derivatives, and two staging events in a row.

Interpolation sources are fields of type `real -> real`, so they are opaque
lookups. The engine is a value field, as in C++. `Engine::Update` is modelled as
an arbitrary new engine state (`EngineUpdate`). `cos` and `sin` are
uninterpreted constants. Doubles are mathematical reals. Sources, caches, the
engine and the burn clock are not set by the constructor shown, so the model
leaves them unconstrained. The parachute list, the drag total, the deployment
counter and the mass come from the header, which is not part of this model.
They are assumed to start empty or at zero.

The x factor of the thrust direction is `cos(gimbal_y) * cos(gimbal_y)`, as in
the code, and it is reproduced literally (`GimbalFactors`). It may have been
meant as `cos(gimbal_y) * cos(gimbal_z)`. The model does not change it.

The staging clamp is not `max(1.0, inert - delta)`: it resets the mass to exactly
1.0 only when the difference is not positive, so a remainder of 0.5 stays 0.5
(`ClampInert`, `ClampIsNotAFloor`).

## Model

| member | source | states |
|---|---|---|
| ForRocket.Rocket.constructor | src/rocket/rocket.cpp:17-36 | geometry, angles, quaternion derivative, angular vectors and the inertia tensor start at zero; the tensor is diagonal (object invariant `Valid`); the parachute list is empty, and the total, the counter and the mass are zero |
| ForRocket.Rocket.SetLengthCG | src/rocket/rocket.cpp:45-47 | replaces the CG-vs-time source and nothing else |
| ForRocket.Rocket.SetLengthCP | src/rocket/rocket.cpp:49-51 | replaces the CP-vs-Mach source and nothing else |
| ForRocket.Rocket.SetCA | src/rocket/rocket.cpp:53-55 | the one-argument overload replaces only the powered CA source; the burnout source is untouched |
| ForRocket.Rocket.SetCAWithBurnout | src/rocket/rocket.cpp:57-60 | the two-argument overload replaces the powered and the burnout CA sources |
| ForRocket.Rocket.SetCNa | src/rocket/rocket.cpp:62-64 | replaces the CNa source only |
| ForRocket.Rocket.SetCld | src/rocket/rocket.cpp:66-68 | replaces the Cld source only |
| ForRocket.Rocket.SetClp | src/rocket/rocket.cpp:70-72 | replaces the Clp source only |
| ForRocket.Rocket.SetCmq | src/rocket/rocket.cpp:74-76 | replaces the Cmq source only |
| ForRocket.Rocket.SetCnr | src/rocket/rocket.cpp:78-80 | replaces the Cnr source only |
| ForRocket.Rocket.SetInertiaTensor | src/rocket/rocket.cpp:82-86 | replaces the three principal-moment sources; the cached tensor is untouched |
| ForRocket.Rocket.SetAttitudeProgram | src/rocket/rocket.cpp:88-92 | replaces the azimuth, elevation and roll program sources |
| ForRocket.Rocket.SetCdSParachute | src/rocket/rocket.cpp:94-96 | the increment list becomes the old list followed by `x`; earlier entries keep their order |
| ForRocket.Rocket.SetCdSParachutePair | src/rocket/rocket.cpp:98-101 | the increment list becomes the old list followed by `x` then `y` |
| ForRocket.Rocket.GetLengthCG | src/rocket/rocket.cpp:108-114 | while burning, returns and caches the CG source at the burn clock; otherwise returns the cached value and leaves it unchanged, so calls after cutoff agree |
| ForRocket.Rocket.GetLengthCP | src/rocket/rocket.cpp:116-119 | returns and caches the CP source at the Mach number, whatever the burn state |
| ForRocket.Rocket.GetCA | src/rocket/rocket.cpp:121-128 | burning: the powered table at the Mach number; not burning: the burnout table; the returned value is the one cached |
| ForRocket.Rocket.GetCNa | src/rocket/rocket.cpp:130-133 | returns and caches the CNa source at the Mach number |
| ForRocket.Rocket.GetCld | src/rocket/rocket.cpp:135-138 | returns and caches the Cld source at the Mach number |
| ForRocket.Rocket.GetClp | src/rocket/rocket.cpp:140-146 | returns and caches the raw roll damping with the sign convention applied: never positive, same magnitude |
| ForRocket.Rocket.GetCmq | src/rocket/rocket.cpp:148-154 | the same convention for pitch damping |
| ForRocket.Rocket.GetCnr | src/rocket/rocket.cpp:156-162 | the same convention for yaw damping |
| ForRocket.Rocket.GetThrust | src/rocket/rocket.cpp:165-179 | after the propulsion update (any new engine state), returns the zero vector when the engine is not burning; otherwise returns thrust times the literal gimbal factors `(cos gy * cos gy, sin gz, -sin gy)` |
| ForRocket.Rocket.GetInertiaTensor | src/rocket/rocket.cpp:181-191 | while burning, caches and returns `diag(xx(t), yy(t), zz(t))` at the burn clock; otherwise returns the cached tensor unchanged; the tensor stays diagonal |
| ForRocket.Rocket.GetAttitude | src/rocket/rocket.cpp:193-198 | returns the azimuth, elevation and roll programs at the burn clock and writes no field |
| ForRocket.Rocket.IgnitionEngine | src/rocket/rocket.cpp:202-205 | the burn clock restarts at the given epoch and count-up time, and the engine is burning |
| ForRocket.Rocket.CutoffEngine | src/rocket/rocket.cpp:207-209 | the engine stops burning; no cached value is touched |
| ForRocket.Rocket.DeSpin | src/rocket/rocket.cpp:211-214 | index 0 of the angular velocity and of the angular acceleration becomes 0; indices 1 and 2, and every other field, are unchanged |
| ForRocket.Rocket.JettsonFairing | src/rocket/rocket.cpp:217-220 | inert mass becomes `ClampInert(inert, m_fairing)` and is positive; propellant and every other field are unchanged |
| ForRocket.Rocket.SeparateUpperStage | src/rocket/rocket.cpp:222-225 | the same clamp for the upper-stage mass |
| ForRocket.Rocket.OpenParachute | src/rocket/rocket.cpp:227-232 | the (total, counter) pair becomes `OpenOnce` of the old pair; the counter goes up by exactly 1 |
| RocketMath.Diagonal | src/rocket/rocket.cpp:185-187 | the tensor built from three moments has all six off-diagonal entries zero and the moments on its diagonal |
| RocketMath.NonPositive | src/rocket/rocket.cpp:142-144 | the damping convention's result is at most 0 and has the magnitude of the raw value; a non-positive raw value is returned unchanged |
| RocketMath.NonPositiveIdempotent | src/rocket/rocket.cpp:140-146 | applying the convention twice gives the same value as applying it once |
| RocketMath.ClampInert | src/rocket/rocket.cpp:218-219 | the new inert mass is `inert - delta` when that is positive and exactly 1.0 otherwise; it is always positive |
| RocketMath.ClampIsNotAFloor | src/rocket/rocket.cpp:219 | the clamp is a reset and not `max(1.0, ·)`: 1.5 minus 1.0 stays 0.5 |
| RocketMath.InertAfterBounds | src/rocket/rocket.cpp:217-225 | after one or more staging events the inert mass is positive for any deltas, negative ones included; with non-negative deltas it never exceeds the larger of the start mass and 1.0 |
| RocketMath.NegativeIncrementLowersDrag | src/rocket/rocket.cpp:228-230 | a negative increment is added as it is, so the drag total can go down: opening once with the list `[-1.0]` gives a total below 0 |
| RocketMath.OpenOnce | src/rocket/rocket.cpp:227-232 | one deployment advances the counter by 1 and adds the increment slice between the old and new counter, cut at the list's end: `src[count]` when `count < size`, nothing otherwise |
| RocketMath.OpenRepeatedlyClosedForm | src/rocket/rocket.cpp:227-232 | n deployments advance the counter by n and add the sum of the increments from the old counter to the new one, cut at the list's end |
| RocketMath.DragNeverDecreases | src/rocket/rocket.cpp:227-232 | with non-negative increments, neither the counter nor the deployed total ever decreases |
| RocketMath.ExhaustedDeploymentIsNoOp | src/rocket/rocket.cpp:228-231 | once the counter has reached the list's size, further deployments only advance the counter |
| FlightScenarios.TwoStageParachute | src/rocket/rocket.cpp:227-232 | with increments `[a, b]` and a fresh rocket, the totals after calls 1 to 4 are a, a+b, a+b, a+b and the counter reaches 4 |
| FlightScenarios.AxialDragSwitchesAtCutoff | src/rocket/rocket.cpp:121-128 | with constant tables 0.3 (powered) and 0.5 (burnout), CA at one Mach number is 0.3 before cutoff and 0.5 after it |
| FlightScenarios.MassPropertiesFreezeAtCutoff | src/rocket/rocket.cpp:181-191 | the CG and the tensor resolved while burning are returned again after cutoff, even when the clock has advanced; the tensor is diagonal (with `GetLengthCG`, lines 108-114) |
| FlightScenarios.DampingIsRepeatable | src/rocket/rocket.cpp:140-146 | two roll-damping lookups at the same Mach number agree, are non-positive and have the raw value's magnitude |
| FlightScenarios.StagingKeepsInertMassPositive | src/rocket/rocket.cpp:217-225 | a fairing jettison then a stage separation leave a positive inert mass equal to the clamp applied twice in order |

## Left out

- `extend_result_telemetry.py` is not part of this model. It is a plotting and conversion script built on file I/O and foreign libraries.
- `Engine::Update`, `Engine::Ignittion` and `Engine::Cutoff` are not part of this model. `EngineUpdate` gives the engine an arbitrary new state.
- ForRocket.Rocket.IgnitionEngine: it is assumed to set only `burning` to true.
- ForRocket.Rocket.GetThrust: its frame is the engine alone, so it assumes that `Engine::Update`, which receives `mass.propellant`, never writes the rocket's propellant mass. The signature of `Update` is not part of this model.
- RocketMath.DragNeverDecreases: it needs non-negative increments. `setCdSParachute` accepts any value and nothing checks the sign, so a negative increment lowers the total (`NegativeIncrementLowersDrag`).
- ForRocket.Rocket.CutoffEngine: it is assumed to set only `burning` to false. No other change inside the engine is modelled.
- `SequenceClock` and `DateTime` are not part of this model. The clock is a record of the epoch, carried as a number, and the count-up time. The mission clock advances it by writing the field.
- `InterpolateParameter` is not part of this model. Its interpolation and extrapolation become an opaque `real -> real` function.
- `cos` and `sin` are uninterpreted. The Eigen vector and matrix products become componentwise arithmetic on reals.
- Floating-point rounding, NaN and infinities are not modelled. Every double is a real.
- The initial values of the fields declared in the header (`rocket.hpp`) are assumed: an empty increment list, a zero total and counter, and zero mass. The header is not part of this model.
- The attitude-state slots (`quaternion_dot`, `angle_of_attack`, `sideslip_angle`, `dynamic_pressure`) are only stored. The integrator writes them, and its logic is outside this model.
- The C++ `setEngine`, which is commented out, is not modelled.
- Concurrent use is not modelled. The object is used from one thread.
