# Vehicle velocity control loop — a Dafny model

This project models the core of a small discrete-time velocity control
simulator. It has three components:

- a **vehicle**: a point mass with quadratic drag, advanced by forward-Euler steps;
- a **PID controller**: it keeps an integral and the previous error between calls;
- a **simulation loop**: it couples the two, records the time, velocity and
  control-input histories, and reports the settling time of the recorded velocity.

Arithmetic is exact (`real`). This idealises the Python floats.

Modules, one per component:

- `Basics` (`basics.dfy`): `Option` and `Abs`.
- `VehicleDynamics` (`vehicle_dynamics.dfy`): class `Vehicle`, the drag law `Drag` and the Euler step `EulerStep`.
- `PidControl` (`pid_controller.dfy`): class `PidController` and its value view `Pid`.
  `Output`, `Advance` and `Cleared` give the effect of `compute` and `reset`.
  `Repeat` gives the effect of repeated calls.
- `SettlingTime` (`settling_time.dfy`): the band predicates and `SettlingIndex`.
  `SettlingIndex` is a single backward scan. Its contract says it returns the earliest
  index whose whole suffix stays in the band.
- `SimulationLoop` (`simulation.dfy`): class `Simulation`.
  - `Run` is the recording loop, proved against the closed-loop step `LoopStep` and its iterate `LoopAfter`.
  - `FindSettlingTime` is the source's forward search with its inner `all(...)` loop. It is proved equal to `SettlingIndex`.
- `Scenarios` (`scenarios.dfy`): client methods that replay the repository's unit tests
  and end-to-end expectations using only the contracts above.

Modelling decisions:

- `Run` requires `dt > 0`. For `duration >= 0` and `dt == 0`, the first `compute` raises `ZeroDivisionError` when a controller is attached, and the loop never ends otherwise. For `dt < 0` the loop never ends.
- `Run` requires a non-zero vehicle mass. `update_state` divides by it.
- `Compute` requires `dt != 0`. It divides by `dt`.
- The loop keeps the Python clock `t += dt` as `Clock(k, dt)`. `ClockIsProduct` shows that it reads `k * dt`.
- The sample count is `floor(duration / dt) + 1`, or 0 for a negative duration.
- The simulation's vehicle, controller and time step are constants. The source only sets them in `__init__`.
- A missing vehicle is replaced by the default `Vehicle(1, 10, 0.05)`.
- Python's default arguments are kept as Dafny default parameter values.
- A physical plant has positive mass, but `update_state` never checks it, so the model only requires `mass != 0` where it divides.
- A coasting step need not reduce `|velocity|`: `CoastingNeverSpeedsUp` proves the velocity never increases, and `CoastingCanOvershoot` shows a step landing past zero.
- `run` does not restore the vehicle's initial velocity: it only sets `t = 0.0`. A second `Run` therefore starts from the velocity the first one left (`velocityPoints[0] == old(vehicle.velocity)`). Without a setpoint it also keeps the controller's accumulated integral and previous error (`Start(None)`).
- `run` returns the simulation's own lists, not copies. `Run` returns sequence values equal to the fields `timePoints`, `velocityPoints` and `controlInputs`. Dafny sequences are immutable, so a caller that mutates a returned list and thereby changes the stored history is not modelled.

## Model

| member | source | states |
|---|---|---|
| `VehicleDynamics.Drag` | src/vehicle_dynamics.py:26-34 | the drag force equals `-k*v*abs(v)`; it is 0 exactly when `v == 0` or `k == 0`; for `k > 0` it has the opposite sign to `v`. `Vehicle.DragForce` returns it for the current fields and, being a function, changes nothing. |
| `VehicleDynamics.DragIsOdd` | src/vehicle_dynamics.py:33-34 | `drag(-v) == -drag(v)` |
| `VehicleDynamics.StepKeepsVelocity` | src/vehicle_dynamics.py:48-55 | an Euler step leaves the velocity unchanged if and only if `dt == 0` or the external force cancels the drag |
| `VehicleDynamics.CoastingNeverSpeedsUp` | src/vehicle_dynamics.py:48-55 | with no external force, `k >= 0`, `m > 0`, `dt >= 0` and `v > 0`, the new velocity is at most `v` |
| `VehicleDynamics.CoastingCanOvershoot` | src/vehicle_dynamics.py:48-55 | forward Euler may overshoot past zero: `m = 1`, `k = 1`, `v = 10`, `dt = 1` gives `-90` |
| `VehicleDynamics.Vehicle.constructor` | src/vehicle_dynamics.py:13-24 | mass, velocity and drag coefficient are stored exactly as given |
| `VehicleDynamics.Vehicle.UpdateState` | src/vehicle_dynamics.py:36-57 | the new velocity is `v + (drag(v) + F)/m * dt` and is returned; mass and drag coefficient are unchanged; requires `m != 0` |
| `PidControl.RepeatAccumulates` | project/pid_controller.py:42-54 | after `n` calls with constant error `e`, the integral has grown by `n*e*dt`, also when `ki == 0`; after at least one call the previous error is `e`; gains and setpoint are unchanged |
| `PidControl.RepeatOutput` | project/pid_controller.py:42-57 | closed form of the output of call `i+1` under a constant error: `kp*e + ki*(I0 + (i+1)*e*dt) + kd*(e - prev)/dt`, where `prev` is the starting previous error on the first call and `e` afterwards |
| `PidControl.FirstCallDerivative` | project/pid_controller.py:50-51 | on the first call after a reset the derivative term is `kd*e/dt`, not 0 |
| `PidControl.PidController.constructor` | project/pid_controller.py:11-28 | gains and setpoint are stored as given; integral and previous error are 0 |
| `PidControl.PidController.Compute` | project/pid_controller.py:30-59 | the output is `kp*e + ki*(I + e*dt) + kd*(e - prev)/dt` with `e = setpoint - pv`; `integral' = I + e*dt`; `previous_error' = e`; gains and setpoint are unchanged; requires `dt != 0` |
| `PidControl.PidController.Reset` | project/pid_controller.py:61-66 | integral and previous error become 0 and nothing else changes, so resetting twice is the same as resetting once |
| `SettlingTime.LastOutside` | project/simulation.py:139-146 | backward scan: the last index before `n` whose sample is outside the band, with every later sample inside; `None` when all samples before `n` are inside |
| `SettlingTime.SettlingIndex` | project/simulation.py:136-149 | returns `Some(i)` for the smallest `i < len` such that every sample from `i` on is in the band; returns `None` exactly when no such `i` exists, including the empty trajectory |
| `SettlingTime.LastOutsideNeverSettles` | project/simulation.py:142-149 | if the last sample is outside the band, nothing settles |
| `SettlingTime.NegativeThresholdNeverSettles` | project/simulation.py:139-149 | with a negative band width, for example a negative setpoint, nothing settles |
| `SettlingTime.TouchThenLeave` | project/simulation.py:142-146 | a trajectory that touches the band and leaves it again settles only where it enters the band for good |
| `SimulationLoop.ClockIsProduct` | project/simulation.py:55-73 | after `k` increments `t += dt` from 0, the clock reads `k*dt` |
| `SimulationLoop.RecordedTimes` | project/simulation.py:55-58 | time `k*dt` passes `t <= duration` exactly when `k < floor(duration/dt) + 1` (for `duration >= 0`), and never for `duration < 0` |
| `SimulationLoop.SampleTimesAreMultiples` | project/simulation.py:58-60 | the recorded clock readings are `i*dt`, each at most `duration` |
| `SimulationLoop.UncontrolledInputsAreZero` | project/simulation.py:64-67 | a loop without a controller stays without one, and every input it applies is 0 |
| `SimulationLoop.FollowsLoopSteps` | project/simulation.py:60-70 | histories taken from the loop start at the start velocity; each next velocity is one Euler step from the previous one under the recorded input; without a controller every input is 0 |
| `SimulationLoop.Simulation.constructor` | project/simulation.py:15-31 | keeps the given vehicle, or builds the default one (1 kg, 10 m/s, 0.05 kg/m); keeps the controller and `dt`; all three histories are empty |
| `SimulationLoop.Simulation.Run` | project/simulation.py:33-75 | clears the histories, re-targets and resets the controller when given a setpoint, then records `floor(duration/dt)+1` aligned samples of the closed loop (details below the table) |
| `SimulationLoop.Simulation.RecordAndStep` | project/simulation.py:59-70 | one loop body: appends `t`, the current velocity and the applied input, then steps the controller and the vehicle by one closed-loop step |
| `SimulationLoop.Simulation.FindSettlingTime` | project/simulation.py:125-149 | returns `time_points[i]` for the settling index `i` of the velocity history with threshold `setpoint*pct/100`, and `None` when there is no settling index or no sample; it only reads the histories |
| `Scenarios.HundredSamples` | project/simulation.py:55-73 | running 100 s with `dt = 1` records 101 samples |

What `SimulationLoop.Simulation.Run` states:

- It discards the earlier histories.
- The three histories have equal length `floor(duration/dt)+1`, or 0 for a negative duration.
- `time_points[i] == i*dt`, and every recorded time is at most `duration`.
- Sample `i` holds the velocity after `i` closed-loop steps and the input applied at step `i`.
- The first sample is the vehicle's velocity when `Run` starts.
- Each later velocity is the previous one stepped by `update_state(control_inputs[i], dt)`.
- Without a controller every input is 0.
- With both a setpoint and a controller, the controller is re-targeted and its accumulators are zeroed before the first compute. Otherwise the controller is left as is.
- Afterwards the vehicle and controller hold the state after the last step.
- Gains, mass and drag coefficient are unchanged.

## Left out

- `Simulation.plot_results` (project/simulation.py:77-123) is not modelled: it only renders with matplotlib and saves a file.
- The entry-point scripts `src/run_simulation.py`, `project/run_simulation.py`, `src/main.py` and `project/main.py` are not modelled. They only wire parameters, print and plot. `src/run_simulation.py:14` ignores its `duration_s` argument.
- The gain-scheduled simulation in `src/run_simulation.py` is not modelled. It always uses the first gain set, so there is no switching logic to model.
- IEEE-754 behaviour is not modelled: rounding, and drift of the accumulated `t += dt`. In floating point the drift can change the sample count. The model uses exact reals.
- The `ZeroDivisionError` that Python raises for `dt == 0` in `compute` (project/pid_controller.py:50) or for `mass == 0` in `update_state` (src/vehicle_dynamics.py:52) is not modelled as an error path. The `requires` clauses exclude those inputs.
- The unused `numpy` imports are not modelled.
- Python truthiness of `controller` is modelled as a nullable reference. Any controller object is truthy.
- The simulation's `vehicle`, `controller` and `dt_s` attributes are modelled as constants after construction. Reassigning them from outside is not modelled.
- SimulationLoop.Simulation.FindSettlingTime: requires the three histories to have equal length. The constructor and `Run` always establish this. On misaligned lists the Python method would index by `len(time_points)`; that case is not modelled.
- SimulationLoop.Simulation.Run: requires `dt > 0` and a non-zero vehicle mass. When `duration >= 0`, a zero mass raises `ZeroDivisionError` in `update_state`. So does `dt == 0` with a controller, in `compute`. `dt == 0` without a controller, and any `dt < 0`, loop forever. The `requires` also exclude a harmless case: for a negative duration the loop body never runs (project/simulation.py:58), so the source returns three empty lists whatever `dt` and the mass are. The model does not cover that case.
