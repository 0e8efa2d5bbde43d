# Temperature controller: PID core and ramp logic in Dafny

This project models the control core of a closed-loop temperature
controller that drives a bench power supply. The core has three parts:

- **`Pid`** (`pid.dfy`): the `PID` controller object. It keeps gains, a
  setpoint and a lookahead setpoint, an integral accumulator, the previous
  error and time, and the last output. `Update` blends the PID response with
  a proportional response to the lookahead error (weight 0.3). It integrates
  by the trapezoidal rule and differentiates by backward difference. It
  clamps the command to [0 V, 24 V] and back-calculates the integral when
  it clamps (anti-windup). The method is proved against the pure function
  `Step`, and the promised properties are proved about `Step`.
- **`Ramp`** (`ramp.dfy`): the setpoint ramp, its 20-second lookahead, and the
  linear voltage ramp, as pure functions of their inputs, with lemmas:
  - bounds and monotonicity;
  - the lookahead leads the setpoint;
  - the ramp is rate-limited and reaches its target;
  - a restart from the live temperature has no jump.
- **`Runner`** (`runner.dfy`): the `JobRunner` driver.
  - `Tick` is one iteration of the worker's polling loop. It dispatches to
    `VoltageTick` (open-loop voltage mode) or `PidTick` (closed-loop mode,
    with `SetpointTick` for the ramp or the frozen setpoint and `Control`
    for the controller step). What each branch does is stated once, by the
    two-state predicates `VoltageTicked` and `PidTicked`, which both the
    branch and `Tick` ensure.
  - `Run` is the loop itself.
  - `Start`, `Pause`, `Stop`, `Retune`, `PlusSp` and `MinusSp` are the
    handlers that change the run status or restart the ramp.

The thermometer and the power supply are inputs. Each tick receives a
`Sample` that holds:

- the temperature read at the top of the loop, a `Reading`: a value,
  `ReadFailed` when the thermometer command exits with an error, or
  `Unparsable` when its output is not a number;
- the second reading taken when the PID ramp restarts (`None` when it fails
  in either way);
- the clock;
- the selected tab;
- the supply's read-back voltage.

It returns what it commands:

- `Sent(v)`: the supply is commanded to `v`;
- `Shutdown`: the status becomes stopped and 0 V is commanded;
- `Fault`: the worker raises before commanding anything. The status is left
  as it was, and the supply keeps its last command, which can be up to 24 V.

The reads fail differently. The thermometer runs an external command and
parses its output (Thermometer.py:6-7). At the top of the loop only a
non-zero exit of the command is caught (main.py:104-107); it stops the run
with 0 V. Output that does not parse raises `ValueError` there, which
nothing catches (main.py:178 catches only `RuntimeError`): the tick is a
`Fault`. The restart reads (main.py:142 and main.py:154) sit outside both
handlers, so either failure there is a `Fault` too.

The model keeps these quirks of the code:

- A previous sample is detected by `prevTime == 0`, not by an absent
  timestamp. So a first call at time 0 leaves the next call on the
  first-call path (`FirstCallAtTimeZeroRepeats`, `FirstTwoCallsExample`).
- A zero time step is not rejected; the derivative divides by it
  (pid.py:31). In the code that raises `ZeroDivisionError`, which the loop
  does not catch (it catches only `RuntimeError`, main.py:178), so the worker
  ends as on a `Fault`. The model requires `t != prevTime` on the non-first
  path instead, and `Tick` requires it in PID mode only. A negative step is
  accepted, as in the code.
- A ramp rate of 0 does not fall back to the target. The setpoint stays at
  its initial value for ever (`ZeroRateHolds`).
- The setpoint ramp and the voltage ramp share one start time `t0`. A retune
  or a +1/-1 on the target (main.py:249, 291 and 301) resets it in voltage
  mode too. A voltage ramp in flight then restarts its clock but keeps its
  captured start, so the command jumps back to that start
  (`RetuneDuringVoltageRamp`).

## Model

| member | source | states |
|---|---|---|
| Pid.Clamp | pid.py:26-27 | the result is the nearest point of [MIN_V, MAX_V] = [0, 24] to its input: the input itself inside the range, the violated bound outside it |
| Pid.Step | pid.py:18-43 | one call of `update`: the output lies in [0, 24]. The gains and setpoints are untouched, and the error and time are committed |
| Pid.StepPaths | pid.py:24-39 | a first call (`prevTime == 0`) returns the clamped blend `Kc*(0.7*e + 0.3*le)` and leaves the integral alone. A later call inside the range returns the raw output and keeps the trapezoidal integral. A later call above 24 or below 0 returns that bound, and back-calculates the integral so that `Kc*e + i + Kd*der` equals it |
| Pid.Outputs | pid.py:41-43 | the sequence of commands returned by successive updates has one entry per call, each in [0, 24] |
| Pid.After | pid.py:41-42 | successive updates leave gains and setpoints unchanged and record the last call's time |
| Pid.FreshFirstCall | pid.py:5-27 | a newly built controller takes the first-call path: its first output is the clamped blended proportional response and its integral stays 0 |
| Pid.FirstCallAtTimeZeroRepeats | pid.py:24-42 | a first call at time 0 records time 0, so the next call is again a first call (integral unchanged, proportional output) |
| Pid.SteadyStateCommandsZero | pid.py:20-39 | with the temperature held at the setpoint (equal to the lookahead setpoint) and no accumulated error, every command is 0 V and the integral stays 0 |
| Pid.BackCalculationOmitsLookahead | pid.py:32-39 | at high saturation the back-calculated integral ignores the lookahead term: the blended output recomputed with it is `MAX_V + 0.3*(Kc*le - MAX_V)`, not `MAX_V` |
| Pid.FirstTwoCallsExample | pid.py:24-27 | gains (2, 0, 0) and setpoints 50: a call at time 0 reading 40 gives 20 V, and the call at time 1 reading 45 gives 10 V, again on the first-call path |
| Pid.SaturationExample | pid.py:29-39 | gains (100, 0, 0) and error 10: the raw output 1000 is clamped to 24 and the integral becomes -976 |
| Pid.PID.constructor | pid.py:5-16 | the new controller has the given gains, setpoints 0, integral 0, previous error 0, previous time 0, output 0 and no current time |
| Pid.StepAtRest | pid.py:18-43 | one call with the temperature at both setpoints and no accumulated error commands 0 V, and the integral and the stored error stay 0 |
| Pid.LaterCall | pid.py:28-39 | the time step, the trapezoidal integral, the derivative, the blended output and the clamp with back-calculation, computed as the code computes them, are exactly `Step`'s later path. The stored derivative is the backward difference |
| Pid.PID.Update | pid.py:18-43 | the new persistent state is `Step` of the old one, and the result is the new output. The scratch error terms, time step and derivative are stored, and the range invariant is kept. The later path's arithmetic is done by `LaterCall` |
| Pid.PID.SetTuning | pid.py:45-48 | replaces the three gains and nothing else; integral, previous error and previous time are untouched |
| Pid.PID.SetP | pid.py:50-51 | replaces the proportional gain only |
| Pid.PID.SetSetpoint | pid.py:53-54 | replaces the setpoint only |
| Pid.PID.SetLaterSp | pid.py:56-57 | replaces the lookahead setpoint only |
| Pid.PID.GetSetpoint | pid.py:59-60 | returns the setpoint last stored (0 on a fresh controller) |
| Pid.PID.GetOutput | pid.py:62-64 | returns the last command, which lies in [0, 24] |
| Ramp.Setpoint | main.py:155-161 | an upward ramp (target above the start) never exceeds the target. A downward ramp never goes below it. At the restart instant the setpoint equals the initial value |
| Ramp.Lookahead | main.py:155-162 | the lookahead setpoint is clamped at the target in the same direction as the ramp |
| Ramp.SetpointMonotone | main.py:155-161 | for a non-negative rate the setpoint is non-decreasing on an upward ramp and non-increasing on a downward one |
| Ramp.LookaheadLeads | main.py:155-162 | for a non-negative rate the lookahead is at or beyond the current setpoint in the ramp direction and never passes the target |
| Ramp.SetpointBetween | main.py:155-161 | from the restart on, the setpoint stays between the initial value and the target |
| Ramp.SetpointReachesTarget | main.py:155-161 | with a positive rate the setpoint equals the target once `60*|target-initial|/rate` seconds have passed |
| Ramp.SetpointRateLimited | main.py:155-161 | the setpoint moves by at most `rate/60` degrees per second between any two instants |
| Ramp.RestartWithoutJump | main.py:152-156 | a ramp restarted at `now` from the live temperature starts there and drifts from it by at most `rate/60` times the time since the restart |
| Ramp.ZeroRateHolds | main.py:155-162 | with rate 0 the setpoint and lookahead stay at the initial value; they do not fall back to the target |
| Ramp.Voltage | main.py:121-124 | within the ramp time the voltage lies between the start and the target. It equals the start at elapsed 0 and the target at the ramp time. It holds the target afterwards |
| Ramp.VoltageBetween | main.py:121-122 | the interpolation formula hits the target exactly at the ramp time and stays between start and target inside it |
| Ramp.VoltageMonotone | main.py:121-124 | on a ramp of positive duration the voltage moves monotonically from the start toward the target |
| Runner.JobRunner.constructor | main.py:30-55 | a runner is built stopped with the given target, rate and gains and a fresh controller; voltage target and ramp length are taken only on the voltage tab; ramp state and loop locals are empty |
| Runner.JobRunner.Start | main.py:194-195 | the status becomes running; this also stands for the resume of a paused run, which sets the same status (main.py:274) |
| Runner.JobRunner.Pause | main.py:62-71 | the status becomes paused, except when running on the PID tab before any setpoint exists, where showing the setpoint fails and the status is unchanged |
| Runner.JobRunner.Stop | main.py:181-192 | the status becomes stopped and 0 V is commanded |
| Runner.JobRunner.Retune | main.py:238-252 | during a run, new target and rate restart the ramp from the last temperature read at the current time; when stopped nothing changes |
| Runner.JobRunner.PlusSp | main.py:286-294 | the shown target goes up by 1; during a run it becomes the target and the ramp restarts from the last temperature read |
| Runner.JobRunner.MinusSp | main.py:296-304 | the shown target goes down by 1; during a run it becomes the target and the ramp restarts from the last temperature read |
| Runner.JobRunner.Tick | main.py:101-177 | a thermometer command that fails at the top of the loop stops the run with 0 V and changes neither the controller nor the last reading, mode or start time. A reading that does not parse faults and changes nothing at all. Otherwise the selected mode's branch runs, as `VoltageTicked` or `PidTicked` states, and voltage mode leaves the controller alone. Only a stop changes the status. PID mode leaves the voltage target, ramp time, selector and ramp start alone; voltage mode leaves the ramp's initial value, the current setpoint and the previous status alone. Every PID-mode command lies in [0, 24]. The non-zero time step is required in PID mode only |
| Runner.JobRunner.VoltageTick | main.py:110-137 | the tick satisfies `VoltageTicked`. It always commands and records voltage mode. Paused: it holds the read-back voltage and forgets the ramp; target, ramp time, selector and start time are unchanged. Coming from PID mode: the read-back voltage becomes the fixed target; the ramp start, start time and ramp time are unchanged. Ramping: it commands `Ramp.Voltage` from the captured start and keeps the target. At the end it holds the target with ramp time 0, no start time, start -1 and fixed mode. Fixed: it commands the target and changes nothing |
| Runner.JobRunner.PidTick | main.py:139-177 | the tick satisfies `PidTicked`. Right after voltage mode: stop with 0 V. First PID tick, or first running tick after a pause: the ramp restarts at the current time from a second reading, so the setpoint equals that reading. When that read fails the tick faults, and the controller and the status are untouched. Running: the controller state is `Step` with the current gains, the ramp setpoint and the lookahead. Paused: both setpoints are frozen at the last setpoint, or the tick faults when none exists. Only a stop changes the status |
| Runner.JobRunner.SetpointTick | main.py:150-167 | running: restarts the ramp after a pause from a second reading, failing when that read fails, and hands the controller the ramp setpoint and lookahead. Paused: hands it the frozen setpoint for both, and fails when there is none |
| Runner.JobRunner.Control | main.py:173-177 | the controller is retuned with the current gains and takes one step: its new state is `Step` of the retuned state at the tick's time and reading. The command is its output, in [0, 24], and PID mode is recorded |
| Runner.JobRunner.SteadyTick | main.py:150-177 | a running PID-mode tick with no restart pending (the previous tick was a running PID tick) commands a value in [0, 24], keeps the status, target, rate, ramp start value and start time, and sets the setpoint to the ramp's value at the tick's time |
| Runner.JobRunner.Run | main.py:96-179 | the loop stops at the first tick that is not a plain command. Only the last tick may end the run, and a `Shutdown` leaves the status stopped. Any other ending leaves the status as it was, and every PID-mode command lies in [0, 24] |
| Runner.RetuneThenTick | main.py:244-249 | after a retune while running, the next PID tick commands a value in [0, 24]. Its setpoint differs from the temperature read before the retune by at most `rate/60` times the time since the retune |
| Runner.RetuneDuringVoltageRamp | main.py:117-122 | a retune (which resets `t0`, main.py:249) during a voltage ramp in flight makes the next voltage tick command `Ramp.Voltage` from the ramp's captured start, timed from the retune. At the retune instant the command is that start |

## Left out

- The graphical interface (widgets, button colours, displays, plot buffers and
  drawing, `update_with_PID`, `update_with_voltage`, `update_without_PID`),
  `savePID` and the application bootstrap: display and persistence only.
- The serial power supply and the `usbtenkiget` thermometer: the temperature
  reading, its failure and the read-back voltage are inputs of each tick, and
  the commanded voltage is its result.
- Threads, the shared status list and the `sleep` hand-offs. The status is a
  field of the runner, and handlers run between ticks, never during one.
- Clock and sensor reads within one tick: the code reads the clock and the
  thermometer several times per iteration. The model uses one clock reading
  per tick and two thermometer readings: the loop's read and the ramp-restart
  read. So `Ramp.Voltage`'s bound between the start and the target relies on
  the single clock reading. In the code, main.py:121 and main.py:122 read the
  clock separately. When the ramp time runs out between the two reads, the
  code commands the interpolation at an elapsed time past the ramp time,
  slightly beyond the target.
- Text parsing of gains, setpoint, rate and voltage, and the `ValueError` and
  `AttributeError` paths around it: parameters are valid reals. So the model
  does not model parameter re-validation. In the code, `update_p`, `update_i`,
  `update_d` and `MainWindow.update` stop the run when an edited value does not
  parse. Inside the PID branch's `try` (main.py:150-171) the loop also stops
  on an `AttributeError` when the attributes the constructor failed to set
  are missing.
- Missing attributes in voltage mode: a missing `v` (main.py:131) or `pid`
  (main.py:136) raises outside any handler. The worker then ends with no stop
  and no 0 V. The model's runner always has these attributes.
- `update_p`, `update_i`, `update_d` and `update_v` (editing gains, voltage
  target or ramp time during a run) and `MainWindow.start`/`MainWindow.stop`
  (which build a runner and forward to `JobRunner.start`/`JobRunner.stop`).
  When the run is paused, `MainWindow.start` does not forward: it sets the
  status to running itself (main.py:274), which is the only way to resume a
  run. `Start` stands for that resume as well. The
  gains and the voltage target are those given to the constructor, and the
  voltage-ramp selector is set at construction and only cleared by the loop.
- Floating-point rounding: all arithmetic is over `real`.
- Runner.JobRunner.Run: external events (pause, stop, retune) between ticks are
  not interleaved in the loop; each handler is a separate method.
