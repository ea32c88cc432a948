# Spring pendulum simulator: a verified model

This project models the core of a Java/Swing simulator of a weight on a spring
that both swings and stretches. The core has five parts:

- **Params** (`params.dfy`): the physical configuration
  (`SimulationParameters`). It is a class with seven real fields, the default
  and copy constructors, and unchecked setters.
- **Snapshot** (`physics_state.dfy`): one snapshot of the pendulum
  (`PhysicsState`). It has eleven quantities, the lookup of a quantity by its
  label (`getParameter`), and the ten labels a chart may select
  (`getAvailableParameters`).
- **Integrator** (`integrator.dfy`): the numerical core of the controller.
  - the equations of motion (`derivatives`), with `add` and `mult`;
  - one classical Runge-Kutta step with the 0.1 floor on the spring length and
    the time increment (`integrate`);
  - the number of steps a loop pass performs;
  - the snapshot built from the integrated state (`createCurrentState`).
- **Engine** (`controller.dfy`): the controller (`PhysicsController`).
  - Its commands are start, stop, reset, setParameters, getParameters,
    isRunning, setSimulationSpeed, getSimulationSpeed, subscribe, unsubscribe
    and shutdown.
  - It keeps a duplicate-free subscriber list.
  - Its notifications come in a fixed order.
  - One pass of its background loop is modelled as well.
- **Points** (`points_panel.dfy`): the bounded point buffer of the plotting
  component (`PointsPanel`), together with its four range bounds.
- **Chart** (`points_chart.dfy`): the chart window (`PointsChartWindow`). On
  every state update it auto-scales its range and pushes one point into its
  panel, and it returns to the initial range on reset.

How the model is built:

- Objects whose fields the source reassigns are Dafny classes: the controller,
  the parameters, the panel and the chart window. Each class method is proved
  against a value-level function of its old state.
- The controller's state, read as a value, is `View`. Every command method
  ensures `Model() == Apply(numerics, old(Model()), command)`.
- The lemmas about `Apply` and `Run` (a sequence of commands) state what the
  commands promise.
- The background loop is `RunPass(now)`: one pass of `while (alive)`, where
  `now` is the clock reading the pass takes. Its inner `for` loop is
  `Simulate`, proved against `Advance`, which is n steps of `Step`.
- Notifications are appended, in order, to the controller's `events` queue.
  This is the order in which the Swing event queue delivers them.
- Doubles are reals. Java's `(int)` cast is written out as `JavaIntCast`: it
  truncates toward zero and saturates at the int range.
- `Math.sin`, `Math.cos` and `Math.sqrt` are carried as uninterpreted
  function values in a `Numerics` value that the controller is built with.
- `Numerics` also carries an uninterpreted division, used for every division
  in the equations of motion: k/m, c/m, −g·sin φ / R and R′/R. In Java these
  can divide by zero.
- Every other division is exact real division: dt/2 and dt/6 in the RK4 step,
  elapsed/1000 and /DT in the step count, and π/6 in the defaults.
- The bodies of `derivatives` and `createCurrentState` are written out in
  full over these operations.
- `ExactAtRest(num)` states the little the rest-state lemmas need: sin 0 = 0,
  cos 0 = 1, and exact division by a non-zero real.
- RK4 is written stage by stage as `Stage`. `Rk4AsWritten` proves that this
  equals the straight-line k1..k4 computation of `integrate`.

After `shutdown`:

- The controller is never alive again, and loop passes do nothing
  (`ShutdownIsFinal`).
- Commands still act: `start` sets `running` and queues `Started`.

## Model

Source paths are relative to the repository root.

| member | source | states |
|---|---|---|
| Params.SimulationParameters.constructor | demo/src/main/java/com/example/model/SimulationParameters.java:12-20 | the defaults: mass 1, spring constant 50, natural length 1, initial length 1.5, initial angle π/6, damping 0.1, gravity 9.81 |
| Params.SimulationParameters.Copy | demo/src/main/java/com/example/model/SimulationParameters.java:22-30 | the copy is field-wise equal to its source |
| Params.SimulationParameters.SetMass | demo/src/main/java/com/example/model/SimulationParameters.java:40 | mass becomes the argument, unchecked, and the other six fields keep their values |
| Params.SimulationParameters.SetSpringConstant | demo/src/main/java/com/example/model/SimulationParameters.java:41 | springConstant becomes the argument, unchecked, and nothing else changes |
| Params.SimulationParameters.SetNaturalLength | demo/src/main/java/com/example/model/SimulationParameters.java:42 | naturalLength becomes the argument, unchecked, and nothing else changes |
| Params.SimulationParameters.SetInitialLength | demo/src/main/java/com/example/model/SimulationParameters.java:43 | initialLength becomes the argument, unchecked, and nothing else changes |
| Params.SimulationParameters.SetInitialAngle | demo/src/main/java/com/example/model/SimulationParameters.java:44 | initialAngle becomes the argument, unchecked, and nothing else changes |
| Params.SimulationParameters.SetDamping | demo/src/main/java/com/example/model/SimulationParameters.java:45 | damping becomes the argument, unchecked, and nothing else changes |
| Params.SimulationParameters.SetGravity | demo/src/main/java/com/example/model/SimulationParameters.java:46 | gravity becomes the argument, unchecked, and nothing else changes |
| Params.CopyThenSetMass | demo/src/main/java/com/example/model/SimulationParameters.java:22-40 | a setter on a copy leaves the original unchanged, and the copy keeps the original's other fields |
| Params.SetMassAfterCopy | demo/src/main/java/com/example/model/SimulationParameters.java:22-40 | a setter on the original leaves an earlier copy with the old value |
| Snapshot.PhysicsState.GetParameter | demo/src/main/java/com/example/model/PhysicsState.java:59-74 | no contract of its own: an if-chain over the eleven labels returning the matching field, and 0 for any other name; see GetParameterOfLabel and GetParameterUnknown |
| Snapshot.PhysicsState.With | demo/src/main/java/com/example/model/PhysicsState.java:47-57 | a setter changes exactly its own field; the other ten read as before |
| Snapshot.Empty | demo/src/main/java/com/example/model/PhysicsState.java:16 | the no-argument snapshot has every field 0 |
| Snapshot.AvailableParameters | demo/src/main/java/com/example/model/PhysicsState.java:76-89 | exactly ten labels, in selector order: the label of each field other than time |
| Snapshot.LabelInjective | demo/src/main/java/com/example/model/PhysicsState.java:59-71 | distinct fields have distinct labels |
| Snapshot.GetParameterOfLabel | demo/src/main/java/com/example/model/PhysicsState.java:59-71 | looking up a field's label returns that field, for all eleven fields |
| Snapshot.GetParameterUnknown | demo/src/main/java/com/example/model/PhysicsState.java:72 | a name that is no field's label reads as 0 |
| Snapshot.AvailableParametersSelect | demo/src/main/java/com/example/model/PhysicsState.java:61-88 | the ten labels are pairwise distinct and each selects its non-time field; the time label can be looked up but is not offered |
| Snapshot.WithThenGetParameter | demo/src/main/java/com/example/model/PhysicsState.java:47-74 | after a setter, that field's label gives the new value and every other name reads as before |
| Integrator.Add | demo/src/main/java/com/example/controller/PhysicsController.java:180-182 | no contract of its own: component-wise sum of two state vectors |
| Integrator.Mult | demo/src/main/java/com/example/controller/PhysicsController.java:184-186 | no contract of its own: every component multiplied by the scalar |
| Integrator.Derivatives | demo/src/main/java/com/example/controller/PhysicsController.java:158-178 | no contract of its own: (dR, R·dφ² − (k/m)(R − R0) + g cos φ − (c/m) dR, dφ, −g sin φ / R − 2 (dR/R) dφ − (c/m) dφ), with the divisions and trigonometry taken from Numerics |
| Integrator.Stage | demo/src/main/java/com/example/controller/PhysicsController.java:128-144 | no contract of its own: stage i samples the derivatives at y, at y plus half a step along the previous slope (stages 2 and 3) or a full step (stage 4), and accumulates k1 + 2k2 + 2k3 + k4; see Rk4AsWritten and StageSum |
| Integrator.Rk4 | demo/src/main/java/com/example/controller/PhysicsController.java:141-146 | no contract of its own: y + dt/6 times the weighted slope sum, before the floor; see Rk4AsWritten |
| Integrator.Advance | demo/src/main/java/com/example/controller/PhysicsController.java:86-88 | no contract of its own: n consecutive steps of size DT; see AdvanceTime, AdvanceFloor and FixedPointPersists |
| Integrator.JavaIntCast | demo/src/main/java/com/example/controller/PhysicsController.java:84 | no contract of its own: INT_MAX at or above the int range, INT_MIN at or below it, the floor of a non-negative value and the negated floor of the negation otherwise; see JavaIntCastBounds |
| Integrator.StepCount | demo/src/main/java/com/example/controller/PhysicsController.java:83-84 | no contract of its own: the cast of (elapsed/1000·speed)/DT, with exact real division; see StepCountCovers |
| Integrator.Step | demo/src/main/java/com/example/controller/PhysicsController.java:146-152 | after a step the spring length is at least 0.1 and time has grown by exactly dt |
| Integrator.StepFloor | demo/src/main/java/com/example/controller/PhysicsController.java:146-151 | the step is the RK4 state when its length is at least 0.1; otherwise only the length is replaced by 0.1 |
| Integrator.Rk4AsWritten | demo/src/main/java/com/example/controller/PhysicsController.java:128-146 | the stage recursion equals the straight-line k1..k4 computation and the combination y + dt/6 (k1 + 2k2 + 2k3 + k4) |
| Integrator.StageSum | demo/src/main/java/com/example/controller/PhysicsController.java:142-144 | the weighted sum is ((k1 + 2 k2) + 2 k3) + k4 |
| Integrator.SlopesOfPositions | demo/src/main/java/com/example/controller/PhysicsController.java:130-177 | the position components of the four slopes are the velocities at the four sample points |
| Integrator.Rk4Positions | demo/src/main/java/com/example/controller/PhysicsController.java:128-177 | a DT step moves each position by DT times its velocity plus DT²/6 times the first three acceleration samples |
| Integrator.CombinePosition | demo/src/main/java/com/example/controller/PhysicsController.java:141-146 | the arithmetic of that combination, for one position |
| Integrator.AdvanceTime | demo/src/main/java/com/example/controller/PhysicsController.java:86-88 | after n steps the simulated time has grown by exactly n·DT |
| Integrator.AdvanceFloor | demo/src/main/java/com/example/controller/PhysicsController.java:86-88 | after at least one step the spring length is at least 0.1, whatever the start |
| Integrator.EquilibriumIsRest | demo/src/main/java/com/example/controller/PhysicsController.java:158-177 | with exact numerics, every derivative vanishes at the hanging equilibrium (at rest, vertical, length R0 + m g / k) |
| Integrator.Rk4AtEquilibrium | demo/src/main/java/com/example/controller/PhysicsController.java:128-146 | an RK4 step of any size leaves that equilibrium in place |
| Integrator.FixedPointPersists | demo/src/main/java/com/example/controller/PhysicsController.java:86-88 | a state that RK4 leaves in place, with length at least 0.1, stays in place for any number of steps |
| Integrator.EquilibriumIsFixedPoint | demo/src/main/java/com/example/controller/PhysicsController.java:86-177 | with exact numerics, the integrator keeps the pendulum at its equilibrium for any number of steps |
| Integrator.JavaIntCastBounds | demo/src/main/java/com/example/controller/PhysicsController.java:84 | the cast lies in the int range, is the integer part of its argument when in range, and saturates outside it |
| Integrator.StepCountCovers | demo/src/main/java/com/example/controller/PhysicsController.java:81-84 | a due pass does at least one step, and the steps cover the largest multiple of DT within elapsed/1000·speed, unless the count saturates |
| Integrator.CreateState | demo/src/main/java/com/example/controller/PhysicsController.java:191-218 | a snapshot carries the time and the four integrated quantities unchanged |
| Integrator.SnapshotSpringLengthFloor | demo/src/main/java/com/example/controller/PhysicsController.java:148 | a snapshot taken after at least one step reports a spring length of at least 0.1 under its label |
| Engine.ClampSpeed | demo/src/main/java/com/example/controller/PhysicsController.java:313 | the speed lies in [0.1, 10]; it is the argument when in range, 0.1 below and 10 above |
| Engine.Subscribed | demo/src/main/java/com/example/controller/PhysicsController.java:322-326 | null or present observers are ignored and others appended, so the list stays duplicate-free and its prefix is kept |
| Engine.RemoveFirst | demo/src/main/java/com/example/controller/PhysicsController.java:329-331 | removal is a no-op for an absent observer; otherwise it removes one element, keeps every other one, and leaves a duplicate-free list without the observer |
| Engine.Unsubscribed | demo/src/main/java/com/example/controller/PhysicsController.java:329-331 | no contract of its own: RemoveFirst for a present argument, the list unchanged for null |
| Engine.RemoveFirstCutsOut | demo/src/main/java/com/example/controller/PhysicsController.java:329-331 | removal cuts out exactly the first occurrence, so the others keep their relative order |
| Engine.InitialMotion | demo/src/main/java/com/example/controller/PhysicsController.java:61-67 | no contract of its own: time 0, length and angle from the initial parameters, both velocities 0 |
| Engine.AfterReset | demo/src/main/java/com/example/controller/PhysicsController.java:284-293 | no contract of its own: the initial motion of the current parameters, then Reset and the StateUpdate of that motion queued in this order; see ResetKeepsRunState |
| Engine.AfterPass | demo/src/main/java/com/example/controller/PhysicsController.java:76-96 | no contract of its own: dead → unchanged; stopped → baseline moved; not yet due → unchanged; due → Advance by the step count (none when negative), baseline moved, one StateUpdate; see the AfterPass and DuePass lemmas |
| Engine.Apply | demo/src/main/java/com/example/controller/PhysicsController.java:267-342 | no contract of its own: the effect of each command on the controller state: start and stop only on a change, reset, setParameters as reset after storing, clamped speed, subscribe, unsubscribe, shutdown, and a loop pass; see ApplyPreservesInv |
| Engine.Initial | demo/src/main/java/com/example/controller/PhysicsController.java:39-56 | a new controller satisfies the invariant (no duplicate observers, speed in range) |
| Engine.ApplyPreservesInv | demo/src/main/java/com/example/controller/PhysicsController.java:267-342 | every command and every loop pass keeps the subscriber list duplicate-free and the speed in [0.1, 10] |
| Engine.RunPreservesInv | demo/src/main/java/com/example/controller/PhysicsController.java:267-342 | so does every sequence of them |
| Engine.StartStopIdempotent | demo/src/main/java/com/example/controller/PhysicsController.java:268-281 | start sets running and emits Started only when stopped, so a second start does nothing; stop is the mirror image |
| Engine.ResetKeepsRunState | demo/src/main/java/com/example/controller/PhysicsController.java:284-293 | reset restores the initial motion of the current parameters, keeps running and alive, and emits exactly Reset then the matching StateUpdate |
| Engine.SetParametersIsReset | demo/src/main/java/com/example/controller/PhysicsController.java:296-299 | setParameters stores the values, then behaves exactly like reset |
| Engine.StoppedPassDoesNoSteps | demo/src/main/java/com/example/controller/PhysicsController.java:94-96 | a pass while stopped only moves the baseline |
| Engine.AfterPassWhenNotDue | demo/src/main/java/com/example/controller/PhysicsController.java:76-96 | a pass on a dead, stopped or not-yet-due controller changes at most the baseline |
| Engine.AfterPassWhenDue | demo/src/main/java/com/example/controller/PhysicsController.java:77-93 | a due pass advances the motion by the step count, moves the baseline and queues one StateUpdate of the new motion |
| Engine.DuePassSteps | demo/src/main/java/com/example/controller/PhysicsController.java:77-93 | a due pass performs at least one step; time grows by that many DT, length stays at least 0.1, one StateUpdate is queued, the rest is unchanged |
| Engine.DuePassMotion | demo/src/main/java/com/example/controller/PhysicsController.java:81-88 | with the speed in range, a due pass performs exactly StepCount(elapsed, speed) steps |
| Engine.PassStartPass | demo/src/main/java/com/example/controller/PhysicsController.java:76-96 | a stopped pass, a start and a pass: the second pass acts on the baseline the stopped pass left |
| Engine.ResumeDoesNotReplay | demo/src/main/java/com/example/controller/PhysicsController.java:76-96 | resuming does not replay the paused time: the first steps after start cover only the time since the last stopped pass |
| Engine.ShutdownIsFinal | demo/src/main/java/com/example/controller/PhysicsController.java:336-342 | after shutdown no command makes the controller alive again, and loop passes have no effect |
| Engine.PhysicsController.constructor | demo/src/main/java/com/example/controller/PhysicsController.java:39-56 | a new controller is alive, stopped, at speed 1, with default parameters, the reset motion, no observers and no events |
| Engine.PhysicsController.ResetState | demo/src/main/java/com/example/controller/PhysicsController.java:61-67 | time 0, at rest, at the initial angle and length of the current parameters; nothing else changes |
| Engine.PhysicsController.Publish | demo/src/main/java/com/example/controller/PhysicsController.java:232-263 | a notification is queued behind those already queued; nothing else changes |
| Engine.PhysicsController.Integrate | demo/src/main/java/com/example/controller/PhysicsController.java:110-153 | the five state fields become one Step of the current motion under the current parameters |
| Engine.PhysicsController.Simulate | demo/src/main/java/com/example/controller/PhysicsController.java:86-88 | the loop performs `steps` steps (none when negative): the motion becomes Advance of the old motion |
| Engine.PhysicsController.NotifyStateUpdate | demo/src/main/java/com/example/controller/PhysicsController.java:223-230 | the snapshot of the current state is queued |
| Engine.PhysicsController.DuePass | demo/src/main/java/com/example/controller/PhysicsController.java:78-93 | a due pass has exactly the effect AfterPass describes |
| Engine.PhysicsController.RunPass | demo/src/main/java/com/example/controller/PhysicsController.java:76-96 | one pass of the loop has the effect AfterPass describes and keeps the invariant; the loop continues exactly while alive |
| Engine.PhysicsController.Start | demo/src/main/java/com/example/controller/PhysicsController.java:268-273 | the effect of StartCmd |
| Engine.PhysicsController.Stop | demo/src/main/java/com/example/controller/PhysicsController.java:276-281 | the effect of StopCmd |
| Engine.PhysicsController.Reset | demo/src/main/java/com/example/controller/PhysicsController.java:284-293 | the effect of ResetCmd, including the two notifications in order |
| Engine.PhysicsController.SetParameters | demo/src/main/java/com/example/controller/PhysicsController.java:296-299 | a fresh private copy of the argument is stored, then the effect of reset |
| Engine.PhysicsController.GetParameters | demo/src/main/java/com/example/controller/PhysicsController.java:302-304 | a fresh object, field-wise equal to the current parameters |
| Engine.PhysicsController.IsRunning | demo/src/main/java/com/example/controller/PhysicsController.java:307-309 | returns the running flag |
| Engine.PhysicsController.SetSimulationSpeed | demo/src/main/java/com/example/controller/PhysicsController.java:312-314 | the effect of SetSpeedCmd: the clamped speed is stored |
| Engine.PhysicsController.GetSimulationSpeed | demo/src/main/java/com/example/controller/PhysicsController.java:317-319 | returns the stored speed, which lies in [0.1, 10] |
| Engine.PhysicsController.Subscribe | demo/src/main/java/com/example/controller/PhysicsController.java:322-326 | the effect of SubscribeCmd |
| Engine.PhysicsController.Unsubscribe | demo/src/main/java/com/example/controller/PhysicsController.java:329-331 | the effect of UnsubscribeCmd |
| Engine.PhysicsController.Shutdown | demo/src/main/java/com/example/controller/PhysicsController.java:336-342 | alive and running become false; nothing else changes |
| Engine.GetParametersIsIndependent | demo/src/main/java/com/example/controller/PhysicsController.java:302-304 | changing the returned copy leaves the controller unchanged |
| Engine.SetParametersIsIndependent | demo/src/main/java/com/example/controller/PhysicsController.java:296-299 | changing the argument after setParameters leaves the controller with the values it was given |
| Points.Pushed | demo/src/main/java/com/example/gui/components/PointsPanel.java:34-41 | no contract of its own: append the point, then drop the first element when the list is longer than maxPoints; see PushedShape |
| Points.PushedShape | demo/src/main/java/com/example/gui/components/PointsPanel.java:34-41 | a push never exceeds capacity, makes the point the last element, loses nothing below capacity, and otherwise loses exactly the oldest point |
| Points.PushedKeepsLatest | demo/src/main/java/com/example/gui/components/PointsPanel.java:34-41 | one push onto the most recent points of a history gives the most recent points of the longer history |
| Points.PushAllKeepsLatest | demo/src/main/java/com/example/gui/components/PointsPanel.java:34-41 | so does any run of pushes: the buffer forgets only by age |
| Points.PushAllFromEmpty | demo/src/main/java/com/example/gui/components/PointsPanel.java:34-41 | from empty, the buffer holds exactly the last maxPoints points given to it |
| Points.PointsPanel.constructor | demo/src/main/java/com/example/gui/components/PointsPanel.java:20-28 | an empty buffer with the given range and capacity |
| Points.PointsPanel.SetVal | demo/src/main/java/com/example/gui/components/PointsPanel.java:34-44 | append, then drop the first element when over capacity; the list stays within capacity |
| Points.PointsPanel.SetRange | demo/src/main/java/com/example/gui/components/PointsPanel.java:46-52 | the four bounds become the arguments and the points are untouched |
| Points.PointsPanel.ClearPoints | demo/src/main/java/com/example/gui/components/PointsPanel.java:59-64 | the list becomes empty and the bounds are untouched |
| Points.PointsPanel.GetPoints | demo/src/main/java/com/example/gui/components/PointsPanel.java:66-70 | returns the current contents |
| Points.PointsPanel.Update | demo/src/main/java/com/example/gui/components/PointsPanel.java:72-75 | exactly the effect of setVal |
| Points.SnapshotIsIndependent | demo/src/main/java/com/example/gui/components/PointsPanel.java:66-70 | a returned snapshot is unchanged by later setVal and clearPoints calls |
| Chart.Rescale | demo/src/main/java/com/example/gui/PointsChartWindow.java:91-107 | no contract of its own: the time bounds stretch for a later time, then each value bound moves to 1.2·value when the value lies beyond it; see RescaleCovers, RescaleTime and RescaleValue |
| Chart.RescaleCovers | demo/src/main/java/com/example/gui/PointsChartWindow.java:91-112 | on a sane range the rule keeps it sane, puts the point inside, only widens bounds, and changes the range exactly when the point was outside |
| Chart.RescaleTime | demo/src/main/java/com/example/gui/PointsChartWindow.java:94-98 | a later time sets maxTime to 1.2·time and minTime to max(0, time − (new max − old min)·0.8); otherwise the time bounds are kept |
| Chart.RescaleValue | demo/src/main/java/com/example/gui/PointsChartWindow.java:100-107 | a value below or above the value window moves that bound to 1.2·value; otherwise the bounds are kept |
| Chart.PointsChartWindow.constructor | demo/src/main/java/com/example/gui/PointsChartWindow.java:18-35 | range (0, 10, −5, 5), auto-scale on, an empty 500-point panel showing that range |
| Chart.PointsChartWindow.OnStateUpdate | demo/src/main/java/com/example/gui/PointsChartWindow.java:86-116 | with auto-scale on the range follows the rule, otherwise it is unchanged; exactly one point (time, selected value) is pushed; the panel shows the window's range |
| Chart.PointsChartWindow.OnSimulationReset | demo/src/main/java/com/example/gui/PointsChartWindow.java:127-132 | the panel is emptied and window and panel return to (0, 10, −5, 5) |
| Chart.PointsChartWindow.SetAutoScale | demo/src/main/java/com/example/gui/PointsChartWindow.java:49-50 | the check box sets the auto-scale flag |
| Chart.UpdateThenInRange | demo/src/main/java/com/example/gui/PointsChartWindow.java:86-116 | after an auto-scaled update the plotted point lies inside the range the panel shows |

## Left out

- Threads are not modelled: the daemon thread, `Thread.sleep`, `interrupt`,
  `volatile` and the concurrency guarantees of `CopyOnWriteArrayList`. Each
  command and each loop pass is atomic, and the race between `contains` and
  `add` in subscribe is out of scope.
- The clock is not modelled. `System.currentTimeMillis` is the `now`
  parameter of `RunPass`, and the initial baseline is the constructor's `now`.
- Delivery through `SwingUtilities.invokeLater` is not modelled. Notifications
  become the `events` queue in posting order. Which observers a notification
  reaches is decided when it is delivered, and that is not modelled.
- Floating point is not modelled: IEEE rounding, NaN and the infinities
  (including a division by a zero spring length inside an RK stage). Doubles
  are reals.
- `Math.sin`, `Math.cos`, `Math.sqrt` and the divisions of the equations of
  motion stay uninterpreted. So no accuracy or energy property of the
  integrator is claimed.
- Integrator.StepCount: computes the exact count, with real division, of the
  DT steps that fit in elapsed/1000·speed. The Java computation rounds its
  doubles, so it can come out one step lower. For example, 43 ms at speed 1
  gives 43 here, while Java's `(int)(43 / 1000.0 * 1.0 / 0.001)` is 42.
- Integrator.StepCountCovers: states the bounds of that exact count. It does
  not bound the count that IEEE doubles produce.
- Engine.PhysicsController.SetParameters: takes a non-null parameters object.
  Passing null throws a NullPointerException in Java, in the copy
  constructor, before anything changes. The only caller never passes null.
- Integrator.Rk4Positions: stated for the step size DT only, not a general dt.
- Integrator.SlopesOfPositions: stated for the step size DT only.
- PhysicsState is a value, and its setters are the value update `With`.
  Nothing in the repository calls these setters, and a snapshot is shared
  between observers by reference, so aliasing of a snapshot is not captured.
- The getters of `SimulationParameters` and `PhysicsState` are plain field
  reads. They are modelled by reading the fields and have no members of their
  own.
- Painting is not modelled: `paintComponent`, the screen mapping
  `toScreenX`/`toScreenY`, the point colour (`setPointColor`), the preferred
  size and `repaint`.
- These parts of the chart window are not modelled: its layout and title, the
  colour selector, and its subscription and unsubscription at the controller.
- The chart window's clear button does exactly what `onSimulationReset` does,
  so it has no separate member.
- The empty handlers `onSimulationStarted` and `onSimulationStopped` are left
  out.
- `ChartWindow` is not modelled, because its buffer lives in a charting
  library that is not shown.
- `MainWindow`, `SettingsWindow`, `Main` and the observer and command
  interfaces are not modelled, apart from the event alphabet. `toString` is
  not modelled either.
