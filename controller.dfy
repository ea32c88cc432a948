/**
  The simulation controller (PhysicsController.java): its command state
  machine, its subscriber list, the order of its notifications, and one pass
  of its background loop.

  The background thread, the clock and the Swing event queue are not modelled
  as such. A loop pass is `RunPass(now)`, where `now` is the clock reading the
  pass takes; the queued notifications are appended, in order, to `events`.
  Each command is atomic.
 */
module Engine {
  import opened Params
  import opened Snapshot
  import opened Integrator

  /** An observer, by identity. */
  type ObserverId = nat

  /** A possibly-null reference. */
  datatype Option<T> = None | Some(value: T)

  /** The notifications of the observer interface. */
  datatype Event = StateUpdate(state: PhysicsState) | Started | Stopped | Reset

  const MIN_SPEED: real := 0.1
  const MAX_SPEED: real := 10.0

  function Min(a: real, b: real): real {
    if a <= b then a else b
  }

  /** Math.max(0.1, Math.min(10.0, speed)). */
  function ClampSpeed(speed: real): (r: real)
    ensures MIN_SPEED <= r <= MAX_SPEED
    ensures MIN_SPEED <= speed <= MAX_SPEED ==> r == speed
    ensures speed < MIN_SPEED ==> r == MIN_SPEED
    ensures speed > MAX_SPEED ==> r == MAX_SPEED
  {
    Max(MIN_SPEED, Min(MAX_SPEED, speed))
  }

  ghost predicate NoDuplicates(s: seq<ObserverId>) {
    forall i, j :: 0 <= i < j < |s| ==> s[i] != s[j]
  }

  /** subscribe: a null or already present observer is ignored, any other is appended. */
  function Subscribed(obs: seq<ObserverId>, o: Option<ObserverId>): (r: seq<ObserverId>)
    ensures forall x :: x in r <==> x in obs || o == Some(x)
    ensures |obs| <= |r| <= |obs| + 1 && r[..|obs|] == obs
    ensures NoDuplicates(obs) ==> NoDuplicates(r)
  {
    if o.Some? && o.value !in obs then obs + [o.value] else obs
  }

  /** List.remove on the observer list: drops the first occurrence of `x`, if any. */
  function RemoveFirst(s: seq<ObserverId>, x: ObserverId): (r: seq<ObserverId>)
    ensures x !in s ==> r == s
    ensures x in s ==> |r| == |s| - 1
    ensures forall y :: y != x ==> (y in r <==> y in s)
    ensures NoDuplicates(s) ==> NoDuplicates(r) && x !in r
  {
    if s == [] then []
    else if s[0] == x then s[1..]
    else
      var rest := RemoveFirst(s[1..], x);
      assert NoDuplicates(s) ==> NoDuplicates(s[1..]) && s[0] !in s[1..] by {
        if NoDuplicates(s) {
          forall i, j | 0 <= i < j < |s[1..]| ensures s[1..][i] != s[1..][j] {
            assert s[1..][i] == s[i + 1] && s[1..][j] == s[j + 1];
          }
          forall j | 0 <= j < |s[1..]| ensures s[1..][j] != s[0] {
            assert s[1..][j] == s[j + 1];
          }
        }
      }
      [s[0]] + rest
  }

  /** unsubscribe: removing null, or an observer that is absent, changes nothing. */
  function Unsubscribed(obs: seq<ObserverId>, o: Option<ObserverId>): seq<ObserverId> {
    if o.Some? then RemoveFirst(obs, o.value) else obs
  }

  /** Removal keeps the other observers in their relative order: it cuts the first occurrence out. */
  lemma {:induction false} RemoveFirstCutsOut(s: seq<ObserverId>, x: ObserverId, i: nat)
    requires i < |s| && s[i] == x && x !in s[..i]
    ensures RemoveFirst(s, x) == s[..i] + s[i + 1..]
  {
    if i == 0 {
      assert s[..0] + s[1..] == s[1..];
    } else {
      var t := s[1..];
      assert s[0] == s[..i][0];
      assert RemoveFirst(s, x) == [s[0]] + RemoveFirst(t, x);
      assert t[..i - 1] == s[1..i];
      RemoveFirstCutsOut(t, x, i - 1);
      assert t[i..] == s[i + 1..];
      assert [s[0]] + (s[1..i] + s[i + 1..]) == ([s[0]] + s[1..i]) + s[i + 1..];
      assert [s[0]] + s[1..i] == s[..i];
    }
  }

  /** The integrator's coefficients, as integrate reads them from the parameters. */
  function CoefficientsOf(p: Values): Coefficients {
    Coefficients(p.mass, p.springConstant, p.naturalLength, p.gravity, p.damping)
  }

  /** resetState: time 0, at rest, at the initial angle and length. */
  function InitialMotion(p: Values): Motion {
    Motion(0.0, Vec4(p.initialLength, 0.0, p.initialAngle, 0.0))
  }

  /** The controller's state, as values. `baseline` is the loop's lastUpdateTime. */
  datatype View = View(
    observers: seq<ObserverId>,
    params: Values,
    motion: Motion,
    running: bool,
    alive: bool,
    speed: real,
    baseline: int,
    events: seq<Event>)

  /** What every command and every pass preserves. */
  ghost predicate Inv(v: View) {
    NoDuplicates(v.observers) && MIN_SPEED <= v.speed <= MAX_SPEED
  }

  /** The commands, and one pass of the background loop at clock reading `now`. */
  datatype Command =
    | StartCmd
    | StopCmd
    | ResetCmd
    | SetParametersCmd(p: Values)
    | SetSpeedCmd(speed: real)
    | SubscribeCmd(o: Option<ObserverId>)
    | UnsubscribeCmd(o: Option<ObserverId>)
    | ShutdownCmd
    | PassCmd(now: int)

  /** The snapshot that notifyStateUpdate broadcasts for a motion under given parameters. */
  function StateOf(num: Numerics, p: Values, m: Motion): PhysicsState {
    CreateState(num, CoefficientsOf(p), m)
  }

  /** reset: re-initialise the motion, then notify Reset, then StateUpdate. */
  function AfterReset(num: Numerics, v: View): View {
    var m := InitialMotion(v.params);
    v.(motion := m, events := v.events + [Reset, StateUpdate(StateOf(num, v.params, m))])
  }

  /** One pass of the `while (alive)` loop. */
  function AfterPass(num: Numerics, v: View, now: int): View {
    if !v.alive then v
    else if !v.running then v.(baseline := now)
    else if now - v.baseline < UPDATE_INTERVAL then v
    else
      var steps := StepCount(now - v.baseline, v.speed);
      var m := Advance(num, CoefficientsOf(v.params), v.motion, if steps < 0 then 0 else steps);
      v.(motion := m, baseline := now, events := v.events + [StateUpdate(StateOf(num, v.params, m))])
  }

  /** The effect of one command on the controller. */
  function Apply(num: Numerics, v: View, c: Command): View {
    match c
    case StartCmd => if v.running then v else v.(running := true, events := v.events + [Started])
    case StopCmd => if v.running then v.(running := false, events := v.events + [Stopped]) else v
    case ResetCmd => AfterReset(num, v)
    case SetParametersCmd(p) => AfterReset(num, v.(params := p))
    case SetSpeedCmd(s) => v.(speed := ClampSpeed(s))
    case SubscribeCmd(o) => v.(observers := Subscribed(v.observers, o))
    case UnsubscribeCmd(o) => v.(observers := Unsubscribed(v.observers, o))
    case ShutdownCmd => v.(alive := false, running := false)
    case PassCmd(now) => AfterPass(num, v, now)
  }

  /** A sequence of commands, applied in order. */
  function Run(num: Numerics, v: View, cs: seq<Command>): View
    decreases |cs|
  {
    if cs == [] then v else Run(num, Apply(num, v, cs[0]), cs[1..])
  }

  /** The state of a new controller. */
  function Initial(now: int): (v: View)
    ensures Inv(v)
  {
    View([], DEFAULTS, InitialMotion(DEFAULTS), false, true, 1.0, now, [])
  }

  /** Every command keeps the subscriber list duplicate-free and the speed in [0.1, 10]. */
  lemma ApplyPreservesInv(num: Numerics, v: View, c: Command)
    requires Inv(v)
    ensures Inv(Apply(num, v, c))
  {
  }

  /** Hence so does every sequence of commands, starting from any state that satisfies it. */
  lemma {:induction false} RunPreservesInv(num: Numerics, v: View, cs: seq<Command>)
    requires Inv(v)
    ensures Inv(Run(num, v, cs))
    decreases |cs|
  {
    if cs != [] {
      ApplyPreservesInv(num, v, cs[0]);
      RunPreservesInv(num, Apply(num, v, cs[0]), cs[1..]);
    }
  }

  /**
    start acts only when stopped, and then emits exactly one Started; a second
    start changes nothing. stop is the mirror image.
   */
  lemma StartStopIdempotent(num: Numerics, v: View)
    ensures Apply(num, v, StartCmd).running
    ensures Apply(num, v, StartCmd).events == v.events + (if v.running then [] else [Started])
    ensures Apply(num, Apply(num, v, StartCmd), StartCmd) == Apply(num, v, StartCmd)
    ensures !Apply(num, v, StopCmd).running
    ensures Apply(num, v, StopCmd).events == v.events + (if v.running then [Stopped] else [])
    ensures Apply(num, Apply(num, v, StopCmd), StopCmd) == Apply(num, v, StopCmd)
  {
  }

  /**
    reset puts the motion back to the initial values of the current parameters,
    keeps the run state, and emits Reset then the fresh snapshot, nothing else.
   */
  lemma ResetKeepsRunState(num: Numerics, v: View)
    ensures var w := Apply(num, v, ResetCmd);
      && w.running == v.running && w.alive == v.alive
      && w.motion.time == 0.0 && w.motion.y.phi == v.params.initialAngle && w.motion.y.dphi == 0.0
      && w.motion.y.r == v.params.initialLength && w.motion.y.dr == 0.0
      && |w.events| == |v.events| + 2 && w.events[..|v.events|] == v.events
      && w.events[|v.events|] == Reset
      && w.events[|v.events| + 1].StateUpdate?
      && w.events[|v.events| + 1].state.GetParameter(TIME_LABEL) == 0.0
      && w.events[|v.events| + 1].state.GetParameter(SPRING_LENGTH_LABEL) == v.params.initialLength
  {
  }

  /** setParameters stores the new values and then behaves exactly like reset. */
  lemma SetParametersIsReset(num: Numerics, v: View, p: Values)
    ensures Apply(num, v, SetParametersCmd(p)).params == p
    ensures Apply(num, v, SetParametersCmd(p)) == Apply(num, v.(params := p), ResetCmd)
  {
  }

  /** A pass while stopped only moves the baseline: no steps, no notification. */
  lemma StoppedPassDoesNoSteps(num: Numerics, v: View, now: int)
    requires v.alive && !v.running
    ensures AfterPass(num, v, now) == v.(baseline := now)
  {
  }

  /** A pass that is not due changes at most the baseline. */
  lemma AfterPassWhenNotDue(num: Numerics, v: View, now: int)
    ensures !v.alive ==> AfterPass(num, v, now) == v
    ensures v.alive && !v.running ==> AfterPass(num, v, now) == v.(baseline := now)
    ensures v.alive && v.running && now - v.baseline < UPDATE_INTERVAL ==> AfterPass(num, v, now) == v
  {
  }

  /** A due pass advances the motion by the step count, moves the baseline and queues one StateUpdate. */
  lemma AfterPassWhenDue(num: Numerics, v: View, now: int, m: Motion)
    requires v.alive && v.running && now - v.baseline >= UPDATE_INTERVAL
    requires var steps := StepCount(now - v.baseline, v.speed);
      m == Advance(num, CoefficientsOf(v.params), v.motion, if steps < 0 then 0 else steps)
    ensures AfterPass(num, v, now) == v.(motion := m, baseline := now, events := v.events + [StateUpdate(StateOf(num, v.params, m))])
  {
  }

  /**
    A due pass (running, at least 16 ms since the baseline) performs
    StepCount(elapsed, speed) >= 1 steps, so that simulated time grows by that
    many DT, leaves a spring length of at least 0.1, moves the baseline to
    `now`, and emits exactly one StateUpdate carrying the new state.
   */
  lemma DuePassSteps(num: Numerics, v: View, now: int)
    requires Inv(v) && v.alive && v.running && now - v.baseline >= UPDATE_INTERVAL
    ensures var n := StepCount(now - v.baseline, v.speed);
      var w := AfterPass(num, v, now);
      && 1 <= n
      && w.motion.time == v.motion.time + n as real * DT
      && w.motion.y.r >= MIN_SPRING_LENGTH
      && w.baseline == now
      && w.events == v.events + [StateUpdate(StateOf(num, v.params, w.motion))]
      && w.running && w.alive && w.params == v.params && w.speed == v.speed && w.observers == v.observers
  {
    var n := StepCount(now - v.baseline, v.speed);
    assert 1 <= n by {
      StepCountCovers(now - v.baseline, v.speed);
    }
    var co := CoefficientsOf(v.params);
    AfterPassWhenDue(num, v, now, Advance(num, co, v.motion, n));
    AdvanceTime(num, co, v.motion, n);
    AdvanceFloor(num, co, v.motion, n);
  }

  /** A stopped pass, a start and a second pass: the second pass acts on the state the start left. */
  lemma PassStartPass(num: Numerics, v: View, t1: int, t2: int)
    requires v.alive && !v.running
    ensures Run(num, v, [PassCmd(t1), StartCmd, PassCmd(t2)])
      == AfterPass(num, v.(baseline := t1, running := true, events := v.events + [Started]), t2)
  {
    var cs := [PassCmd(t1), StartCmd, PassCmd(t2)];
    var w1 := v.(baseline := t1);
    var w2 := w1.(running := true, events := w1.events + [Started]);
    assert cs[1..] == [StartCmd, PassCmd(t2)] && cs[1..][1..] == [PassCmd(t2)] && [PassCmd(t2)][1..] == [];
    assert Apply(num, v, PassCmd(t1)) == w1;
    assert Run(num, v, cs) == Run(num, w1, cs[1..]);
    assert Apply(num, w1, StartCmd) == w2;
    assert Run(num, w1, cs[1..]) == Run(num, w2, [PassCmd(t2)]);
    assert Run(num, w2, [PassCmd(t2)]) == Run(num, AfterPass(num, w2, t2), []);
  }

  /** The motion after a due pass, when the speed is in range: exactly StepCount(elapsed, speed) steps. */
  lemma DuePassMotion(num: Numerics, v: View, now: int)
    requires v.alive && v.running && MIN_SPEED <= v.speed <= MAX_SPEED && now - v.baseline >= UPDATE_INTERVAL
    ensures AfterPass(num, v, now).motion
      == Advance(num, CoefficientsOf(v.params), v.motion, StepCount(now - v.baseline, v.speed))
  {
    var n := StepCount(now - v.baseline, v.speed);
    assert 0 <= n by {
      StepCountCovers(now - v.baseline, v.speed);
    }
  }

  /**
    Stopping and resuming does not replay the paused time: the steps of the
    first pass after start cover only the time since the last stopped pass.
   */
  lemma ResumeDoesNotReplay(num: Numerics, v: View, t1: int, t2: int)
    requires v.alive && !v.running && MIN_SPEED <= v.speed <= MAX_SPEED && t2 - t1 >= UPDATE_INTERVAL
    ensures Run(num, v, [PassCmd(t1), StartCmd, PassCmd(t2)]).motion
      == Advance(num, CoefficientsOf(v.params), v.motion, StepCount(t2 - t1, v.speed))
  {
    PassStartPass(num, v, t1, t2);
    DuePassMotion(num, v.(baseline := t1, running := true, events := v.events + [Started]), t2);
  }

  function WithoutPasses(cs: seq<Command>): seq<Command>
    decreases |cs|
  {
    if cs == [] then []
    else if cs[0].PassCmd? then WithoutPasses(cs[1..])
    else [cs[0]] + WithoutPasses(cs[1..])
  }

  /**
    Shutdown is final: once the controller is no longer alive, no command makes
    it alive again, and the loop passes that follow have no effect at all.
   */
  lemma {:induction false} ShutdownIsFinal(num: Numerics, v: View, cs: seq<Command>)
    requires !v.alive
    ensures !Run(num, v, cs).alive
    ensures Run(num, v, cs) == Run(num, v, WithoutPasses(cs))
    decreases |cs|
  {
    if cs != [] {
      var w := Apply(num, v, cs[0]);
      ShutdownIsFinal(num, w, cs[1..]);
      if !cs[0].PassCmd? {
        assert WithoutPasses(cs) == [cs[0]] + WithoutPasses(cs[1..]);
        assert ([cs[0]] + WithoutPasses(cs[1..]))[1..] == WithoutPasses(cs[1..]);
      }
    }
  }

  /** The controller. Fields mirror the source's; `events` is the notification queue. */
  class PhysicsController {
    const numerics: Numerics
    var observers: seq<ObserverId>
    var parameters: SimulationParameters
    var time: real
    var angle: real
    var angularVelocity: real
    var springLength: real
    var radialVelocity: real
    var running: bool
    var alive: bool
    var simulationSpeed: real
    var lastUpdateTime: int
    var events: seq<Event>

    ghost function Model(): View
      reads this, parameters
    {
      View(observers, parameters.Value(), CurrentMotion(), running, alive,
           simulationSpeed, lastUpdateTime, events)
    }

    ghost predicate Valid()
      reads this, parameters
    {
      Inv(Model())
    }

    function CurrentMotion(): Motion
      reads this
    {
      Motion(time, Vec4(springLength, radialVelocity, angle, angularVelocity))
    }

    /** createCurrentState. */
    function CurrentState(): PhysicsState
      reads this, parameters
    {
      StateOf(numerics, parameters.Value(), CurrentMotion())
    }

    /** A new controller, alive and stopped, at speed 1 with default parameters, its loop's baseline at `now`. */
    constructor (numerics: Numerics, now: int)
      ensures Valid() && fresh(parameters)
      ensures this.numerics == numerics
      ensures Model() == Initial(now)
    {
      this.numerics := numerics;
      observers := [];
      parameters := new SimulationParameters();
      running := false;
      alive := true;
      simulationSpeed := 1.0;
      lastUpdateTime := now;
      events := [];
      new;
      ResetState();
    }

    /** resetState. */
    method ResetState()
      modifies this
      ensures parameters == old(parameters)
      ensures Model() == old(Model()).(motion := InitialMotion(parameters.Value()))
    {
      time := 0.0;
      angle := parameters.initialAngle;
      angularVelocity := 0.0;
      springLength := parameters.initialLength;
      radialVelocity := 0.0;
    }

    /** The four notify methods: the notification is queued behind those already queued. */
    method Publish(e: Event)
      modifies this
      ensures parameters == old(parameters)
      ensures Model() == old(Model()).(events := old(events) + [e])
    {
      events := events + [e];
    }

    /** One RK4 step of size dt on the five state fields; nothing else changes. */
    method Integrate(dt: real)
      modifies this`time, this`angle, this`angularVelocity, this`springLength, this`radialVelocity
      ensures CurrentMotion() == Step(numerics, CoefficientsOf(parameters.Value()), old(CurrentMotion()), dt)
    {
      var co := Coefficients(parameters.mass, parameters.springConstant, parameters.naturalLength,
                             parameters.gravity, parameters.damping);
      var y := Vec4(springLength, radialVelocity, angle, angularVelocity);
      y := Rk4(numerics, co, y, dt);

      springLength := Max(MIN_SPRING_LENGTH, y.r);
      radialVelocity := y.dr;
      angle := y.phi;
      angularVelocity := y.dphi;
      time := time + dt;
    }

    /** The inner `for` loop of a due pass: `steps` RK4 steps of size DT, none when `steps` is negative. */
    method Simulate(steps: int)
      modifies this`time, this`angle, this`angularVelocity, this`springLength, this`radialVelocity
      ensures CurrentMotion() == Advance(numerics, CoefficientsOf(parameters.Value()), old(CurrentMotion()), if steps < 0 then 0 else steps)
    {
      ghost var co := CoefficientsOf(parameters.Value());
      ghost var start := CurrentMotion();
      var i := 0;
      while i < steps
        invariant 0 <= i <= (if steps < 0 then 0 else steps)
        invariant co == CoefficientsOf(parameters.Value())
        invariant CurrentMotion() == Advance(numerics, co, start, i)
      {
        Integrate(DT);
        i := i + 1;
      }
      assert i == (if steps < 0 then 0 else steps);
    }

    /** notifyStateUpdate: queues the snapshot of the current state. */
    method NotifyStateUpdate()
      modifies this`events
      ensures events == old(events) + [StateUpdate(CurrentState())]
    {
      events := events + [StateUpdate(CurrentState())];
    }

    /** A pass that is due: the steps, the notification of the new state, and the new baseline. */
    method DuePass(now: int)
      requires Valid() && alive && running && now - lastUpdateTime >= UPDATE_INTERVAL
      modifies this
      ensures parameters == old(parameters)
      ensures Model() == AfterPass(numerics, old(Model()), now)
    {
      ghost var v := Model();
      var steps := StepCount(now - lastUpdateTime, simulationSpeed);
      assert steps == StepCount(now - v.baseline, v.speed);
      Simulate(steps);
      assert parameters.Value() == v.params;
      NotifyStateUpdate();
      lastUpdateTime := now;
      AfterPassWhenDue(numerics, v, now, CurrentMotion());
    }

    /** One pass of the background loop, at clock reading `now`; `continues` is the loop condition afterwards. */
    method RunPass(now: int) returns (continues: bool)
      requires Valid()
      modifies this
      ensures Valid() && parameters == old(parameters)
      ensures Model() == AfterPass(numerics, old(Model()), now)
      ensures continues == alive
    {
      AfterPassWhenNotDue(numerics, Model(), now);
      if !alive {
        return false;
      }
      if running {
        if now - lastUpdateTime >= UPDATE_INTERVAL {
          DuePass(now);
        }
      } else {
        lastUpdateTime := now;
      }
      continues := alive;
    }

    method Start()
      requires Valid()
      modifies this
      ensures Valid() && parameters == old(parameters)
      ensures Model() == Apply(numerics, old(Model()), StartCmd)
    {
      if !running {
        running := true;
        Publish(Started);
      }
    }

    method Stop()
      requires Valid()
      modifies this
      ensures Valid() && parameters == old(parameters)
      ensures Model() == Apply(numerics, old(Model()), StopCmd)
    {
      if running {
        running := false;
        Publish(Stopped);
      }
    }

    method Reset()
      requires Valid()
      modifies this
      ensures Valid() && parameters == old(parameters)
      ensures Model() == Apply(numerics, old(Model()), ResetCmd)
    {
      var wasRunning := running;
      running := false;
      ResetState();
      Publish(Event.Reset);
      NotifyStateUpdate();
      if wasRunning {
        running := true;
      }
    }

    /** Stores a private copy of `params`, then resets. */
    method SetParameters(params: SimulationParameters)
      requires Valid()
      modifies this
      ensures Valid() && fresh(parameters)
      ensures Model() == Apply(numerics, old(Model()), SetParametersCmd(params.Value()))
    {
      parameters := new SimulationParameters.Copy(params);
      Reset();
    }

    /** An independent copy of the current parameters. */
    method GetParameters() returns (r: SimulationParameters)
      ensures fresh(r)
      ensures r.Value() == parameters.Value()
    {
      r := new SimulationParameters.Copy(parameters);
    }

    method IsRunning() returns (r: bool)
      ensures r == running
    {
      r := running;
    }

    method SetSimulationSpeed(speed: real)
      requires Valid()
      modifies this
      ensures Valid() && parameters == old(parameters)
      ensures Model() == Apply(numerics, old(Model()), SetSpeedCmd(speed))
    {
      simulationSpeed := Max(MIN_SPEED, Min(MAX_SPEED, speed));
    }

    method GetSimulationSpeed() returns (r: real)
      requires Valid()
      ensures r == simulationSpeed && MIN_SPEED <= r <= MAX_SPEED
    {
      r := simulationSpeed;
    }

    method Subscribe(observer: Option<ObserverId>)
      requires Valid()
      modifies this
      ensures Valid() && parameters == old(parameters)
      ensures Model() == Apply(numerics, old(Model()), SubscribeCmd(observer))
    {
      if observer.Some? && observer.value !in observers {
        observers := observers + [observer.value];
      }
    }

    method Unsubscribe(observer: Option<ObserverId>)
      requires Valid()
      modifies this
      ensures Valid() && parameters == old(parameters)
      ensures Model() == Apply(numerics, old(Model()), UnsubscribeCmd(observer))
    {
      if observer.Some? {
        observers := RemoveFirst(observers, observer.value);
      }
    }

    /** Ends the loop for good; the thread interrupt is not modelled. */
    method Shutdown()
      requires Valid()
      modifies this
      ensures Valid() && parameters == old(parameters)
      ensures Model() == Apply(numerics, old(Model()), ShutdownCmd)
    {
      alive := false;
      running := false;
    }
  }

  /** Changing the copy returned by getParameters leaves the controller as it was. */
  method GetParametersIsIndependent(c: PhysicsController, mass: real) returns (r: SimulationParameters)
    ensures fresh(r) && r.mass == mass
    ensures c.Model() == old(c.Model())
  {
    r := c.GetParameters();
    r.SetMass(mass);
  }

  /** Changing the argument of setParameters afterwards leaves the controller as it was. */
  method SetParametersIsIndependent(c: PhysicsController, p: SimulationParameters, mass: real)
    requires c.Valid()
    modifies c, p
    ensures p.mass == mass
    ensures c.Model() == Apply(c.numerics, old(c.Model()), SetParametersCmd(old(p.Value())))
  {
    c.SetParameters(p);
    p.SetMass(mass);
  }
}
