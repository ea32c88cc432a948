/**
  The numerical core of PhysicsController.java: the equations of motion of the
  spring pendulum, one classical fourth-order Runge-Kutta step with the floor
  on the spring length, the snapshot built from the integrated state, and the
  number of steps a loop pass performs.

  Doubles are reals. Math.sin, Math.cos and Math.sqrt are not available on
  reals, so they are carried by a `Numerics` value and stay uninterpreted.
  So do the divisions of the equations of motion (k/m, c/m, -g sin fi / R and
  R'/R), whose divisor can be zero, which yields an infinity or NaN in Java.
  The divisions by constants (dt/2, dt/6, elapsed/1000, /DT) are exact real
  divisions, and every other operation is written out exactly as well.
 */
module Integrator {
  import opened Snapshot

  /** Integration step in simulated seconds. */
  const DT: real := 0.001
  /** Broadcast interval in milliseconds. */
  const UPDATE_INTERVAL: int := 16
  /** The spring is never shorter than this after a step. */
  const MIN_SPRING_LENGTH: real := 0.1

  const INT_MAX: int := 0x7fff_ffff
  const INT_MIN: int := -0x8000_0000

  /** The operations of the floating-point library the physics relies on. */
  datatype Numerics = Numerics(
    sin: real -> real,
    cos: real -> real,
    sqrt: real -> real,
    div: (real, real) -> real)

  /** Numerics that agree with exact arithmetic at rest: sin 0 = 0, cos 0 = 1, and division by a non-zero real is exact. */
  ghost predicate ExactAtRest(num: Numerics) {
    && num.sin(0.0) == 0.0
    && num.cos(0.0) == 1.0
    && forall a: real, b: real :: b != 0.0 ==> num.div(a, b) == a / b
  }

  /** The state vector y = [R, dR/dt, fi, dfi/dt]. */
  datatype Vec4 = Vec4(r: real, dr: real, phi: real, dphi: real)

  /** The five coefficients the equations of motion read: m, k, R0, g, c. */
  datatype Coefficients = Coefficients(m: real, k: real, r0: real, g: real, c: real)

  /** Simulated time together with the state vector. */
  datatype Motion = Motion(time: real, y: Vec4)

  function Add(a: Vec4, b: Vec4): Vec4 {
    Vec4(a.r + b.r, a.dr + b.dr, a.phi + b.phi, a.dphi + b.dphi)
  }

  function Mult(a: Vec4, s: real): Vec4 {
    Vec4(a.r * s, a.dr * s, a.phi * s, a.dphi * s)
  }

  function Max(a: real, b: real): real {
    if a >= b then a else b
  }

  /**
    The right-hand side of the equations of motion:
    R'' = R fi'^2 - (k/m)(R - R0) + g cos fi - (c/m) R'
    fi'' = -g sin fi / R - 2 (R'/R) fi' - (c/m) fi'
   */
  function Derivatives(num: Numerics, co: Coefficients, y: Vec4): Vec4 {
    var d2R := y.r * y.dphi * y.dphi - num.div(co.k, co.m) * (y.r - co.r0)
               + co.g * num.cos(y.phi) - num.div(co.c, co.m) * y.dr;
    var d2fi := num.div(-co.g * num.sin(y.phi), y.r) - 2.0 * num.div(y.dr, y.r) * y.dphi
                - num.div(co.c, co.m) * y.dphi;
    Vec4(y.dr, d2R, y.dphi, d2fi)
  }

  /** The slope of one Runge-Kutta stage, with the weighted sum of the slopes up to it. */
  datatype Slope = Slope(k: Vec4, sum: Vec4)

  /**
    Stage i of an RK4 step, for i from 1 to 4: k1 is sampled at y, k2 and k3 at
    y plus the previous slope times dt/2, k4 at y plus k3 times dt; the sum
    accumulates k1 + 2 k2 + 2 k3 + k4 in that order. The measure names y after
    i so that a call with a literal stage number unfolds one stage at a time.
   */
  function Stage(num: Numerics, co: Coefficients, y: Vec4, dt: real, i: nat): Slope
    requires 1 <= i <= 4
    decreases i, y
  {
    if i == 1 then
      var k1 := Derivatives(num, co, y);
      Slope(k1, k1)
    else
      var prev := Stage(num, co, y, dt, i - 1);
      var k := Derivatives(num, co, Add(y, Mult(prev.k, if i == 4 then dt else dt / 2.0)));
      Slope(k, Add(prev.sum, if i == 4 then k else Mult(k, 2.0)))
  }

  /** y + dt/6 (k1 + 2 k2 + 2 k3 + k4), before the floor on the spring length. */
  function Rk4(num: Numerics, co: Coefficients, y: Vec4, dt: real): Vec4 {
    Add(y, Mult(Stage(num, co, y, dt, 4).sum, dt / 6.0))
  }

  /** One call of integrate: an RK4 step, the spring-length floor, and the time increment. */
  function Step(num: Numerics, co: Coefficients, s: Motion, dt: real): (r: Motion)
    ensures r.y.r >= MIN_SPRING_LENGTH
    ensures r.time - s.time == dt
  {
    var next := Rk4(num, co, s.y, dt);
    Motion(s.time + dt, Vec4(Max(MIN_SPRING_LENGTH, next.r), next.dr, next.phi, next.dphi))
  }

  /** `n` consecutive steps of size DT. */
  function Advance(num: Numerics, co: Coefficients, s: Motion, n: nat): Motion
    decreases n
  {
    if n == 0 then s else Step(num, co, Advance(num, co, s, n - 1), DT)
  }

  /**
    The floor on the spring length is the only place where a step departs from
    the RK4 combination: when the combined length is at least 0.1 the step is
    exactly the RK4 state, and otherwise only the length is replaced by 0.1.
   */
  lemma StepFloor(num: Numerics, co: Coefficients, s: Motion, dt: real)
    ensures var next := Rk4(num, co, s.y, dt);
      && (next.r >= MIN_SPRING_LENGTH ==> Step(num, co, s, dt).y == next)
      && (next.r < MIN_SPRING_LENGTH ==> Step(num, co, s, dt).y == next.(r := MIN_SPRING_LENGTH))
  {
  }

  /**
    Because the first and third components of each slope are the velocities,
    a step of size DT advances each position by DT times its velocity plus
    DT^2/6 times the sum of the first three acceleration samples.
   */
  lemma Rk4Positions(num: Numerics, co: Coefficients, y: Vec4)
    ensures var k1, k2, k3 := Stage(num, co, y, DT, 1).k, Stage(num, co, y, DT, 2).k, Stage(num, co, y, DT, 3).k;
      && Rk4(num, co, y, DT).r == y.r + DT * y.dr + DT * DT / 6.0 * (k1.dr + k2.dr + k3.dr)
      && Rk4(num, co, y, DT).phi == y.phi + DT * y.dphi + DT * DT / 6.0 * (k1.dphi + k2.dphi + k3.dphi)
  {
    var k1, k2, k3 := Stage(num, co, y, DT, 1).k, Stage(num, co, y, DT, 2).k, Stage(num, co, y, DT, 3).k;
    StageSum(num, co, y, DT);
    SlopesOfPositions(num, co, y);
    CombinePosition(y.r, y.dr, k1.dr, k2.dr, k3.dr);
    CombinePosition(y.phi, y.dphi, k1.dphi, k2.dphi, k3.dphi);
  }

  /**
    The step is the straight-line computation of integrate: four slopes, each
    sampled from the previous one, combined as y + (k1 + 2 k2 + 2 k3 + k4) dt/6.
   */
  lemma Rk4AsWritten(num: Numerics, co: Coefficients, y: Vec4, dt: real)
    ensures var k1 := Derivatives(num, co, y);
      var k2 := Derivatives(num, co, Add(y, Mult(k1, dt / 2.0)));
      var k3 := Derivatives(num, co, Add(y, Mult(k2, dt / 2.0)));
      var k4 := Derivatives(num, co, Add(y, Mult(k3, dt)));
      Rk4(num, co, y, dt) == Add(y, Mult(Add(Add(Add(k1, Mult(k2, 2.0)), Mult(k3, 2.0)), k4), dt / 6.0))
  {
    var k1 := Derivatives(num, co, y);
    var k2 := Derivatives(num, co, Add(y, Mult(k1, dt / 2.0)));
    var k3 := Derivatives(num, co, Add(y, Mult(k2, dt / 2.0)));
    assert Stage(num, co, y, dt, 1).k == k1;
    assert Stage(num, co, y, dt, 2).k == k2;
    assert Stage(num, co, y, dt, 3).k == k3;
    StageSum(num, co, y, dt);
  }

  /** The sum after the fourth stage is k1 + 2 k2 + 2 k3 + k4. */
  lemma StageSum(num: Numerics, co: Coefficients, y: Vec4, dt: real)
    ensures var k1, k2, k3, k4 := Stage(num, co, y, dt, 1).k, Stage(num, co, y, dt, 2).k, Stage(num, co, y, dt, 3).k, Stage(num, co, y, dt, 4).k;
      Stage(num, co, y, dt, 4).sum == Add(Add(Add(k1, Mult(k2, 2.0)), Mult(k3, 2.0)), k4)
  {
    assert Stage(num, co, y, dt, 2).sum == Add(Stage(num, co, y, dt, 1).k, Mult(Stage(num, co, y, dt, 2).k, 2.0));
    assert Stage(num, co, y, dt, 3).sum == Add(Stage(num, co, y, dt, 2).sum, Mult(Stage(num, co, y, dt, 3).k, 2.0));
  }

  /** The position slopes of the four stages are the velocities at the four sample points. */
  lemma SlopesOfPositions(num: Numerics, co: Coefficients, y: Vec4)
    ensures var k1, k2, k3, k4 := Stage(num, co, y, DT, 1).k, Stage(num, co, y, DT, 2).k, Stage(num, co, y, DT, 3).k, Stage(num, co, y, DT, 4).k;
      && k1.r == y.dr && k1.phi == y.dphi
      && k2.r == y.dr + k1.dr * (DT / 2.0) && k2.phi == y.dphi + k1.dphi * (DT / 2.0)
      && k3.r == y.dr + k2.dr * (DT / 2.0) && k3.phi == y.dphi + k2.dphi * (DT / 2.0)
      && k4.r == y.dr + k3.dr * DT && k4.phi == y.dphi + k3.dphi * DT
  {
  }

  /** The arithmetic behind Rk4Positions, for one position and its velocity. */
  lemma CombinePosition(p: real, v: real, a1: real, a2: real, a3: real)
    ensures p + (v + (v + a1 * (DT / 2.0)) * 2.0 + (v + a2 * (DT / 2.0)) * 2.0 + (v + a3 * DT)) * (DT / 6.0)
      == p + DT * v + DT * DT / 6.0 * (a1 + a2 + a3)
  {
  }

  /** After n steps the simulated time has grown by exactly n DT. */
  lemma {:induction false} AdvanceTime(num: Numerics, co: Coefficients, s: Motion, n: nat)
    ensures Advance(num, co, s, n).time == s.time + n as real * DT
  {
    if n > 0 {
      AdvanceTime(num, co, s, n - 1);
    }
  }

  /** After at least one step the spring length is at least 0.1, whatever the start. */
  lemma AdvanceFloor(num: Numerics, co: Coefficients, s: Motion, n: nat)
    requires n > 0
    ensures Advance(num, co, s, n).y.r >= MIN_SPRING_LENGTH
  {
  }

  /** The hanging equilibrium: at rest, vertical, stretched by m g / k. */
  function Equilibrium(co: Coefficients): Vec4
    requires co.k != 0.0
  {
    Vec4(co.r0 + co.m * co.g / co.k, 0.0, 0.0, 0.0)
  }

  /** With exact numerics, the equations of motion vanish at the hanging equilibrium. */
  lemma EquilibriumIsRest(num: Numerics, co: Coefficients)
    requires ExactAtRest(num)
    requires co.m != 0.0 && co.k != 0.0
    requires Equilibrium(co).r != 0.0
    ensures Derivatives(num, co, Equilibrium(co)) == Vec4(0.0, 0.0, 0.0, 0.0)
  {
    var e := Equilibrium(co);
    assert num.div(co.k, co.m) == co.k / co.m;
    assert co.k / co.m * (co.m * co.g / co.k) == co.g;
    assert num.div(-co.g * num.sin(0.0), e.r) == 0.0 / e.r;
    assert num.div(e.dr, e.r) == 0.0 / e.r;
  }

  /**
    A state vector that the RK4 map leaves in place, with a spring length of
    at least 0.1, stays in place for any number of steps while the clock advances.
   */
  lemma {:induction false} FixedPointPersists(num: Numerics, co: Coefficients, t: real, e: Vec4, n: nat)
    requires e.r >= MIN_SPRING_LENGTH && Rk4(num, co, e, DT) == e
    ensures Advance(num, co, Motion(t, e), n).y == e
  {
    if n > 0 {
      FixedPointPersists(num, co, t, e, n - 1);
    }
  }

  /**
    With exact numerics and an equilibrium length of at least 0.1, the
    integrator keeps the pendulum at its equilibrium for any number of steps.
   */
  lemma EquilibriumIsFixedPoint(num: Numerics, co: Coefficients, t: real, n: nat)
    requires ExactAtRest(num)
    requires co.m != 0.0 && co.k != 0.0
    requires Equilibrium(co).r >= MIN_SPRING_LENGTH
    ensures Advance(num, co, Motion(t, Equilibrium(co)), n).y == Equilibrium(co)
  {
    Rk4AtEquilibrium(num, co, DT);
    FixedPointPersists(num, co, t, Equilibrium(co), n);
  }

  /** One RK4 step of any size leaves the equilibrium where it is. */
  lemma Rk4AtEquilibrium(num: Numerics, co: Coefficients, dt: real)
    requires ExactAtRest(num)
    requires co.m != 0.0 && co.k != 0.0
    requires Equilibrium(co).r != 0.0
    ensures Rk4(num, co, Equilibrium(co), dt) == Equilibrium(co)
  {
    var e := Equilibrium(co);
    var zero := Vec4(0.0, 0.0, 0.0, 0.0);
    EquilibriumIsRest(num, co);
    assert Add(e, Mult(zero, dt / 2.0)) == e;
    assert Add(e, Mult(zero, dt)) == e;
    assert Stage(num, co, e, dt, 1) == Slope(zero, zero);
    assert Stage(num, co, e, dt, 2) == Slope(zero, zero);
    assert Stage(num, co, e, dt, 3) == Slope(zero, zero);
    assert Stage(num, co, e, dt, 4) == Slope(zero, zero);
  }

  /** Java's (int) cast of a double: truncation toward zero, saturating at the int range. */
  function JavaIntCast(x: real): int {
    if x >= INT_MAX as real then INT_MAX
    else if x <= INT_MIN as real then INT_MIN
    else if x >= 0.0 then x.Floor
    else -((-x).Floor)
  }

  /** The cast stays in the int range, and below it is the integer part of its argument. */
  lemma JavaIntCastBounds(x: real)
    ensures INT_MIN <= JavaIntCast(x) <= INT_MAX
    ensures x >= 0.0 && x < INT_MAX as real ==> JavaIntCast(x) as real <= x < JavaIntCast(x) as real + 1.0
    ensures x >= INT_MAX as real ==> JavaIntCast(x) == INT_MAX
    ensures x < 0.0 && x > INT_MIN as real ==> JavaIntCast(x) as real - 1.0 < x <= JavaIntCast(x) as real
    ensures x <= INT_MIN as real ==> JavaIntCast(x) == INT_MIN
  {
  }

  /** The number of DT steps that cover `elapsed` milliseconds at the given speed. */
  function StepCount(elapsed: int, speed: real): int {
    var simulatedTime := elapsed as real / 1000.0 * speed;
    JavaIntCast(simulatedTime / DT)
  }

  /**
    A pass that is due (at least 16 ms elapsed, speed in [0.1, 10]) performs at
    least one step, and the steps cover the largest multiple of DT not beyond
    the simulated time elapsed·speed/1000, unless the count saturates at the
    int maximum.
   */
  lemma StepCountCovers(elapsed: int, speed: real)
    requires elapsed >= UPDATE_INTERVAL
    requires 0.1 <= speed <= 10.0
    ensures var n := StepCount(elapsed, speed);
      && 1 <= n <= INT_MAX
      && (n < INT_MAX ==> n as real * DT <= elapsed as real / 1000.0 * speed < (n + 1) as real * DT)
  {
    var simulatedTime := elapsed as real / 1000.0 * speed;
    assert simulatedTime / DT == elapsed as real * speed;
    assert elapsed as real * speed >= 1.6;
    JavaIntCastBounds(simulatedTime / DT);
  }

  /** The snapshot that is broadcast: the five integrated quantities as they are, plus the derived ones. */
  function CreateState(num: Numerics, co: Coefficients, s: Motion): (st: PhysicsState)
    ensures st.time == s.time && st.angle == s.y.phi && st.angularVelocity == s.y.dphi
    ensures st.springLength == s.y.r && st.radialVelocity == s.y.dr
  {
    var R := s.y.r;
    var fi := s.y.phi;
    var x := R * num.sin(fi);
    var y := R * num.cos(fi);
    var vx := s.y.dr * num.sin(fi) + R * s.y.dphi * num.cos(fi);
    var vy := s.y.dr * num.cos(fi) - R * s.y.dphi * num.sin(fi);
    var velocity := num.sqrt(vx * vx + vy * vy);
    var springForce := co.k * (R - co.r0);
    var gravityForce := co.m * co.g;
    var radialAcc := R * s.y.dphi * s.y.dphi - num.div(co.k, co.m) * (R - co.r0) + co.g * num.cos(fi);
    var tangentialAcc := -co.g * num.sin(fi) * R;
    var acceleration := num.sqrt(radialAcc * radialAcc + tangentialAcc * tangentialAcc);
    PhysicsState(s.time, fi, s.y.dphi, R, s.y.dr, x, y, velocity, springForce, gravityForce, acceleration)
  }

  /** A snapshot taken after at least one step reports a spring length of at least 0.1 under its label. */
  lemma SnapshotSpringLengthFloor(num: Numerics, co: Coefficients, s: Motion, n: nat)
    requires n > 0
    ensures CreateState(num, co, Advance(num, co, s, n)).GetParameter(SPRING_LENGTH_LABEL) >= MIN_SPRING_LENGTH
  {
    GetParameterOfLabel(CreateState(num, co, Advance(num, co, s, n)), SpringLength);
  }
}
