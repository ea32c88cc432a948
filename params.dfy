/**
  The physical configuration of the spring pendulum (SimulationParameters.java).

  A mutable bundle of seven reals. Setters store what they are given, with no
  range check, so a non-physical value (a negative mass, say) is accepted as is.
  Getters are plain field reads and are modelled by reading the fields.
 */
module Params {

  /** Java's Math.PI, as the decimal literal of that double. */
  const PI: real := 3.141592653589793

  /** The value held by a parameter object, field by field. */
  datatype Values = Values(
    mass: real,
    springConstant: real,
    naturalLength: real,
    initialLength: real,
    initialAngle: real,
    damping: real,
    gravity: real)

  /** The values the no-argument constructor stores. */
  const DEFAULTS: Values := Values(1.0, 50.0, 1.0, 1.5, PI / 6.0, 0.1, 9.81)

  class SimulationParameters {
    var mass: real
    var springConstant: real
    var naturalLength: real
    var initialLength: real
    var initialAngle: real
    var damping: real
    var gravity: real

    /** The abstract value of this object. */
    function Value(): Values
      reads this
    {
      Values(mass, springConstant, naturalLength, initialLength, initialAngle, damping, gravity)
    }

    /** The default configuration. */
    constructor ()
      ensures Value() == DEFAULTS
    {
      mass := 1.0;
      springConstant := 50.0;
      naturalLength := 1.0;
      initialLength := 1.5;
      initialAngle := PI / 6.0;
      damping := 0.1;
      gravity := 9.81;
    }

    /** The copy constructor: a new object, field-wise equal to `other`. */
    constructor Copy(other: SimulationParameters)
      ensures Value() == other.Value()
    {
      mass := other.mass;
      springConstant := other.springConstant;
      naturalLength := other.naturalLength;
      initialLength := other.initialLength;
      initialAngle := other.initialAngle;
      damping := other.damping;
      gravity := other.gravity;
    }

    /** Stores `v` in mass, unchecked; the other six fields keep their values. */
    method SetMass(v: real)
      modifies this
      ensures Value() == old(Value()).(mass := v)
    {
      mass := v;
    }

    /** Stores `v` in springConstant, unchecked; the other six fields keep their values. */
    method SetSpringConstant(v: real)
      modifies this
      ensures Value() == old(Value()).(springConstant := v)
    {
      springConstant := v;
    }

    /** Stores `v` in naturalLength, unchecked; the other six fields keep their values. */
    method SetNaturalLength(v: real)
      modifies this
      ensures Value() == old(Value()).(naturalLength := v)
    {
      naturalLength := v;
    }

    /** Stores `v` in initialLength, unchecked; the other six fields keep their values. */
    method SetInitialLength(v: real)
      modifies this
      ensures Value() == old(Value()).(initialLength := v)
    {
      initialLength := v;
    }

    /** Stores `v` in initialAngle, unchecked; the other six fields keep their values. */
    method SetInitialAngle(v: real)
      modifies this
      ensures Value() == old(Value()).(initialAngle := v)
    {
      initialAngle := v;
    }

    /** Stores `v` in damping, unchecked; the other six fields keep their values. */
    method SetDamping(v: real)
      modifies this
      ensures Value() == old(Value()).(damping := v)
    {
      damping := v;
    }

    /** Stores `v` in gravity, unchecked; the other six fields keep their values. */
    method SetGravity(v: real)
      modifies this
      ensures Value() == old(Value()).(gravity := v)
    {
      gravity := v;
    }
  }

  /**
    A copy and its original are independent objects: after copying, a setter
    on the copy leaves the original as it was, and the copy keeps every other
    field of the original.
   */
  method CopyThenSetMass(p: SimulationParameters, v: real) returns (q: SimulationParameters)
    ensures fresh(q) && q != p
    ensures q.mass == v
    ensures unchanged(p)
    ensures q.springConstant == p.springConstant && q.naturalLength == p.naturalLength
    ensures q.initialLength == p.initialLength && q.initialAngle == p.initialAngle
    ensures q.damping == p.damping && q.gravity == p.gravity
  {
    q := new SimulationParameters.Copy(p);
    q.SetMass(v);
  }

  /** The mirror image: a setter on the original leaves an earlier copy as it was. */
  method SetMassAfterCopy(p: SimulationParameters, v: real) returns (q: SimulationParameters)
    modifies p
    ensures fresh(q) && q != p
    ensures p.mass == v
    ensures q.mass == old(p.mass)
    ensures q.springConstant == p.springConstant && q.naturalLength == p.naturalLength
    ensures q.initialLength == p.initialLength && q.initialAngle == p.initialAngle
    ensures q.damping == p.damping && q.gravity == p.gravity
  {
    q := new SimulationParameters.Copy(p);
    p.SetMass(v);
  }
}
