/**
  One snapshot of the pendulum (PhysicsState.java): the five integrated
  quantities, the derived position, speed and forces, and the lookup of a
  quantity by its human-readable label, which chart windows use to select the
  quantity they plot.
 */
module Snapshot {

  /** The eleven quantities of a snapshot, in declaration order. */
  datatype Field =
    | Time | Angle | AngularVelocity | SpringLength | RadialVelocity
    | X | Y | Velocity | SpringForce | GravityForce | Acceleration

  // The labels the lookup understands.
  const TIME_LABEL: string := "Время (с)"
  const ANGLE_LABEL: string := "Угол (рад)"
  const ANGULAR_VELOCITY_LABEL: string := "Угловая скорость (рад/с)"
  const SPRING_LENGTH_LABEL: string := "Длина пружины (м)"
  const RADIAL_VELOCITY_LABEL: string := "Радиальная скорость (м/с)"
  const X_LABEL: string := "Координата X (м)"
  const Y_LABEL: string := "Координата Y (м)"
  const VELOCITY_LABEL: string := "Скорость (м/с)"
  const SPRING_FORCE_LABEL: string := "Сила пружины (Н)"
  const GRAVITY_FORCE_LABEL: string := "Сила тяжести (Н)"
  const ACCELERATION_LABEL: string := "Ускорение (м/с²)"

  /** The label under which a field can be looked up. */
  function Label(f: Field): string {
    match f
    case Time => TIME_LABEL
    case Angle => ANGLE_LABEL
    case AngularVelocity => ANGULAR_VELOCITY_LABEL
    case SpringLength => SPRING_LENGTH_LABEL
    case RadialVelocity => RADIAL_VELOCITY_LABEL
    case X => X_LABEL
    case Y => Y_LABEL
    case Velocity => VELOCITY_LABEL
    case SpringForce => SPRING_FORCE_LABEL
    case GravityForce => GRAVITY_FORCE_LABEL
    case Acceleration => ACCELERATION_LABEL
  }

  /**
    A snapshot. The datatype constructor is the eleven-argument constructor of
    the source and its destructors are the getters.
   */
  datatype PhysicsState = PhysicsState(
    time: real,
    angle: real,
    angularVelocity: real,
    springLength: real,
    radialVelocity: real,
    x: real,
    y: real,
    velocity: real,
    springForce: real,
    gravityForce: real,
    acceleration: real)
  {
    /** The getter of field `f`. */
    function Get(f: Field): real {
      match f
      case Time => time
      case Angle => angle
      case AngularVelocity => angularVelocity
      case SpringLength => springLength
      case RadialVelocity => radialVelocity
      case X => x
      case Y => y
      case Velocity => velocity
      case SpringForce => springForce
      case GravityForce => gravityForce
      case Acceleration => acceleration
    }

    /** The setter of field `f`: only that field takes the new value. */
    function With(f: Field, v: real): (r: PhysicsState)
      ensures r.Get(f) == v
      ensures forall g :: g != f ==> r.Get(g) == Get(g)
    {
      match f
      case Time => this.(time := v)
      case Angle => this.(angle := v)
      case AngularVelocity => this.(angularVelocity := v)
      case SpringLength => this.(springLength := v)
      case RadialVelocity => this.(radialVelocity := v)
      case X => this.(x := v)
      case Y => this.(y := v)
      case Velocity => this.(velocity := v)
      case SpringForce => this.(springForce := v)
      case GravityForce => this.(gravityForce := v)
      case Acceleration => this.(acceleration := v)
    }

    /** The value selected by a label; an unknown label reads as 0. */
    function GetParameter(name: string): real {
      if name == TIME_LABEL then time
      else if name == ANGLE_LABEL then angle
      else if name == ANGULAR_VELOCITY_LABEL then angularVelocity
      else if name == SPRING_LENGTH_LABEL then springLength
      else if name == RADIAL_VELOCITY_LABEL then radialVelocity
      else if name == X_LABEL then x
      else if name == Y_LABEL then y
      else if name == VELOCITY_LABEL then velocity
      else if name == SPRING_FORCE_LABEL then springForce
      else if name == GRAVITY_FORCE_LABEL then gravityForce
      else if name == ACCELERATION_LABEL then acceleration
      else 0.0
    }
  }

  /** The no-argument constructor: every field is 0. */
  function Empty(): (r: PhysicsState)
    ensures forall f :: r.Get(f) == 0.0
  {
    PhysicsState(0.0, 0.0, 0.0, 0.0, 0.0, 0.0, 0.0, 0.0, 0.0, 0.0, 0.0)
  }

  /** The fields a chart may select, in the order the selector lists them. */
  const SELECTABLE: seq<Field> :=
    [Angle, AngularVelocity, SpringLength, RadialVelocity, X, Y,
     Velocity, SpringForce, GravityForce, Acceleration]

  /** The labels offered for selection: every label except the one for time. */
  function AvailableParameters(): (r: seq<string>)
    ensures |r| == 10
    ensures forall i :: 0 <= i < |r| ==> r[i] == Label(SELECTABLE[i])
  {
    [ANGLE_LABEL, ANGULAR_VELOCITY_LABEL, SPRING_LENGTH_LABEL, RADIAL_VELOCITY_LABEL,
     X_LABEL, Y_LABEL, VELOCITY_LABEL, SPRING_FORCE_LABEL, GRAVITY_FORCE_LABEL,
     ACCELERATION_LABEL]
  }

  /** Distinct fields have distinct labels. */
  lemma LabelInjective(f: Field, g: Field)
    ensures Label(f) == Label(g) ==> f == g
  {
  }

  /** Looking up the label of a field reads exactly that field. */
  lemma GetParameterOfLabel(s: PhysicsState, f: Field)
    ensures s.GetParameter(Label(f)) == s.Get(f)
  {
  }

  /** A name that is no field's label reads as 0. */
  lemma GetParameterUnknown(s: PhysicsState, name: string)
    requires forall f :: Label(f) != name
    ensures s.GetParameter(name) == 0.0
  {
    assert Label(Time) != name && Label(Angle) != name && Label(AngularVelocity) != name;
    assert Label(SpringLength) != name && Label(RadialVelocity) != name;
    assert Label(X) != name && Label(Y) != name && Label(Velocity) != name;
    assert Label(SpringForce) != name && Label(GravityForce) != name && Label(Acceleration) != name;
  }

  /**
    The selectable labels are pairwise distinct, each of them selects a field
    other than time, and the time label, though it can be looked up, is not
    among them.
   */
  lemma AvailableParametersSelect(s: PhysicsState)
    ensures forall i, j :: 0 <= i < j < |AvailableParameters()| ==>
      AvailableParameters()[i] != AvailableParameters()[j]
    ensures forall i :: 0 <= i < |AvailableParameters()| ==>
      SELECTABLE[i] != Time && s.GetParameter(AvailableParameters()[i]) == s.Get(SELECTABLE[i])
    ensures TIME_LABEL !in AvailableParameters()
    ensures s.GetParameter(TIME_LABEL) == s.time
  {
  }

  /** After a setter, looking up that field's label gives the new value, and every other label reads as before. */
  lemma WithThenGetParameter(s: PhysicsState, f: Field, v: real, name: string)
    ensures s.With(f, v).GetParameter(name) == if name == Label(f) then v else s.GetParameter(name)
  {
  }
}
