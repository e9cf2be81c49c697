/**
 * The arithmetic of one call to helicopterMove, as functions of the old
 * state: the four control axes, the Euler-angle update with its decay
 * toward level, the position update, the root matrices and the two rotor
 * transforms.  Angles and positions are reals; the up axis of the old
 * rotation and its normalisation come from the matrix library and are
 * passed in as the vectors `up` and `upUnit`.
 */
module Flight {
  import opened Geometry
  import opened HelicopterEnums

  /** The quarter turn the pitch and roll decay divides by (M_PI_4). */
  const QuarterPi: real := Pi / 4.0

  /** Pivot of the main rotor, and of the tail rotor. */
  const RotorPivot: Vector3D := Vector3D(0.0, 0.0, -0.69129)
  const TailRotorPivot: Vector3D := Vector3D(-0.28062, 1.813, -8.009)

  /** The signed difference of two flags, as `+a - b` on bools promoted to integers. */
  function Axis(positive: bool, negative: bool): (a: int)
    ensures -1 <= a <= 1
    ensures a == 0 <==> positive == negative
    ensures a == 1 <==> positive && !negative
    ensures a == -1 <==> !positive && negative
  {
    (if positive then 1 else 0) - (if negative then 1 else 0)
  }

  datatype Axes = Axes(throttle: int, yaw: int, pitch: int, roll: int)

  /** The four axes derived from the control array. */
  function ControlAxes(control: seq<bool>): (axes: Axes)
    requires |control| == CONTROL_COUNT
    ensures axes.throttle == Axis(control[ControlIndex(ThrottleUp)], control[ControlIndex(ThrottleDown)])
    ensures axes.yaw == Axis(control[ControlIndex(YawLeft)], control[ControlIndex(YawRight)])
    ensures axes.pitch == Axis(control[ControlIndex(PitchDown)], control[ControlIndex(PitchUp)])
    ensures axes.roll == Axis(control[ControlIndex(RollRight)], control[ControlIndex(RollLeft)])
  {
    Axes(Axis(control[6], control[7]), Axis(control[2], control[3]),
         Axis(control[0], control[1]), Axis(control[5], control[4]))
  }

  /** Every axis lies in {-1, 0, 1}; it is 0 exactly when its two flags agree. */
  lemma AxesInRange(control: seq<bool>)
    requires |control| == CONTROL_COUNT
    ensures var axes := ControlAxes(control);
      -1 <= axes.throttle <= 1 && -1 <= axes.yaw <= 1 && -1 <= axes.pitch <= 1 && -1 <= axes.roll <= 1
    ensures ControlAxes(control).throttle == 0 <==> control[6] == control[7]
    ensures ControlAxes(control).yaw == 0 <==> control[2] == control[3]
    ensures ControlAxes(control).pitch == 0 <==> control[0] == control[1]
    ensures ControlAxes(control).roll == 0 <==> control[4] == control[5]
  {
  }

  /** One step of an angle that decays toward zero: a += dt*input - dt*a/(pi/4). */
  function DecayStep(angle: real, input: int, dt: real): (a: real)
    ensures dt == 0.0 ==> a == angle
    ensures angle == 0.0 ==> a == dt * input as real
  {
    angle + (dt * input as real - dt * angle / QuarterPi)
  }

  /** Pitch (x) and roll (z) decay; yaw (y) accumulates. */
  function AdvanceAngles(angles: Vector3D, axes: Axes, dt: real): (r: Vector3D)
    ensures r.y - angles.y == dt * axes.yaw as real
    ensures axes.pitch == 0 && angles.x == 0.0 ==> r.x == 0.0
    ensures axes.roll == 0 && angles.z == 0.0 ==> r.z == 0.0
  {
    Vector3D(DecayStep(angles.x, axes.pitch, dt),
             angles.y + dt * axes.yaw as real,
             DecayStep(angles.z, axes.roll, dt))
  }

  /** position += dt*lift + dt*(up.x, 0, up.z)*velocity, lift = upUnit*(throttle*liftConstant). */
  function AdvancePosition(position: Vector3D, up: Vector3D, upUnit: Vector3D, throttle: int,
                           liftConstant: real, velocity: real, dt: real): (r: Vector3D)
    ensures r.y == position.y + dt * (upUnit.y * (throttle as real * liftConstant))
    ensures r.x == position.x + dt * (upUnit.x * (throttle as real * liftConstant)) + dt * up.x * velocity
    ensures r.z == position.z + dt * (upUnit.z * (throttle as real * liftConstant)) + dt * up.z * velocity
  {
    var lift := Scale(upUnit, throttle as real * liftConstant);
    Add(position, Add(Scale(lift, dt), Scale(Scale(Vector3D(up.x, 0.0, up.z), dt), velocity)))
  }

  /** Rotor spin angle after one step: it grows by dt * pi/2 whatever the controls say. */
  function AdvanceRotor(rotorRotation: real, dt: real): (r: real)
    ensures r - rotorRotation == dt * Pi / 2.0
  {
    rotorRotation + dt * 0.5 * Pi
  }

  /** rotationY(yaw) * rotationX(pitch) * rotationZ(roll). */
  function RootRotation(angles: Vector3D): Matrix4D
  {
    Product(Product(RotationY(angles.y), RotationX(angles.x)), RotationZ(angles.z))
  }

  function RootTransformation(position: Vector3D, rotation: Matrix4D): Matrix4D
  {
    Product(Translation(position), rotation)
  }

  /** The part transforms after a step: only ROTOR and TAIL_ROTOR are rewritten. */
  function AnimateRotors(parts: seq<Matrix4D>, rotorRotation: real): (r: seq<Matrix4D>)
    requires |parts| == PART_COUNT
    ensures |r| == |parts|
    ensures r[PartIndex(Rotor)] == RotateAboutPivot(RotorPivot, RotationY(rotorRotation))
    ensures r[PartIndex(TailRotor)] == RotateAboutPivot(TailRotorPivot, RotationX(rotorRotation))
    ensures forall p :: p != Rotor && p != TailRotor ==> r[PartIndex(p)] == parts[PartIndex(p)]
  {
    parts[1 := RotateAboutPivot(RotorPivot, RotationY(rotorRotation))]
         [3 := RotateAboutPivot(TailRotorPivot, RotationX(rotorRotation))]
  }

  /** A time step of zero leaves angles, position and rotor angle as they were. */
  lemma ZeroStepIsIdle(angles: Vector3D, axes: Axes, position: Vector3D, up: Vector3D, upUnit: Vector3D,
                       liftConstant: real, velocity: real, rotorRotation: real)
    ensures AdvanceAngles(angles, axes, 0.0) == angles
    ensures AdvancePosition(position, up, upUnit, axes.throttle, liftConstant, velocity, 0.0) == position
    ensures AdvanceRotor(rotorRotation, 0.0) == rotorRotation
    ensures RootTransformation(AdvancePosition(position, up, upUnit, axes.throttle, liftConstant, velocity, 0.0),
                               RootRotation(AdvanceAngles(angles, axes, 0.0))) ==
            RootTransformation(position, RootRotation(angles))
  {
    var lift := Scale(upUnit, axes.throttle as real * liftConstant);
    assert Scale(lift, 0.0) == Origin;
    assert Scale(Vector3D(up.x, 0.0, up.z), 0.0) == Origin;
    assert Scale(Origin, velocity) == Origin;
  }

  lemma MulMonotone(x: real, y: real, a: real)
    requires x < y
    ensures a > 0.0 ==> x * a < y * a
    ensures a < 0.0 ==> x * a > y * a
  {
  }

  lemma DivQuarterPi(p: real, b: real)
    ensures p < b * QuarterPi ==> p / QuarterPi < b
    ensures p > b * QuarterPi ==> p / QuarterPi > b
    ensures p == b * QuarterPi ==> p / QuarterPi == b
  {
    assert QuarterPi == 0.78539816339744825;
  }

  /** The decay term dt * angle / (pi/4) lies strictly between 0 and 2 * angle. */
  lemma DecayAmountBounds(angle: real, dt: real)
    requires angle != 0.0 && 0.0 < dt < 2.0 * QuarterPi
    ensures angle > 0.0 ==> 0.0 < dt * angle / QuarterPi < 2.0 * angle
    ensures angle < 0.0 ==> 2.0 * angle < dt * angle / QuarterPi < 0.0
  {
    MulMonotone(0.0, dt, angle);
    MulMonotone(dt, 2.0 * QuarterPi, angle);
    assert (2.0 * QuarterPi) * angle == (2.0 * angle) * QuarterPi;
    DivQuarterPi(dt * angle, 0.0);
    DivQuarterPi(dt * angle, 2.0 * angle);
  }

  /** For a step shorter than pi/4 the decay term is smaller than the angle itself. */
  lemma DecayAmountShort(angle: real, dt: real)
    requires angle != 0.0 && 0.0 < dt < QuarterPi
    ensures angle > 0.0 ==> dt * angle / QuarterPi < angle
    ensures angle < 0.0 ==> dt * angle / QuarterPi > angle
  {
    MulMonotone(dt, QuarterPi, angle);
    assert QuarterPi * angle == angle * QuarterPi;
    DivQuarterPi(dt * angle, angle);
  }

  /**
   * With no input on its axis, a tilted pitch or roll angle shrinks in
   * magnitude, provided the step is shorter than pi/2; it keeps its sign
   * while the step is shorter than pi/4, and is exactly level after a step
   * of pi/4.
   */
  lemma DecayTowardLevel(angle: real, dt: real)
    requires angle != 0.0
    requires 0.0 < dt < 2.0 * QuarterPi
    ensures -angle < DecayStep(angle, 0, dt) < angle || angle < DecayStep(angle, 0, dt) < -angle
    ensures dt < QuarterPi ==> (angle > 0.0 <==> DecayStep(angle, 0, dt) > 0.0)
    ensures dt == QuarterPi ==> DecayStep(angle, 0, dt) == 0.0
  {
    assert DecayStep(angle, 0, dt) == angle - dt * angle / QuarterPi;
    DecayAmountBounds(angle, dt);
    if dt < QuarterPi {
      DecayAmountShort(angle, dt);
    } else if dt == QuarterPi {
      assert dt * angle == angle * QuarterPi;
      DivQuarterPi(dt * angle, angle);
    }
  }

  /**
   * The decay law only levels for short steps: a step of 3*pi/4 flips a
   * tilted angle to the other side at twice its magnitude.
   */
  lemma LongStepOvershoots(angle: real)
    ensures DecayStep(angle, 0, 3.0 * QuarterPi) == -2.0 * angle
  {
    assert 3.0 * QuarterPi * angle == (3.0 * angle) * QuarterPi;
    DivQuarterPi(3.0 * QuarterPi * angle, 3.0 * angle);
  }

  /** Without throttle there is no vertical motion: the height is unchanged. */
  lemma NoClimbWithoutThrottle(position: Vector3D, up: Vector3D, upUnit: Vector3D,
                               liftConstant: real, velocity: real, dt: real)
    ensures AdvancePosition(position, up, upUnit, 0, liftConstant, velocity, dt).y == position.y
    ensures AdvancePosition(position, up, upUnit, 0, liftConstant, velocity, dt) ==
      Add(position, Scale(Vector3D(up.x, 0.0, up.z), dt * velocity))
  {
  }

  /** The rotors spin on every positive step, by exactly dt * pi/2. */
  lemma RotorAlwaysSpins(rotorRotation: real, dt: real)
    requires dt > 0.0
    ensures AdvanceRotor(rotorRotation, dt) > rotorRotation
    ensures AdvanceRotor(rotorRotation, dt) - rotorRotation == dt * Pi / 2.0
  {
  }

  /** Attitude after a run of steps with all controls released. */
  function LevelingRun(angles: Vector3D, dts: seq<real>): Vector3D
    decreases |dts|
  {
    if dts == [] then angles
    else LevelingRun(AdvanceAngles(angles, ControlAxes(seq(CONTROL_COUNT, _ => false)), dts[0]), dts[1..])
  }

  /**
   * With every control released, over any run of steps: the heading never
   * changes, and a level pitch or roll stays level.
   */
  lemma {:induction false} LevelingRunKeepsHeading(angles: Vector3D, dts: seq<real>)
    ensures LevelingRun(angles, dts).y == angles.y
    ensures angles.x == 0.0 ==> LevelingRun(angles, dts).x == 0.0
    ensures angles.z == 0.0 ==> LevelingRun(angles, dts).z == 0.0
    decreases |dts|
  {
    if dts != [] {
      var released := ControlAxes(seq(CONTROL_COUNT, _ => false));
      assert released == Axes(0, 0, 0, 0);
      LevelingRunKeepsHeading(AdvanceAngles(angles, released, dts[0]), dts[1..]);
    }
  }

  /**
   * With every control released and every step shorter than pi/2, pitch and
   * roll never grow in magnitude.
   */
  lemma {:induction false} LevelingRunSettles(angles: Vector3D, dts: seq<real>)
    requires forall i :: 0 <= i < |dts| ==> 0.0 < dts[i] < 2.0 * QuarterPi
    ensures Abs(LevelingRun(angles, dts).x) <= Abs(angles.x)
    ensures Abs(LevelingRun(angles, dts).z) <= Abs(angles.z)
    decreases |dts|
  {
    if dts != [] {
      var released := ControlAxes(seq(CONTROL_COUNT, _ => false));
      assert released == Axes(0, 0, 0, 0);
      var next := AdvanceAngles(angles, released, dts[0]);
      if angles.x != 0.0 { DecayTowardLevel(angles.x, dts[0]); }
      if angles.z != 0.0 { DecayTowardLevel(angles.z, dts[0]); }
      assert forall i :: 0 <= i < |dts| - 1 ==> dts[1..][i] == dts[i + 1];
      LevelingRunSettles(next, dts[1..]);
    }
  }

  /** The step bound is tight: a step of exactly pi/2 mirrors a tilted angle. */
  lemma HalfTurnStepMirrors(angle: real)
    ensures DecayStep(angle, 0, 2.0 * QuarterPi) == -angle
  {
    assert 2.0 * QuarterPi * angle == (2.0 * angle) * QuarterPi;
    DivQuarterPi(2.0 * QuarterPi * angle, 2.0 * angle);
  }

  function Abs(x: real): real
  {
    if x < 0.0 then -x else x
  }
}
