/**
 * The helicopter actor: its state, loading it from the list of sub-models
 * of its model file, releasing it, and advancing it by one frame.
 */
module HelicopterActor {
  import opened Wrappers
  import opened Geometry
  import opened HelicopterEnums
  import opened PartTable
  import opened Flight

  class Helicopter {
    /** Per-part local transforms and sub-models, both indexed by Part. */
    var partTransformations: seq<Matrix4D>
    var partModel: seq<Model>

    var transformation: Matrix4D
    var rotation: Matrix4D

    var position: Vector3D
    /** Pitch (x), yaw (y) and roll (z). */
    var angles: Vector3D

    var rotorRotation: real

    var velocity: real
    var lift: real

    /** The pose and constants every default-constructed helicopter starts with. */
    predicate AtRestDefaults()
      reads this
    {
      transformation == Identity && rotation == Identity &&
      angles == Origin && rotorRotation == 0.0 &&
      velocity == 10.0 && lift == 3.0
    }

    /** The default member initialisers. */
    constructor ()
      ensures partTransformations == [] && partModel == []
      ensures position == Origin
      ensures AtRestDefaults()
    {
      partTransformations := [];
      partModel := [];
      transformation := Identity;
      rotation := Identity;
      position := Origin;
      angles := Origin;
      rotorRotation := 0.0;
      velocity := 10.0;
      lift := 3.0;
    }

    /** Releases the sub-models and empties both part tables; nothing else changes. */
    method Delete()
      modifies this
      ensures partModel == [] && partTransformations == []
      ensures transformation == old(transformation) && rotation == old(rotation)
      ensures position == old(position) && angles == old(angles)
      ensures rotorRotation == old(rotorRotation)
      ensures velocity == old(velocity) && lift == old(lift)
    {
      partModel := [];
      partTransformations := [];
    }

    /** The state helicopterMove leaves behind, relative to the state it found. */
    twostate predicate MovedBy(control: seq<bool>, dt: real, up: Vector3D, upUnit: Vector3D)
      reads this
      requires |control| == CONTROL_COUNT
      requires |old(partTransformations)| == PART_COUNT
    {
      var axes := ControlAxes(control);
      partModel == old(partModel) &&
      partTransformations == AnimateRotors(old(partTransformations), rotorRotation) &&
      position == AdvancePosition(old(position), up, upUnit, axes.throttle, old(lift), old(velocity), dt) &&
      angles == AdvanceAngles(old(angles), axes, dt) &&
      rotation == RootRotation(angles) &&
      transformation == RootTransformation(position, rotation) &&
      rotorRotation == AdvanceRotor(old(rotorRotation), dt) &&
      velocity == old(velocity) && lift == old(lift)
    }

    /**
     * One frame of flight.  `upAxis` stands for taking the y column of a
     * matrix and `normalize` for vector normalisation, both from the math
     * library.
     */
    method Move(control: array<bool>, dt: real, upAxis: Matrix4D -> Vector3D, normalize: Vector3D -> Vector3D)
      requires control.Length == CONTROL_COUNT
      requires |partTransformations| == PART_COUNT
      modifies this
      ensures MovedBy(old(control[..]), dt, upAxis(old(rotation)), normalize(upAxis(old(rotation))))
      ensures forall p :: p != Rotor && p != TailRotor ==>
        partTransformations[PartIndex(p)] == old(partTransformations[PartIndex(p)])
    {
      var axes := ControlAxes(control[..]);
      var up := upAxis(rotation);

      position := AdvancePosition(position, up, normalize(up), axes.throttle, lift, velocity, dt);
      angles := AdvanceAngles(angles, axes, dt);

      rotation := RootRotation(angles);
      transformation := RootTransformation(position, rotation);

      rotorRotation := AdvanceRotor(rotorRotation, dt);
      partTransformations := partTransformations[PartIndex(Rotor) := RotateAboutPivot(RotorPivot, RotationY(rotorRotation))];
      partTransformations := partTransformations[PartIndex(TailRotor) := RotateAboutPivot(TailRotorPivot, RotationX(rotorRotation))];
    }
  }

  /**
   * helicopterLoad applied to the sub-models the model file yielded: the
   * count check, then one pass filing each model under its part.
   */
  method HelicopterLoad(models: seq<Model>) returns (r: Result<Helicopter, LoadError>)
    ensures r.Success? <==> LoadTable(models).Success?
    ensures r.Failure? ==> LoadTable(models) == Failure(r.error)
    ensures r.Success? ==> fresh(r.value)
    ensures r.Success? ==> r.value.partModel == LoadTable(models).value
    ensures r.Success? ==> r.value.partTransformations == seq(PART_COUNT, _ => Identity)
    ensures r.Success? ==> r.value.position == Vector3D(0.0, 5.5, 0.0) && r.value.AtRestDefaults()
  {
    if |models| != PART_COUNT {
      return Failure(PartCountMismatch(|models|));
    }

    var heli := new Helicopter();
    heli.partModel := seq(|models|, _ => EmptyModel);
    heli.partTransformations := seq(PART_COUNT, _ => Identity);
    heli.position := heli.position.(y := 5.5);

    var i := 0;
    while i < |models|
      invariant 0 <= i <= |models|
      invariant |heli.partModel| == PART_COUNT
      invariant FillSlots(heli.partModel, models[i..]) == LoadTable(models)
      invariant heli.partTransformations == seq(PART_COUNT, _ => Identity)
      invariant heli.position == Vector3D(0.0, 5.5, 0.0) && heli.AtRestDefaults()
    {
      var obj := models[i];
      assert models[i..][0] == obj && models[i..][1..] == models[i + 1..];
      var slot := PartOfName(obj.name);
      if slot.None? {
        return Failure(UnknownPartName(obj.name));
      }
      heli.partModel := heli.partModel[PartIndex(slot.value) := obj];
      i := i + 1;
    }
    assert models[i..] == [];
    return Success(heli);
  }
}
