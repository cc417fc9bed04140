/**
 * The immutable head-set pose snapshot (Source/HmdPoseState.cs): per-eye
 * projections, positions and rotations, the per-eye accessors, and the
 * eye-view construction.
 */
module HmdPoses {
  import opened Wrappers
  import opened EngineMath

  /**
   * `VREye`. Being a C# enum it can hold any integer, so besides the two
   * named eyes there is an explicit case for every other value. VREye.cs
   * is not part of this model, so the named eyes' numeric codes are not
   * known here; `OtherEye(v)` stands for a value that is neither of them,
   * whatever `v` is.
   */
  datatype VREye = Left | Right | OtherEye(value: int)

  /** The exception the accessors throw: "Invalid VREye: <eye>." */
  datatype EyeError = InvalidEye(eye: VREye)

  /**
   * The six read-only fields, set once by the constructor. Being a value,
   * a snapshot cannot be changed after it is built.
   */
  datatype HmdPoseState = HmdPoseState(
    leftEyeProjection: Matrix,
    rightEyeProjection: Matrix,
    leftEyePosition: Vector3,
    rightEyePosition: Vector3,
    leftEyeRotation: Quaternion,
    rightEyeRotation: Quaternion)
  {
    /** The position of the selected eye; any eye other than Left and Right is an error. */
    function GetEyePosition(eye: VREye): (r: Result<Vector3, EyeError>)
      ensures eye == Left ==> r == Success(leftEyePosition)
      ensures eye == Right ==> r == Success(rightEyePosition)
      ensures r.Failure? <==> eye.OtherEye?
      ensures r.Failure? ==> r.error == InvalidEye(eye)
    {
      match eye
      case Left => Success(leftEyePosition)
      case Right => Success(rightEyePosition)
      case OtherEye(_) => Failure(InvalidEye(eye))
    }

    /** The rotation of the selected eye; any eye other than Left and Right is an error. */
    function GetEyeRotation(eye: VREye): (r: Result<Quaternion, EyeError>)
      ensures eye == Left ==> r == Success(leftEyeRotation)
      ensures eye == Right ==> r == Success(rightEyeRotation)
      ensures r.Failure? <==> eye.OtherEye?
      ensures r.Failure? ==> r.error == InvalidEye(eye)
    {
      match eye
      case Left => Success(leftEyeRotation)
      case Right => Success(rightEyeRotation)
      case OtherEye(_) => Failure(InvalidEye(eye))
    }

    /**
     * The view matrix of one eye: look from the eye position (moved by
     * `positionOffset`) along `forward` turned by the eye rotation, with
     * `up` turned the same way. The eye is validated first, by the position
     * accessor, before any vector math.
     */
    function CreateView(engine: Engine, eye: VREye, positionOffset: Vector3, forward: Vector3, up: Vector3): (r: Result<Matrix, EyeError>)
      ensures r.Failure? <==> eye.OtherEye?
      ensures r.Failure? ==> r.error == InvalidEye(eye)
    {
      match GetEyePosition(eye)
      case Failure(e) => Failure(e)
      case Success(position) =>
        var eyePos := Add(position, positionOffset);
        match GetEyeRotation(eye)
        case Failure(e) => Failure(e)
        case Success(eyeQuat) =>
          var forwardTransformed := engine.transform(forward, eyeQuat);
          var upTransformed := engine.transform(up, eyeQuat);
          Success(engine.lookAt(eyePos, Add(eyePos, forwardTransformed), upTransformed))
    }
  }

  /** The two accessors accept and reject exactly the same eyes. */
  lemma AccessorsAgreeOnValidity(p: HmdPoseState, eye: VREye)
    ensures p.GetEyePosition(eye).Success? <==> p.GetEyeRotation(eye).Success?
  {
  }

  /**
   * An invalid eye fails before any engine call: the result is the same
   * failure whatever the engine library and the vectors are.
   */
  lemma InvalidEyeFailsBeforeMath(p: HmdPoseState, e1: Engine, e2: Engine, eye: VREye,
                                  o1: Vector3, f1: Vector3, u1: Vector3, o2: Vector3, f2: Vector3, u2: Vector3)
    requires eye.OtherEye?
    ensures p.CreateView(e1, eye, o1, f1, u1) == p.CreateView(e2, eye, o2, f2, u2) == Failure(InvalidEye(eye))
  {
  }

  /**
   * The view of one eye depends only on that eye's fields: replacing every
   * field of the other eye (and both projections) leaves it unchanged.
   */
  lemma ViewUsesOnlyItsEye(p: HmdPoseState, q: HmdPoseState, engine: Engine, eye: VREye,
                           offset: Vector3, forward: Vector3, up: Vector3)
    requires eye == Left ==> p.leftEyePosition == q.leftEyePosition && p.leftEyeRotation == q.leftEyeRotation
    requires eye == Right ==> p.rightEyePosition == q.rightEyePosition && p.rightEyeRotation == q.rightEyeRotation
    ensures p.CreateView(engine, eye, offset, forward, up) == q.CreateView(engine, eye, offset, forward, up)
  {
  }

  /**
   * For a valid eye the view is the engine's look-at from the offset eye
   * position towards that position plus the rotated forward vector.
   */
  lemma ViewLooksAlongRotatedForward(p: HmdPoseState, engine: Engine, eye: VREye,
                                     offset: Vector3, forward: Vector3, up: Vector3)
    requires !eye.OtherEye?
    ensures var from := Add(p.GetEyePosition(eye).value, offset);
            var q := p.GetEyeRotation(eye).value;
            p.CreateView(engine, eye, offset, forward, up)
              == Success(engine.lookAt(from, Add(from, engine.transform(forward, q)), engine.transform(up, q)))
  {
  }
}
