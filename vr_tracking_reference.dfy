/**
 * A tracking reference (base station) of the play area
 * (Source/VRTrackingReference.cs).
 */
module TrackingReferences {
  import opened EngineMath

  /** Source/VRTrackingReference.cs; `position` is the source's `Postion`. */
  class VRTrackingReference {
    var position: Vector3
    var orientation: Quaternion
    var isConnected: bool

    /** A reference as allocated: every property at its C# default. */
    constructor ()
      ensures position == ZeroVector3 && orientation == ZeroQuaternion && !isConnected
    {
      position, orientation, isConnected := ZeroVector3, ZeroQuaternion, false;
    }

    /**
     * Records a pose: the reference becomes connected and takes the given
     * position and orientation. Every property is overwritten, so the new
     * state does not depend on the old one and a repeated call changes
     * nothing; the reference is never marked disconnected.
     */
    method Update(position: Vector3, orientation: Quaternion)
      modifies this
      ensures isConnected
      ensures this.position == position && this.orientation == orientation
    {
      isConnected := true;
      this.position := position;
      this.orientation := orientation;
    }
  }
}
