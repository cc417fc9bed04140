/**
 * The controller script (Source/VRController.cs): it keeps the latest
 * controller record and, while the controller is connected, moves its actor
 * to the controller's pose.
 */
module Controllers {
  import opened Wrappers
  import opened EngineMath
  import opened ControllerStates

  /** The exception reading a null `State` raises. */
  datatype ControllerError = NullReference

  /** Source/VRController.cs */
  class VRController {
    var role: VRControllerRole
    var controllerIndex: int
    var state: VRControllerState?
    /** The actor's `LocalTransform`. */
    var localTransform: Transform

    constructor (role: VRControllerRole, controllerIndex: int, localTransform: Transform)
      ensures this.role == role && this.controllerIndex == controllerIndex
      ensures state == null && this.localTransform == localTransform
    {
      this.role, this.controllerIndex := role, controllerIndex;
      state := null;
      this.localTransform := localTransform;
    }

    /** `IsConnected`: the record's flag; reading it without a record fails. */
    function IsConnected(): (r: Result<bool, ControllerError>)
      reads this, state
      ensures state == null ==> r == Failure(NullReference)
      ensures state != null ==> r == Success(state.isConnected)
    {
      if state == null then Failure(NullReference) else Success(state.isConnected)
    }

    /**
     * Stores the new record. If it is connected, the transform takes the
     * pose's position and rotation and keeps its scale; if not, the transform
     * is left alone. A null record is stored and then fails the check.
     */
    method UpdateState(newState: VRControllerState?) returns (r: Outcome<ControllerError>)
      modifies this
      ensures state == newState
      ensures role == old(role) && controllerIndex == old(controllerIndex)
      ensures r.Fail? <==> newState == null
      ensures newState == null || !newState.isConnected ==> localTransform == old(localTransform)
      ensures newState != null && newState.isConnected ==>
        && localTransform.translation == newState.pose.devicePosition
        && localTransform.orientation == newState.pose.deviceRotation
        && localTransform.scale == old(localTransform).scale
      ensures r == Pass ==> IsConnected() == Success(newState.isConnected)
    {
      state := newState;
      if state == null {
        return Fail(NullReference);
      }
      if state.isConnected {
        var transform := localTransform;
        transform := transform.(translation := state.pose.devicePosition);
        transform := transform.(orientation := state.pose.deviceRotation);
        localTransform := transform;
      }
      return Pass;
    }
  }
}
