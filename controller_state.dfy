/**
 * The controller record (Source/VRControllerState.cs) and its `Update`,
 * which overwrites every field from a raw OpenVR controller state blob.
 */
module ControllerStates {
  import opened EngineMath
  import opened OpenVRExtensions

  /** Source/VRControllerRole.cs */
  datatype VRControllerRole = Undefined | LeftHand | RightHand

  /** Source/VRGamepadDPad.cs */
  datatype VRGamepadDPad = VRGamepadDPad(up: VRButtonState, down: VRButtonState, left: VRButtonState, right: VRButtonState)

  const ReleasedDPad := VRGamepadDPad(Released, Released, Released, Released)

  /**
   * A device pose. VRPose.cs is not part of this model; only the two members
   * the plugin reads are kept.
   */
  datatype VRPose = VRPose(devicePosition: Vector3, deviceRotation: Quaternion)

  const DefaultPose := VRPose(ZeroVector3, ZeroQuaternion)

  /** The value of every field of a `VRControllerState` object at one moment. */
  datatype ControllerSnapshot = ControllerSnapshot(
    pose: VRPose,
    isConnected: bool,
    role: VRControllerRole,
    dPad: VRGamepadDPad,
    grip: VRButtonState,
    applicationMenu: VRButtonState,
    a: VRButtonState,
    trackpadButton: VRButtonState,
    triggerButton: VRButtonState,
    trackpadTouch: bool,
    trigger: real,
    trackpad: Vector2)

  /** The fields of a freshly allocated object: every C# field at its default. */
  const DefaultSnapshot := ControllerSnapshot(
    DefaultPose, false, Undefined, ReleasedDPad,
    Released, Released, Released, Released, Released,
    false, 0.0, ZeroVector2)

  /**
   * The record `Update(role, state, pose)` leaves behind: connected, with the
   * given role and pose, and the analog values copied as they are (nothing
   * clamps them to the documented ranges). `DecodedButtonsFollowMasks` says
   * what the button fields hold.
   */
  function Decode(role: VRControllerRole, state: RawControllerState, pose: VRPose): (r: ControllerSnapshot)
    ensures r.isConnected && r.role == role && r.pose == pose
    ensures r.trackpad.x == state.axis0.x && r.trackpad.y == state.axis0.y
    ensures r.trigger == state.axis1.x
  {
    ControllerSnapshot(
      pose := pose,
      isConnected := true,
      role := role,
      dPad := VRGamepadDPad(
        up := ToButtonState(GetButtonPressed(state, DPadUp)),
        down := ToButtonState(GetButtonPressed(state, DPadDown)),
        left := ToButtonState(GetButtonPressed(state, DPadLeft)),
        right := ToButtonState(GetButtonPressed(state, DPadRight))),
      grip := ToButtonState(GetButtonPressed(state, Grip)),
      applicationMenu := ToButtonState(GetButtonPressed(state, ApplicationMenu)),
      a := ToButtonState(GetButtonPressed(state, A)),
      trackpadButton := ToButtonState(GetButtonPressed(state, Axis0)),
      triggerButton := ToButtonState(GetButtonPressed(state, Axis1)),
      trackpadTouch := GetButtonTouched(state, Axis0),
      trigger := state.axis1.x,
      trackpad := Vector2(state.axis0.x, state.axis0.y))
  }

  /**
   * Each button field reports its own bit of the pressed mask (ids from
   * `openvr.h`), and the trackpad touch reads the Axis0 bit of the touched mask.
   */
  lemma DecodedButtonsFollowMasks(role: VRControllerRole, state: RawControllerState, pose: VRPose)
    ensures var r := Decode(role, state, pose);
      && (r.trackpadTouch <==> BitSet(state.buttonTouched, 32))
      && (r.trackpadButton == Pressed <==> BitSet(state.buttonPressed, 32))
      && (r.triggerButton == Pressed <==> BitSet(state.buttonPressed, 33))
      && (r.applicationMenu == Pressed <==> BitSet(state.buttonPressed, 1))
      && (r.grip == Pressed <==> BitSet(state.buttonPressed, 2))
      && (r.dPad.left == Pressed <==> BitSet(state.buttonPressed, 3))
      && (r.dPad.up == Pressed <==> BitSet(state.buttonPressed, 4))
      && (r.dPad.right == Pressed <==> BitSet(state.buttonPressed, 5))
      && (r.dPad.down == Pressed <==> BitSet(state.buttonPressed, 6))
      && (r.a == Pressed <==> BitSet(state.buttonPressed, 7))
  {
  }

  /** The field of a controller record that reports button `b`. */
  function ButtonField(s: ControllerSnapshot, b: EVRButtonId): VRButtonState
    requires IsNamed(b)
  {
    if b == ApplicationMenu then s.applicationMenu
    else if b == Grip then s.grip
    else if b == DPadLeft then s.dPad.left
    else if b == DPadUp then s.dPad.up
    else if b == DPadRight then s.dPad.right
    else if b == DPadDown then s.dPad.down
    else if b == A then s.a
    else if b == Axis0 then s.trackpadButton
    else s.triggerButton
  }

  /** Every reported button is Pressed exactly when its own bit is set in the pressed mask. */
  lemma DecodeReportsEachButton(role: VRControllerRole, state: RawControllerState, pose: VRPose, b: EVRButtonId)
    requires IsNamed(b)
    ensures ButtonField(Decode(role, state, pose), b) == Pressed <==> BitSet(state.buttonPressed, b as bv64)
  {
    DecodedButtonsFollowMasks(role, state, pose);
  }

  /**
   * Buttons are decoded independently: changing the pressed mask anywhere
   * except at button `b`'s bit leaves `b`'s field as it was.
   */
  lemma DecodeButtonsIndependent(role: VRControllerRole, state: RawControllerState, pose: VRPose, mask: bv64, b: EVRButtonId)
    requires IsNamed(b)
    requires BitSet(mask, b as bv64) == BitSet(state.buttonPressed, b as bv64)
    ensures ButtonField(Decode(role, state.(buttonPressed := mask), pose), b) == ButtonField(Decode(role, state, pose), b)
  {
    DecodeReportsEachButton(role, state, pose, b);
    DecodeReportsEachButton(role, state.(buttonPressed := mask), pose, b);
  }

  /** With only the Axis1 (trigger) bit pressed, the trigger is the one button reported Pressed. */
  lemma TriggerOnlyDecode(role: VRControllerRole, state: RawControllerState, pose: VRPose)
    requires state.buttonPressed == OneBit(33)
    ensures var r := Decode(role, state, pose);
      && r.triggerButton == Pressed
      && r.trackpadButton == Released && r.applicationMenu == Released && r.a == Released
      && r.grip == Released && r.dPad == ReleasedDPad
  {
    DecodedButtonsFollowMasks(role, state, pose);
  }

  /** Source/VRControllerState.cs: one controller's decoded state, updated in place. */
  class VRControllerState {
    var pose: VRPose
    var isConnected: bool
    var role: VRControllerRole
    var dPad: VRGamepadDPad
    var grip: VRButtonState
    var applicationMenu: VRButtonState
    var a: VRButtonState
    var trackpadButton: VRButtonState
    var triggerButton: VRButtonState
    var trackpadTouch: bool
    var trigger: real
    var trackpad: Vector2

    /** Every field, as one value. */
    function Snapshot(): ControllerSnapshot
      reads this
    {
      ControllerSnapshot(pose, isConnected, role, dPad, grip, applicationMenu, a,
                         trackpadButton, triggerButton, trackpadTouch, trigger, trackpad)
    }

    /** `new VRControllerState()`: every field at its C# default. */
    constructor ()
      ensures Snapshot() == DefaultSnapshot
    {
      pose, isConnected, role, dPad := DefaultPose, false, Undefined, ReleasedDPad;
      grip, applicationMenu, a := Released, Released, Released;
      trackpadButton, triggerButton, trackpadTouch := Released, Released, false;
      trigger, trackpad := 0.0, ZeroVector2;
    }

    /**
     * Overwrites every field, in the order the source assigns them. The new
     * state is a function of the arguments alone, so the previous state is
     * lost and a second call with the same arguments changes nothing.
     */
    method Update(role: VRControllerRole, state: RawControllerState, pose: VRPose)
      modifies this
      ensures Snapshot() == Decode(role, state, pose)
    {
      this.isConnected, this.pose, this.role := true, pose, role;

      // Trackpad: both coordinates of the stored vector, then its flags
      var pad := trackpad.(x := state.axis0.x);
      pad := pad.(y := state.axis0.y);
      trackpad := pad;
      trackpadTouch := GetButtonTouched(state, Axis0);
      trackpadButton := ToButtonState(GetButtonPressed(state, Axis0));

      // Trigger
      trigger := state.axis1.x;
      triggerButton := ToButtonState(GetButtonPressed(state, Axis1));

      // Buttons
      applicationMenu := ToButtonState(GetButtonPressed(state, ApplicationMenu));
      a := ToButtonState(GetButtonPressed(state, A));
      grip := ToButtonState(GetButtonPressed(state, Grip));

      // DPad: the four directions of the stored value, one at a time
      var directions := dPad.(up := ToButtonState(GetButtonPressed(state, DPadUp)));
      directions := directions.(down := ToButtonState(GetButtonPressed(state, DPadDown)));
      directions := directions.(left := ToButtonState(GetButtonPressed(state, DPadLeft)));
      directions := directions.(right := ToButtonState(GetButtonPressed(state, DPadRight)));
      dPad := directions;
    }
  }
}
