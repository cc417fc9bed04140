/**
 * Controller input decoding helpers (Source/OpenVR/OpenVRExtensions.cs):
 * one-bit tests on the 64-bit pressed and touched masks of an OpenVR
 * controller state, and the mapping from `bool` to a button state.
 */
module OpenVRExtensions {

  /**
   * OpenVR's `EVRButtonId`: a C# enum, so any 32-bit integer (kept here as
   * its two's-complement bits). The named values are those the plugin reads,
   * with the numbers `openvr.h` gives them.
   */
  type EVRButtonId = bv32

  const ApplicationMenu: EVRButtonId := 1
  const Grip: EVRButtonId := 2
  const DPadLeft: EVRButtonId := 3
  const DPadUp: EVRButtonId := 4
  const DPadRight: EVRButtonId := 5
  const DPadDown: EVRButtonId := 6
  const A: EVRButtonId := 7
  const Axis0: EVRButtonId := 32
  const Axis1: EVRButtonId := 33

  predicate IsNamed(buttonId: EVRButtonId) {
    buttonId == ApplicationMenu || buttonId == Grip || buttonId == DPadLeft || buttonId == DPadUp
    || buttonId == DPadRight || buttonId == DPadDown || buttonId == A || buttonId == Axis0 || buttonId == Axis1
  }

  /** Source/VRButtonState.cs */
  datatype VRButtonState = Released | Pressed

  /** One analog axis of `VRControllerState_t` (`rAxis0` .. `rAxis4`). */
  datatype VRControllerAxis = VRControllerAxis(x: real, y: real)

  /**
   * The raw controller state blob `VRControllerState_t`, limited to the
   * members the plugin reads: the two button masks and axes 0 and 1.
   */
  datatype RawControllerState = RawControllerState(
    buttonPressed: bv64,
    buttonTouched: bv64,
    axis0: VRControllerAxis,
    axis1: VRControllerAxis)

  /** Bit `n` of `mask`, numbered from the least significant bit. */
  predicate BitSet(mask: bv64, n: bv64)
    requires n < 64
  {
    ((mask >> n) & 1) == 1
  }

  /**
   * The shift count C# uses for `1UL << count`: only the low six bits of
   * the 32-bit `count` are taken (`count & 63`), for negative counts too.
   */
  function ShiftCount(count: bv32): (n: bv64)
    ensures n < 64
  {
    (count & 63) as bv64
  }

  /** `1UL << n`: the mask with only bit `n` set. */
  function OneBit(n: bv64): bv64
    requires n < 64
  {
    (1 as bv64) << n
  }

  /** Masking with a one-bit mask tests exactly that bit. */
  lemma MaskTestsOneBit(mask: bv64, n: bv64)
    requires n < 64
    ensures ((mask & OneBit(n)) != 0) == BitSet(mask, n)
  {
  }

  /** Whether the pressed mask has the bit selected by `buttonId` (its low six bits) set. */
  function GetButtonPressed(state: RawControllerState, buttonId: EVRButtonId): bool {
    (state.buttonPressed & OneBit((buttonId & 63) as bv64)) != 0
  }

  /** Whether the touched mask has the bit selected by `buttonId` (its low six bits) set. */
  function GetButtonTouched(state: RawControllerState, buttonId: EVRButtonId): bool {
    (state.buttonTouched & OneBit((buttonId & 63) as bv64)) != 0
  }

  /** The pressed query is true exactly when the button's bit of the pressed mask is set. */
  lemma PressedIsBitTest(state: RawControllerState, buttonId: EVRButtonId)
    ensures GetButtonPressed(state, buttonId) <==> BitSet(state.buttonPressed, ShiftCount(buttonId))
  {
    var n := ShiftCount(buttonId);
    calc {
      GetButtonPressed(state, buttonId);
      (state.buttonPressed & OneBit(n)) != 0;
      { MaskTestsOneBit(state.buttonPressed, n); }
      BitSet(state.buttonPressed, n);
    }
  }

  /** The touched query is true exactly when the button's bit of the touched mask is set. */
  lemma TouchedIsBitTest(state: RawControllerState, buttonId: EVRButtonId)
    ensures GetButtonTouched(state, buttonId) <==> BitSet(state.buttonTouched, ShiftCount(buttonId))
  {
    var n := ShiftCount(buttonId);
    calc {
      GetButtonTouched(state, buttonId);
      (state.buttonTouched & OneBit(n)) != 0;
      { MaskTestsOneBit(state.buttonTouched, n); }
      BitSet(state.buttonTouched, n);
    }
  }

  /**
   * For ids 0..63 the shift count is the id itself, so both queries test
   * bit `buttonId` of their mask.
   */
  lemma QueriesTestOwnBit(state: RawControllerState, buttonId: EVRButtonId)
    requires buttonId < 64
    ensures GetButtonPressed(state, buttonId) <==> BitSet(state.buttonPressed, buttonId as bv64)
    ensures GetButtonTouched(state, buttonId) <==> BitSet(state.buttonTouched, buttonId as bv64)
  {
    PressedIsBitTest(state, buttonId);
    TouchedIsBitTest(state, buttonId);
  }

  /** `b ? Pressed : Released`, written as the source's early return. */
  function ToButtonState(b: bool): (r: VRButtonState)
    ensures r == Pressed <==> b
    ensures r == Released <==> !b
  {
    if !b then Released else Pressed
  }

  /** The named ids are distinct and below 64, so each tests a bit of its own. */
  lemma NamedIdsDistinct(b: EVRButtonId, c: EVRButtonId)
    requires IsNamed(b) && IsNamed(c)
    ensures b < 64 && ShiftCount(b) == b as bv64
    ensures b != c ==> ShiftCount(b) != ShiftCount(c)
  {
  }

  /** Each query reads only its own mask. */
  lemma QueriesReadOnlyTheirMask(state: RawControllerState, mask: bv64, buttonId: EVRButtonId)
    ensures GetButtonPressed(state.(buttonTouched := mask), buttonId) == GetButtonPressed(state, buttonId)
    ensures GetButtonTouched(state.(buttonPressed := mask), buttonId) == GetButtonTouched(state, buttonId)
  {
  }

  /** Setting or clearing bit `k` changes no other bit. */
  lemma OtherBitUnchanged(mask: bv64, k: bv64, n: bv64)
    requires k < 64 && n < 64 && k != n
    ensures BitSet(mask | OneBit(k), n) == BitSet(mask, n)
    ensures BitSet(mask & !OneBit(k), n) == BitSet(mask, n)
  {
  }

  /**
   * The answer for a button depends on its own bit alone: two pressed masks
   * that agree on that bit give the same answer. With `OtherBitUnchanged`,
   * setting or clearing any other bit leaves the answer as it was.
   */
  lemma PressedDependsOnlyOnOwnBit(state: RawControllerState, mask: bv64, buttonId: EVRButtonId)
    requires BitSet(mask, ShiftCount(buttonId)) == BitSet(state.buttonPressed, ShiftCount(buttonId))
    ensures GetButtonPressed(state.(buttonPressed := mask), buttonId) == GetButtonPressed(state, buttonId)
  {
  }

  /** The touched-mask counterpart of `PressedDependsOnlyOnOwnBit`. */
  lemma TouchedDependsOnlyOnOwnBit(state: RawControllerState, mask: bv64, buttonId: EVRButtonId)
    requires BitSet(mask, ShiftCount(buttonId)) == BitSet(state.buttonTouched, ShiftCount(buttonId))
    ensures GetButtonTouched(state.(buttonTouched := mask), buttonId) == GetButtonTouched(state, buttonId)
  {
  }

  /** Bit `n` itself follows a set or a clear of bit `n`. */
  lemma OwnBitFollows(mask: bv64, n: bv64)
    requires n < 64
    ensures BitSet(mask | OneBit(n), n)
    ensures !BitSet(mask & !OneBit(n), n)
  {
  }

  /** Setting a button's own bit makes it pressed; clearing it makes it released. */
  lemma OwnBitDecides(state: RawControllerState, buttonId: EVRButtonId)
    ensures var n := ShiftCount(buttonId);
      && GetButtonPressed(state.(buttonPressed := state.buttonPressed | OneBit(n)), buttonId)
      && !GetButtonPressed(state.(buttonPressed := state.buttonPressed & !OneBit(n)), buttonId)
      && GetButtonTouched(state.(buttonTouched := state.buttonTouched | OneBit(n)), buttonId)
      && !GetButtonTouched(state.(buttonTouched := state.buttonTouched & !OneBit(n)), buttonId)
  {
    var n := ShiftCount(buttonId);
    OwnBitFollows(state.buttonPressed, n);
    OwnBitFollows(state.buttonTouched, n);
  }

  /** All-zero masks report every button released and untouched. */
  lemma ZeroMasksReportNothing(state: RawControllerState, buttonId: EVRButtonId)
    requires state.buttonPressed == 0 && state.buttonTouched == 0
    ensures !GetButtonPressed(state, buttonId) && !GetButtonTouched(state, buttonId)
  {
  }

  /**
   * An id outside 0..63 is not a test of its own bit: the shift count wraps,
   * so ids n and n + 64 (32-bit wrap-around included) test the same bit, and
   * id -1 tests bit 63.
   */
  lemma ShiftCountWraps(state: RawControllerState, n: EVRButtonId)
    ensures GetButtonPressed(state, n + 64) == GetButtonPressed(state, n)
    ensures GetButtonTouched(state, n + 64) == GetButtonTouched(state, n)
    ensures GetButtonPressed(state, 0xFFFF_FFFF) == GetButtonPressed(state, 63)
  {
  }
}
