# FlaxVR core, modelled in Dafny

FlaxVR is an OpenVR plugin for the Flax engine, written in C#. This project models the plugin's decision logic and state updates in Dafny and proves properties of them. The engine's numerics, the native OpenVR runtime and the GPU plumbing are left out.

| file | module | models |
|---|---|---|
| `wrappers.dfy` | `Wrappers` | `Option`, `Result`, `Outcome`; a thrown exception becomes a failure value |
| `engine_math.dfy` | `EngineMath` | engine vectors, quaternions, 4x4 matrices and `Transform`. The engine library calls (`Invert`, `Multiply`, `Decompose`, `PerspectiveOffCenter`, `Vector3.Transform`, `LookAt`) are function values in an `Engine` record, so every result holds for any implementation of them |
| `openvr_extensions.dfy` | `OpenVRExtensions` | the bit tests on the 64-bit pressed and touched masks; `ToButtonState` |
| `controller_state.dfy` | `ControllerStates` | the controller record and its in-place `Update` |
| `hmd_pose_state.dfy` | `HmdPoses` | the read-only pose snapshot, its eye accessors and `CreateView` |
| `openvr_context.dfy` | `OpenVRContexts` | matrix conversion, device name, projection bounds, frame submission, constructor checks, pose read-out and the context object |
| `vr_camera.dfy` | `Cameras` | clip-plane setters, the pose/frame handshake, the context life cycle |
| `vr_controller.dfy` | `Controllers` | `VRController.UpdateState` and `IsConnected` |
| `vr_tracking_reference.dfy` | `TrackingReferences` | `VRTrackingReference.Update` |
| `actor_extensions.dfy` | `ActorExtensions` | `GetScriptsRecursive` over an actor tree, as written and corrected |

Modelling choices:
- **Numbers.**
  - Single-precision floats are `real`.
  - The button masks are `bv64`.
  - `EVRButtonId` is a `bv32`, since a C# enum can hold any 32-bit value. Its named values are those of `openvr.h`.
  - C# takes `1UL << n` modulo 64, so a query tests bit `id & 63`. The model keeps that wrap-around (`ShiftCountWraps`); it does not require `id < 64`.
- **Native OpenVR and engine inputs.**
  - The native OpenVR answers form a `Runtime` record held by the context.
  - Per-frame answers are method parameters: the head-set pose from `WaitGetPoses`, the compositor's result for each `Submit`, and the renderer type.
- **Objects that change in place are classes.** `VRControllerState`, `OpenVRContext`, `VRCamera`, `VRController`, `VRTrackingReference` and the shared script list are classes. Their methods assign fields in the source's order.
- **Values.** `HmdPoseState` is an immutable datatype. Its constructor is the datatype constructor, so each argument lands in its same-named field and nothing can change it afterwards.
- **The camera's context.** The camera uses its context only through the abstract `VRContext` interface. The model therefore records the calls the camera makes on it in a ghost log. The camera's invariant, `Valid`, says every call in the log was allowed:
  - a call other than `Initialize` needs an open context;
  - a `SubmitFrame` also needs a `WaitForPoses` that no frame has been submitted for yet.

  `CameraCallBounds` follows from this invariant: over the camera's life there is at most one frame per pose wait and at most one dispose per context.
- **Device name.** The fallback device name is `"<Unknown OpenVR Device>"` (Source/OpenVR/OpenVRContext.cs:73).

Observations, not claimed as defects:
- `Start` initialises the context with the default clip planes 0.1 and 20000, not the camera's stored `_zNear`/`_zFar`. The stored planes take effect only after a setter changes one of them.
- `OnDestroy` drops the context but leaves `_hasNewPoses` raised. A render callback after that reads the render targets of a null context, and `OnRender` returns `NullReference`. In the source the render task is disposed in the same `OnDestroy`.

## Model

| member | source | states |
|---|---|---|
| OpenVRExtensions.GetButtonPressed | Source/OpenVR/OpenVRExtensions.cs:19 | the pressed query; `PressedIsBitTest` states that it tests the bit selected by the id's low six bits |
| OpenVRExtensions.GetButtonTouched | Source/OpenVR/OpenVRExtensions.cs:27 | the touched query; `TouchedIsBitTest` states that it tests the bit selected by the id's low six bits |
| OpenVRExtensions.ShiftCount | Source/OpenVR/OpenVRExtensions.cs:19 | the shift count of `1UL << id` is below 64 (the low six bits of the id) |
| OpenVRExtensions.MaskTestsOneBit | Source/OpenVR/OpenVRExtensions.cs:19 | `mask & (1 << n)` is non-zero exactly when bit n of the mask is set |
| OpenVRExtensions.PressedIsBitTest | Source/OpenVR/OpenVRExtensions.cs:19 | `GetButtonPressed` is true exactly when the id's bit of the pressed mask is set |
| OpenVRExtensions.TouchedIsBitTest | Source/OpenVR/OpenVRExtensions.cs:27 | `GetButtonTouched` is true exactly when the id's bit of the touched mask is set |
| OpenVRExtensions.QueriesTestOwnBit | Source/OpenVR/OpenVRExtensions.cs:19-27 | for ids 0..63 both queries test bit `id` itself |
| OpenVRExtensions.ToButtonState | Source/OpenVR/OpenVRExtensions.cs:35-40 | the result is Pressed exactly when the input is true, and Released exactly when it is false |
| OpenVRExtensions.NamedIdsDistinct | Source/VRControllerState.cs:91-107 | the nine named button ids are below 64 and select pairwise different bits |
| OpenVRExtensions.QueriesReadOnlyTheirMask | Source/OpenVR/OpenVRExtensions.cs:19-27 | changing the touched mask never changes a pressed query, and vice versa |
| OpenVRExtensions.OtherBitUnchanged | Source/OpenVR/OpenVRExtensions.cs:19 | setting or clearing bit k leaves every other bit as it was |
| OpenVRExtensions.PressedDependsOnlyOnOwnBit | Source/OpenVR/OpenVRExtensions.cs:19 | two pressed masks that agree on the id's bit give the same answer |
| OpenVRExtensions.TouchedDependsOnlyOnOwnBit | Source/OpenVR/OpenVRExtensions.cs:27 | two touched masks that agree on the id's bit give the same answer |
| OpenVRExtensions.OwnBitFollows | Source/OpenVR/OpenVRExtensions.cs:19 | bit n is set after setting it and clear after clearing it |
| OpenVRExtensions.OwnBitDecides | Source/OpenVR/OpenVRExtensions.cs:19-27 | setting the id's bit makes the button pressed or touched; clearing it makes it released or untouched |
| OpenVRExtensions.ZeroMasksReportNothing | Source/OpenVR/OpenVRExtensions.cs:19-27 | all-zero masks report every id as neither pressed nor touched |
| OpenVRExtensions.ShiftCountWraps | Source/OpenVR/OpenVRExtensions.cs:19-27 | ids n and n + 64 test the same bit, and id -1 tests bit 63: beyond 0..63 a query is not a test of the id's own bit |
| ControllerStates.Decode | Source/VRControllerState.cs:84-107 | after an update the record is connected, has the given role and pose, and holds the analog values copied unclamped. `DecodedButtonsFollowMasks` states what the button fields hold |
| ControllerStates.DecodedButtonsFollowMasks | Source/VRControllerState.cs:91-107 | the trackpad touch follows the Axis0 bit of the touched mask; each of the nine buttons is Pressed exactly when its own id's bit of the pressed mask is set |
| ControllerStates.DecodeReportsEachButton | Source/VRControllerState.cs:92-107 | for every named button, its field is Pressed exactly when its bit is set |
| ControllerStates.DecodeButtonsIndependent | Source/VRControllerState.cs:92-107 | changing any other bit of the pressed mask leaves a button's field unchanged |
| ControllerStates.TriggerOnlyDecode | Source/VRControllerState.cs:92-107 | with only the Axis1 bit pressed, the trigger is Pressed and every other button is Released |
| ControllerStates.VRControllerState.constructor | Source/VRControllerState.cs:8-74 | a new record has every field at its C# default |
| ControllerStates.VRControllerState.Update | Source/VRControllerState.cs:82-108 | every field is overwritten, and the new state is `Decode` of the arguments alone. So the previous state is irrelevant and a repeated call changes nothing |
| HmdPoses.HmdPoseState.GetEyePosition | Source/HmdPoseState.cs:30-38 | Left gives the left position, Right the right one; every other eye value fails with an invalid-eye error |
| HmdPoses.HmdPoseState.GetEyeRotation | Source/HmdPoseState.cs:40-48 | Left gives the left rotation, Right the right one; every other eye value fails with an invalid-eye error |
| HmdPoses.HmdPoseState.CreateView | Source/HmdPoseState.cs:50-57 | the view fails exactly for an invalid eye, with that eye's error |
| HmdPoses.AccessorsAgreeOnValidity | Source/HmdPoseState.cs:30-48 | the position and rotation accessors accept the same eyes |
| HmdPoses.InvalidEyeFailsBeforeMath | Source/HmdPoseState.cs:50-53 | for an invalid eye, the view fails the same way whatever the engine and vectors: it fails before any vector math |
| HmdPoses.ViewUsesOnlyItsEye | Source/HmdPoseState.cs:50-57 | an eye's view depends only on that eye's position and rotation |
| HmdPoses.ViewLooksAlongRotatedForward | Source/HmdPoseState.cs:50-57 | a valid eye's view looks from the offset eye position along the rotated forward vector, with the rotated up vector |
| OpenVRContexts.ToSysMatrix34 | Source/OpenVR/OpenVRContext.cs:210-218 | the engine matrix is the transpose of the OpenVR 3x4 transform. An entry is negated exactly when one, not both, of its indices is z. The last column is (0,0,0,1) |
| OpenVRContexts.FromSysMatrix34Recovers | Source/OpenVR/OpenVRContext.cs:213-217 | every entry of the OpenVR transform can be read back from the engine matrix |
| OpenVRContexts.FromSysMatrix34 | Source/OpenVR/OpenVRContext.cs:210-218 | the inverse of the 3x4 conversion; `FromSysMatrix34Recovers` states that it reads every entry back |
| OpenVRContexts.ToSysMatrix34Injective | Source/OpenVR/OpenVRContext.cs:213-217 | distinct OpenVR transforms give distinct engine matrices |
| OpenVRContexts.ToSysMatrix34Onto | Source/OpenVR/OpenVRContext.cs:213-217 | every engine matrix with last column (0,0,0,1) is the conversion of a transform |
| OpenVRContexts.ToSysMatrix44 | Source/OpenVR/OpenVRContext.cs:220-228 | the engine matrix is the plain transpose of the OpenVR 4x4 matrix, with no sign change |
| OpenVRContexts.ToSysMatrix44Involution | Source/OpenVR/OpenVRContext.cs:220-228 | converting twice gives back the original matrix |
| OpenVRContexts.ResolveDeviceName | Source/OpenVR/OpenVRContext.cs:64-75 | the name is the property's value on success and `"<Unknown OpenVR Device>"` on any error |
| OpenVRContexts.OffCenterBounds | Source/OpenVR/OpenVRContext.cs:98-111 | the bounds carry the given near and far planes. The horizontal sides are the raw tangents at the near plane; the vertical sides are the negated raw tangents at the near plane |
| OpenVRContexts.OffCenterBoundsOrder | Source/OpenVR/OpenVRContext.cs:98-111 | with a positive near plane, the horizontal order of the raw tangents is kept and the vertical order is reversed |
| OpenVRContexts.ProjectionFor | Source/OpenVR/OpenVRContext.cs:126-130 | one eye's projection for the given planes, built from `OffCenterBounds`; `ProjectionFromRawTangents` states it in terms of the raw tangents |
| OpenVRContexts.ProjectionFromRawTangents | Source/OpenVR/OpenVRContext.cs:126-130 | an eye's projection is the engine's off-center perspective over its raw tangents times the near plane, vertical ones negated, with the given planes |
| OpenVRContexts.OpenCheck | Source/OpenVR/OpenVRContext.cs:29-41 | an init error fails first, whatever the compositor. Without an init error, construction fails exactly when the compositor is missing |
| OpenVRContexts.SubmitTexture | Source/OpenVR/OpenVRContext.cs:138-181 | only DirectX 10, 10.1 and 11 reach the compositor. A missing render target fails. The whole texture, [0,1]x[0,1], is submitted as a gamma DirectX texture. A compositor error fails |
| OpenVRContexts.EyeInMetres | Source/OpenVR/OpenVRContext.cs:188-197 | an eye's pose is the decomposition of the inverted view (absolute-to-device times head-to-eye); `PosesFrom` states how it is used |
| OpenVRContexts.PosesFrom | Source/OpenVR/OpenVRContext.cs:182-208 | the stored projections are returned unchanged. Eye positions are the decomposed translations times 100; rotations are not scaled |
| OpenVRContexts.OpenVRContext.constructor | Source/OpenVR/OpenVRContext.cs:29-41 | a new context has no name and no render targets, and a one-slot pose buffer |
| OpenVRContexts.OpenVRContext.Create | Source/OpenVR/OpenVRContext.cs:29-41 | construction fails exactly as `OpenCheck` says, with its error. Otherwise it yields a new context holding the given options, runtime and engine, with no name, no render targets and nothing disposed |
| OpenVRContexts.OpenVRContext.Initialize | Source/OpenVR/OpenVRContext.cs:62-112 | it stores the resolved name, two render targets of the recommended size and the inverted eye-to-head transforms. It builds the projections `UpdateProjectionMatrices(0.1, 20000)` would build |
| OpenVRContexts.OpenVRContext.UpdateProjectionMatrices | Source/OpenVR/OpenVRContext.cs:114-131 | both projections are rebuilt for the given planes, and nothing else changes |
| OpenVRContexts.OpenVRContext.SubmitFrame | Source/OpenVR/OpenVRContext.cs:133-137 | left is submitted, then right, each with its own eye's render target. A failed left submission is the frame's result, calls and error alike, and the right eye is not submitted. Otherwise the frame makes both calls and ends as the right submission does. The frame succeeds exactly when both eyes do |
| OpenVRContexts.OpenVRContext.WaitForPoses | Source/OpenVR/OpenVRContext.cs:182-208 | the pose is written into slot 0 of the one-slot buffer, and the poses are read from that slot |
| OpenVRContexts.OpenVRContext.Dispose | Source/OpenVR/OpenVRContext.cs:55-60 | left target, right target, then shutdown. A missing target fails there, and the later steps do not happen |
| Cameras.SubmitsFollowWaits | Source/VRCamera.cs:120-147 | over any admissible call log there are no more frame submissions than pose waits |
| Cameras.DisposesFollowInitializes | Source/VRCamera.cs:168-174 | over any admissible call log there are no more disposals than initialisations |
| Cameras.CameraCallBounds | Source/VRCamera.cs:62-174 | a valid camera has submitted at most one frame per pose wait and disposed each context at most once |
| Cameras.VRCamera.constructor | Source/VRCamera.cs:23-32 | a loaded camera has its serialized planes, no context and no pending poses |
| Cameras.VRCamera.SetZNear | Source/VRCamera.cs:34-46 | the value is stored. The projections are rebuilt with the new near and current far plane only on a change and with a context. There is no range check |
| Cameras.VRCamera.SetZFar | Source/VRCamera.cs:48-60 | the value is stored. The projections are rebuilt with the current near and new far plane only on a change and with a context |
| Cameras.VRCamera.Start | Source/VRCamera.cs:102-115 | it fails when OpenVR is unsupported or the context cannot be opened, leaving the camera as it was. Otherwise it holds an initialised context |
| Cameras.VRCamera.Update | Source/VRCamera.cs:62-94 | with a context it waits for poses and raises the flag; without one it changes nothing |
| Cameras.VRCamera.OnRender | Source/VRCamera.cs:120-147 | without the flag it does nothing. Otherwise it lowers the flag and submits exactly when both render targets exist |
| Cameras.VRCamera.OnDestroy | Source/VRCamera.cs:168-174 | an existing context is disposed once and dropped |
| Controllers.VRController.constructor | Source/VRController.cs:7-12 | a new controller script has the given role, index and transform, and no record yet |
| Controllers.VRController.IsConnected | Source/VRController.cs:15 | the current record's connected flag; a null record fails |
| Controllers.VRController.UpdateState | Source/VRController.cs:17-29 | the record is always replaced. A disconnected record leaves the transform alone. A connected one sets translation and orientation from its pose and keeps the scale |
| TrackingReferences.VRTrackingReference.constructor | Source/VRTrackingReference.cs:13-31 | a new reference is disconnected, at the origin |
| TrackingReferences.VRTrackingReference.Update | Source/VRTrackingReference.cs:36-41 | after an update the reference is connected, with exactly the given position and orientation |
| ActorExtensions.Collect | Source/ActorExtensions.cs:17-20 | the list contents the search leaves from given prior contents; `CollectKeepsPrior`, `CollectElements` and `DuplicationWitness` state what they are |
| ActorExtensions.CollectChildren | Source/ActorExtensions.cs:19-20 | the list contents after the first n children, each followed by the self-append; `CollectChildrenDoubles` states the doubling |
| ActorExtensions.GetScriptsRecursive | Source/ActorExtensions.cs:12-23 | a null list is replaced by a new one, and the list appended into is the one returned. Its contents are `Collect` of the actor from the list's prior contents |
| ActorExtensions.CollectKeepsPrior | Source/ActorExtensions.cs:17-20 | the prior contents, then the actor's own scripts, stay in front: the search only appends |
| ActorExtensions.CollectChildrenKeepsStart | Source/ActorExtensions.cs:19-20 | searching children only appends to the list |
| ActorExtensions.CollectLeaf | Source/ActorExtensions.cs:14-22 | for an actor without children, the result is the prior contents followed by its scripts |
| ActorExtensions.CollectElements | Source/ActorExtensions.cs:17-20 | the result contains exactly the scripts of the prior contents, the actor and all its descendants |
| ActorExtensions.CollectChildrenElements | Source/ActorExtensions.cs:19-20 | after n children the list holds exactly the start contents and those children's scripts |
| ActorExtensions.CollectChildrenDoubles | Source/ActorExtensions.cs:20 | after n children the list is at least 2^n times as long as before them |
| ActorExtensions.DuplicationWitness | Source/ActorExtensions.cs:20 | an actor with script x and one child with script y yields [x, y, x, y], while its preorder is [x, y] |
| ActorExtensions.GetScriptsRecursiveFixed | Source/ActorExtensions.cs:12-23 | without the self-append, the result is the prior contents followed by each script once, in preorder |

## Left out

- Floating point: single-precision floats are exact reals. There is no rounding and no NaN, so `_zNear != value` never meets NaN. The constant `0.1f` is the real 0.1.
- Engine library calls: `Matrix.Invert`, `Multiply`, `Decompose`, `PerspectiveOffCenter`, `LookAt` and `Vector3.Transform` are uninterpreted function values. No property of their numerics is claimed.
- Native OpenVR calls are inputs only; their implementations are outside the plugin:
  - `Init`, `OVR.Compositor`, the tracking-system-name property, `GetRecommendedRenderTargetSize`, `GetEyeToHeadTransform` and `GetProjectionRaw` are fields of `Runtime`;
  - the pose `WaitGetPoses` writes, and the result of each `Submit`, are parameters;
  - `Shutdown` is a flag.
- The error returned by `WaitGetPoses`: the source ignores it, and the model has no counterpart.
- The 512-character `StringBuilder` used for the device name: the model takes the name the runtime returns as it is.
- `OpenVRContext.IsSupported` wraps a native probe; in `Start` its answer is the parameter `supported`.
- GPU plumbing is not modelled: `RenderTarget.New`/`Init` (whose result the source ignores), `RenderBuffers`, `DrawScene`, render views, the UI canvas, the mirror blitter, `UpdateMRT`, `MainRenderTask` and the render-task life cycle. Render targets are values carrying their size and sample count; their disposal is a flag on the context.
- Cameras.VRCamera.Update: records the pose wait and the flag only. The eye views and projections it hands to the render views are not modelled.
- Cameras.VRCamera.Start: does not model the options (`MSAALevel.X4`) it passes to the new context.
- Cameras.VRCamera.OnDestroy: assumes the context's `Dispose` returns normally. Its failure on a missing render target is modelled in `OpenVRContexts.OpenVRContext.Dispose`.
- The camera's context is observed only through the calls made on it. The camera model does not hold an `OpenVRContext` object.
- VRPose.cs and VREye.cs are not part of this model:
  - a pose keeps only `DevicePosition` and `DeviceRotation`;
  - `VREye` has Left, Right and an explicit case for every other value, without numeric codes. `OtherEye(v)` stands for a value other than the two named eyes, whatever `v` is.
- Per-frame device reconciliation (`UpdateDevices`, `Controllers`, the controller indices in Source/VRContext.cs:19-26) is declared but never implemented, so there is nothing to model.
- `VRControllerState_t` keeps only the two masks and axes 0 and 1. The other axes and the packet number are never read.
- `GetScripts<T>`'s type filter: an actor's `scripts` are already those of the requested type.
- `VRController.ControllerIndex` and `Role` are stored but play no part in `UpdateState`.

## Findings

| source | as written | input that shows it | evidently intended | confidence | as-written member | corrected member |
|---|---|---|---|---|---|---|
| Source/ActorExtensions.cs:20 | after searching a child into the shared list, the list returned (the same list) is appended to itself, so the contents gathered so far double once per child | an actor with script x and one child actor with script y, searched with no list: the result is [x, y, x, y] | every script once, actor first and children in order: [x, y] | high; not executed | ActorExtensions.DuplicationWitness | ActorExtensions.GetScriptsRecursiveFixed |
