/**
 * The OpenVR back end (Source/OpenVR/OpenVRContext.cs): conversion of
 * OpenVR matrices to engine matrices, the device-name fallback, the
 * off-center projection bounds, frame submission and its error handling,
 * the constructor's fail-fast checks, and the pose read-out of
 * `WaitForPoses`. Answers of the native OpenVR runtime are a `Runtime`
 * record or method parameters; engine library calls come from an `Engine`.
 */
module OpenVRContexts {
  import opened Wrappers
  import opened EngineMath
  import opened HmdPoses

  /** `HmdMatrix34_t`: three rows of four, members m0 .. m11 row by row. */
  type HmdMatrix34 = m: seq<real> | |m| == 12
    witness [0.0, 0.0, 0.0, 0.0, 0.0, 0.0, 0.0, 0.0, 0.0, 0.0, 0.0, 0.0]

  /** `HmdMatrix44_t`: four rows of four, members m0 .. m15 row by row. */
  type HmdMatrix44 = m: seq<real> | |m| == 16
    witness [0.0, 0.0, 0.0, 0.0, 0.0, 0.0, 0.0, 0.0, 0.0, 0.0, 0.0, 0.0, 0.0, 0.0, 0.0, 0.0]

  /** OpenVR's `EVREye`. */
  datatype Eye = EyeLeft | EyeRight

  /** `EVRInitError`: `None` or some failure code. */
  datatype InitError = InitNone | InitFailure(code: int)

  /** `ETrackedPropertyError`: `TrackedProp_Success` or some failure code. */
  datatype TrackedPropertyError = PropertySuccess | PropertyFailure(code: int)

  /** `EVRCompositorError`: `None` or some failure code. */
  datatype CompositorError = CompositorNone | CompositorFailure(code: int)

  /**
   * What `GetProjectionRaw` reports for one eye: the tangents of the angles
   * from the eye axis to the left, right, top and bottom clipping planes.
   */
  datatype RawProjection = RawProjection(left: real, right: real, top: real, bottom: real)

  /** The engine's active graphics back end (`GraphicsDevice.RendererType`). */
  datatype RendererType = DirectX10 | DirectX10_1 | DirectX11 | DirectX12 | Vulkan | OtherRenderer(code: int)

  /** An eye render target, as allocated and sized by `Initialize`. */
  datatype RenderTarget = RenderTarget(width: nat, height: nat, sampleCount: nat)

  /** `EColorSpace` and `ETextureType`, limited to the values the plugin uses. */
  datatype ColorSpace = Gamma
  datatype TextureType = DirectXTexture

  /** `Texture_t`: the native texture of a render target and how to read it. */
  datatype Texture = Texture(handle: RenderTarget, colorSpace: ColorSpace, textureType: TextureType)

  /** `VRTextureBounds_t`: the part of the texture to show, in UV coordinates. */
  datatype TextureBounds = TextureBounds(uMin: real, uMax: real, vMin: real, vMax: real)

  /** The whole texture, [0,1] x [0,1]. */
  const FullBounds := TextureBounds(0.0, 1.0, 0.0, 1.0)

  /** One call of the compositor's `Submit`. */
  datatype CompositorSubmit = CompositorSubmit(eye: Eye, texture: Texture, bounds: TextureBounds)

  /** The exceptions the context throws. */
  datatype ContextError =
    | InitFailed(initError: InitError)
    | CompositorUnavailable
    | RendererNotSupported(renderer: RendererType)
    | SubmitFailed(compositorError: CompositorError)
    | NullReference

  /** `VRContextOptions`: the MSAA level of the eye render targets. */
  datatype VRContextOptions = VRContextOptions(eyeRenderTargetSampleCount: nat)

  /**
   * The answers of the native OpenVR runtime the context asks for: the
   * result of `Init`, whether a compositor is available, the tracking
   * system name property, the recommended render target size, and the
   * per-eye transforms and raw projections.
   */
  datatype Runtime = Runtime(
    initError: InitError,
    compositorPresent: bool,
    nameError: TrackedPropertyError,
    nameValue: string,
    recommendedWidth: nat,
    recommendedHeight: nat,
    eyeToHead: Eye -> HmdMatrix34,
    projectionRaw: Eye -> RawProjection)

  /** `TrackedDevicePose_t`, limited to the member the plugin reads. */
  datatype TrackedDevicePose = TrackedDevicePose(deviceToAbsoluteTracking: HmdMatrix34)

  /** `k_unTrackedDeviceIndex_Hmd`: the head set is always device 0. */
  const HmdDeviceIndex: nat := 0

  /** The clip planes `Initialize` builds its projections with. */
  const DefaultZNear: real := 0.1
  const DefaultZFar: real := 20000.0

  /** The name reported when the runtime cannot tell the tracking system's name. */
  const UnknownDeviceName := "<Unknown OpenVR Device>"

  /** How many engine units (centimetres) make one OpenVR unit (metre). */
  const CentimetresPerMetre: real := 100.0

  // ---------------------------------------------------------------------
  // Matrix conversion
  // ---------------------------------------------------------------------

  /**
   * Converts an OpenVR 3x4 transform to an engine matrix, switching from a
   * right-handed to a left-handed frame. The engine matrix is the transpose
   * (OpenVR keeps the translation in the last column, the engine in the
   * last row), with an entry negated exactly when one of its two indices,
   * but not both, is the z axis; the last column is (0, 0, 0, 1).
   */
  function ToSysMatrix34(h: HmdMatrix34): (r: Matrix)
    ensures forall row: nat, col: nat :: row < 4 && col < 3 ==>
      At(r, row, col) == (if (row == 2) != (col == 2) then -h[4 * col + row] else h[4 * col + row])
    ensures At(r, 0, 3) == 0.0 && At(r, 1, 3) == 0.0 && At(r, 2, 3) == 0.0 && At(r, 3, 3) == 1.0
  {
    [ h[0],  h[4], -h[8],  0.0,
      h[1],  h[5], -h[9],  0.0,
     -h[2], -h[6],  h[10], 0.0,
      h[3],  h[7], -h[11], 1.0]
  }

  /** The OpenVR transform an engine matrix came from: the inverse of `ToSysMatrix34`. */
  function FromSysMatrix34(m: Matrix): HmdMatrix34 {
    [ m[0],  m[4], -m[8],  m[12],
      m[1],  m[5], -m[9],  m[13],
     -m[2], -m[6],  m[10], -m[14]]
  }

  /** Every entry of the OpenVR transform survives the conversion: it can be read back. */
  lemma FromSysMatrix34Recovers(h: HmdMatrix34)
    ensures FromSysMatrix34(ToSysMatrix34(h)) == h
  {
    var r := FromSysMatrix34(ToSysMatrix34(h));
    forall i | 0 <= i < 12
      ensures r[i] == h[i]
    {
    }
  }

  /** Hence the conversion is injective: distinct OpenVR transforms give distinct engine matrices. */
  lemma ToSysMatrix34Injective(a: HmdMatrix34, b: HmdMatrix34)
    ensures ToSysMatrix34(a) == ToSysMatrix34(b) ==> a == b
  {
    FromSysMatrix34Recovers(a);
    FromSysMatrix34Recovers(b);
  }

  /**
   * And every engine matrix whose last column is (0, 0, 0, 1) is the
   * conversion of exactly one OpenVR transform.
   */
  lemma ToSysMatrix34Onto(m: Matrix)
    requires At(m, 0, 3) == 0.0 && At(m, 1, 3) == 0.0 && At(m, 2, 3) == 0.0 && At(m, 3, 3) == 1.0
    ensures ToSysMatrix34(FromSysMatrix34(m)) == m
  {
    var r := ToSysMatrix34(FromSysMatrix34(m));
    forall i | 0 <= i < 16
      ensures r[i] == m[i]
    {
      assert At(m, i / 4, i % 4) == m[i];
    }
  }

  /**
   * Converts an OpenVR 4x4 matrix to an engine matrix by transposing it,
   * with no change of sign.
   */
  function ToSysMatrix44(h: HmdMatrix44): (r: Matrix)
    ensures forall row: nat, col: nat :: row < 4 && col < 4 ==> At(r, row, col) == h[4 * col + row]
  {
    [h[0], h[4], h[8],  h[12],
     h[1], h[5], h[9],  h[13],
     h[2], h[6], h[10], h[14],
     h[3], h[7], h[11], h[15]]
  }

  /** Being a transpose, the 4x4 conversion undoes itself. */
  lemma ToSysMatrix44Involution(h: HmdMatrix44)
    ensures ToSysMatrix44(ToSysMatrix44(h)) == h
  {
    var r := ToSysMatrix44(ToSysMatrix44(h));
    forall i | 0 <= i < 16
      ensures r[i] == h[i]
    {
    }
  }

  // ---------------------------------------------------------------------
  // Device name, projections and construction
  // ---------------------------------------------------------------------

  /** The device name `Initialize` stores: the property's value, or a fixed name on any error. */
  function ResolveDeviceName(error: TrackedPropertyError, value: string): (name: string)
    ensures error.PropertySuccess? ==> name == value
    ensures error.PropertyFailure? ==> name == UnknownDeviceName
  {
    if error != PropertySuccess then UnknownDeviceName else value
  }

  /** The arguments of an off-center perspective: the four sides at the near plane, and both planes. */
  datatype FrustumBounds = FrustumBounds(left: real, right: real, bottom: real, top: real, zNear: real, zFar: real)

  /**
   * The bounds a projection is built from: each raw tangent scaled to the
   * near plane, with the vertical sides negated because OpenVR's raw
   * tangents grow downwards while the engine's bounds grow upwards.
   */
  function OffCenterBounds(raw: RawProjection, zNear: real, zFar: real): (b: FrustumBounds)
    ensures b.zNear == zNear && b.zFar == zFar
    ensures b.left == raw.left * zNear && b.right == raw.right * zNear
    ensures b.bottom == -(raw.bottom * zNear) && b.top == -(raw.top * zNear)
  {
    FrustumBounds(raw.left * zNear, raw.right * zNear, raw.bottom * zNear * -1.0, raw.top * zNear * -1.0, zNear, zFar)
  }

  /**
   * With a near plane in front of the eye, the bounds keep the horizontal
   * order of the raw tangents and reverse the vertical one: a frustum whose
   * raw left lies left of its raw right, and whose raw top lies above its
   * raw bottom, gets left <= right and bottom <= top.
   */
  lemma OffCenterBoundsOrder(raw: RawProjection, zNear: real, zFar: real)
    requires zNear > 0.0
    ensures var b := OffCenterBounds(raw, zNear, zFar);
      && (b.left <= b.right <==> raw.left <= raw.right)
      && (b.bottom <= b.top <==> raw.top <= raw.bottom)
  {
    var b := OffCenterBounds(raw, zNear, zFar);
    ScaleKeepsOrder(raw.left, raw.right, zNear);
    ScaleKeepsOrder(raw.top, raw.bottom, zNear);
    assert b.bottom <= b.top <==> raw.top * zNear <= raw.bottom * zNear;
  }

  /** Multiplying by a positive number keeps the order of two reals. */
  lemma ScaleKeepsOrder(x: real, y: real, k: real)
    requires k > 0.0
    ensures x * k <= y * k <==> x <= y
  {
    if x <= y {
      assert (y - x) * k >= 0.0;
    } else {
      assert (x - y) * k > 0.0;
    }
  }

  /** The projection matrix of one eye for the given clip planes. */
  function ProjectionFor(engine: Engine, raw: RawProjection, zNear: real, zFar: real): Matrix {
    var b := OffCenterBounds(raw, zNear, zFar);
    engine.perspectiveOffCenter(b.left, b.right, b.bottom, b.top, b.zNear, b.zFar)
  }

  /**
   * An eye's projection is the engine's off-center perspective over its raw
   * tangents scaled to the near plane, the vertical ones negated.
   */
  lemma ProjectionFromRawTangents(engine: Engine, raw: RawProjection, zNear: real, zFar: real)
    ensures ProjectionFor(engine, raw, zNear, zFar)
      == engine.perspectiveOffCenter(raw.left * zNear, raw.right * zNear,
                                     -(raw.bottom * zNear), -(raw.top * zNear), zNear, zFar)
  {
    var b := OffCenterBounds(raw, zNear, zFar);
    assert (b.left, b.right, b.bottom, b.top, b.zNear, b.zFar)
      == (raw.left * zNear, raw.right * zNear, -(raw.bottom * zNear), -(raw.top * zNear), zNear, zFar);
  }

  /**
   * The checks of the constructor, in order: an `Init` error fails first
   * (the compositor is not looked at), then a missing compositor.
   */
  function OpenCheck(initError: InitError, compositorPresent: bool): (r: Outcome<ContextError>)
    ensures initError.InitFailure? ==> r == Fail(InitFailed(initError))
    ensures initError.InitNone? ==> (r.Pass? <==> compositorPresent)
    ensures initError.InitNone? && !compositorPresent ==> r == Fail(CompositorUnavailable)
  {
    if initError != InitNone then Fail(InitFailed(initError))
    else if !compositorPresent then Fail(CompositorUnavailable)
    else Pass
  }

  // ---------------------------------------------------------------------
  // Frame submission
  // ---------------------------------------------------------------------

  /** The back ends the plugin can hand textures to the compositor from. */
  predicate IsSupportedRenderer(renderer: RendererType) {
    renderer == DirectX10 || renderer == DirectX10_1 || renderer == DirectX11
  }

  /** The compositor calls made, and how the operation ended. */
  datatype Submission = Submission(calls: seq<CompositorSubmit>, outcome: Outcome<ContextError>)

  /**
   * Submits one eye's render target. An unsupported back end fails before
   * the compositor is called; a missing render target fails when its native
   * pointer is read; otherwise the whole texture is submitted as a gamma
   * DirectX texture, and any compositor error becomes a failure.
   */
  function SubmitTexture(renderer: RendererType, colorTex: Option<RenderTarget>, eye: Eye,
                         compositorResult: CompositorError): (s: Submission)
    ensures s.outcome.Pass? <==> IsSupportedRenderer(renderer) && colorTex.Some? && compositorResult.CompositorNone?
    ensures !IsSupportedRenderer(renderer) ==> s == Submission([], Fail(RendererNotSupported(renderer)))
    ensures IsSupportedRenderer(renderer) && colorTex.None? ==> s == Submission([], Fail(NullReference))
    ensures IsSupportedRenderer(renderer) && colorTex.Some? ==>
      && s.calls == [CompositorSubmit(eye, Texture(colorTex.value, Gamma, DirectXTexture), FullBounds)]
      && (compositorResult.CompositorFailure? ==> s.outcome == Fail(SubmitFailed(compositorResult)))
  {
    if !IsSupportedRenderer(renderer) then
      Submission([], Fail(RendererNotSupported(renderer)))
    else
      match colorTex
      case None => Submission([], Fail(NullReference))
      case Some(rt) =>
        var texT := Texture(rt, Gamma, DirectXTexture);
        var call := CompositorSubmit(eye, texT, FullBounds);
        Submission([call], if compositorResult != CompositorNone then Fail(SubmitFailed(compositorResult)) else Pass)
  }

  // ---------------------------------------------------------------------
  // Poses
  // ---------------------------------------------------------------------

  /** One eye's pose in OpenVR units: the decomposed inverse of its view matrix. */
  function EyeInMetres(engine: Engine, absoluteToDevice: Matrix, headToEye: Matrix): Decomposition {
    engine.decompose(engine.invert(engine.multiply(absoluteToDevice, headToEye)))
  }

  /**
   * The pose snapshot `WaitForPoses` returns for a head-set pose: the
   * stored projections unchanged, each eye's position converted from metres
   * to centimetres and its rotation as decomposed.
   */
  function PosesFrom(engine: Engine, hmdPose: TrackedDevicePose, projLeft: Matrix, projRight: Matrix,
                     headToEyeLeft: Matrix, headToEyeRight: Matrix): (p: HmdPoseState)
    ensures p.leftEyeProjection == projLeft && p.rightEyeProjection == projRight
    ensures var absoluteToDevice := engine.invert(ToSysMatrix34(hmdPose.deviceToAbsoluteTracking));
      var left := EyeInMetres(engine, absoluteToDevice, headToEyeLeft);
      var right := EyeInMetres(engine, absoluteToDevice, headToEyeRight);
      && p.leftEyePosition == Scale(left.translation, CentimetresPerMetre)
      && p.rightEyePosition == Scale(right.translation, CentimetresPerMetre)
      && p.leftEyeRotation == left.rotation
      && p.rightEyeRotation == right.rotation
  {
    var absoluteToDevice := engine.invert(ToSysMatrix34(hmdPose.deviceToAbsoluteTracking));
    var left := EyeInMetres(engine, absoluteToDevice, headToEyeLeft);
    var right := EyeInMetres(engine, absoluteToDevice, headToEyeRight);
    HmdPoseState(projLeft, projRight,
                 Scale(left.translation, CentimetresPerMetre), Scale(right.translation, CentimetresPerMetre),
                 left.rotation, right.rotation)
  }

  // ---------------------------------------------------------------------
  // The context object
  // ---------------------------------------------------------------------

  /** Source/OpenVR/OpenVRContext.cs: an open OpenVR session. */
  class OpenVRContext {
    const options: VRContextOptions
    const runtime: Runtime
    const engine: Engine
    var deviceName: Option<string>
    var leftEyeRT: Option<RenderTarget>
    var rightEyeRT: Option<RenderTarget>
    var projLeft: Matrix
    var projRight: Matrix
    var headToEyeLeft: Matrix
    var headToEyeRight: Matrix
    /** The pose buffer `WaitGetPoses` fills, one slot (the head set). */
    const devicePoses: array<TrackedDevicePose>
    /** Whether `Dispose` has released each render target and shut the runtime down. */
    var leftTargetDisposed: bool
    var rightTargetDisposed: bool
    var shutDown: bool

    ghost predicate Valid()
      reads this
    {
      devicePoses.Length == 1
    }

    /** The field set-up of a context whose constructor checks passed. */
    constructor (options: VRContextOptions, runtime: Runtime, engine: Engine)
      requires OpenCheck(runtime.initError, runtime.compositorPresent).Pass?
      ensures Valid()
      ensures this.options == options && this.runtime == runtime && this.engine == engine
      ensures deviceName.None? && leftEyeRT.None? && rightEyeRT.None?
      ensures !leftTargetDisposed && !rightTargetDisposed && !shutDown
      ensures fresh(devicePoses)
    {
      this.options := options;
      this.runtime := runtime;
      this.engine := engine;
      deviceName, leftEyeRT, rightEyeRT := None, None, None;
      projLeft, projRight, headToEyeLeft, headToEyeRight := ZeroMatrix, ZeroMatrix, ZeroMatrix, ZeroMatrix;
      devicePoses := new TrackedDevicePose[1](_ => TrackedDevicePose([0.0, 0.0, 0.0, 0.0, 0.0, 0.0, 0.0, 0.0, 0.0, 0.0, 0.0, 0.0]));
      leftTargetDisposed, rightTargetDisposed, shutDown := false, false, false;
    }

    /**
     * `new OpenVRContext(options)`: fails with the first failed check, and
     * otherwise yields a new context over the runtime.
     */
    static method Create(options: VRContextOptions, runtime: Runtime, engine: Engine)
      returns (r: Result<OpenVRContext, ContextError>)
      ensures r.Failure? <==> OpenCheck(runtime.initError, runtime.compositorPresent).Fail?
      ensures r.Failure? ==> r.error == OpenCheck(runtime.initError, runtime.compositorPresent).error
      ensures r.Success? ==>
        && fresh(r.value) && r.value.Valid()
        && r.value.options == options && r.value.runtime == runtime && r.value.engine == engine
        && r.value.deviceName.None? && r.value.leftEyeRT.None? && r.value.rightEyeRT.None?
        && !r.value.leftTargetDisposed && !r.value.rightTargetDisposed && !r.value.shutDown
    {
      if runtime.initError != InitNone {
        return Failure(InitFailed(runtime.initError));
      }
      if !runtime.compositorPresent {
        return Failure(CompositorUnavailable);
      }
      var c := new OpenVRContext(options, runtime, engine);
      return Success(c);
    }

    /**
     * Reads the device name, allocates both eye render targets at the
     * recommended size, stores the head-to-eye transforms, and builds both
     * projections for the default clip planes — the projections
     * `UpdateProjectionMatrices(DefaultZNear, DefaultZFar)` builds.
     */
    method Initialize()
      requires Valid()
      modifies this
      ensures Valid()
      ensures deviceName == Some(ResolveDeviceName(runtime.nameError, runtime.nameValue))
      ensures leftEyeRT == rightEyeRT
        == Some(RenderTarget(runtime.recommendedWidth, runtime.recommendedHeight, options.eyeRenderTargetSampleCount))
      ensures headToEyeLeft == engine.invert(ToSysMatrix34(runtime.eyeToHead(EyeLeft)))
      ensures headToEyeRight == engine.invert(ToSysMatrix34(runtime.eyeToHead(EyeRight)))
      ensures projLeft == ProjectionFor(engine, runtime.projectionRaw(EyeLeft), DefaultZNear, DefaultZFar)
      ensures projRight == ProjectionFor(engine, runtime.projectionRaw(EyeRight), DefaultZNear, DefaultZFar)
      ensures leftTargetDisposed == old(leftTargetDisposed) && rightTargetDisposed == old(rightTargetDisposed)
      ensures shutDown == old(shutDown)
    {
      deviceName := Some(ResolveDeviceName(runtime.nameError, runtime.nameValue));

      var eyeWidth := runtime.recommendedWidth;
      var eyeHeight := runtime.recommendedHeight;
      leftEyeRT := Some(RenderTarget(eyeWidth, eyeHeight, options.eyeRenderTargetSampleCount));
      rightEyeRT := Some(RenderTarget(eyeWidth, eyeHeight, options.eyeRenderTargetSampleCount));

      var eyeToHeadLeft := ToSysMatrix34(runtime.eyeToHead(EyeLeft));
      headToEyeLeft := engine.invert(eyeToHeadLeft);
      var eyeToHeadRight := ToSysMatrix34(runtime.eyeToHead(EyeRight));
      headToEyeRight := engine.invert(eyeToHeadRight);

      var zNear := DefaultZNear;
      var zFar := DefaultZFar;
      projLeft := ProjectionFor(engine, runtime.projectionRaw(EyeLeft), zNear, zFar);
      projRight := ProjectionFor(engine, runtime.projectionRaw(EyeRight), zNear, zFar);
    }

    /** Rebuilds both projections for new clip planes; nothing else changes. */
    method UpdateProjectionMatrices(zNear: real, zFar: real)
      modifies this
      ensures projLeft == ProjectionFor(engine, runtime.projectionRaw(EyeLeft), zNear, zFar)
      ensures projRight == ProjectionFor(engine, runtime.projectionRaw(EyeRight), zNear, zFar)
      ensures deviceName == old(deviceName) && leftEyeRT == old(leftEyeRT) && rightEyeRT == old(rightEyeRT)
      ensures headToEyeLeft == old(headToEyeLeft) && headToEyeRight == old(headToEyeRight)
      ensures leftTargetDisposed == old(leftTargetDisposed) && rightTargetDisposed == old(rightTargetDisposed)
      ensures shutDown == old(shutDown)
    {
      projLeft := ProjectionFor(engine, runtime.projectionRaw(EyeLeft), zNear, zFar);
      projRight := ProjectionFor(engine, runtime.projectionRaw(EyeRight), zNear, zFar);
    }

    /**
     * Submits the left eye, then the right one. A failure of the left
     * submission ends the frame, so the right eye is then never submitted.
     * Each call carries its own eye's render target.
     * `leftResult` and `rightResult` are the compositor's answers to the two calls.
     */
    method SubmitFrame(renderer: RendererType, leftResult: CompositorError, rightResult: CompositorError)
      returns (s: Submission)
      ensures s.outcome.Pass? <==> IsSupportedRenderer(renderer) && leftEyeRT.Some? && rightEyeRT.Some?
                                   && leftResult.CompositorNone? && rightResult.CompositorNone?
      ensures s.outcome.Pass? ==> |s.calls| == 2 && s.calls[0].eye == EyeLeft && s.calls[1].eye == EyeRight
      ensures forall c :: c in s.calls && c.eye == EyeRight ==>
        SubmitTexture(renderer, leftEyeRT, EyeLeft, leftResult).outcome.Pass?
      ensures |s.calls| <= 2
      ensures forall c :: c in s.calls ==> c.bounds == FullBounds && c.texture.textureType == DirectXTexture
      ensures forall c :: c in s.calls ==>
        Some(c.texture.handle) == (if c.eye == EyeLeft then leftEyeRT else rightEyeRT)
      ensures var l := SubmitTexture(renderer, leftEyeRT, EyeLeft, leftResult);
        l.outcome.Fail? ==> s == l
      ensures var l := SubmitTexture(renderer, leftEyeRT, EyeLeft, leftResult);
        var r := SubmitTexture(renderer, rightEyeRT, EyeRight, rightResult);
        l.outcome.Pass? ==> s == Submission(l.calls + r.calls, r.outcome)
    {
      var left := SubmitTexture(renderer, leftEyeRT, EyeLeft, leftResult);
      if left.outcome.Fail? {
        return left;
      }
      var right := SubmitTexture(renderer, rightEyeRT, EyeRight, rightResult);
      s := Submission(left.calls + right.calls, right.outcome);
    }

    /**
     * Waits for the runtime, which writes the head set's pose into slot 0
     * of the pose buffer, and derives the eye poses from that slot.
     */
    method WaitForPoses(hmdTracking: HmdMatrix34) returns (poses: HmdPoseState)
      requires Valid()
      modifies devicePoses
      ensures Valid()
      ensures devicePoses[HmdDeviceIndex] == TrackedDevicePose(hmdTracking)
      ensures poses == PosesFrom(engine, TrackedDevicePose(hmdTracking), projLeft, projRight, headToEyeLeft, headToEyeRight)
    {
      devicePoses[0] := TrackedDevicePose(hmdTracking);

      var hmdPose := devicePoses[HmdDeviceIndex];
      var deviceToAbsolute := ToSysMatrix34(hmdPose.deviceToAbsoluteTracking);
      var absoluteToDevice := engine.invert(deviceToAbsolute);

      var viewLeft := engine.multiply(absoluteToDevice, headToEyeLeft);
      var viewRight := engine.multiply(absoluteToDevice, headToEyeRight);

      var left := engine.decompose(engine.invert(viewLeft));
      var right := engine.decompose(engine.invert(viewRight));

      var leftPosition := Scale(left.translation, CentimetresPerMetre);
      var rightPosition := Scale(right.translation, CentimetresPerMetre);

      poses := HmdPoseState(projLeft, projRight, leftPosition, rightPosition, left.rotation, right.rotation);
    }

    /**
     * Releases the left render target, then the right one, then shuts the
     * runtime down. A missing render target fails at that point, so the
     * steps after it do not happen.
     */
    method Dispose() returns (r: Outcome<ContextError>)
      modifies this
      ensures r.Pass? <==> leftEyeRT.Some? && rightEyeRT.Some?
      ensures r.Fail? ==> r.error == NullReference
      ensures leftTargetDisposed == (old(leftTargetDisposed) || leftEyeRT.Some?)
      ensures rightTargetDisposed == (old(rightTargetDisposed) || r.Pass?)
      ensures shutDown == (old(shutDown) || r.Pass?)
      ensures deviceName == old(deviceName) && leftEyeRT == old(leftEyeRT) && rightEyeRT == old(rightEyeRT)
      ensures projLeft == old(projLeft) && projRight == old(projRight)
      ensures headToEyeLeft == old(headToEyeLeft) && headToEyeRight == old(headToEyeRight)
    {
      if leftEyeRT.None? {
        return Fail(NullReference);
      }
      leftTargetDisposed := true;
      if rightEyeRT.None? {
        return Fail(NullReference);
      }
      rightTargetDisposed := true;
      shutDown := true;
      return Pass;
    }
  }
}
