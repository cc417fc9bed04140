/**
 * The VR camera script (Source/VRCamera.cs): its clip-plane setters, the
 * pose/frame handshake between `Update` and the render callback, and the
 * life cycle of its VR context. The camera talks to the context only
 * through the abstract `VRContext` interface (Source/VRContext.cs), so the
 * context is observed through the calls the camera makes on it, recorded
 * in the ghost log `calls`.
 */
module Cameras {
  import opened Wrappers
  import OpenVRContexts

  /** A call the camera makes on its VR context. */
  datatype ContextCall =
    | Initialize
    | UpdateProjectionMatrices(zNear: real, zFar: real)
    | WaitForPoses
    | SubmitFrame
    | Dispose

  /** The exceptions the camera's callbacks let through. */
  datatype CameraError =
    | OpenVRNotSupported
    | ContextFailed(error: OpenVRContexts.ContextError)
    | NullReference

  /** Whether a context is open after the calls in `log`: some `Initialize` has not been disposed of yet. */
  predicate Live(log: seq<ContextCall>)
  {
    if log == [] then false
    else match log[|log| - 1]
      case Initialize => true
      case Dispose => false
      case _ => Live(log[..|log| - 1])
  }

  /** Whether the last pose wait in `log` has not been followed by a frame submission yet. */
  predicate Armed(log: seq<ContextCall>)
  {
    if log == [] then false
    else match log[|log| - 1]
      case WaitForPoses => true
      case SubmitFrame => false
      case _ => Armed(log[..|log| - 1])
  }

  /**
   * Whether the camera may make call `c` after the calls in `log`: every
   * call but `Initialize` needs an open context, and a frame submission
   * also needs a pose wait it has not yet submitted a frame for.
   */
  predicate Allowed(log: seq<ContextCall>, c: ContextCall) {
    match c
    case Initialize => true
    case SubmitFrame => Live(log) && Armed(log)
    case _ => Live(log)
  }

  /** Every call in `log` was allowed when it was made. */
  predicate Admissible(log: seq<ContextCall>)
  {
    log == [] || (Admissible(log[..|log| - 1]) && Allowed(log[..|log| - 1], log[|log| - 1]))
  }

  /** How many times `c` occurs in `log`. */
  function Count(log: seq<ContextCall>, c: ContextCall): nat
  {
    if log == [] then 0
    else Count(log[..|log| - 1], c) + (if log[|log| - 1] == c then 1 else 0)
  }

  /** Appending one call to a log: what each of the log functions becomes. */
  lemma AppendCall(log: seq<ContextCall>, c: ContextCall)
    ensures Admissible(log + [c]) <==> Admissible(log) && Allowed(log, c)
    ensures Live(log + [c]) == (if c == Initialize then true else if c == Dispose then false else Live(log))
    ensures Armed(log + [c]) == (if c == WaitForPoses then true else if c == SubmitFrame then false else Armed(log))
    ensures forall d :: Count(log + [c], d) == Count(log, d) + (if c == d then 1 else 0)
  {
    assert (log + [c])[..|log|] == log;
  }

  /**
   * The handshake bounds the frames: over any admissible sequence of calls
   * there are no more frame submissions than pose waits — one fewer if the
   * last wait is still unanswered.
   */
  lemma {:induction false} SubmitsFollowWaits(log: seq<ContextCall>)
    requires Admissible(log)
    ensures Count(log, SubmitFrame) + (if Armed(log) then 1 else 0) <= Count(log, WaitForPoses)
  {
    if log != [] {
      var prefix, c := log[..|log| - 1], log[|log| - 1];
      assert log == prefix + [c];
      AppendCall(prefix, c);
      SubmitsFollowWaits(prefix);
    }
  }

  /**
   * Every context is disposed of at most once: there are no more disposals
   * than initialisations — one fewer while a context is open.
   */
  lemma {:induction false} DisposesFollowInitializes(log: seq<ContextCall>)
    requires Admissible(log)
    ensures Count(log, Dispose) + (if Live(log) then 1 else 0) <= Count(log, Initialize)
  {
    if log != [] {
      var prefix, c := log[..|log| - 1], log[|log| - 1];
      assert log == prefix + [c];
      AppendCall(prefix, c);
      DisposesFollowInitializes(prefix);
    }
  }

  /** Source/VRCamera.cs: the camera script. */
  class VRCamera {
    var zNear: real
    var zFar: real
    var hasNewPoses: bool
    /** Whether `_context` is non-null. */
    var hasContext: bool
    /** The calls made on the context so far. */
    ghost var calls: seq<ContextCall>

    /**
     * The camera's invariant: its calls were allowed, it holds a context
     * exactly while one is open, and the flag is raised only while a pose
     * wait awaits its frame.
     */
    ghost predicate Valid()
      reads this
    {
      && Admissible(calls)
      && (hasContext <==> Live(calls))
      && (hasNewPoses ==> Armed(calls))
    }

    /** A camera as loaded: the serialized clip planes, no context, no poses. */
    constructor (zNear: real, zFar: real)
      ensures Valid()
      ensures this.zNear == zNear && this.zFar == zFar
      ensures !hasNewPoses && !hasContext && calls == []
    {
      this.zNear, this.zFar := zNear, zFar;
      hasNewPoses, hasContext := false, false;
      calls := [];
    }

    /**
     * The `ZNear` setter: stores the value; only when it differs from the
     * current one, and only when there is a context, the projections are
     * rebuilt once for the new near plane and the current far plane. No
     * range or ordering check is made.
     */
    method SetZNear(value: real)
      requires Valid()
      modifies this
      ensures Valid()
      ensures zNear == value && zFar == old(zFar)
      ensures hasNewPoses == old(hasNewPoses) && hasContext == old(hasContext)
      ensures calls == old(calls) + (if old(zNear) != value && hasContext then [UpdateProjectionMatrices(value, zFar)] else [])
    {
      if zNear != value {
        zNear := value;
        if hasContext {
          AppendCall(calls, UpdateProjectionMatrices(zNear, zFar));
          calls := calls + [UpdateProjectionMatrices(zNear, zFar)];
        }
      }
    }

    /** The `ZFar` setter, the mirror image of `SetZNear`. */
    method SetZFar(value: real)
      requires Valid()
      modifies this
      ensures Valid()
      ensures zFar == value && zNear == old(zNear)
      ensures hasNewPoses == old(hasNewPoses) && hasContext == old(hasContext)
      ensures calls == old(calls) + (if old(zFar) != value && hasContext then [UpdateProjectionMatrices(zNear, value)] else [])
    {
      if zFar != value {
        zFar := value;
        if hasContext {
          AppendCall(calls, UpdateProjectionMatrices(zNear, zFar));
          calls := calls + [UpdateProjectionMatrices(zNear, zFar)];
        }
      }
    }

    /**
     * `Start`: fails if OpenVR is not supported or the context cannot be
     * opened (the context is then left as it was); otherwise the camera
     * holds a new context and has initialised it.
     */
    method Start(supported: bool, initError: OpenVRContexts.InitError, compositorPresent: bool)
      returns (r: Outcome<CameraError>)
      requires Valid()
      modifies this
      ensures Valid()
      ensures !supported ==> r == Fail(OpenVRNotSupported)
      ensures supported ==> r == (match OpenVRContexts.OpenCheck(initError, compositorPresent)
                                  case Pass => Pass
                                  case Fail(e) => Fail(ContextFailed(e)))
      ensures r.Pass? ==> hasContext && calls == old(calls) + [Initialize]
      ensures r.Fail? ==> hasContext == old(hasContext) && calls == old(calls)
      ensures zNear == old(zNear) && zFar == old(zFar) && hasNewPoses == old(hasNewPoses)
    {
      if !supported {
        return Fail(OpenVRNotSupported);
      }
      var check := OpenVRContexts.OpenCheck(initError, compositorPresent);
      if check.Fail? {
        return Fail(ContextFailed(check.error));
      }
      hasContext := true;
      AppendCall(calls, Initialize);
      calls := calls + [Initialize];
      return Pass;
    }

    /**
     * `Update`: with a context, waits for new poses and raises the flag;
     * without one, does nothing.
     */
    method Update()
      requires Valid()
      modifies this
      ensures Valid()
      ensures hasContext == old(hasContext) && zNear == old(zNear) && zFar == old(zFar)
      ensures hasContext ==> hasNewPoses && calls == old(calls) + [WaitForPoses]
      ensures !hasContext ==> hasNewPoses == old(hasNewPoses) && calls == old(calls)
    {
      if hasContext {
        AppendCall(calls, WaitForPoses);
        calls := calls + [WaitForPoses];
        hasNewPoses := true;
      }
    }

    /**
     * The render callback. Without new poses it returns at once. Otherwise
     * it lowers the flag, then submits a frame only if both eye render
     * targets exist; `submitted` is how that submission ended. With the flag
     * raised but no context, reading the render targets fails.
     */
    method OnRender(leftTargetPresent: bool, rightTargetPresent: bool,
                    submitted: Outcome<OpenVRContexts.ContextError>)
      returns (r: Outcome<CameraError>)
      requires Valid()
      modifies this
      ensures Valid()
      ensures hasContext == old(hasContext) && zNear == old(zNear) && zFar == old(zFar)
      ensures !old(hasNewPoses) ==> r.Pass? && !hasNewPoses && calls == old(calls)
      ensures old(hasNewPoses) ==> !hasNewPoses
      ensures old(hasNewPoses) && !hasContext ==> r == Fail(NullReference) && calls == old(calls)
      ensures old(hasNewPoses) && hasContext && !(leftTargetPresent && rightTargetPresent) ==>
        r.Pass? && calls == old(calls)
      ensures old(hasNewPoses) && hasContext && leftTargetPresent && rightTargetPresent ==>
        && calls == old(calls) + [SubmitFrame]
        && r == (match submitted case Pass => Pass case Fail(e) => Fail(ContextFailed(e)))
    {
      if !hasNewPoses {
        return Pass;
      }
      hasNewPoses := false;
      if !hasContext {
        return Fail(NullReference);
      }
      if !leftTargetPresent || !rightTargetPresent {
        return Pass;
      }
      AppendCall(calls, SubmitFrame);
      calls := calls + [SubmitFrame];
      match submitted
      case Pass => r := Pass;
      case Fail(e) => r := Fail(ContextFailed(e));
    }

    /** `OnDestroy`: disposes of the context, if any, and drops it. */
    method OnDestroy()
      requires Valid()
      modifies this
      ensures Valid()
      ensures !hasContext
      ensures calls == old(calls) + (if old(hasContext) then [Dispose] else [])
      ensures zNear == old(zNear) && zFar == old(zFar) && hasNewPoses == old(hasNewPoses)
    {
      if hasContext {
        AppendCall(calls, Dispose);
        calls := calls + [Dispose];
        hasContext := false;
      }
    }
  }

  /**
   * Over a camera's whole life, at most one frame is submitted per pose
   * wait and each context is disposed of at most once.
   */
  lemma CameraCallBounds(c: VRCamera)
    requires c.Valid()
    ensures Count(c.calls, SubmitFrame) <= Count(c.calls, WaitForPoses)
    ensures Count(c.calls, Dispose) <= Count(c.calls, Initialize)
  {
    SubmitsFollowWaits(c.calls);
    DisposesFollowInitializes(c.calls);
  }
}
