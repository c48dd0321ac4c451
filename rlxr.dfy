/** The process-wide `rlxr` record and the public API that reads and updates it. Runtime
    and rlgl calls are outcomes passed in as parameters (see Setup for InitXr's); the
    pure parts of each operation are the functions of Status, Lifecycle, Frames,
    Swapchain and Poses, and the methods here are proved against them. */
module Rlxr {
  import opened OpenXr
  import opened Status
  import opened Swapchain
  import opened Setup
  import opened Poses
  import opened RayMath
  import Lifecycle
  import Frames

  class RlxrState {
    var instance: bool                          // rlxr.instance != XR_NULL_HANDLE
    var state: SessionState                     // last session state recorded by UpdateXr
    var viewCount: uint32
    var viewProps: seq<ViewConfig>              // XrViewConfigurationView per view
    var viewBufs: array<ViewBuffers>
    var views: seq<View>                        // written by xrLocateViews each frame
    var projectionViews: array<ProjectionView>
    var depthInfoViews: array<DepthInfoView>
    var refPosition: Vector3
    var refOrientation: Quaternion
    var frameState: FrameState
    var sessionRunning: bool
    var frameActive: bool
    var viewActiveIndex: uint32                 // NoView when no view is open

    /** The fields the event loop works on. */
    function LifecycleState(): Lifecycle.Session
      reads this
    {
      Lifecycle.Session(instance, sessionRunning, state)
    }

    /** The fields the frame/view brackets work on. */
    function BracketState(): Frames.Bracket
      reads this
    {
      Frames.Bracket(frameActive, viewActiveIndex)
    }

    /** The per-view storage rlxrInitSession sets up: every array has one entry per view,
        and every layer entry points at its own view's swapchains at the recommended size. */
    ghost predicate Wired()
      reads this, viewBufs, projectionViews, depthInfoViews
    {
      && |viewProps| == viewCount
      && |views| == viewCount
      && viewBufs.Length == viewCount
      && projectionViews.Length == viewCount
      && depthInfoViews.Length == viewCount
      && (forall i :: 0 <= i < viewCount ==>
            ProjectionWired(projectionViews[i], viewBufs[i], viewProps[i]))
      && (forall i :: 0 <= i < viewCount ==>
            DepthInfoWired(depthInfoViews[i], viewBufs[i], viewProps[i]))
    }

    /** What every reachable record satisfies: the lifecycle invariant, the per-view
        storage whenever connected, and an open view is one of the views. */
    ghost predicate Valid()
      reads this, viewBufs, projectionViews, depthInfoViews
    {
      && Lifecycle.Invariant(LifecycleState())
      && (instance ==> Wired())
      && (instance && frameActive && viewActiveIndex != NoView ==> viewActiveIndex < viewCount)
    }

    /** The zero-initialised static record, before InitXr. */
    constructor ()
      ensures Valid()
      ensures !IsXrConnected() && !sessionRunning && !frameActive
      ensures GetXrState() == StateUnknown
    {
      instance := false;
      state := Unknown;
      viewCount := 0;
      viewProps := [];
      viewBufs := new ViewBuffers[0];
      views := [];
      projectionViews := new ProjectionView[0];
      depthInfoViews := new DepthInfoView[0];
      refPosition := Origin;
      refOrientation := Quaternion(0.0, 0.0, 0.0, 0.0);
      frameState := FrameState(0, false);
      sessionRunning := false;
      frameActive := false;
      viewActiveIndex := 0;
    }

    function IsXrConnected(): (r: bool)
      reads this
      ensures !r ==> PublicState(instance, state) == StateUnknown && !IsFocused(instance, state)
    {
      instance
    }

    function GetXrState(): (r: RlXrState)
      reads this
      ensures !IsXrConnected() ==> r == StateUnknown
      ensures r == StateUnknown ==> !IsXrConnected() || state == Unknown || EndsSession(state)
    {
      PublicState(instance, state)
    }

    function IsXrFocused(): (r: bool)
      reads this
      ensures r <==> GetXrState() == StateFocused
    {
      IsFocused(instance, state)
    }

    /** GetXrPose: the reference-frame offsets, flags false. */
    function GetXrPose(): (p: Pose)
      reads this
      ensures p.position == refPosition && p.orientation == refOrientation
      ensures !p.isPositionValid && !p.isOrientationValid
    {
      ReferencePose(refPosition, refOrientation)
    }

    /** GetViewPose, with xrLocateSpace's outcome as `located`. */
    function GetViewPose(located: LocateResult): (p: Pose)
      reads this
      ensures p.isPositionValid <==> PositionLocated(located)
      ensures p.isOrientationValid <==> OrientationLocated(located)
      ensures p.isPositionValid ==> p.position == Vector3Add(refPosition, located.location.pose.position)
      ensures p.isOrientationValid ==>
                p.orientation == QuaternionMultiply(refOrientation, located.location.pose.orientation)
      ensures !p.isPositionValid ==> p.position == Origin
      ensures !p.isOrientationValid ==> p.orientation == IdentityRotation
    {
      ViewPose(refPosition, refOrientation, located)
    }

    /** rlxrInitInstance: create the instance, find the system and read its views. The
        instance handle is stored as soon as it exists, whatever fails afterwards. */
    method InitInstance(io: InstanceOutcome) returns (ok: bool)
      requires !instance && |io.viewConfigs| < 0x1_0000_0000
      modifies this`instance, this`viewCount, this`viewProps
      ensures ok == InstanceSucceeds(io)
      ensures instance == io.instanceCreated
      ensures ok ==> viewCount == |io.viewConfigs| && viewProps == io.viewConfigs
    {
      if !io.instanceCreated {
        return false;
      }
      instance := true;
      if !io.bindingsFound || !io.systemFound || !io.propertiesRead || !io.viewCountRead {
        return false;
      }
      viewCount := |io.viewConfigs|;
      if !io.viewsRead {
        return false;
      }
      viewProps := io.viewConfigs;
      return true;
    }

    /** rlxrInitSession: create the session and spaces, choose the formats, then fill the
        per-view arrays: color swapchains, depth swapchains, framebuffers, views,
        projection-layer entries, and depth-info entries chained to them. */
    method InitSession(so: SessionOutcome) returns (ok: bool)
      requires instance
      requires |viewProps| == viewCount
      requires |so.colorChains| == viewCount && |so.depthChains| == viewCount && |so.framebuffers| == viewCount
      modifies this`state, this`viewBufs, this`views, this`projectionViews, this`depthInfoViews
      ensures ok == SessionSucceeds(so)
      ensures state == old(state) || state == Unknown
      ensures ok ==> state == Unknown && Wired()
      ensures ok ==> fresh(viewBufs) && fresh(projectionViews) && fresh(depthInfoViews)
      ensures ok ==> forall i :: 0 <= i < viewCount ==>
                viewBufs[i] == ViewBuffers(so.colorChains[i].handle, so.depthChains[i].handle,
                                           so.colorChains[i].imageCount, so.depthChains[i].imageCount,
                                           so.framebuffers[i])
    {
      if !so.requirementsRead || !so.sessionCreated {
        return false;
      }
      state := Unknown;
      if !so.referenceSpaceCreated || !so.viewSpaceCreated {
        return false;
      }
      // The color format only parameterises the color xrCreateSwapchain calls, whose
      // outcomes are `so.colorChains`.
      var colorFormat := ChooseSwapchainFormat(GlRgba16f, true, so.colorFormats);
      // `fallback` is true here, so that a runtime without GL_DEPTH_COMPONENT16 fails the
      // check below (see Setup.DepthFormatAsWritten for the selection as written).
      var depthFormat := ChooseSwapchainFormat(GlDepthComponent16, true, so.depthFormats);
      if depthFormat < 0 {
        return false;
      }
      var n := viewCount;
      var bufs := new ViewBuffers[n];
      viewBufs := bufs;
      ok := CreateColorSwapchains(bufs, so.colorChains);
      if !ok {
        return false;
      }
      ok := CreateDepthSwapchains(bufs, so.depthChains);
      if !ok {
        return false;
      }
      LoadFramebuffers(bufs, so.framebuffers);
      // Only the structure type tags are set here; pose and fov come from xrLocateViews.
      views := seq(n, _ => ZeroView);
      var projection := new ProjectionView[n];
      projectionViews := projection;
      FillProjectionViews(projection, bufs, viewProps);
      var depthInfo := new DepthInfoView[n];
      depthInfoViews := depthInfo;
      FillDepthInfoViews(depthInfo, projection, bufs, viewProps);
      return true;
    }

    /** InitXr: a no-op returning true when connected; otherwise initialise the instance
        and the session and reset the reference frame and the frame/view protocol. A
        failure leaves the library disconnected (the library as written leaves it
        connected once the instance exists; see Setup.InitAsWritten). */
    method InitXr(io: InstanceOutcome, so: SessionOutcome) returns (ok: bool)
      requires Valid() && WellFormed(io, so)
      modifies this
      ensures Valid()
      ensures ok == IsXrConnected()
      ensures ok <==> old(IsXrConnected()) || InitSucceeds(io, so)
      ensures old(IsXrConnected()) ==> unchanged(this)
      ensures !old(IsXrConnected()) && ok ==>
                && GetXrState() == StateUnknown
                && !sessionRunning
                && BracketState() == Frames.Closed
                && GetXrPose() == Pose(Origin, IdentityRotation, false, false)
                && viewCount == |io.viewConfigs| && viewProps == io.viewConfigs
                && fresh(viewBufs) && fresh(projectionViews) && fresh(depthInfoViews)
                && (forall i :: 0 <= i < viewCount ==>
                      viewBufs[i] == ViewBuffers(so.colorChains[i].handle, so.depthChains[i].handle,
                                                 so.colorChains[i].imageCount, so.depthChains[i].imageCount,
                                                 so.framebuffers[i]))
      ensures !ok ==> !sessionRunning && BracketState() == old(BracketState())
                      && GetXrPose() == old(GetXrPose())
    {
      if instance {
        return true;
      }
      var started := InitInstance(io);
      if started {
        started := InitSession(so);
      }
      if !started {
        instance := false;
        return false;
      }
      refPosition := Origin;
      refOrientation := IdentityRotation;
      sessionRunning := false;
      frameActive := false;
      viewActiveIndex := NoView;
      return true;
    }

    /** CloseXr: a no-op when disconnected; otherwise release everything and clear the
        instance. This model also stops the session (see Lifecycle.Close). */
    method CloseXr()
      requires Valid()
      modifies this`instance, this`sessionRunning
      ensures Valid()
      ensures LifecycleState() == Lifecycle.Close(old(LifecycleState()))
      ensures !IsXrConnected() && !IsXrFocused() && GetXrState() == StateUnknown
    {
      if !instance {
        return;
      }
      instance := false;
      sessionRunning := false;
    }

    /** UpdateXr: handle the queued events in order while the poll succeeds, which it
        stops doing when the queue is empty or the instance is gone. */
    method UpdateXr(events: seq<Event>)
      requires Valid()
      modifies this`instance, this`sessionRunning, this`state
      ensures Valid()
      ensures LifecycleState() == Lifecycle.Drain(old(LifecycleState()), events)
    {
      var i := 0;
      while i < |events| && instance
        invariant 0 <= i <= |events|
        invariant Valid()
        invariant Lifecycle.Drain(old(LifecycleState()), events) == Lifecycle.Drain(LifecycleState(), events[i..])
      {
        assert events[i..][0] == events[i] && events[i..][1..] == events[i + 1..];
        match events[i] {
          case EventsLost(_) =>
          case InstanceLossPending =>
            CloseXr();
            return;
          case ReferenceSpaceChangePending =>
          case SessionStateChanged(newState) =>
            if newState == Ready {
              // xrBeginSession's result is only logged
              sessionRunning := true;
            }
            if newState == Stopping {
              sessionRunning := false;
            }
            if newState == Exiting {
              CloseXr();
              return;
            }
            if newState == LossPending {
              CloseXr();
              return;
            }
            state := newState;
          case Unhandled =>
        }
        i := i + 1;
      }
    }

    /** BeginXrMode, with xrWaitFrame's and xrLocateViews's outcomes (None on failure,
        which is only logged). */
    method BeginXrMode(waited: Option<FrameState>, located: Option<seq<View>>) returns (count: uint32)
      requires Valid() && Frames.MayBeginFrame(BracketState())
      requires located.Some? ==> |located.value| == viewCount
      modifies this`frameState, this`views, this`frameActive, this`viewActiveIndex
      ensures Valid()
      ensures BracketState() == Frames.AfterBeginFrame(old(BracketState()), sessionRunning)
      ensures count == Lifecycle.RenderableViews(LifecycleState(), viewCount)
      ensures frameState == (if sessionRunning && waited.Some? then waited.value else old(frameState))
      ensures views == (if sessionRunning && located.Some? then located.value else old(views))
    {
      if !sessionRunning {
        return 0;
      }
      if waited.Some? {
        frameState := waited.value;
      }
      if located.Some? {
        views := located.value;
      }
      frameActive := true;
      viewActiveIndex := NoView;
      return viewCount;
    }

    /** EndXrMode: a no-op without an active frame; otherwise submit the projection layer
        (counted only when the runtime asked for rendering) and close the frame. */
    method EndXrMode() returns (submitted: Option<FrameEndInfo>)
      requires Valid() && Frames.MayEndFrame(BracketState())
      modifies this`frameActive
      ensures Valid()
      ensures BracketState() == Frames.AfterEndFrame(old(BracketState()))
      ensures submitted.Some? <==> old(frameActive)
      ensures submitted.Some? ==>
                && submitted.value.displayTime == frameState.predictedDisplayTime
                && (submitted.value.layerCount == 1 <==> frameState.shouldRender)
                && submitted.value.layerCount <= 1
                && submitted.value.layer == ProjectionLayer(viewCount, projectionViews[..], depthInfoViews[..])
    {
      if !frameActive {
        return None;
      }
      var layer := ProjectionLayer(viewCount, projectionViews[..], depthInfoViews[..]);
      submitted := Some(FrameEndInfo(frameState.predictedDisplayTime,
                                     if frameState.shouldRender then 1 else 0, layer));
      frameActive := false;
    }

    /** BeginView: copy the located pose and field of view into the view's projection
        entry and the cull distances into its depth-info entry, then open the view.
        The swapchain and rlgl calls only log their failures. */
    method BeginView(index: uint32, nearZ: real, farZ: real)
      requires Valid() && IsXrConnected() && Frames.MayBeginView(BracketState(), index, viewCount)
      modifies this`viewActiveIndex, projectionViews, depthInfoViews
      ensures Valid()
      ensures BracketState() == Frames.AfterBeginView(old(BracketState()), index)
      ensures projectionViews[..] ==
                old(projectionViews[..])[index := old(projectionViews[index]).(pose := views[index].pose,
                                                                               fov := views[index].fov)]
      ensures depthInfoViews[..] ==
                old(depthInfoViews[..])[index := old(depthInfoViews[index]).(nearZ := nearZ, farZ := farZ)]
    {
      projectionViews[index] := projectionViews[index].(pose := views[index].pose, fov := views[index].fov);
      depthInfoViews[index] := depthInfoViews[index].(nearZ := nearZ, farZ := farZ);
      viewActiveIndex := index;
    }

    /** EndView: release the view's images and close the view. */
    method EndView()
      requires Valid() && IsXrConnected() && Frames.MayEndView(BracketState())
      modifies this`viewActiveIndex
      ensures Valid()
      ensures BracketState() == Frames.AfterEndView(old(BracketState()))
    {
      viewActiveIndex := NoView;
    }

    method SetXrPosition(pos: Vector3)
      requires Valid()
      modifies this`refPosition
      ensures Valid()
      ensures GetXrPose() == ReferencePose(pos, old(refOrientation))
    {
      refPosition := pos;
    }

    method SetXrOrientation(quat: Quaternion)
      requires Valid()
      modifies this`refOrientation
      ensures Valid()
      ensures GetXrPose() == ReferencePose(old(refPosition), quat)
    {
      refOrientation := quat;
    }
  }

  /** The color-swapchain loop of rlxrInitSession: stop at the first view whose swapchain
      cannot be created or enumerated, otherwise record every view's chain. */
  method CreateColorSwapchains(bufs: array<ViewBuffers>, chains: seq<SwapchainResult>) returns (ok: bool)
    requires |chains| == bufs.Length
    modifies bufs
    ensures ok == AllCreated(chains)
    ensures ok ==> forall j :: 0 <= j < bufs.Length ==>
              bufs[j] == old(bufs[j]).(colorSwapchain := chains[j].handle, colorImageCount := chains[j].imageCount)
  {
    for i := 0 to bufs.Length
      invariant forall j :: 0 <= j < i ==> chains[j].SwapchainCreated?
      invariant forall j :: 0 <= j < i ==>
                  bufs[j] == old(bufs[j]).(colorSwapchain := chains[j].handle, colorImageCount := chains[j].imageCount)
      invariant forall j :: i <= j < bufs.Length ==> bufs[j] == old(bufs[j])
    {
      match chains[i] {
        case SwapchainFailed =>
          return false;
        case SwapchainCreated(handle, imageCount) =>
          bufs[i] := bufs[i].(colorSwapchain := handle, colorImageCount := imageCount);
      }
    }
    return true;
  }

  /** The depth-swapchain loop of rlxrInitSession, like the color one. */
  method CreateDepthSwapchains(bufs: array<ViewBuffers>, chains: seq<SwapchainResult>) returns (ok: bool)
    requires |chains| == bufs.Length
    modifies bufs
    ensures ok == AllCreated(chains)
    ensures ok ==> forall j :: 0 <= j < bufs.Length ==>
              bufs[j] == old(bufs[j]).(depthSwapchain := chains[j].handle, depthImageCount := chains[j].imageCount)
  {
    for i := 0 to bufs.Length
      invariant forall j :: 0 <= j < i ==> chains[j].SwapchainCreated?
      invariant forall j :: 0 <= j < i ==>
                  bufs[j] == old(bufs[j]).(depthSwapchain := chains[j].handle, depthImageCount := chains[j].imageCount)
      invariant forall j :: i <= j < bufs.Length ==> bufs[j] == old(bufs[j])
    {
      match chains[i] {
        case SwapchainFailed =>
          return false;
        case SwapchainCreated(handle, imageCount) =>
          bufs[i] := bufs[i].(depthSwapchain := handle, depthImageCount := imageCount);
      }
    }
    return true;
  }

  /** The rlLoadFramebuffer loop: one framebuffer per view. */
  method LoadFramebuffers(bufs: array<ViewBuffers>, framebuffers: seq<nat>)
    requires |framebuffers| == bufs.Length
    modifies bufs
    ensures forall j :: 0 <= j < bufs.Length ==> bufs[j] == old(bufs[j]).(framebuffer := framebuffers[j])
  {
    for i := 0 to bufs.Length
      invariant forall j :: 0 <= j < i ==> bufs[j] == old(bufs[j]).(framebuffer := framebuffers[j])
      invariant forall j :: i <= j < bufs.Length ==> bufs[j] == old(bufs[j])
    {
      bufs[i] := bufs[i].(framebuffer := framebuffers[i]);
    }
  }

  /** The projection-view loop: each entry covers its view's color swapchain at the
      recommended size, with no chained structure yet. */
  method FillProjectionViews(projection: array<ProjectionView>, bufs: array<ViewBuffers>, props: seq<ViewConfig>)
    requires bufs.Length == projection.Length && |props| == projection.Length
    modifies projection
    ensures forall j :: 0 <= j < projection.Length ==>
              projection[j] == old(projection[j]).(subImage := FullImage(bufs[j].colorSwapchain, props[j]),
                                                   chainsDepthInfo := false)
  {
    for i := 0 to projection.Length
      invariant forall j :: 0 <= j < i ==>
                  projection[j] == old(projection[j]).(subImage := FullImage(bufs[j].colorSwapchain, props[j]),
                                                       chainsDepthInfo := false)
      invariant forall j :: i <= j < projection.Length ==> projection[j] == old(projection[j])
    {
      projection[i] := projection[i].(subImage := FullImage(bufs[i].colorSwapchain, props[i]),
                                      chainsDepthInfo := false);
    }
  }

  /** The depth-info loop: each entry covers its view's depth swapchain at the recommended
      size with depth range [0, 1], and the projection entry of the same view chains it. */
  method FillDepthInfoViews(depthInfo: array<DepthInfoView>, projection: array<ProjectionView>,
                            bufs: array<ViewBuffers>, props: seq<ViewConfig>)
    requires bufs.Length == depthInfo.Length && projection.Length == depthInfo.Length
    requires |props| == depthInfo.Length
    modifies depthInfo, projection
    ensures forall j :: 0 <= j < depthInfo.Length ==>
              depthInfo[j] == old(depthInfo[j]).(minDepth := 0.0, maxDepth := 1.0,
                                                 subImage := FullImage(bufs[j].depthSwapchain, props[j]))
    ensures forall j :: 0 <= j < projection.Length ==>
              projection[j] == old(projection[j]).(chainsDepthInfo := true)
  {
    for i := 0 to depthInfo.Length
      invariant forall j :: 0 <= j < i ==>
                  depthInfo[j] == old(depthInfo[j]).(minDepth := 0.0, maxDepth := 1.0,
                                                     subImage := FullImage(bufs[j].depthSwapchain, props[j]))
      invariant forall j :: i <= j < depthInfo.Length ==> depthInfo[j] == old(depthInfo[j])
      invariant forall j :: 0 <= j < i ==> projection[j] == old(projection[j]).(chainsDepthInfo := true)
      invariant forall j :: i <= j < projection.Length ==> projection[j] == old(projection[j])
    {
      depthInfo[i] := depthInfo[i].(minDepth := 0.0, maxDepth := 1.0,
                                    subImage := FullImage(bufs[i].depthSwapchain, props[i]));
      projection[i] := projection[i].(chainsDepthInfo := true);
    }
  }

  /** One iteration of the examples' main loop: UpdateXr, then BeginXrMode, a
      BeginView/EndView pair for each view it returned, and EndXrMode. Every assert holds
      on every path, the frame is closed again afterwards, and a frame is submitted
      exactly when the drained events leave the session running. */
  method AppTick(xr: RlxrState, events: seq<Event>, waited: Option<FrameState>, located: Option<seq<View>>,
                 nearZ: real, farZ: real)
    returns (submitted: Option<FrameEndInfo>)
    requires xr.Valid() && !xr.frameActive
    requires located.Some? ==> |located.value| == xr.viewCount
    modifies xr, xr.projectionViews, xr.depthInfoViews
    ensures xr.Valid() && !xr.frameActive
    ensures xr.LifecycleState() == Lifecycle.Drain(old(xr.LifecycleState()), events)
    ensures submitted.Some? <==> xr.sessionRunning
    ensures xr.sessionRunning ==> xr.BracketState() == Frames.Closed
    ensures submitted.Some? ==> |submitted.value.layer.depthInfo| == xr.viewCount
    ensures submitted.Some? ==> forall j :: 0 <= j < xr.viewCount ==>
              submitted.value.layer.depthInfo[j].nearZ == nearZ && submitted.value.layer.depthInfo[j].farZ == farZ
  {
    xr.UpdateXr(events);
    var count := xr.BeginXrMode(waited, located);
    for i := 0 to count
      invariant xr.projectionViews == old(xr.projectionViews) && xr.depthInfoViews == old(xr.depthInfoViews)
      invariant xr.Valid()
      invariant xr.LifecycleState() == Lifecycle.Drain(old(xr.LifecycleState()), events)
      invariant xr.frameActive == xr.sessionRunning
      invariant count > 0 ==> xr.IsXrConnected() && count == xr.viewCount
      invariant xr.sessionRunning ==> xr.viewActiveIndex == NoView
      invariant forall j :: 0 <= j < i ==> xr.depthInfoViews[j].nearZ == nearZ && xr.depthInfoViews[j].farZ == farZ
    {
      xr.BeginView(i, nearZ, farZ);
      xr.EndView();
    }
    submitted := xr.EndXrMode();
  }
}
