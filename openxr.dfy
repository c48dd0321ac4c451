/** Values exchanged with the OpenXR runtime and the GL constants rlxr passes to it.
    Handles are plain numbers; only their identity matters to the model. */
module OpenXr {

  /** C `unsigned int` / `uint32_t`. */
  type uint32 = x: int | 0 <= x < 0x1_0000_0000

  /** `~0` stored in an `unsigned int`: rlxr's marker for "no view open". */
  const NoView: uint32 := 0xFFFF_FFFF

  /** GL_RGBA16F and GL_DEPTH_COMPONENT16, the preferred swapchain formats. */
  const GlRgba16f: int := 0x881A
  const GlDepthComponent16: int := 0x81A5

  type SwapchainHandle = nat

  datatype Option<T> = None | Some(value: T)

  /** XrSessionState (OpenXR 1.0, section 9.3 "Session Lifecycle"), values 0 to 8. */
  datatype SessionState =
    | Unknown
    | Idle
    | Ready
    | Synchronized
    | Visible
    | Focused
    | Stopping
    | LossPending
    | Exiting

  /** The two session states after which the application must destroy the session. */
  predicate EndsSession(s: SessionState) {
    s == LossPending || s == Exiting
  }

  /** The events xrPollEvent can hand to rlxr, by the type tag it switches on. */
  datatype Event =
    | EventsLost(lostEventCount: nat)
    | InstanceLossPending
    | ReferenceSpaceChangePending
    | SessionStateChanged(newState: SessionState)
    | Unhandled  // any other event type, e.g. an interaction profile change

  /** The events on which UpdateXr closes the library and returns. */
  predicate Fatal(e: Event) {
    e.InstanceLossPending? || (e.SessionStateChanged? && EndsSession(e.newState))
  }

  /** XrVector3f / raylib Vector3 and XrQuaternionf / raylib Quaternion, with exact reals. */
  datatype Vector3 = Vector3(x: real, y: real, z: real)
  datatype Quaternion = Quaternion(x: real, y: real, z: real, w: real)

  const Origin := Vector3(0.0, 0.0, 0.0)
  const IdentityRotation := Quaternion(0.0, 0.0, 0.0, 1.0)

  /** XrPosef. */
  datatype RawPose = RawPose(orientation: Quaternion, position: Vector3)

  /** XrSpaceLocationFlags and the two bits rlxr tests. */
  type SpaceLocationFlags = bv64
  const OrientationValidBit: SpaceLocationFlags := 0x1
  const PositionValidBit: SpaceLocationFlags := 0x2

  /** XrSpaceLocation as it stands after xrLocateSpace. */
  datatype SpaceLocation = SpaceLocation(locationFlags: SpaceLocationFlags, pose: RawPose)

  /** XrFovf. */
  datatype Fov = Fov(angleLeft: real, angleRight: real, angleUp: real, angleDown: real)

  /** XrView, one per eye, written by xrLocateViews. */
  datatype View = View(pose: RawPose, fov: Fov)

  const ZeroPose := RawPose(Quaternion(0.0, 0.0, 0.0, 0.0), Origin)
  const ZeroView := View(ZeroPose, Fov(0.0, 0.0, 0.0, 0.0))

  /** The parts of XrFrameState rlxr reads, written by xrWaitFrame. */
  datatype FrameState = FrameState(predictedDisplayTime: int, shouldRender: bool)

  /** The parts of XrViewConfigurationView rlxr reads. */
  datatype ViewConfig = ViewConfig(
    recommendedImageRectWidth: uint32,
    recommendedImageRectHeight: uint32,
    recommendedSwapchainSampleCount: uint32)

  /** XrSwapchainSubImage: a swapchain and a rectangle inside its images. */
  datatype SubImage = SubImage(
    swapchain: SwapchainHandle,
    imageArrayIndex: nat,
    offsetX: int,
    offsetY: int,
    width: uint32,
    height: uint32)

  /** XrCompositionLayerProjectionView; `chainsDepthInfo` stands for `next` pointing at the
      depth-info entry of the same index (otherwise `next` is NULL). */
  datatype ProjectionView = ProjectionView(pose: RawPose, fov: Fov, subImage: SubImage, chainsDepthInfo: bool)

  /** XrCompositionLayerDepthInfoKHR. */
  datatype DepthInfoView = DepthInfoView(subImage: SubImage, minDepth: real, maxDepth: real, nearZ: real, farZ: real)

  const EmptySubImage := SubImage(0, 0, 0, 0, 0, 0)
  const EmptyProjectionView := ProjectionView(ZeroPose, Fov(0.0, 0.0, 0.0, 0.0), EmptySubImage, false)
  const EmptyDepthInfoView := DepthInfoView(EmptySubImage, 0.0, 0.0, 0.0, 0.0)

  /** XrCompositionLayerProjection as EndXrMode builds it, and the XrFrameEndInfo around it.
      `depthInfo` holds the depth-info entries the projection entries chain through `next`. */
  datatype ProjectionLayer = ProjectionLayer(viewCount: uint32, views: seq<ProjectionView>,
                                             depthInfo: seq<DepthInfoView>)
  datatype FrameEndInfo = FrameEndInfo(displayTime: int, layerCount: nat, layer: ProjectionLayer)
}
