/** What InitXr asks of the runtime, and what the per-view layer arrays it fills must
    look like. Every runtime call is an outcome given in advance, in call order. */
module Setup {
  import opened OpenXr
  import opened Swapchain

  /** The answers to rlxrInitInstance's calls. */
  datatype InstanceOutcome = InstanceOutcome(
    instanceCreated: bool,        // xrCreateInstance
    bindingsFound: bool,          // xrGetInstanceProcAddr("xrGetOpenGLGraphicsRequirementsKHR")
    systemFound: bool,            // xrGetSystem for a head-mounted display
    propertiesRead: bool,         // xrGetSystemProperties
    viewCountRead: bool,          // xrEnumerateViewConfigurationViews, count query
    viewConfigs: seq<ViewConfig>, // the primary stereo configuration's views
    viewsRead: bool)              // xrEnumerateViewConfigurationViews, fill

  /** xrCreateSwapchain for one view followed by its two xrEnumerateSwapchainImages calls. */
  datatype SwapchainResult = SwapchainFailed | SwapchainCreated(handle: SwapchainHandle, imageCount: nat)

  /** The answers to rlxrInitSession's calls; the per-view sequences hold one answer per view. */
  datatype SessionOutcome = SessionOutcome(
    requirementsRead: bool,             // xrGetOpenGLGraphicsRequirementsKHR
    sessionCreated: bool,               // xrCreateSession
    referenceSpaceCreated: bool,        // xrCreateReferenceSpace(LOCAL)
    viewSpaceCreated: bool,             // xrCreateReferenceSpace(VIEW)
    colorFormats: FormatEnumeration,    // for rlxrChooseSwapchainFormat(GL_RGBA16F, true)
    depthFormats: FormatEnumeration,    // for the depth format selection (see DepthFormat)
    colorChains: seq<SwapchainResult>,
    depthChains: seq<SwapchainResult>,
    framebuffers: seq<nat>)             // rlLoadFramebuffer

  /** rlxrViewBuffers: one view's color and depth swapchains and its framebuffer. */
  datatype ViewBuffers = ViewBuffers(
    colorSwapchain: SwapchainHandle,
    depthSwapchain: SwapchainHandle,
    colorImageCount: nat,
    depthImageCount: nat,
    framebuffer: nat)

  /** The outcomes describe one runtime: the view count fits the record's `unsigned int`,
      and each per-view sequence has one answer per view. */
  predicate WellFormed(io: InstanceOutcome, so: SessionOutcome) {
    && |io.viewConfigs| < 0x1_0000_0000
    && |so.colorChains| == |io.viewConfigs|
    && |so.depthChains| == |io.viewConfigs|
    && |so.framebuffers| == |io.viewConfigs|
  }

  predicate InstanceSucceeds(io: InstanceOutcome) {
    io.instanceCreated && io.bindingsFound && io.systemFound && io.propertiesRead
    && io.viewCountRead && io.viewsRead
  }

  /** The depth format as rlxrInitSession chooses it: with `fallback` false, so a runtime
      that does not list GL_DEPTH_COMPONENT16 gets its first listed format, whatever that
      is, and the "preferred depth format not supported" check that follows only fires
      when the enumeration fails. */
  function DepthFormatAsWritten(e: FormatEnumeration): (r: int)
    requires Selectable(false, e)
    ensures e.EnumerationFailed? ==> r == -1
    ensures e.Enumerated? ==> r in e.formats
    ensures e.Enumerated? && GlDepthComponent16 in e.formats ==> r == GlDepthComponent16
    ensures e.Enumerated? && GlDepthComponent16 !in e.formats ==> r == e.formats[0]
  {
    SelectedFormat(GlDepthComponent16, false, e)
  }

  /** The depth format as the check after it expects: GL_DEPTH_COMPONENT16 when the
      runtime lists it, and -1 (session setup fails) otherwise. */
  function DepthFormat(e: FormatEnumeration): (r: int)
    ensures r >= 0 <==> e.Enumerated? && GlDepthComponent16 in e.formats
    ensures r >= 0 ==> r == GlDepthComponent16
  {
    SelectedFormat(GlDepthComponent16, true, e)
  }

  /** GL_SRGB8_ALPHA8, a color format runtimes commonly list first. */
  const GlSrgb8Alpha8: int := 0x8C43

  /** The finding about the depth format: a runtime listing only a color format passes
      the depth check as written and gets a color format for its depth swapchains; the
      corrected selection rejects it. */
  lemma ColorFormatBecomesDepthFormat()
    ensures DepthFormatAsWritten(Enumerated([GlSrgb8Alpha8, GlRgba16f])) == GlSrgb8Alpha8
    ensures DepthFormatAsWritten(Enumerated([GlSrgb8Alpha8, GlRgba16f])) >= 0
    ensures DepthFormat(Enumerated([GlSrgb8Alpha8, GlRgba16f])) == -1
  {
    assert GlDepthComponent16 !in [GlSrgb8Alpha8, GlRgba16f];
  }

  predicate AllCreated(chains: seq<SwapchainResult>) {
    forall i :: 0 <= i < |chains| ==> chains[i].SwapchainCreated?
  }

  predicate SessionSucceeds(so: SessionOutcome) {
    so.requirementsRead && so.sessionCreated && so.referenceSpaceCreated && so.viewSpaceCreated
    && DepthFormat(so.depthFormats) >= 0 && AllCreated(so.colorChains) && AllCreated(so.depthChains)
  }

  /** rlxrInitSession as written: the depth format check passes whenever the runtime
      listed any format. */
  predicate SessionSucceedsAsWritten(so: SessionOutcome)
    requires Selectable(false, so.depthFormats)
  {
    so.requirementsRead && so.sessionCreated && so.referenceSpaceCreated && so.viewSpaceCreated
    && DepthFormatAsWritten(so.depthFormats) >= 0 && AllCreated(so.colorChains) && AllCreated(so.depthChains)
  }

  predicate InitSucceeds(io: InstanceOutcome, so: SessionOutcome)
    requires WellFormed(io, so)
  {
    InstanceSucceeds(io) && SessionSucceeds(so)
  }

  /** InitXr as written, as the pair (value returned, whether `rlxr.instance` is live after
      the call): once xrCreateInstance has stored the handle, a later failure returns false
      without clearing it, and the session succeeds with the depth format chosen as written. */
  function InitAsWritten(wasConnected: bool, io: InstanceOutcome, so: SessionOutcome): (r: (bool, bool))
    requires WellFormed(io, so) && Selectable(false, so.depthFormats)
    ensures r.0 ==> r.1
    ensures !wasConnected ==> (r.0 <==> InstanceSucceeds(io) && SessionSucceedsAsWritten(so))
  {
    if wasConnected then (true, true)
    else if !io.instanceCreated then (false, false)
    else (InstanceSucceeds(io) && SessionSucceedsAsWritten(so), true)
  }

  /** The depth format finding at the level of InitXr: when every call succeeds but the
      runtime lists only color formats, InitXr as written returns true, while the corrected
      session setup fails. */
  lemma ColorDepthInitSucceedsAsWritten(io: InstanceOutcome, so: SessionOutcome)
    requires WellFormed(io, so) && InstanceSucceeds(io)
    requires so.requirementsRead && so.sessionCreated && so.referenceSpaceCreated && so.viewSpaceCreated
    requires AllCreated(so.colorChains) && AllCreated(so.depthChains)
    requires so.depthFormats == Enumerated([GlSrgb8Alpha8, GlRgba16f])
    ensures InitAsWritten(false, io, so) == (true, true)
    ensures !SessionSucceeds(so) && !InitSucceeds(io, so)
  {
    ColorFormatBecomesDepthFormat();
  }

  /** A runtime that is installed but has no head-mounted display: xrGetSystem fails. */
  const NoHeadset := InstanceOutcome(true, true, false, false, false, [], false)

  /** The finding about InitXr: with no headset the call returns false but leaves the
      library connected, and every later InitXr returns true without initialising anything. */
  lemma NoHeadsetInitLeavesInstanceLive(so: SessionOutcome, io2: InstanceOutcome, so2: SessionOutcome)
    requires WellFormed(NoHeadset, so) && WellFormed(io2, so2)
    requires Selectable(false, so.depthFormats) && Selectable(false, so2.depthFormats)
    ensures InitAsWritten(false, NoHeadset, so) == (false, true)
    ensures InitAsWritten(InitAsWritten(false, NoHeadset, so).1, io2, so2) == (true, true)
  {
  }

  /** The rectangle of a view's swapchain images that its layer entries cover: all of it,
      at the runtime's recommended size for that view. */
  function FullImage(swapchain: SwapchainHandle, config: ViewConfig): SubImage {
    SubImage(swapchain, 0, 0, 0, config.recommendedImageRectWidth, config.recommendedImageRectHeight)
  }

  /** A projection-layer entry points at its view's color swapchain, at the recommended
      size, and chains the depth-info entry of the same view. */
  predicate ProjectionWired(pv: ProjectionView, buffers: ViewBuffers, config: ViewConfig) {
    pv.subImage == FullImage(buffers.colorSwapchain, config) && pv.chainsDepthInfo
  }

  /** A depth-info entry points at its view's depth swapchain, at the recommended size,
      with the depth range [0, 1]. */
  predicate DepthInfoWired(dv: DepthInfoView, buffers: ViewBuffers, config: ViewConfig) {
    dv.subImage == FullImage(buffers.depthSwapchain, config) && dv.minDepth == 0.0 && dv.maxDepth == 1.0
  }
}
