# rlxr in Dafny

A model of `src/rlxr.h`, the single-header library that connects raylib's rlgl renderer to an
OpenXR runtime. Four parts of it are modelled:

- the process-wide `rlxr` session record and its lifecycle: `InitXr`, `CloseXr`, `UpdateXr`,
  `IsXrConnected`, `IsXrFocused` and `GetXrState`;
- the frame/view bracketing protocol: `BeginXrMode`, `EndXrMode`, `BeginView` and `EndView`;
- swapchain format selection in `rlxrChooseSwapchainFormat`;
- the per-view layer arrays that `rlxrInitSession` fills, the validity logic of `GetViewPose`,
  and the reference-frame accessors `SetXrPosition`, `SetXrOrientation` and `GetXrPose`.

The record is the class `Rlxr.RlxrState`. Its methods follow the C functions branch by branch,
except in three places where they use the corrected behaviour from "## Findings":
`InitXr` clears the instance when it fails, `CloseXr` also stops the session, and
`rlxrInitSession` rejects a runtime that does not list GL_DEPTH_COMPONENT16. Each method is
proved against a pure specification in another module:

- `Status`: the public status `rlXrState`.
- `Lifecycle`: the event loop, where `Drain` specifies `UpdateXr`.
- `Frames`: the bracket state machine and call traces.
- `Swapchain`: format selection.
- `Setup`: the runtime outcomes InitXr sees, and what a correctly wired layer entry is.
- `Poses`: pose composition and validity.

`OpenXr` holds the runtime's value types, the GL format constants (`GL_RGBA16F` = 0x881A,
`GL_DEPTH_COMPONENT16` = 0x81A5) and the `~0` "no view" marker.

Every OpenXR and rlgl call is an outcome passed in as a parameter:

- a boolean for a call that only succeeds or fails;
- an `Option` where a failure is only logged and the output is left untouched (`xrWaitFrame`,
  `xrLocateViews`);
- a data value where the runtime returns data (format lists, swapchain handles, view
  configurations, located spaces).

The near and far cull distances that `BeginView` reads from rlgl are parameters too. The C
`assert`s of the frame/view functions are `requires` clauses.

The session follows the OpenXR 1.0 session lifecycle (section 9.3 of the OpenXR
specification): a READY event starts the session, STOPPING stops it, and EXITING, LOSS_PENDING
or instance loss closes the library and ends event processing.

Where the library's own comments and the code disagree, the model follows the code:

- `BeginXrMode` returns the view count for every frame of a running session, including frames
  where the runtime sets `shouldRender` to false. The header comment at src/rlxr.h:105 says it
  returns 0 when rendering is not required. Only `EndXrMode` consults `shouldRender`, and
  it then submits zero layers.
- `UpdateXr` only drains events. It attaches no action set and syncs no actions, although
  examples/action_basics.c:70 says bindings must be suggested before the first `UpdateXr`. It
  does not wait for a frame either, although examples/hello_xr.c:34 says the loop blocks in
  `UpdateXr`. `BeginXrMode` is the one that calls `xrWaitFrame`.
- The depth format selection as written (src/rlxr.h:415) fails only when the format enumeration
  fails. Otherwise it takes GL_DEPTH_COMPONENT16 if it is listed, and the runtime's first listed
  format if not. The warning at src/rlxr.h:418 and the TODO at src/rlxr.h:419 ("support
  depth-less rendering") say that a missing GL_DEPTH_COMPONENT16 was meant to fail. The model uses
  that corrected selection (see "## Findings"), and there is no depth-less fallback.
- `GetXrPose` returns both validity flags false. The compound literal leaves them
  zero-initialised.
- Before `InitXr` the record is zero-initialised: `viewActiveIndex` is 0, not `~0`, and the
  reference orientation is (0, 0, 0, 0), not the identity.

## Model

| member | source | states |
|---|---|---|
| Status.PublicState | src/rlxr.h:681-702 | Without an instance the status is UNKNOWN. UNKNOWN while connected means the runtime state is UNKNOWN, LOSS_PENDING or EXITING. |
| Status.IsFocused | src/rlxr.h:675-679 | IsXrFocused holds exactly when GetXrState reports FOCUSED. |
| Status.PublicStateTable | src/rlxr.h:684-701 | While connected: IDLE, READY and STOPPING read as IDLE; SYNCHRONIZED, VISIBLE and FOCUSED map one-to-one; the other three read as UNKNOWN. Each as an if-and-only-if. |
| Lifecycle.CloseAsWritten | src/rlxr.h:580-603 | CloseXr as written clears the instance but leaves `sessionRunning` and `state` as they were. |
| Lifecycle.Close | src/rlxr.h:580-603 | Corrected CloseXr: disconnected afterwards, state kept, not running if it was connected. Keeps the lifecycle invariant. |
| Lifecycle.RenderableViews | src/rlxr.h:838-880 | BeginXrMode returns 0 or the view count, and the view count exactly when the session runs (or there are no views). |
| Lifecycle.Drain | src/rlxr.h:605-669 | UpdateXr's loop with the corrected CloseXr (see Findings): a disconnected library or an empty queue is left as it is, and draining never reconnects. What it leaves is stated by DrainWithoutFatal and DrainStopsAtFatal. |
| Lifecycle.Step | src/rlxr.h:610-665 | With the corrected CloseXr (see Findings): a fatal event gives the closed session. Any other event leaves connectivity unchanged. |
| Lifecycle.DrainAppend | src/rlxr.h:605-669 | Draining a queue in two UpdateXr calls equals draining it in one. |
| Lifecycle.DrainKeepsInvariant | src/rlxr.h:605-669 | With the corrected CloseXr (see Findings), UpdateXr keeps "running implies connected" and never records LOSS_PENDING or EXITING. With CloseXr as written the first half fails (LossWhileRunningKeepsRendering). |
| Lifecycle.DrainWithoutFatalStaysConnected | src/rlxr.h:605-669 | With no fatal event in the queue the library stays connected. |
| Lifecycle.DrainWithoutFatal | src/rlxr.h:625-662 | With no fatal event: connected, the state is that of the last session-state event, and running is decided by the last READY or STOPPING. A READY starts the session whatever xrBeginSession returned. |
| Lifecycle.DrainStopsAtFatal | src/rlxr.h:615-659 | With the corrected CloseXr (see Findings), the first fatal event closes the library, and later events have no effect. Afterwards IsXrConnected and IsXrFocused are false and GetXrState is UNKNOWN. |
| Lifecycle.LossWhileRunningKeepsRendering | src/rlxr.h:580-603 | Counterexample: READY…FOCUSED then CloseXr as written leaves a disconnected library whose BeginXrMode still returns 2 views. |
| Lifecycle.DisconnectedRendersNothing | src/rlxr.h:838-843 | With the corrected CloseXr, a library left disconnected by UpdateXr has BeginXrMode return 0. |
| Frames.Run | src/rlxr.h:838-1021 | The asserts and bracket updates of the four frame/view calls, run over a call sequence. An empty sequence changes nothing, and a frame is active at the end only if one was at the start or the session runs. Balance is stated by TickBalanced, OneViewAtATime and FrameBalance. |
| Frames.RunAppend | src/rlxr.h:838-1021 | Running two call sequences one after the other equals running their concatenation, stopping at the first failing assert. |
| Frames.ViewCallsBalanced | examples/hello_xr.c:68-78 | In an active frame, BeginView(i); EndView() for each i in [lo, hi) trips no assert and leaves no view open. |
| Frames.TickBalanced | examples/hello_xr.c:64-80 | The examples' frame loop (BeginXrMode, one view pair per returned view, EndXrMode) trips no assert and ends with no frame active; on a running session it ends with no frame and no view open. |
| Frames.OneViewAtATime | src/rlxr.h:911-913 | Once a view is open, neither BeginView nor EndXrMode is allowed until EndView, and BeginView then EndView restores the bracket. |
| Frames.FrameBalance | src/rlxr.h:838-884 | BeginXrMode twice on a running session trips the assert. EndXrMode with no active frame changes nothing. |
| Swapchain.SelectedFormat | src/rlxr.h:312-339 | -1 if enumeration fails; the preferred format if listed; otherwise -1 with fallback, or the first listed format without it. Any other result is a listed format. |
| Swapchain.ChooseSwapchainFormat | src/rlxr.h:312-339 | The selection loop returns SelectedFormat. It needs at least one format when `fallback` is false, because the code reads `formats[0]` unguarded. |
| Setup.DepthFormat | src/rlxr.h:414-420 | Corrected depth selection: non-negative exactly when the enumeration succeeds and lists GL_DEPTH_COMPONENT16, and then it is GL_DEPTH_COMPONENT16. |
| Setup.ColorFormatBecomesDepthFormat | src/rlxr.h:415-420 | Counterexample: a runtime listing only GL_SRGB8_ALPHA8 and GL_RGBA16F passes the depth check as written with GL_SRGB8_ALPHA8 as its depth format. The corrected selection gives -1. |
| Setup.DepthFormatAsWritten | src/rlxr.h:414-417 | The depth format as written: -1 only when the enumeration fails; otherwise GL_DEPTH_COMPONENT16 if listed, else the runtime's first listed format, so the check at :417 passes for any listed format. |
| Setup.InitAsWritten | src/rlxr.h:564-570 | InitXr as written, including the depth format selection as written: when not yet connected, returns true exactly when every instance and session call succeeds and the runtime lists any format; returns true only if the instance is live afterwards. |
| Setup.ColorDepthInitSucceedsAsWritten | src/rlxr.h:414-420 | Counterexample: every call succeeds and the runtime lists GL_SRGB8_ALPHA8 then GL_RGBA16F. InitXr as written returns true with the instance live, while the corrected session setup fails. |
| Setup.NoHeadsetInitLeavesInstanceLive | src/rlxr.h:255-277 | Counterexample: xrCreateInstance succeeds and xrGetSystem fails. InitXr returns false but the instance stays live, and any later InitXr returns true. |
| RayMath.InitialFrameIsNeutral | src/rlxr.h:570-571 | The reference frame InitXr sets up composes as the identity. |
| Poses.ViewPose | src/rlxr.h:708-735 | Each validity flag is set exactly when xrLocateSpace succeeded and set that bit. A valid component is composed with the reference frame. An invalid one is zero or the identity. |
| Poses.ViewPoseAtInitialFrame | src/rlxr.h:722-733 | With the initial reference frame, valid components are exactly what the runtime located. |
| Poses.ValidityIgnoresReferenceFrame | src/rlxr.h:722-733 | The validity flags do not depend on the reference frame. |
| Poses.ReferencePose | src/rlxr.h:745-747 | GetXrPose returns the reference offsets with both flags false. |
| Rlxr.RlxrState.constructor | src/rlxr.h:224 | The zero-initialised record: disconnected, not running, no frame, status UNKNOWN, invariant holds. |
| Rlxr.RlxrState.IsXrConnected | src/rlxr.h:671-673 | When not connected, the status is UNKNOWN and the library is not focused. |
| Rlxr.RlxrState.GetXrPose | src/rlxr.h:745-747 | The current reference position and orientation, both flags false. SetXrPosition and SetXrOrientation read back through it. |
| Rlxr.RlxrState.GetViewPose | src/rlxr.h:708-735 | Each flag is set exactly when its location bit is set. A valid component is composed with the current reference frame. An invalid one is zero or the identity. |
| Rlxr.RlxrState.GetXrState | src/rlxr.h:681-702 | UNKNOWN when disconnected. UNKNOWN while connected only for the UNKNOWN, LOSS_PENDING or EXITING runtime states. |
| Rlxr.RlxrState.IsXrFocused | src/rlxr.h:675-679 | True exactly when GetXrState is FOCUSED. |
| Rlxr.RlxrState.InitInstance | src/rlxr.h:230-310 | Succeeds exactly when every call succeeds. The instance is live exactly when xrCreateInstance succeeded. On success the view count and configurations are the runtime's. |
| Rlxr.RlxrState.InitSession | src/rlxr.h:341-562 | Succeeds exactly when every call succeeds and, with the corrected depth selection, the runtime lists GL_DEPTH_COMPONENT16. On success every view's buffers hold its own swapchains and framebuffer, the arrays are fresh and wired (Wired), and the state is UNKNOWN. |
| Rlxr.CreateColorSwapchains | src/rlxr.h:425-464 | Succeeds exactly when every view's color swapchain is created. Each entry then records that view's handle and image count. |
| Rlxr.CreateDepthSwapchains | src/rlxr.h:467-506 | The same for the depth swapchains. |
| Rlxr.LoadFramebuffers | src/rlxr.h:508-510 | Every view gets its own framebuffer; nothing else changes. |
| Rlxr.FillProjectionViews | src/rlxr.h:520-533 | Entry i covers view i's color swapchain at view i's recommended size, with no chain yet; pose and fov untouched. |
| Rlxr.FillDepthInfoViews | src/rlxr.h:535-551 | Entry i covers view i's depth swapchain at the recommended size with depth range [0, 1], and projection entry i chains it. |
| Rlxr.RlxrState.InitXr | src/rlxr.h:564-578 | When already connected: returns true, changes nothing. Otherwise returns true exactly when initialisation succeeds, and the result equals IsXrConnected. A fresh success leaves status UNKNOWN, not running, no frame, no view, reference pose at origin/identity, and each view's buffers holding the runtime's swapchain handles, image counts and framebuffer. A failure leaves the library disconnected (corrected; see Findings). |
| Rlxr.RlxrState.CloseXr | src/rlxr.h:580-603 | Follows Lifecycle.Close. Afterwards not connected, not focused, status UNKNOWN. |
| Rlxr.RlxrState.UpdateXr | src/rlxr.h:605-669 | The drain loop leaves exactly Lifecycle.Drain of the old lifecycle fields. Keeps the record invariant. |
| Rlxr.RlxrState.BeginXrMode | src/rlxr.h:838-881 | Needs no active frame. Returns RenderableViews. On a running session opens a frame with no view open and takes the frame state and views the runtime wrote; otherwise changes nothing. |
| Rlxr.RlxrState.EndXrMode | src/rlxr.h:883-909 | No-op without a frame. Otherwise needs no open view, submits the projection layer over all projection entries and the depth-info entries they chain at the predicted time with one layer exactly when `shouldRender`, and closes the frame. |
| Rlxr.RlxrState.BeginView | src/rlxr.h:911-983 | Needs an active frame, no open view and index < viewCount. Copies view index's pose and fov into its projection entry and the cull distances into its depth-info entry (no other entry changes), then opens view index. |
| Rlxr.RlxrState.EndView | src/rlxr.h:985-1021 | Needs an open view in an active frame, and closes it. |
| Rlxr.RlxrState.SetXrPosition | src/rlxr.h:737-739 | GetXrPose afterwards reports the new position and the old orientation; nothing else changes. |
| Rlxr.RlxrState.SetXrOrientation | src/rlxr.h:741-743 | GetXrPose afterwards reports the old position and the new orientation; nothing else changes. |
| Rlxr.AppTick | examples/hello_xr.c:42-80 | One iteration of the example main loop, without a connectivity check, meets every assert and precondition on every path of the class, which uses the corrected CloseXr. With CloseXr as written this fails after LOSS_PENDING (second Findings row). Afterwards the frame is closed, the lifecycle is Drain of the events, a frame is submitted exactly when the session is running, and every submitted depth-info entry carries the near and far distances given to BeginView. |

## Left out

- Projection and view matrices (`XrMatrix4x4f_CreateProjectionFov`, the inverse view matrix) are
  float and `tanf` arithmetic. They are not modelled.
- `Vector3Add` and `QuaternionMultiply` are given by their textbook definitions over exact reals.
  raymath.h is not part of this model, and float rounding is not modelled.
- The OpenXR and rlgl calls themselves are left out: swapchain image acquire/wait/release,
  framebuffer attachment, viewport and scissor, matrix stack, depth test, `xrEndFrame`. Each is an
  outcome parameter, or is omitted where its failure is only logged and changes no field.
- The platform graphics binding (X11/WGL handle fetching), `TRACELOG`, and `RL_MALLOC`/`RL_FREE`
  are left out. Allocation shows up only as array lengths equal to the view count.
- The swapchain image arrays (`colorImages`, `depthImages`) are left out. Only their counts are kept.
- The `colorFormat`/`depthFormat` fields of `rlxrViewBuffers` are left out. The code never
  assigns them.
- The action and binding system, `SetXrReference`/`GetXrReference` and `GetXrViewPose` are not
  defined in `src/rlxr.h`, so they are not part of this model.
- Rlxr.RlxrState.BeginXrMode: `xrLocateViews` also rewrites `viewCount` through its count output.
  The model assumes it writes back the same count, and that a located view list has one view per
  configured view.
- Rlxr.RlxrState.BeginXrMode: the `unsigned int` to `int` conversion of the returned count is not
  modelled. The count is at most 2^32 - 1 and is returned as is.
- Rlxr.RlxrState.BeginView: requires a connected library. On a closed library the C code indexes
  the freed per-view arrays, which is undefined behaviour, so the model does not give that case a
  meaning.
- Rlxr.RlxrState.EndView: requires a connected library, for the same reason.
- Rlxr.RlxrState.InitSession: the color format is chosen, as in the code, but xrCreateSwapchain's
  use of it is not modelled. The outcome of each swapchain creation is a parameter.
- Rlxr.RlxrState.InitSession: the allocated arrays and the views' type tags are modelled. On a
  failure part-way through, the partially created swapchains are neither kept nor released.
- The examples' main loops are used only as the usage trace that `Rlxr.AppTick` and
  `Frames.TickBalanced` follow.

## Findings

| source | as written | input that shows it | evidently intended | confidence | as-written member | corrected member |
|---|---|---|---|---|---|---|
| src/rlxr.h:564-570 | `InitXr` returns false when any step after `xrCreateInstance` fails, but `rlxr.instance` keeps the created handle. `IsXrConnected()` is then true, and the next `InitXr` returns true without having set anything up. | A runtime is installed but no headset is attached: `xrCreateInstance` succeeds and `xrGetSystem` fails. | A failed `InitXr` leaves the library disconnected, and a later `InitXr` tries again. | medium, not executed | Setup.NoHeadsetInitLeavesInstanceLive | Rlxr.RlxrState.InitXr |
| src/rlxr.h:414-420 | The depth format is chosen with `fallback` false. A runtime that does not list GL_DEPTH_COMPONENT16 therefore gets its first listed format, which may be a color format, and the "preferred depth format not supported" check at :417 passes. | A runtime whose swapchain formats are GL_SRGB8_ALPHA8 then GL_RGBA16F. | Without GL_DEPTH_COMPONENT16 the check fails and `rlxrInitSession` returns false, as the warning at :418 says (`fallback` true for the depth selection). | medium, not executed | Setup.ColorFormatBecomesDepthFormat, Setup.ColorDepthInitSucceedsAsWritten | Setup.DepthFormat |
| src/rlxr.h:580-603 | `CloseXr` clears only `rlxr.instance` and leaves `sessionRunning` set. This matters when `UpdateXr` closes the library on EXITING, LOSS_PENDING or instance loss. `BeginXrMode` then keeps returning the view count, and the example loop calls `BeginView` on freed arrays. | The events READY, SYNCHRONIZED, VISIBLE, FOCUSED, then LOSS_PENDING, followed by the example loop (examples/hello_xr.c:42-80). | Closing stops the session, so `BeginXrMode` returns 0 afterwards. | medium, not executed | Lifecycle.LossWhileRunningKeepsRendering | Lifecycle.Close |
