# hdPrman camera context, modelled in Dafny

The model covers `HdPrmanCameraContext`, the part of the hdPrman render delegate
that keeps RenderMan's camera in step with the active Hydra camera. Its pieces:

- **Invalidation flag.** The context holds the active scene camera, the framing
  (display window, data window, pixel aspect ratio) and the window policy. It
  also holds a flag that says whether Riley, RenderMan's scene interface, must
  be updated.
- **Screen window.** The camera's filmback, divided by the focal length, is
  conformed to the display window's aspect ratio. It is then re-based so that,
  spread over the whole render buffer, it maps image space onto screen-window
  space exactly as the conformed window does over the display window.
- **Crop window.** It is computed from the data window and the buffer size,
  with a bias of 1/128 pixel. RenderMan's reconstruction of pixel bounds gives
  back the data window, clamped to the buffer.
- **Projection node and camera parameters.** These are the shader name,
  fStop, focal length, focus distance, fov, the clipping range and the screen
  window.
- **Camera transforms.** Time-sampled transforms have the z axis flipped for
  the camera and are passed through unchanged for clipping planes.
- **Clipping planes.** Each plane equation becomes a unit normal and a point on
  the plane. A degenerate plane is dropped.
- **Commit.** The Riley camera is modified, every clipping plane the context
  created before is deleted, and the new ones are created. The context keeps
  the ids of the new planes.
- **Placeholder camera.** `Begin` creates it.

Riley is a class holding a log of the calls made to it, an allocator of fresh
ids and the set of live clipping planes. The context's class methods are
proved against that log: each states the exact calls it makes and the ids it
keeps. `Scenarios` drives the class through call sequences a client makes.

Modules:

- `Geometry` holds vectors, ranges and matrices.
- `Scene` holds the camera attributes, the framing, the policy and the scene
  camera.
- `RtParams` holds parameter lists.
- `ScreenWindow`, `CropWindow`, `ClipPlane`, `Matrices`, `Params` and `Riley`
  each cover one piece above.
- `Context` holds the context class.
- `Scenarios` holds client call sequences.

## Model

| member | source | states |
|---|---|---|
| ScreenWindow.GetScreenWindow | third_party/renderman-24/plugin/hdPrman/cameraContext.cpp:119-140 | The window has the filmback's size and centre (aperture offset), divided by the focal length for a perspective camera with nonzero focal length, undivided otherwise. |
| ScreenWindow.OrthographicScreenWindowIsFilmback | third_party/renderman-24/plugin/hdPrman/cameraContext.cpp:125-133 | An orthographic camera's screen window is its filmback plane, whatever its focal length. |
| ScreenWindow.PerspectiveScreenWindowDividesByFocalLength | third_party/renderman-24/plugin/hdPrman/cameraContext.cpp:125-139 | A perspective camera's window is the orthographic one divided by a positive focal length, and equal to it when the focal length is 0. |
| ScreenWindow.RebaseToRenderBuffer | third_party/renderman-24/plugin/hdPrman/cameraContext.cpp:157-188 | Per axis, the re-based window's size is the conformed window's size scaled by buffer size / display window size. Its left edge lies the display window's offset in pixels to the left of the conformed window's, and its top edge the display window's y offset in pixels above it. |
| ScreenWindow.RebasePreservesImageMapping | third_party/renderman-24/plugin/hdPrman/cameraContext.cpp:142-188 | Over the whole render buffer, the re-based window maps every image x and y to the same screen coordinate as the conformed window does over the display window. |
| ScreenWindow.RebaseRoundTrip | third_party/renderman-24/plugin/hdPrman/cameraContext.cpp:157-188 | Re-basing loses nothing: the conformed window is recovered exactly from the re-based one. |
| ScreenWindow.RebaseOverWholeBufferIsIdentity | third_party/renderman-24/plugin/hdPrman/cameraContext.cpp:157-188 | When the display window is the whole buffer at the origin, re-basing leaves the window unchanged. |
| RtParams.NameInjective | third_party/renderman-24/plugin/hdPrman/cameraContext.cpp:592-603 | Between canonical keys (no Other key spelling a reserved name), equal RenderMan names mean equal keys, as RtParamList keys by name. |
| ScreenWindow.SafeDiv | third_party/renderman-24/plugin/hdPrman/cameraContext.cpp:190-200 | The result is 1 for divisor 0 and the exact quotient otherwise. |
| ScreenWindow.DisplayWindowAspect | third_party/renderman-24/plugin/hdPrman/cameraContext.cpp:202-210 | The aspect is the display window's width over height times the pixel aspect ratio; for zero height it is the pixel aspect ratio. |
| ScreenWindow.ToVec4f | third_party/renderman-24/plugin/hdPrman/cameraContext.cpp:212-220 | Four values in the order (xmin, xmax, ymin, ymax), read back to the same window. The function FromVec4f reads them back. |
| ScreenWindow.ToVec4fFromVec4f | third_party/renderman-24/plugin/hdPrman/cameraContext.cpp:212-220 | The other direction of the round trip: any four values come back unchanged. So FromVec4f is one-to-one, and ComputeScreenWindow's contract, stated on FromVec4f(v), fixes the four values v themselves. |
| ScreenWindow.ComputeScreenWindow | third_party/renderman-24/plugin/hdPrman/cameraContext.cpp:222-253 | Four values; for a nonempty buffer they map image space to screen space as the camera window, conformed to the display aspect, does over the display window. |
| CropWindow.DivRoundDown | third_party/renderman-24/plugin/hdPrman/cameraContext.cpp:562-577 | The result lies in [0, 1]. For a positive b it is exactly (a - 1/128) / b inside the buffer, 0 at or below 0 and 1 beyond b. |
| CropWindow.DivRoundDownMonotonic | third_party/renderman-24/plugin/hdPrman/cameraContext.cpp:562-577 | A larger pixel bound never gives a smaller fraction. |
| CropWindow.ComputeCropWindow | third_party/renderman-24/plugin/hdPrman/cameraContext.cpp:579-590 | Four fractions in [0, 1] from minX, maxX + 1, minY and maxY + 1, with min <= max for a nonempty data window. |
| CropWindow.CropWindowRecoversDataWindow | third_party/renderman-24/plugin/hdPrman/cameraContext.cpp:543-590 | RenderMan's ceil-and-clamp reconstruction of the crop window gives back the data window's corners, clamped to the buffer. |
| CropWindow.AxisRecovered | third_party/renderman-24/plugin/hdPrman/cameraContext.cpp:555-577 | For one axis, the reconstructed first and last pixels are the clamped bounds. |
| CropWindow.CropWindowExample | third_party/renderman-24/plugin/hdPrman/cameraContext.cpp:579-590 | Data window (100,100)-(500,400) in a 1920x1080 buffer is reconstructed exactly. |
| Matrices.FlipZIsLeftProduct | third_party/renderman-24/plugin/hdPrman/cameraContext.cpp:387-398 | FlipZ, which negates a sample's z row, is left-multiplication by diag(1, 1, -1, 1). This row covers the function FlipZ. |
| Matrices.UnflippedMatricesAreSamples | third_party/renderman-24/plugin/hdPrman/cameraContext.cpp:387-402 | Without the flip the samples pass through unchanged. |
| Matrices.FlippedMatricesAreProducts | third_party/renderman-24/plugin/hdPrman/cameraContext.cpp:392-398 | With the flip, each converted sample is diag(1, 1, -1, 1) times the sample. Together with UnflippedMatricesAreSamples, this row covers the function ConvertedMatrices. |
| Matrices.ToRtMatrices | third_party/renderman-24/plugin/hdPrman/cameraContext.cpp:383-402 | The loop fills one matrix per sample, in order, each flipped exactly when flipZ is set. |
| Params.ComputeProjectionShader | third_party/renderman-24/plugin/hdPrman/cameraContext.cpp:255-272 | PxrPerspective if and only if perspective, PxrOrthographic if and only if orthographic. |
| Params.ComputeNodeParams | third_party/renderman-24/plugin/hdPrman/cameraContext.cpp:274-320 | fStop is always present: the camera's when positive, else RI_INFINITY. focalLength and focalDistance are present exactly when positive, with their values. fov = 90 is present exactly for perspective. Nothing else is present. |
| Params.NodeParamsFStopPositive | third_party/renderman-24/plugin/hdPrman/cameraContext.cpp:280-290 | RenderMan is always given a positive f-stop. |
| Params.ComputeCameraParams | third_party/renderman-24/plugin/hdPrman/cameraContext.cpp:322-379 | nearClip and farClip are present together, exactly when min < max, with the range's values. The screen window is always present and is the computed one. Nothing else is present. |
| ClipPlane.ToClipPlaneParams | third_party/renderman-24/plugin/hdPrman/cameraContext.cpp:477-503 | No parameters exactly when the normal direction's length is 0. |
| ClipPlane.ToClipPlaneParamsCorrect | third_party/renderman-24/plugin/hdPrman/cameraContext.cpp:485-500 | Given the true length: the normal has unit length and points along (a, b, c), and the origin satisfies the plane equation. |
| ClipPlane.ClipPlaneParamList | third_party/renderman-24/plugin/hdPrman/cameraContext.cpp:490-500 | The list holds exactly planeNormal, set to the converted unit normal, and planeOrigin, set to the converted origin. |
| ClipPlane.ClipPlaneExample | third_party/renderman-24/plugin/hdPrman/cameraContext.cpp:477-503 | The plane z = 5 converts to normal (0,0,1) and origin (0,0,5). |
| ClipPlane.DegenerateClipPlaneExample | third_party/renderman-24/plugin/hdPrman/cameraContext.cpp:484-487 | The zero plane is dropped. |
| ClipPlane.ValidClipPlanes | third_party/renderman-24/plugin/hdPrman/cameraContext.cpp:535-540 | Riley never gets more planes than the camera has. |
| ClipPlane.ValidClipPlanesComeFromInput | third_party/renderman-24/plugin/hdPrman/cameraContext.cpp:535-540 | Every plane Riley gets is the conversion of some camera plane, with a unit normal and an origin on that plane. |
| ClipPlane.ValidClipPlanesKeepsAll | third_party/renderman-24/plugin/hdPrman/cameraContext.cpp:535-540 | With no degenerate plane, every plane reaches Riley. |
| ClipPlane.ValidClipPlanesDropsDegenerate | third_party/renderman-24/plugin/hdPrman/cameraContext.cpp:535-540 | With only degenerate planes, none reaches Riley. |
| ClipPlane.ValidClipPlanesCount | third_party/renderman-24/plugin/hdPrman/cameraContext.cpp:535-540 | Riley gets exactly as many planes as the camera has planes of nonzero normal length, counted independently of the conversion (NonDegenerateCount). |
| ClipPlane.MixedClipPlanes | third_party/renderman-24/plugin/hdPrman/cameraContext.cpp:535-540 | Of three planes with a degenerate middle one, the conversions of the first and the third reach Riley, in that order. |
| ClipPlane.ValidClipPlanesSnoc | third_party/renderman-24/plugin/hdPrman/cameraContext.cpp:535-540 | One more camera plane adds its conversion at the end, or nothing when it is degenerate. |
| Context.PlaceholderNode | third_party/renderman-24/plugin/hdPrman/cameraContext.cpp:620-630 | The placeholder projection is PxrPerspective with handle main_cam_projection and only fov = 60. |
| Context.PlaceholderParams | third_party/renderman-24/plugin/hdPrman/cameraContext.cpp:632-644 | The shutter curve is split into open time 0, close time 0.05 and the eight opening values. |
| Context.TranslateZMovesOrigin | third_party/renderman-24/plugin/hdPrman/cameraContext.cpp:646-650 | The placeholder matrix moves the origin to z = -5 (the Translate call). |
| Context.PlaceholderTransform | third_party/renderman-24/plugin/hdPrman/cameraContext.cpp:646-650 | There is one sample at time 0, the identity translated by -5 in z. |
| Context.ProjectionNode | third_party/renderman-24/plugin/hdPrman/cameraContext.cpp:423-428 | The node has the projection's shader, handle main_cam_projection and the node parameters. |
| Context.CameraTransform | third_party/renderman-24/plugin/hdPrman/cameraContext.cpp:446-460 | The camera's sample times, and each sample left-multiplied by diag(1, 1, -1, 1); one time per matrix. |
| Context.PlaneTransform | third_party/renderman-24/plugin/hdPrman/cameraContext.cpp:522-533 | The camera's samples and times, unchanged; one time per matrix. |
| Context.DeleteCallsAt | third_party/renderman-24/plugin/hdPrman/cameraContext.cpp:509-512 | The k-th deletion call deletes the k-th held id. With the length stated by DeleteCalls itself, this row covers DeleteCalls, the log of the delete loop. |
| Context.CreateCallsAt | third_party/renderman-24/plugin/hdPrman/cameraContext.cpp:535-540 | The k-th creation call creates the k-th kept plane, with the transform, and is given id firstId + k. With the length stated by CreateCalls itself, this row covers CreateCalls, the log of the create loop. |
| Context.PlanesCreatedStep | third_party/renderman-24/plugin/hdPrman/cameraContext.cpp:535-540 | One more created plane extends the call log, the ids, the next id and the live set together. |
| Context.HdPrmanCameraContext.constructor | third_party/renderman-24/plugin/hdPrman/cameraContext.cpp:36-41 | The context starts with no camera, the Fit policy, default framing, no clipping planes, and is valid. |
| Context.HdPrmanCameraContext.MarkCameraInvalid | third_party/renderman-24/plugin/hdPrman/cameraContext.cpp:43-51 | The flag becomes set exactly when the changed camera is the active one's path; otherwise it is unchanged. |
| Context.HdPrmanCameraContext.SetCamera | third_party/renderman-24/plugin/hdPrman/cameraContext.cpp:53-71 | The camera is stored. A camera with a new path invalidates and records the path. Dropping an existing camera invalidates and keeps the path. |
| Context.HdPrmanCameraContext.SetFraming | third_party/renderman-24/plugin/hdPrman/cameraContext.cpp:73-80 | The framing is stored; the flag becomes set exactly when it differs from the old framing. |
| Context.HdPrmanCameraContext.SetWindowPolicy | third_party/renderman-24/plugin/hdPrman/cameraContext.cpp:82-90 | The policy is stored; the flag becomes set exactly when it differs from the old policy. |
| Context.HdPrmanCameraContext.IsInvalid | third_party/renderman-24/plugin/hdPrman/cameraContext.cpp:92-96 | Returns the flag. |
| Context.HdPrmanCameraContext.MarkValid | third_party/renderman-24/plugin/hdPrman/cameraContext.cpp:605-609 | Clears the flag. |
| Context.HdPrmanCameraContext.RileyOptions | third_party/renderman-24/plugin/hdPrman/cameraContext.cpp:592-603 | Ri:CropWindow is set to the crop window of the framing's data window, and it is the only key with that RenderMan name. Every other option is kept, and the list stays well formed. |
| Context.HdPrmanCameraContext.Begin | third_party/renderman-24/plugin/hdPrman/cameraContext.cpp:611-660 | Creates main_cam with the placeholder node, params and transform, keeps its fresh id, and makes it the default dicing camera; clipping-plane ownership is kept. |
| Context.HdPrmanCameraContext.UpdateRileyCamera | third_party/renderman-24/plugin/hdPrman/cameraContext.cpp:418-471 | Exactly one ModifyCamera call with the held id, the projection node, the flipped transform and the camera parameters. |
| Context.HdPrmanCameraContext.DeleteClipPlanes | third_party/renderman-24/plugin/hdPrman/cameraContext.cpp:508-513 | One deletion per held id, in order; the ids are cleared and the deleted planes are no longer live. |
| Context.HdPrmanCameraContext.CreateClipPlanes | third_party/renderman-24/plugin/hdPrman/cameraContext.cpp:515-540 | One creation per non-degenerate plane, in order. The ids kept are the fresh consecutive ids Riley returned, and they are live. |
| Context.HdPrmanCameraContext.UpdateClipPlanes | third_party/renderman-24/plugin/hdPrman/cameraContext.cpp:505-541 | The call log is the deletions followed by the creations. The held ids are the new ones, and the live planes lose the old ids and gain the new ones. |
| Context.HdPrmanCameraContext.UpdateRileyCameraAndClipPlanes | third_party/renderman-24/plugin/hdPrman/cameraContext.cpp:403-416 | Without a camera nothing happens. Otherwise the log is ModifyCamera, then the deletions, then the creations. The live planes lose the held ids and gain the new ones; planes the context does not hold survive. When Riley's live planes were the context's, afterwards they are exactly the new ones, and no old plane survives. |
| Scenarios.SameCameraTwice | third_party/renderman-24/plugin/hdPrman/cameraContext.cpp:53-71 | Setting the active camera again leaves the context valid. |
| Scenarios.DroppingCameraInvalidates | third_party/renderman-24/plugin/hdPrman/cameraContext.cpp:61-68 | Dropping the active camera invalidates. |
| Scenarios.CameraBackAfterDrop | third_party/renderman-24/plugin/hdPrman/cameraContext.cpp:56-60 | Setting the same camera again after a drop does not invalidate, because the path survived the drop. |
| Scenarios.OnlyActiveCameraInvalidates | third_party/renderman-24/plugin/hdPrman/cameraContext.cpp:43-51 | A change to another camera keeps the context valid; a change to the active one invalidates. |
| Scenarios.UnchangedFramingAndPolicy | third_party/renderman-24/plugin/hdPrman/cameraContext.cpp:73-90 | Re-setting the same framing and policy keeps the context valid. |
| Scenarios.CommittedOnce | third_party/renderman-24/plugin/hdPrman/cameraContext.cpp:403-416 | After one commit of a fresh context with a camera, the context holds exactly Riley's live planes. |
| Scenarios.TwoCommits | third_party/renderman-24/plugin/hdPrman/cameraContext.cpp:403-416 | After two commits, Riley's live planes are exactly the second commit's, and none of the first commit's ids survives. |

## Left out

- Riley itself is not part of this model. It is a call log, an id allocator and the set of live clipping planes. Ids are natural numbers handed out in order.
- GfVec3f::GetLength (a square root) is the parameter `length`. The properties of converted planes hold when `length` is the true Euclidean length (`IsLengthOf`, `MeasuresPlanes`).
- CameraUtilConformedWindow is not part of this model. It is the function parameter `conform` of ComputeScreenWindow.
- Floating point is not modelled: all arithmetic is exact on reals.
  - The 1/128 bias of the crop window guards against float rounding; here it is exact.
  - The double-to-float conversions of matrices, windows and plane parameters are the identity.
  - RI_INFINITY is the real 1e38.
  - DivRoundDown with a zero buffer size follows IEEE division: a positive bound gives +infinity, clamped to 1, and any other bound gives -infinity, clamped to 0.
- ScreenWindow.GetScreenWindow: requires a non-negative focal length. For a negative focal length, the source's range division swaps the corners of the window; that case is not modelled.
- ScreenWindow.ComputeScreenWindow: requires a display window of nonzero width and height. For zero height, _SafeDiv reports a coding error and returns 1 (lines 194-199). For zero width with nonzero height, _SafeDiv returns 0 without an error (line 209). In both cases the re-basing at lines 162-169 then divides by the zero size.
- The TF_CODING_ERROR diagnostic of _SafeDiv is not modelled; only its fallback value 1 is.
- The fallback return after the switch in _ComputeProjectionShader cannot be reached: Projection has exactly two cases.
- Parameter lists are maps from a parameter name to a value. The names the context sets are constructors of `ParamName`, `Name` gives their RenderMan strings, and all other names are `Other`. The RtParamList representation is not modelled.
- HDPRMAN_MAX_TIME_SAMPLES (the inline capacity of the small vectors) is not modelled; sample sequences are unbounded.
- The two loops of _UpdateClipPlanes (delete, then create) are the methods DeleteClipPlanes and CreateClipPlanes; UpdateClipPlanes calls them in the source's order.
- Dropping the camera (lines 61-68) invalidates but keeps the recorded camera path. Setting the same camera again afterwards compares against that path (lines 56-60) and does not invalidate. The model states this (SetCamera, Scenarios.CameraBackAfterDrop).
- Context.HdPrmanCameraContext.RileyOptions: requires a well-formed option list, one where no `Other` key spells a name that has its own constructor. An RtParamList keys by name, so it cannot hold two entries for Ri:CropWindow; the requirement rules out exactly the maps that have no RtParamList counterpart.
- Time samples are `SampleArray`, with one time per matrix: HdTimeSampleArray sizes both from one count, and the transforms handed to Riley use that count (lines 461-463).
