/**
 * The parameter lists built for the Riley camera (cameraContext.cpp, lines
 * 255-379): the projection shader and its parameters, and the camera's own
 * parameters (clipping range and screen window).
 */
module Params {
  import opened Geometry
  import opened Scene
  import opened RtParams
  import opened ScreenWindow

  /** RI_INFINITY: an f-stop this large disables depth of field. */
  const RiInfinity: real := 1.0e38

  const PxrPerspective := "PxrPerspective"
  const PxrOrthographic := "PxrOrthographic"

  /** The field of view fixed for perspective cameras; the true one is carried by the screen window. */
  const PerspectiveFov: real := 90.0

  /** _ComputeProjectionShader: the projection shader for each projection. */
  function ComputeProjectionShader(projection: Projection): (name: string)
    ensures name == PxrPerspective <==> projection == Perspective
    ensures name == PxrOrthographic <==> projection == Orthographic
  {
    match projection
    case Perspective => PxrPerspective
    case Orthographic => PxrOrthographic
  }

  /**
   * _ComputeNodeParams: fStop (the camera's when positive, else infinity), then
   * focalLength and focalDistance only when positive (0 means "not authored"),
   * then fov = 90 for a perspective camera.
   */
  function ComputeNodeParams(cam: CameraAttrs): (params: ParamList)
    ensures params.Keys <= {FStopKey, FocalLengthKey, FocalDistanceKey, FovKey}
    ensures FStopKey in params
    ensures cam.fStop > 0.0 ==> params[FStopKey] == Float(cam.fStop)
    ensures cam.fStop <= 0.0 ==> params[FStopKey] == Float(RiInfinity)
    ensures FocalLengthKey in params <==> cam.focalLength > 0.0
    ensures FocalLengthKey in params ==> params[FocalLengthKey] == Float(cam.focalLength)
    ensures FocalDistanceKey in params <==> cam.focusDistance > 0.0
    ensures FocalDistanceKey in params ==> params[FocalDistanceKey] == Float(cam.focusDistance)
    ensures FovKey in params <==> cam.projection == Perspective
    ensures FovKey in params ==> params[FovKey] == Float(PerspectiveFov)
  {
    var fStop := if cam.fStop > 0.0 then cam.fStop else RiInfinity;
    var withFStop := map[FStopKey := Float(fStop)];
    var withFocalLength :=
      if cam.focalLength > 0.0 then withFStop[FocalLengthKey := Float(cam.focalLength)] else withFStop;
    var withFocusDistance :=
      if cam.focusDistance > 0.0 then withFocalLength[FocalDistanceKey := Float(cam.focusDistance)]
      else withFocalLength;
    if cam.projection == Perspective then withFocusDistance[FovKey := Float(PerspectiveFov)]
    else withFocusDistance
  }

  /** The projection node always carries a positive f-stop: RenderMan never sees f-stop 0. */
  lemma NodeParamsFStopPositive(cam: CameraAttrs)
    ensures var v := ComputeNodeParams(cam)[FStopKey]; v.Float? && v.f > 0.0
  {
  }

  /**
   * _ComputeCameraParams: nearClip and farClip together, only when the clipping
   * range holds more than one point (min < max strictly), and the screen window.
   */
  function ComputeCameraParams(
    cam: CameraAttrs, framing: Framing, policy: ConformPolicy, bufferSize: Vec2i,
    conform: (Range2, ConformPolicy, real) -> Range2): (params: ParamList)
    requires cam.focalLength >= 0.0
    requires Width(framing.displayWindow) != 0.0 && Height(framing.displayWindow) != 0.0
    ensures NearClipKey in params <==> cam.clippingRange.min < cam.clippingRange.max
    ensures FarClipKey in params <==> cam.clippingRange.min < cam.clippingRange.max
    ensures NearClipKey in params ==>
      params[NearClipKey] == Float(cam.clippingRange.min) && params[FarClipKey] == Float(cam.clippingRange.max)
    ensures ScreenWindowKey in params
    ensures params[ScreenWindowKey] == FloatArray(ComputeScreenWindow(cam, framing, policy, bufferSize, conform))
    ensures params.Keys <= {NearClipKey, FarClipKey, ScreenWindowKey}
  {
    var range := cam.clippingRange;
    var withClip :=
      if range.min < range.max then map[NearClipKey := Float(range.min), FarClipKey := Float(range.max)]
      else EmptyParams;
    withClip[ScreenWindowKey := FloatArray(ComputeScreenWindow(cam, framing, policy, bufferSize, conform))]
  }
}
