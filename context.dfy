/**
 * HdPrmanCameraContext (cameraContext.cpp): the active scene camera, the framing
 * and the window policy, an invalidation flag that says whether Riley must be
 * updated, and the Riley camera and clipping planes that were created for them.
 *
 * Two computations the context delegates are parameters here:
 *   conform - CameraUtilConformedWindow (conforming a window to an aspect ratio);
 *   length  - GfVec3f::GetLength (the Euclidean length, a square root).
 */
module Context {
  import opened Geometry
  import opened Wrappers
  import opened Scene
  import opened RtParams
  import opened ScreenWindow
  import opened CropWindow
  import opened ClipPlane
  import opened Matrices
  import opened Params
  import opened Riley

  /** The name of the Riley camera, also the default dicing camera. */
  const MainCam := "main_cam"

  /** The handle of the camera's projection node. */
  const MainCamProjection := "main_cam_projection"

  /** The field of view of the placeholder projection created by Begin. */
  const PlaceholderFov: real := 60.0

  /**
   * The shutter curve of the placeholder camera: open time, close time, then the
   * eight values of the shutter-opening curve.
   */
  const ShutterCurve: seq<real> := [0.0, 0.05, 0.0, 0.0, 0.0, 0.0, 0.05, 1.0, 0.35, 0.0]

  /** The placeholder projection: perspective, fov 60. */
  function PlaceholderNode(): (node: ShadingNode)
    ensures node.name == PxrPerspective && node.handle == MainCamProjection
    ensures node.params == map[FovKey := Float(PlaceholderFov)]
  {
    ShadingNode(ComputeProjectionShader(Perspective), MainCamProjection, map[FovKey := Float(PlaceholderFov)])
  }

  /** The placeholder camera parameters: the shutter curve split into Riley's three parameters. */
  function PlaceholderParams(): (params: ParamList)
    ensures params.Keys == {ShutterOpenTimeKey, ShutterCloseTimeKey, ShutterOpeningKey}
    ensures params[ShutterOpenTimeKey] == Float(0.0) && params[ShutterCloseTimeKey] == Float(0.05)
    ensures params[ShutterOpeningKey] == FloatArray([0.0, 0.0, 0.0, 0.0, 0.05, 1.0, 0.35, 0.0])
  {
    map[ShutterOpenTimeKey := Float(ShutterCurve[0]),
        ShutterCloseTimeKey := Float(ShutterCurve[1]),
        ShutterOpeningKey := FloatArray(ShutterCurve[2..])]
  }

  /**
   * The identity translated by (0, 0, dz). RtMatrix4x4 uses row vectors, so the
   * translation sits in the last row.
   */
  function TranslateZ(dz: real): Matrix4
  {
    Matrix4(Identity().r0, Identity().r1, Identity().r2, Vec4(0.0, 0.0, dz, 1.0))
  }

  /** TranslateZ moves the origin to (0, 0, dz). */
  lemma TranslateZMovesOrigin(dz: real)
    ensures RowTimes(Vec4(0.0, 0.0, 0.0, 1.0), TranslateZ(dz)) == Vec4(0.0, 0.0, dz, 1.0)
  {
    var m := TranslateZ(dz);
    UnitRowTimes(m, 1.0);
    ScaleByOne(m.r3);
  }

  /** The placeholder transform: a single sample at time 0 placing the camera at z = -5. */
  function PlaceholderTransform(): (xform: Transform)
    ensures xform.matrices == [TranslateZ(-5.0)] && xform.times == [0.0]
  {
    Transform([TranslateZ(-5.0)], [0.0])
  }

  /** The projection node _UpdateRileyCamera builds for a camera. */
  function ProjectionNode(cam: CameraAttrs): (node: ShadingNode)
    ensures node.name == ComputeProjectionShader(cam.projection) && node.handle == MainCamProjection
    ensures node.params == ComputeNodeParams(cam)
  {
    ShadingNode(ComputeProjectionShader(cam.projection), MainCamProjection, ComputeNodeParams(cam))
  }

  /** The Riley camera transform: the camera's samples with z flipped, at the camera's sample times. */
  function CameraTransform(cam: CameraAttrs): (xform: Transform)
    ensures xform.times == cam.timeSampleXforms.times
    ensures |xform.matrices| == |cam.timeSampleXforms.values|
    ensures |xform.matrices| == |xform.times|
    ensures forall i :: 0 <= i < |xform.matrices| ==>
      xform.matrices[i] == Mul(FlipZMatrix, cam.timeSampleXforms.values[i])
  {
    FlippedMatricesAreProducts(cam.timeSampleXforms.values);
    Transform(ConvertedMatrices(cam.timeSampleXforms.values, true), cam.timeSampleXforms.times)
  }

  /** The clipping-plane transform: the camera's own samples, unflipped. */
  function PlaneTransform(cam: CameraAttrs): (xform: Transform)
    ensures xform == Transform(cam.timeSampleXforms.values, cam.timeSampleXforms.times)
    ensures |xform.matrices| == |xform.times|
  {
    UnflippedMatricesAreSamples(cam.timeSampleXforms.values);
    Transform(ConvertedMatrices(cam.timeSampleXforms.values, false), cam.timeSampleXforms.times)
  }

  /** The Riley calls deleting the planes ids, in order. */
  function DeleteCalls(ids: seq<nat>): (calls: seq<Call>)
    ensures |calls| == |ids|
  {
    if ids == [] then [] else DeleteCalls(ids[..|ids| - 1]) + [DeleteClippingPlane(ids[|ids| - 1])]
  }

  /** The k-th deletion deletes the k-th id. */
  lemma {:induction false} DeleteCallsAt(ids: seq<nat>, k: nat)
    requires k < |ids|
    ensures DeleteCalls(ids)[k] == DeleteClippingPlane(ids[k])
    decreases |ids|
  {
    if k < |ids| - 1 {
      DeleteCallsAt(ids[..|ids| - 1], k);
    }
  }

  /** The Riley calls creating planes in order, with ids allocated from firstId on. */
  function CreateCalls(xform: Transform, planes: seq<ClipPlaneParams>, firstId: nat): (calls: seq<Call>)
    ensures |calls| == |planes|
  {
    if planes == [] then []
    else
      CreateCalls(xform, planes[..|planes| - 1], firstId)
      + [CreateClippingPlane(xform, ClipPlaneParamList(planes[|planes| - 1]), firstId + |planes| - 1)]
  }

  /** The k-th creation creates the k-th plane, with id firstId + k. */
  lemma {:induction false} CreateCallsAt(xform: Transform, planes: seq<ClipPlaneParams>, firstId: nat, k: nat)
    requires k < |planes|
    ensures CreateCalls(xform, planes, firstId)[k] == CreateClippingPlane(xform, ClipPlaneParamList(planes[k]), firstId + k)
    decreases |planes|
  {
    if k < |planes| - 1 {
      CreateCallsAt(xform, planes[..|planes| - 1], firstId, k);
    }
  }

  lemma CreateCallsSnoc(
    log: seq<Call>, before: seq<Call>, xform: Transform, planes: seq<ClipPlaneParams>, p: ClipPlaneParams, firstId: nat)
    requires log == before + CreateCalls(xform, planes, firstId)
    ensures log + [CreateClippingPlane(xform, ClipPlaneParamList(p), firstId + |planes|)]
         == before + CreateCalls(xform, planes + [p], firstId)
  {
    assert (planes + [p])[..|planes|] == planes;
  }

  /**
   * Starting from the log calls0, the next id nextId0 and the live planes live0,
   * Riley was asked to create the planes kept, in order: calls, ids, nextId and
   * live are the log, the new ids, the next id and the live planes afterwards.
   */
  ghost predicate PlanesCreated(
    calls: seq<Call>, ids: seq<nat>, nextId: nat, live: set<nat>,
    calls0: seq<Call>, nextId0: nat, live0: set<nat>, xform: Transform, kept: seq<ClipPlaneParams>)
  {
    && calls == calls0 + CreateCalls(xform, kept, nextId0)
    && |ids| == |kept|
    && ConsecutiveFrom(ids, nextId0)
    && nextId == nextId0 + |ids|
    && live == live0 + Elements(ids)
  }

  /** Creating one more plane extends every part of PlanesCreated by that plane. */
  lemma PlanesCreatedStep(
    calls: seq<Call>, ids: seq<nat>, nextId: nat, live: set<nat>,
    calls0: seq<Call>, nextId0: nat, live0: set<nat>, xform: Transform, kept: seq<ClipPlaneParams>,
    p: ClipPlaneParams)
    requires PlanesCreated(calls, ids, nextId, live, calls0, nextId0, live0, xform, kept)
    ensures PlanesCreated(
      calls + [CreateClippingPlane(xform, ClipPlaneParamList(p), nextId)], ids + [nextId], nextId + 1,
      live + {nextId}, calls0, nextId0, live0, xform, kept + [p])
  {
    CreateCallsSnoc(calls, calls0, xform, kept, p, nextId0);
    ElementsSnoc(ids, nextId);
  }

  /** ids are firstId, firstId + 1, ... in order. */
  predicate ConsecutiveFrom(ids: seq<nat>, firstId: nat)
  {
    forall k :: 0 <= k < |ids| ==> ids[k] == firstId + k
  }

  function Elements(ids: seq<nat>): set<nat>
  {
    set id | id in ids
  }

  lemma ElementsSnoc(ids: seq<nat>, id: nat)
    ensures Elements(ids + [id]) == Elements(ids) + {id}
  {
  }

  /** What a camera needs for its screen window to be defined. */
  predicate CameraReady(cam: CameraAttrs, framing: Framing)
  {
    && cam.focalLength >= 0.0
    && Width(framing.displayWindow) != 0.0
    && Height(framing.displayWindow) != 0.0
  }

  class HdPrmanCameraContext {
    var camera: SceneCamera?
    var cameraPath: Path
    var framing: Framing
    var policy: ConformPolicy
    var invalid: bool
    var cameraId: int
    var clipPlaneIds: seq<nat>

    /** No camera, the default framing, the Fit policy, valid. */
    constructor ()
      ensures camera == null && cameraPath == EmptyPath
      ensures framing == DefaultFraming && policy == Fit && !invalid
      ensures cameraId == InvalidId && clipPlaneIds == []
    {
      camera := null;
      cameraPath := EmptyPath;
      framing := DefaultFraming;
      policy := Fit;
      invalid := false;
      cameraId := InvalidId;
      clipPlaneIds := [];
    }

    /**
     * The clipping planes alive in Riley are exactly those the context holds,
     * and all of them were allocated by Riley.
     */
    predicate OwnsClipPlanes(riley: Riley)
      reads this, riley
    {
      && riley.clipPlanes == Elements(clipPlaneIds)
      && forall k :: 0 <= k < |clipPlaneIds| ==> clipPlaneIds[k] < riley.nextId
    }

    /** A scene camera changed: only the active camera invalidates. */
    method MarkCameraInvalid(cam: SceneCamera?)
      modifies this`invalid
      ensures invalid == (old(invalid) || (cam != null && cam.id == cameraPath))
    {
      if cam != null && cam.id == cameraPath {
        invalid := true;
      }
    }

    /**
     * Switching to a camera with another path invalidates and records the path;
     * dropping the camera invalidates when there was one. The recorded path
     * survives a drop.
     */
    method SetCamera(cam: SceneCamera?)
      modifies this`camera, this`cameraPath, this`invalid
      ensures camera == cam
      ensures cam != null ==> cameraPath == cam.id && invalid == (old(invalid) || old(cameraPath) != cam.id)
      ensures cam == null ==> cameraPath == old(cameraPath) && invalid == (old(invalid) || old(camera) != null)
    {
      if cam != null {
        if cameraPath != cam.id {
          invalid := true;
          cameraPath := cam.id;
        }
      } else {
        if camera != null {
          invalid := true;
        }
      }
      camera := cam;
    }

    /** A different framing is stored and invalidates; an equal one changes nothing. */
    method SetFraming(newFraming: Framing)
      modifies this`framing, this`invalid
      ensures framing == newFraming
      ensures invalid == (old(invalid) || old(framing) != newFraming)
    {
      if framing != newFraming {
        framing := newFraming;
        invalid := true;
      }
    }

    /** A different policy is stored and invalidates; an equal one changes nothing. */
    method SetWindowPolicy(newPolicy: ConformPolicy)
      modifies this`policy, this`invalid
      ensures policy == newPolicy
      ensures invalid == (old(invalid) || old(policy) != newPolicy)
    {
      if policy != newPolicy {
        policy := newPolicy;
        invalid := true;
      }
    }

    function IsInvalid(): (r: bool)
      reads this
      ensures r <==> invalid
    {
      invalid
    }

    method MarkValid()
      modifies this`invalid
      ensures !invalid
    {
      invalid := false;
    }

    /**
     * SetRileyOptions: the options with the crop window set from the data window
     * of the framing; every other option is kept.
     */
    function RileyOptions(options: ParamList, bufferSize: Vec2i): (r: ParamList)
      requires WellFormed(options)
      reads this
      ensures WellFormed(r)
      ensures forall k :: k in r && Name(k) == Name(CropWindowKey) ==> k == CropWindowKey
      ensures r.Keys == options.Keys + {CropWindowKey}
      ensures r[CropWindowKey] == FloatArray(ComputeCropWindow(framing.dataWindow, bufferSize))
      ensures forall k :: k in options && k != CropWindowKey ==> r[k] == options[k]
    {
      options[CropWindowKey := FloatArray(ComputeCropWindow(framing.dataWindow, bufferSize))]
    }

    /**
     * Begin: creates the placeholder Riley camera "main_cam", keeps its id and
     * makes it the default dicing camera.
     */
    method Begin(riley: Riley)
      modifies this`cameraId, riley
      ensures cameraId == old(riley.nextId) && riley.nextId == old(riley.nextId) + 1
      ensures riley.clipPlanes == old(riley.clipPlanes)
      ensures riley.calls == old(riley.calls) + [
        CreateCamera(MainCam, PlaceholderNode(), PlaceholderTransform(), PlaceholderParams(), cameraId),
        SetDefaultDicingCamera(cameraId)]
      ensures old(OwnsClipPlanes(riley)) ==> OwnsClipPlanes(riley)
    {
      var id := riley.CreateCamera(MainCam, PlaceholderNode(), PlaceholderTransform(), PlaceholderParams());
      cameraId := id;
      riley.SetDefaultDicingCamera(cameraId);
    }

    /** _UpdateRileyCamera: one ModifyCamera call with the node, transform and parameters of the camera. */
    method UpdateRileyCamera(riley: Riley, bufferSize: Vec2i, conform: (Range2, ConformPolicy, real) -> Range2)
      requires camera != null && CameraReady(camera.attrs, framing)
      modifies riley
      ensures riley.nextId == old(riley.nextId) && riley.clipPlanes == old(riley.clipPlanes)
      ensures riley.calls == old(riley.calls) + [ModifyCamera(
        cameraId, ProjectionNode(camera.attrs), CameraTransform(camera.attrs),
        ComputeCameraParams(camera.attrs, framing, policy, bufferSize, conform))]
    {
      var cam := camera.attrs;
      var node := ShadingNode(ComputeProjectionShader(cam.projection), MainCamProjection, ComputeNodeParams(cam));
      var params := ComputeCameraParams(cam, framing, policy, bufferSize, conform);
      var matrices := ToRtMatrices(cam.timeSampleXforms.values, true);
      riley.ModifyCamera(cameraId, node, Transform(matrices, cam.timeSampleXforms.times), params);
    }

    /** The first half of _UpdateClipPlanes: every plane the context holds is deleted, in order. */
    method DeleteClipPlanes(riley: Riley)
      modifies this`clipPlaneIds, riley
      ensures clipPlaneIds == []
      ensures riley.calls == old(riley.calls) + DeleteCalls(old(clipPlaneIds))
      ensures riley.clipPlanes == old(riley.clipPlanes) - Elements(old(clipPlaneIds))
      ensures riley.nextId == old(riley.nextId)
    {
      var oldIds := clipPlaneIds;
      for i := 0 to |oldIds|
        invariant riley.calls == old(riley.calls) + DeleteCalls(oldIds[..i])
        invariant riley.clipPlanes == old(riley.clipPlanes) - Elements(oldIds[..i])
        invariant riley.nextId == old(riley.nextId)
      {
        riley.DeleteClippingPlane(oldIds[i]);
        assert oldIds[..i + 1][..i] == oldIds[..i];
        assert Elements(oldIds[..i + 1]) == Elements(oldIds[..i]) + {oldIds[i]};
      }
      assert oldIds[..|oldIds|] == oldIds;
      clipPlaneIds := [];
    }

    /**
     * The second half of _UpdateClipPlanes: one Riley plane per non-degenerate
     * plane, in order, its id appended to the context's ids.
     */
    method CreateClipPlanes(riley: Riley, transform: Transform, planes: seq<Vec4>, length: Vec3 -> real)
      requires clipPlaneIds == []
      modifies this`clipPlaneIds, riley
      ensures riley.calls == old(riley.calls) + CreateCalls(transform, ValidClipPlanes(planes, length), old(riley.nextId))
      ensures |clipPlaneIds| == |ValidClipPlanes(planes, length)|
      ensures ConsecutiveFrom(clipPlaneIds, old(riley.nextId))
      ensures riley.nextId == old(riley.nextId) + |clipPlaneIds|
      ensures riley.clipPlanes == old(riley.clipPlanes) + Elements(clipPlaneIds)
    {
      assert planes[..0] == [];
      ghost var kept: seq<ClipPlaneParams> := [];
      for i := 0 to |planes|
        invariant kept == ValidClipPlanes(planes[..i], length)
        invariant PlanesCreated(
          riley.calls, clipPlaneIds, riley.nextId, riley.clipPlanes,
          old(riley.calls), old(riley.nextId), old(riley.clipPlanes), transform, kept)
      {
        assert planes[..i] + [planes[i]] == planes[..i + 1];
        ValidClipPlanesSnoc(planes[..i], planes[i], length);
        var converted := ToClipPlaneParams(planes[i], length(Direction(planes[i])));
        if converted.Some? {
          PlanesCreatedStep(
            riley.calls, clipPlaneIds, riley.nextId, riley.clipPlanes,
            old(riley.calls), old(riley.nextId), old(riley.clipPlanes), transform, kept, converted.value);
          var id := riley.CreateClippingPlane(transform, ClipPlaneParamList(converted.value));
          clipPlaneIds := clipPlaneIds + [id];
          kept := kept + [converted.value];
        }
      }
      assert planes[..|planes|] == planes;
    }

    /**
     * _UpdateClipPlanes: deletes every plane the context holds, then, when the
     * camera has planes, creates one per non-degenerate plane with the camera's
     * unflipped transform, keeping the new ids in order.
     */
    method UpdateClipPlanes(riley: Riley, length: Vec3 -> real)
      requires camera != null
      modifies this`clipPlaneIds, riley
      ensures riley.calls == old(riley.calls) + DeleteCalls(old(clipPlaneIds))
        + CreateCalls(PlaneTransform(camera.attrs), ValidClipPlanes(camera.attrs.clipPlanes, length), old(riley.nextId))
      ensures |clipPlaneIds| == |ValidClipPlanes(camera.attrs.clipPlanes, length)|
      ensures ConsecutiveFrom(clipPlaneIds, old(riley.nextId))
      ensures riley.nextId == old(riley.nextId) + |clipPlaneIds|
      ensures riley.clipPlanes == old(riley.clipPlanes) - Elements(old(clipPlaneIds)) + Elements(clipPlaneIds)
    {
      DeleteClipPlanes(riley);
      var cam := camera.attrs;
      var planes := cam.clipPlanes;
      if |planes| == 0 {
        assert ValidClipPlanes(planes, length) == [];
        return;
      }
      var matrices := ToRtMatrices(cam.timeSampleXforms.values, false);
      var transform := Transform(matrices, cam.timeSampleXforms.times);
      assert transform == PlaneTransform(cam);
      CreateClipPlanes(riley, transform, planes, length);
    }

    /**
     * UpdateRileyCameraAndClipPlanes: nothing without a camera; otherwise the
     * camera is updated and the clipping planes are replaced. When Riley's live
     * planes were those the context held, afterwards they are exactly the new
     * ones: no old plane survives.
     */
    method UpdateRileyCameraAndClipPlanes(
      riley: Riley, bufferSize: Vec2i,
      conform: (Range2, ConformPolicy, real) -> Range2, length: Vec3 -> real)
      requires camera != null ==> CameraReady(camera.attrs, framing)
      modifies this`clipPlaneIds, riley
      ensures camera == null ==>
        clipPlaneIds == old(clipPlaneIds) && riley.calls == old(riley.calls)
        && riley.nextId == old(riley.nextId) && riley.clipPlanes == old(riley.clipPlanes)
      ensures camera != null ==>
        riley.calls == old(riley.calls)
          + [ModifyCamera(cameraId, ProjectionNode(camera.attrs), CameraTransform(camera.attrs),
                          ComputeCameraParams(camera.attrs, framing, policy, bufferSize, conform))]
          + DeleteCalls(old(clipPlaneIds))
          + CreateCalls(PlaneTransform(camera.attrs), ValidClipPlanes(camera.attrs.clipPlanes, length), old(riley.nextId))
      ensures camera != null ==>
        && |clipPlaneIds| == |ValidClipPlanes(camera.attrs.clipPlanes, length)|
        && ConsecutiveFrom(clipPlaneIds, old(riley.nextId))
        && riley.nextId == old(riley.nextId) + |clipPlaneIds|
        && riley.clipPlanes == old(riley.clipPlanes) - Elements(old(clipPlaneIds)) + Elements(clipPlaneIds)
      ensures old(OwnsClipPlanes(riley)) ==> OwnsClipPlanes(riley)
      ensures old(OwnsClipPlanes(riley)) && camera != null ==>
        forall id :: id in old(clipPlaneIds) ==> id !in clipPlaneIds && id !in riley.clipPlanes
    {
      if camera == null {
        return;
      }
      UpdateRileyCamera(riley, bufferSize, conform);
      UpdateClipPlanes(riley, length);
    }
  }
}

/** Client scenarios: how the invalidation flag and the commit behave over a sequence of calls. */
module Scenarios {
  import opened Geometry
  import opened Scene
  import opened Riley
  import opened Context

  /** A 36 x 24 mm perspective camera with a 50 mm lens at the origin, with the given clipping planes. */
  function SampleAttrs(planes: seq<Vec4>): CameraAttrs
  {
    CameraAttrs(Perspective, 36.0, 24.0, 0.0, 0.0, 50.0, 0.0, 0.0, Range1(0.1, 1000.0), planes,
                TimeSamples([Identity()], [0.0]))
  }

  /** A 1920 x 1080 display window, filled by the data window, square pixels. */
  const SampleFraming := Framing(Range2(Vec2(0.0, 0.0), Vec2(1920.0, 1080.0)), Rect2i(0, 0, 1919, 1079), 1.0)

  /** Setting the same camera again does not invalidate. */
  method SameCameraTwice() returns (invalid: bool)
    ensures !invalid
  {
    var ctx := new HdPrmanCameraContext();
    var cam := new SceneCamera("/World/cam", SampleAttrs([]));
    ctx.SetCamera(cam);
    ctx.MarkValid();
    ctx.SetCamera(cam);
    invalid := ctx.IsInvalid();
  }

  /** Dropping the active camera invalidates: the default camera must come back. */
  method DroppingCameraInvalidates() returns (invalid: bool)
    ensures invalid
  {
    var ctx := new HdPrmanCameraContext();
    var cam := new SceneCamera("/World/cam", SampleAttrs([]));
    ctx.SetCamera(cam);
    ctx.MarkValid();
    ctx.SetCamera(null);
    invalid := ctx.IsInvalid();
  }

  /**
   * Setting a camera again after dropping it does not invalidate: the path of
   * the dropped camera is still recorded.
   */
  method CameraBackAfterDrop() returns (invalid: bool)
    ensures !invalid
  {
    var ctx := new HdPrmanCameraContext();
    var cam := new SceneCamera("/World/cam", SampleAttrs([]));
    ctx.SetCamera(cam);
    ctx.SetCamera(null);
    ctx.MarkValid();
    ctx.SetCamera(cam);
    invalid := ctx.IsInvalid();
  }

  /** A change to a camera other than the active one does not invalidate; one to the active one does. */
  method OnlyActiveCameraInvalidates() returns (afterOther: bool, afterActive: bool)
    ensures !afterOther && afterActive
  {
    var ctx := new HdPrmanCameraContext();
    var cam := new SceneCamera("/World/cam", SampleAttrs([]));
    var other := new SceneCamera("/World/other", SampleAttrs([]));
    ctx.SetCamera(cam);
    ctx.MarkValid();
    ctx.MarkCameraInvalid(other);
    afterOther := ctx.IsInvalid();
    ctx.MarkCameraInvalid(cam);
    afterActive := ctx.IsInvalid();
  }

  /** Setting the framing and the policy they already have does not invalidate. */
  method UnchangedFramingAndPolicy() returns (invalid: bool)
    ensures !invalid
  {
    var ctx := new HdPrmanCameraContext();
    ctx.SetFraming(SampleFraming);
    ctx.SetWindowPolicy(Crop);
    ctx.MarkValid();
    ctx.SetFraming(SampleFraming);
    ctx.SetWindowPolicy(Crop);
    invalid := ctx.IsInvalid();
  }

  /** A context that has committed a camera with the given clipping planes once. */
  method CommittedOnce(planes: seq<Vec4>, length: Vec3 -> real)
    returns (ctx: HdPrmanCameraContext, riley: Riley, ids: seq<nat>)
    ensures fresh(ctx) && fresh(riley)
    ensures ctx.camera != null && CameraReady(ctx.camera.attrs, ctx.framing)
    ensures ctx.OwnsClipPlanes(riley) && ids == ctx.clipPlaneIds
  {
    riley := new Riley();
    ctx := new HdPrmanCameraContext();
    assert Elements([]) == {};
    var cam := new SceneCamera("/World/cam", SampleAttrs(planes));
    ctx.SetCamera(cam);
    ctx.SetFraming(SampleFraming);
    ctx.UpdateRileyCameraAndClipPlanes(riley, Vec2i(1920, 1080), Unconformed, length);
    ids := ctx.clipPlaneIds;
  }

  /** A conform function that leaves the window as it is. */
  function Unconformed(window: Range2, policy: ConformPolicy, aspect: real): Range2
  {
    window
  }

  /**
   * Two commits of a camera with clipping planes: the second deletes every plane
   * the first created, and Riley is left with exactly the second's planes.
   */
  method TwoCommits(planes: seq<Vec4>, length: Vec3 -> real)
    returns (first: seq<nat>, second: seq<nat>, live: set<nat>)
    ensures live == Elements(second)
    ensures forall id :: id in first ==> id !in second && id !in live
  {
    var ctx, riley, ids := CommittedOnce(planes, length);
    first := ids;
    ctx.UpdateRileyCameraAndClipPlanes(riley, Vec2i(1920, 1080), Unconformed, length);
    second := ctx.clipPlaneIds;
    live := riley.clipPlanes;
  }
}
