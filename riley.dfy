/**
 * The Riley render service as far as the camera context uses it. Riley itself
 * is not part of this model: it is a log of the calls made to it, an allocator
 * of fresh ids and the set of clipping planes currently alive.
 */
module Riley {
  import opened Geometry
  import opened RtParams

  /** The id riley::CameraId holds before any camera is created. */
  const InvalidId: int := -1

  /** riley::Transform: one matrix per sample time. */
  datatype Transform = Transform(matrices: seq<Matrix4>, times: seq<real>)

  /** riley::ShadingNode of type k_Projection: shader name, node handle, parameters. */
  datatype ShadingNode = ShadingNode(name: string, handle: string, params: ParamList)

  datatype Call =
    | CreateCamera(cameraName: string, node: ShadingNode, xform: Transform, params: ParamList, newId: nat)
    | ModifyCamera(cameraId: int, node: ShadingNode, xform: Transform, params: ParamList)
    | SetDefaultDicingCamera(cameraId: int)
    | CreateClippingPlane(xform: Transform, params: ParamList, newId: nat)
    | DeleteClippingPlane(clipPlaneId: nat)

  class Riley {
    var calls: seq<Call>
    var nextId: nat
    var clipPlanes: set<nat>

    constructor ()
      ensures calls == [] && nextId == 0 && clipPlanes == {}
    {
      calls, nextId, clipPlanes := [], 0, {};
    }

    method CreateCamera(cameraName: string, node: ShadingNode, xform: Transform, params: ParamList)
      returns (id: nat)
      modifies this
      ensures id == old(nextId) && nextId == id + 1 && clipPlanes == old(clipPlanes)
      ensures calls == old(calls) + [Call.CreateCamera(cameraName, node, xform, params, id)]
    {
      id := nextId;
      nextId := nextId + 1;
      calls := calls + [Call.CreateCamera(cameraName, node, xform, params, id)];
    }

    method ModifyCamera(cameraId: int, node: ShadingNode, xform: Transform, params: ParamList)
      modifies this
      ensures nextId == old(nextId) && clipPlanes == old(clipPlanes)
      ensures calls == old(calls) + [Call.ModifyCamera(cameraId, node, xform, params)]
    {
      calls := calls + [Call.ModifyCamera(cameraId, node, xform, params)];
    }

    method SetDefaultDicingCamera(cameraId: int)
      modifies this
      ensures nextId == old(nextId) && clipPlanes == old(clipPlanes)
      ensures calls == old(calls) + [Call.SetDefaultDicingCamera(cameraId)]
    {
      calls := calls + [Call.SetDefaultDicingCamera(cameraId)];
    }

    method CreateClippingPlane(xform: Transform, params: ParamList) returns (id: nat)
      modifies this
      ensures id == old(nextId) && nextId == id + 1 && clipPlanes == old(clipPlanes) + {id}
      ensures calls == old(calls) + [Call.CreateClippingPlane(xform, params, id)]
    {
      id := nextId;
      nextId := nextId + 1;
      clipPlanes := clipPlanes + {id};
      calls := calls + [Call.CreateClippingPlane(xform, params, id)];
    }

    method DeleteClippingPlane(id: nat)
      modifies this
      ensures nextId == old(nextId) && clipPlanes == old(clipPlanes) - {id}
      ensures calls == old(calls) + [Call.DeleteClippingPlane(id)]
    {
      clipPlanes := clipPlanes - {id};
      calls := calls + [Call.DeleteClippingPlane(id)];
    }
  }
}
