/**
 * Clipping planes (cameraContext.cpp, lines 473-503). Hydra gives a plane as an
 * equation (a, b, c, d) in camera space, a x + b y + c z + d = 0; Riley wants a
 * unit normal and a point on the plane.
 *
 * The length of (a, b, c) (GfVec3f::GetLength, a square root) is not computed
 * here: it is passed in, and IsLengthOf says what it must be.
 */
module ClipPlane {
  import opened Geometry
  import opened Wrappers
  import opened RtParams

  /** A plane as Riley takes it: a unit normal and a point of the plane. */
  datatype ClipPlaneParams = ClipPlaneParams(normal: Vec3, origin: Vec3)

  /** The normal direction (a, b, c) of a plane equation. */
  function Direction(plane: Vec4): Vec3
  {
    Vec3(plane.x, plane.y, plane.z)
  }

  /** length is the Euclidean length of v. */
  predicate IsLengthOf(length: real, v: Vec3)
  {
    length >= 0.0 && length * length == SquaredLength(v)
  }

  /** point lies on the plane a x + b y + c z + d = 0. */
  predicate OnPlane(plane: Vec4, point: Vec3)
  {
    Dot3(Direction(plane), point) + plane.w == 0.0
  }

  /**
   * _ToClipPlaneParams: nothing for a plane whose normal has length 0; otherwise
   * the normal divided by its length, and the point at signed distance -d / length
   * along it. ToClipPlaneParamsCorrect states what the result is.
   */
  function ToClipPlaneParams(plane: Vec4, length: real): (r: Option<ClipPlaneParams>)
    ensures r.None? <==> length == 0.0
  {
    if length == 0.0 then
      None
    else
      var normal := Vec3(plane.x / length, plane.y / length, plane.z / length);
      var distance := -plane.w / length;
      Some(ClipPlaneParams(normal, Scale3(normal, distance)))
  }

  /**
   * A converted plane has a unit normal pointing along the plane's own normal
   * direction, and an origin on the plane.
   */
  lemma ToClipPlaneParamsCorrect(plane: Vec4, length: real)
    requires IsLengthOf(length, Direction(plane))
    ensures var r := ToClipPlaneParams(plane, length);
      r.Some? ==>
        && SquaredLength(r.value.normal) == 1.0
        && Scale3(r.value.normal, length) == Direction(plane)
        && OnPlane(plane, r.value.origin)
  {
    if length != 0.0 {
      UnitNormal(plane, length);
      OriginOnPlane(plane, length);
    }
  }

  lemma UnitNormal(plane: Vec4, length: real)
    requires IsLengthOf(length, Direction(plane)) && length != 0.0
    ensures var n := Vec3(plane.x / length, plane.y / length, plane.z / length);
      SquaredLength(n) == 1.0 && Scale3(n, length) == Direction(plane)
  {
    var n := Vec3(plane.x / length, plane.y / length, plane.z / length);
    assert n.x * length == plane.x && n.y * length == plane.y && n.z * length == plane.z;
    calc {
      SquaredLength(n) * (length * length);
      (n.x * length) * (n.x * length) + (n.y * length) * (n.y * length) + (n.z * length) * (n.z * length);
      SquaredLength(Direction(plane));
      length * length;
    }
  }

  lemma OriginOnPlane(plane: Vec4, length: real)
    requires IsLengthOf(length, Direction(plane)) && length != 0.0
    ensures var n := Vec3(plane.x / length, plane.y / length, plane.z / length);
      OnPlane(plane, Scale3(n, -plane.w / length))
  {
    var n := Vec3(plane.x / length, plane.y / length, plane.z / length);
    var distance := -plane.w / length;
    UnitNormal(plane, length);
    calc {
      Dot3(Direction(plane), Scale3(n, distance));
      Dot3(Scale3(n, length), Scale3(n, distance));
      SquaredLength(n) * length * distance;
      length * (-plane.w / length);
      -plane.w;
    }
  }

  /** The parameter list given to Riley::CreateClippingPlane. */
  function ClipPlaneParamList(p: ClipPlaneParams): (params: ParamList)
    ensures params.Keys == {PlaneNormalKey, PlaneOriginKey}
    ensures params[PlaneNormalKey] == Normal(p.normal) && params[PlaneOriginKey] == Point(p.origin)
  {
    map[PlaneNormalKey := Normal(p.normal), PlaneOriginKey := Point(p.origin)]
  }

  /** length gives the Euclidean length of the normal direction of every plane in planes. */
  predicate MeasuresPlanes(length: Vec3 -> real, planes: seq<Vec4>)
  {
    forall i :: 0 <= i < |planes| ==> IsLengthOf(length(Direction(planes[i])), Direction(planes[i]))
  }

  lemma MeasuresPrefix(length: Vec3 -> real, planes: seq<Vec4>, n: nat)
    requires MeasuresPlanes(length, planes) && n <= |planes|
    ensures MeasuresPlanes(length, planes[..n])
  {
    forall i | 0 <= i < n
      ensures IsLengthOf(length(Direction(planes[..n][i])), Direction(planes[..n][i]))
    {
      assert planes[..n][i] == planes[i];
    }
  }

  /**
   * The planes _UpdateClipPlanes hands to Riley, in order: every plane whose
   * normal direction has nonzero length, converted; degenerate planes are skipped.
   */
  function ValidClipPlanes(planes: seq<Vec4>, length: Vec3 -> real): (r: seq<ClipPlaneParams>)
    ensures |r| <= |planes|
    decreases |planes|
  {
    if planes == [] then
      []
    else
      var last := planes[|planes| - 1];
      var kept := ValidClipPlanes(planes[..|planes| - 1], length);
      match ToClipPlaneParams(last, length(Direction(last)))
      case None => kept
      case Some(p) => kept + [p]
  }

  /**
   * Each kept plane is the conversion of some plane of the input: its normal is
   * a unit vector and its origin lies on that plane.
   */
  lemma {:induction false} ValidClipPlanesComeFromInput(planes: seq<Vec4>, length: Vec3 -> real, k: nat)
    requires MeasuresPlanes(length, planes)
    requires k < |ValidClipPlanes(planes, length)|
    ensures SquaredLength(ValidClipPlanes(planes, length)[k].normal) == 1.0
    ensures exists i :: (0 <= i < |planes|
      && ToClipPlaneParams(planes[i], length(Direction(planes[i]))) == Some(ValidClipPlanes(planes, length)[k])
      && OnPlane(planes[i], ValidClipPlanes(planes, length)[k].origin))
    decreases |planes|
  {
    var n := |planes| - 1;
    var prefix := planes[..n];
    var kept := ValidClipPlanes(prefix, length);
    if k < |kept| {
      MeasuresPrefix(length, planes, n);
      ValidClipPlanesComeFromInput(prefix, length, k);
      var i :| 0 <= i < |prefix| && ToClipPlaneParams(prefix[i], length(Direction(prefix[i]))) == Some(kept[k])
        && OnPlane(prefix[i], kept[k].origin);
      assert planes[i] == prefix[i];
    } else {
      assert ToClipPlaneParams(planes[n], length(Direction(planes[n]))) == Some(ValidClipPlanes(planes, length)[k]);
      ToClipPlaneParamsCorrect(planes[n], length(Direction(planes[n])));
    }
  }

  /** When no plane is degenerate, every plane reaches Riley. */
  lemma {:induction false} ValidClipPlanesKeepsAll(planes: seq<Vec4>, length: Vec3 -> real)
    requires forall i :: 0 <= i < |planes| ==> length(Direction(planes[i])) != 0.0
    ensures |ValidClipPlanes(planes, length)| == |planes|
    decreases |planes|
  {
    if planes != [] {
      var n := |planes| - 1;
      ValidClipPlanesKeepsAll(planes[..n], length);
    }
  }

  /** When every plane is degenerate, no plane reaches Riley. */
  lemma {:induction false} ValidClipPlanesDropsDegenerate(planes: seq<Vec4>, length: Vec3 -> real)
    requires forall i :: 0 <= i < |planes| ==> length(Direction(planes[i])) == 0.0
    ensures ValidClipPlanes(planes, length) == []
    decreases |planes|
  {
    if planes != [] {
      var n := |planes| - 1;
      ValidClipPlanesDropsDegenerate(planes[..n], length);
    }
  }

  /** The number of planes whose normal direction has nonzero length. */
  function NonDegenerateCount(planes: seq<Vec4>, length: Vec3 -> real): (n: nat)
    ensures n <= |planes|
    decreases |planes|
  {
    if planes == [] then 0
    else
      var last := planes[|planes| - 1];
      NonDegenerateCount(planes[..|planes| - 1], length) + (if length(Direction(last)) != 0.0 then 1 else 0)
  }

  /** Riley gets exactly one plane per non-degenerate plane of the camera. */
  lemma {:induction false} ValidClipPlanesCount(planes: seq<Vec4>, length: Vec3 -> real)
    ensures |ValidClipPlanes(planes, length)| == NonDegenerateCount(planes, length)
    decreases |planes|
  {
    if planes != [] {
      ValidClipPlanesCount(planes[..|planes| - 1], length);
    }
  }

  /** Three planes of which the middle one is degenerate: two reach Riley, the first and the third. */
  lemma MixedClipPlanes(p1: Vec4, p2: Vec4, p3: Vec4, length: Vec3 -> real)
    requires length(Direction(p1)) != 0.0 && length(Direction(p2)) == 0.0 && length(Direction(p3)) != 0.0
    ensures ValidClipPlanes([p1, p2, p3], length)
         == [ToClipPlaneParams(p1, length(Direction(p1))).value, ToClipPlaneParams(p3, length(Direction(p3))).value]
  {
    ValidClipPlanesSnoc([], p1, length);
    assert [] + [p1] == [p1];
    ValidClipPlanesSnoc([p1], p2, length);
    assert [p1] + [p2] == [p1, p2];
    ValidClipPlanesSnoc([p1, p2], p3, length);
    assert [p1, p2] + [p3] == [p1, p2, p3];
  }

  /** Appending a plane keeps the planes kept so far and adds the new one when it is not degenerate. */
  lemma ValidClipPlanesSnoc(planes: seq<Vec4>, plane: Vec4, length: Vec3 -> real)
    ensures ValidClipPlanes(planes + [plane], length) ==
      match ToClipPlaneParams(plane, length(Direction(plane)))
      case None => ValidClipPlanes(planes, length)
      case Some(p) => ValidClipPlanes(planes, length) + [p]
  {
    assert (planes + [plane])[..|planes|] == planes;
  }

  /** The plane z = 5, written (0, 0, 1, -5), has normal (0, 0, 1) and origin (0, 0, 5). */
  lemma ClipPlaneExample()
    ensures IsLengthOf(1.0, Direction(Vec4(0.0, 0.0, 1.0, -5.0)))
    ensures ToClipPlaneParams(Vec4(0.0, 0.0, 1.0, -5.0), 1.0)
         == Some(ClipPlaneParams(Vec3(0.0, 0.0, 1.0), Vec3(0.0, 0.0, 5.0)))
  {
  }

  /** The plane (0, 0, 0, 0) has no normal and is dropped. */
  lemma DegenerateClipPlaneExample()
    ensures IsLengthOf(0.0, Direction(Vec4(0.0, 0.0, 0.0, 0.0)))
    ensures ToClipPlaneParams(Vec4(0.0, 0.0, 0.0, 0.0), 0.0).None?
  {
  }
}
