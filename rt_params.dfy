/**
 * RenderMan parameter lists (RtParamList) as maps from parameter name to value.
 * A name is an interned RtUString; the names the camera context sets are
 * constructors of ParamName, and Name gives the string RenderMan knows each by.
 * Names set by other code are Other(name).
 */
module RtParams {
  import opened Geometry

  datatype ParamValue =
    | Float(f: real)
    | FloatArray(fs: seq<real>)
    | Normal(n: Vec3)
    | Point(p: Vec3)

  datatype ParamName =
    // Projection shader parameters.
    | FStop | FocalLength | FocalDistance | Fov
    // Camera parameters.
    | NearClip | FarClip | RiScreenWindow | ShutterOpenTime | ShutterCloseTime | ShutterOpening
    // Global options.
    | RiCropWindow
    // Clipping plane parameters.
    | PlaneNormal | PlaneOrigin
    // Any name the camera context does not set itself.
    | Other(name: string)

  /** The RenderMan name of a parameter (RixStr and the file's own RtUString constants). */
  function Name(n: ParamName): string
  {
    match n
    case FStop => "fStop"
    case FocalLength => "focalLength"
    case FocalDistance => "focalDistance"
    case Fov => "fov"
    case NearClip => "nearClip"
    case FarClip => "farClip"
    case RiScreenWindow => "Ri:ScreenWindow"
    case ShutterOpenTime => "shutterOpenTime"
    case ShutterCloseTime => "shutterCloseTime"
    case ShutterOpening => "shutteropening"
    case RiCropWindow => "Ri:CropWindow"
    case PlaneNormal => "planeNormal"
    case PlaneOrigin => "planeOrigin"
    case Other(name) => name
  }

  type ParamList = map<ParamName, ParamValue>

  /** The RenderMan names that have a constructor of their own. */
  const ReservedNames: set<string> := {
    "fStop", "focalLength", "focalDistance", "fov", "nearClip", "farClip", "Ri:ScreenWindow",
    "shutterOpenTime", "shutterCloseTime", "shutteropening", "Ri:CropWindow", "planeNormal", "planeOrigin"}

  /** The key is the one key for its RenderMan name: an Other name never spells a reserved one. */
  predicate Canonical(n: ParamName)
  {
    n.Other? ==> n.name !in ReservedNames
  }

  /** Every key is canonical, so no two keys of the list stand for the same RenderMan name. */
  predicate WellFormed(params: ParamList)
  {
    forall n :: n in params ==> Canonical(n)
  }

  /** Between canonical keys, equal RenderMan names mean equal keys. */
  lemma NameInjective(n1: ParamName, n2: ParamName)
    requires Canonical(n1) && Canonical(n2)
    ensures Name(n1) == Name(n2) <==> n1 == n2
  {
  }

  const EmptyParams: ParamList := map[]

  const FStopKey := ParamName.FStop
  const FocalLengthKey := ParamName.FocalLength
  const FocalDistanceKey := ParamName.FocalDistance
  const FovKey := ParamName.Fov
  const NearClipKey := ParamName.NearClip
  const FarClipKey := ParamName.FarClip
  const ScreenWindowKey := ParamName.RiScreenWindow
  const ShutterOpenTimeKey := ParamName.ShutterOpenTime
  const ShutterCloseTimeKey := ParamName.ShutterCloseTime
  const ShutterOpeningKey := ParamName.ShutterOpening
  const CropWindowKey := ParamName.RiCropWindow
  const PlaneNormalKey := ParamName.PlaneNormal
  const PlaneOriginKey := ParamName.PlaneOrigin
}
