/**
 * What the camera context reads from the scene: the attributes of a Hydra
 * camera (HdCamera), the framing of the output image (CameraUtilFraming)
 * and the window conform policy (CameraUtilConformWindowPolicy).
 */
module Scene {
  import opened Geometry

  /** HdCamera::Projection. */
  datatype Projection = Perspective | Orthographic

  /** CameraUtilConformWindowPolicy. */
  datatype ConformPolicy = MatchVertically | MatchHorizontally | Fit | Crop | DontConform

  /** Matrices and their sample times, as in HdTimeSampleArray<GfMatrix4d, N>. */
  datatype TimeSamples = TimeSamples(values: seq<Matrix4>, times: seq<real>)

  /** An HdTimeSampleArray: its one count sizes both the matrices and the times, so there is one time per matrix. */
  type SampleArray = s: TimeSamples | |s.values| == |s.times| witness TimeSamples([], [])

  /** The attributes of a scene camera that the context reads through the HdCamera getters. */
  datatype CameraAttrs = CameraAttrs(
    projection: Projection,
    horizontalAperture: real,
    verticalAperture: real,
    horizontalApertureOffset: real,
    verticalApertureOffset: real,
    focalLength: real,
    focusDistance: real,
    fStop: real,
    clippingRange: Range1,
    clipPlanes: seq<Vec4>,        // plane equations (a, b, c, d): a x + b y + c z + d = 0
    timeSampleXforms: SampleArray // camera-to-world transform samples
  )

  /** CameraUtilFraming: display window (float, y-down), data window (pixels) and pixel aspect. */
  datatype Framing = Framing(displayWindow: Range2, dataWindow: Rect2i, pixelAspectRatio: real)

  /** The largest finite single-precision float, FLT_MAX. */
  const FloatMax: real := 340282346638528859811704183484516925440.0

  /**
   * A default-constructed CameraUtilFraming: an empty display window (GfRange2f's
   * default has min = FLT_MAX and max = -FLT_MAX), the empty GfRect2i (min (0, 0),
   * max (-1, -1)) and a pixel aspect ratio of 1.
   */
  const DefaultFraming: Framing :=
    Framing(Range2(Vec2(FloatMax, FloatMax), Vec2(-FloatMax, -FloatMax)), Rect2i(0, 0, -1, -1), 1.0)

  /** A scene path (SdfPath) identifying a camera; the empty string is the empty path. */
  type Path = string

  const EmptyPath: Path := ""

  /**
   * A scene camera (HdPrmanCamera). The context keeps a non-owning reference to it;
   * its id is fixed, while the scene delegate may update its attributes at any time.
   */
  class SceneCamera {
    const id: Path
    var attrs: CameraAttrs

    constructor (id: Path, attrs: CameraAttrs)
      ensures this.id == id && this.attrs == attrs
    {
      this.id := id;
      this.attrs := attrs;
    }
  }
}
