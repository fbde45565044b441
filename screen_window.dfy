/**
 * The screen window handed to RenderMan (cameraContext.cpp, lines 98-253).
 *
 * Screen window space is a plane at unit distance in front of the camera,
 * y up; image space is the pixel plane of the rendered image, y down. The
 * screen window of the camera is conformed to the display window's aspect
 * ratio and then re-based so that, mapped onto the whole render buffer, it
 * reproduces the mapping between screen window space and the display window.
 */
module ScreenWindow {
  import opened Geometry
  import opened Scene

  /** The filmback rectangle: size (horizontal, vertical aperture), centred at the aperture offset. */
  function FilmbackPlane(cam: CameraAttrs): Range2
  {
    Range2(Vec2(-0.5 * cam.horizontalAperture + cam.horizontalApertureOffset,
                -0.5 * cam.verticalAperture + cam.verticalApertureOffset),
           Vec2(0.5 * cam.horizontalAperture + cam.horizontalApertureOffset,
                0.5 * cam.verticalAperture + cam.verticalApertureOffset))
  }

  /** A range divided by a positive scalar: both corners are divided. */
  function DivideRange(r: Range2, d: real): Range2
    requires d > 0.0
  {
    Range2(Vec2(r.min.x / d, r.min.y / d), Vec2(r.max.x / d, r.max.y / d))
  }

  /** What the filmback plane is divided by: 1 when no perspective divide takes place. */
  function PerspectiveDivisor(cam: CameraAttrs): (d: real)
    requires cam.focalLength >= 0.0
    ensures d > 0.0
  {
    if cam.projection == Orthographic || cam.focalLength == 0.0 then 1.0 else cam.focalLength
  }

  /**
   * _GetScreenWindow: the filmback plane, divided by the focal length for a
   * perspective camera whose focal length is not exactly zero.
   */
  function GetScreenWindow(cam: CameraAttrs): (r: Range2)
    requires cam.focalLength >= 0.0
    ensures Width(r) * PerspectiveDivisor(cam) == cam.horizontalAperture
    ensures Height(r) * PerspectiveDivisor(cam) == cam.verticalAperture
    ensures (r.min.x + r.max.x) * PerspectiveDivisor(cam) == 2.0 * cam.horizontalApertureOffset
    ensures (r.min.y + r.max.y) * PerspectiveDivisor(cam) == 2.0 * cam.verticalApertureOffset
  {
    var filmback := FilmbackPlane(cam);
    if cam.projection == Orthographic then
      filmback
    else if cam.focalLength == 0.0 then
      filmback
    else
      var f := cam.focalLength;
      assert (filmback.max.x / f - filmback.min.x / f) * f == filmback.max.x - filmback.min.x;
      assert (filmback.max.y / f - filmback.min.y / f) * f == filmback.max.y - filmback.min.y;
      assert (filmback.min.x / f + filmback.max.x / f) * f == filmback.min.x + filmback.max.x;
      assert (filmback.min.y / f + filmback.max.y / f) * f == filmback.min.y + filmback.max.y;
      DivideRange(filmback, f)
  }

  /** An orthographic camera's screen window is its filmback plane, whatever its focal length. */
  lemma OrthographicScreenWindowIsFilmback(cam: CameraAttrs)
    requires cam.projection == Orthographic && cam.focalLength >= 0.0
    ensures GetScreenWindow(cam) == FilmbackPlane(cam)
  {
  }

  /**
   * A perspective camera's screen window is the orthographic one divided by the
   * focal length when that is positive, and equal to it when the focal length is 0.
   */
  lemma PerspectiveScreenWindowDividesByFocalLength(cam: CameraAttrs)
    requires cam.projection == Perspective && cam.focalLength >= 0.0
    ensures cam.focalLength > 0.0 ==>
      GetScreenWindow(cam) == DivideRange(GetScreenWindow(cam.(projection := Orthographic)), cam.focalLength)
    ensures cam.focalLength == 0.0 ==>
      GetScreenWindow(cam) == GetScreenWindow(cam.(projection := Orthographic))
  {
  }

  /** The rectangle [0, width] x [0, height] that the render buffer covers in image space. */
  function BufferRect(bufferSize: Vec2i): Range2
  {
    Range2(Vec2(0.0, 0.0), Vec2(bufferSize.x as real, bufferSize.y as real))
  }

  /**
   * _ConvertScreenWindowForDisplayWindowToRenderBuffer: the window scaled per axis
   * by buffer size / display window size, so each pixel spans the same part of
   * screen space as before. Its left edge is where image x = 0 falls, and its top
   * edge is where image y = 0 falls (image space is y-down, screen space y-up).
   */
  function RebaseToRenderBuffer(screenWindow: Range2, displayWindow: Range2, bufferSize: Vec2i): (r: Range2)
    requires Width(displayWindow) != 0.0 && Height(displayWindow) != 0.0
    ensures Width(r) * Width(displayWindow) == Width(screenWindow) * bufferSize.x as real
    ensures Height(r) * Height(displayWindow) == Height(screenWindow) * bufferSize.y as real
    ensures (screenWindow.min.x - r.min.x) * Width(displayWindow) == Width(screenWindow) * displayWindow.min.x
    ensures (r.max.y - screenWindow.max.y) * Height(displayWindow) == Height(screenWindow) * displayWindow.min.y
  {
    var widthPerPixel := Width(screenWindow) / Width(displayWindow);
    var heightPerPixel := Height(screenWindow) / Height(displayWindow);
    var min := Vec2(screenWindow.min.x - widthPerPixel * displayWindow.min.x,
                    screenWindow.max.y + heightPerPixel * (displayWindow.min.y - bufferSize.y as real));
    var r := Range2(min, Vec2(min.x + widthPerPixel * bufferSize.x as real, min.y + heightPerPixel * bufferSize.y as real));
    assert widthPerPixel * Width(displayWindow) == Width(screenWindow);
    assert heightPerPixel * Height(displayWindow) == Height(screenWindow);
    assert Width(r) == widthPerPixel * bufferSize.x as real;
    assert Height(r) == heightPerPixel * bufferSize.y as real;
    assert r.max.y - screenWindow.max.y == heightPerPixel * displayWindow.min.y;
    r
  }

  /** The screen x coordinate that image x coordinate px maps to when window is spread over rect. */
  function ImageToScreenX(window: Range2, rect: Range2, px: real): real
    requires Width(rect) != 0.0
  {
    window.min.x + (px - rect.min.x) * (Width(window) / Width(rect))
  }

  /** The screen y coordinate of image y coordinate py (image space is y-down, screen space y-up). */
  function ImageToScreenY(window: Range2, rect: Range2, py: real): real
    requires Height(rect) != 0.0
  {
    window.max.y - (py - rect.min.y) * (Height(window) / Height(rect))
  }

  /** window1 spread over rect1 and window2 spread over rect2 map image space to screen space alike. */
  ghost predicate SameImageMapping(window1: Range2, rect1: Range2, window2: Range2, rect2: Range2)
    requires Width(rect1) != 0.0 && Height(rect1) != 0.0
    requires Width(rect2) != 0.0 && Height(rect2) != 0.0
  {
    && (forall px :: ImageToScreenX(window1, rect1, px) == ImageToScreenX(window2, rect2, px))
    && (forall py :: ImageToScreenY(window1, rect1, py) == ImageToScreenY(window2, rect2, py))
  }

  /**
   * The point of the re-basing: spread over the whole render buffer, the re-based
   * window maps image space to screen space exactly as the conformed window does
   * when spread over the display window.
   */
  lemma RebasePreservesImageMapping(sw: Range2, dw: Range2, bufferSize: Vec2i)
    requires Width(dw) != 0.0 && Height(dw) != 0.0
    requires bufferSize.x != 0 && bufferSize.y != 0
    ensures SameImageMapping(RebaseToRenderBuffer(sw, dw, bufferSize), BufferRect(bufferSize), sw, dw)
  {
    var r := RebaseToRenderBuffer(sw, dw, bufferSize);
    var b := BufferRect(bufferSize);
    var w, h := bufferSize.x as real, bufferSize.y as real;
    var sx := Width(sw) / Width(dw);
    var sy := Height(sw) / Height(dw);
    assert Width(r) == sx * w;
    assert Height(r) == sy * h;
    assert Width(r) / Width(b) == sx by {
      assert Width(b) == w;
      assert (sx * w) / w == sx;
    }
    assert Height(r) / Height(b) == sy by {
      assert Height(b) == h;
      assert (sy * h) / h == sy;
    }
    forall px
      ensures ImageToScreenX(r, b, px) == ImageToScreenX(sw, dw, px)
    {
      calc {
        ImageToScreenX(r, b, px);
        r.min.x + px * sx;
        sw.min.x - sx * dw.min.x + px * sx;
        sw.min.x + (px - dw.min.x) * sx;
        ImageToScreenX(sw, dw, px);
      }
    }
    forall py
      ensures ImageToScreenY(r, b, py) == ImageToScreenY(sw, dw, py)
    {
      calc {
        ImageToScreenY(r, b, py);
        r.max.y - py * sy;
        r.min.y + sy * h - py * sy;
        sw.max.y + sy * (dw.min.y - h) + sy * h - py * sy;
        sw.max.y - (py - dw.min.y) * sy;
        ImageToScreenY(sw, dw, py);
      }
    }
  }

  /** When the display window is the whole buffer at the origin, re-basing changes nothing. */
  lemma RebaseOverWholeBufferIsIdentity(sw: Range2, bufferSize: Vec2i)
    requires bufferSize.x != 0 && bufferSize.y != 0
    ensures Width(BufferRect(bufferSize)) != 0.0 && Height(BufferRect(bufferSize)) != 0.0
    ensures RebaseToRenderBuffer(sw, BufferRect(bufferSize), bufferSize) == sw
  {
    var w, h := bufferSize.x as real, bufferSize.y as real;
    var sx := Width(sw) / w;
    var sy := Height(sw) / h;
    assert sx * w == Width(sw);
    assert sy * h == Height(sw);
  }

  /** Recovers the conformed window from a re-based one: the inverse of RebaseToRenderBuffer. */
  function RecoverFromRenderBuffer(r: Range2, displayWindow: Range2, bufferSize: Vec2i): Range2
    requires bufferSize.x != 0 && bufferSize.y != 0
  {
    var widthPerPixel := Width(r) / bufferSize.x as real;
    var heightPerPixel := Height(r) / bufferSize.y as real;
    var minX := r.min.x + widthPerPixel * displayWindow.min.x;
    var maxY := r.min.y - heightPerPixel * (displayWindow.min.y - bufferSize.y as real);
    Range2(Vec2(minX, maxY - heightPerPixel * Height(displayWindow)),
           Vec2(minX + widthPerPixel * Width(displayWindow), maxY))
  }

  /** Re-basing loses nothing: the conformed window can be recovered exactly. */
  lemma RebaseRoundTrip(sw: Range2, dw: Range2, bufferSize: Vec2i)
    requires Width(dw) != 0.0 && Height(dw) != 0.0
    requires bufferSize.x != 0 && bufferSize.y != 0
    ensures RecoverFromRenderBuffer(RebaseToRenderBuffer(sw, dw, bufferSize), dw, bufferSize) == sw
  {
    var r := RebaseToRenderBuffer(sw, dw, bufferSize);
    var w, h := bufferSize.x as real, bufferSize.y as real;
    var sx := Width(sw) / Width(dw);
    var sy := Height(sw) / Height(dw);
    assert Width(r) / w == sx by {
      assert Width(r) == sx * w;
      assert (sx * w) / w == sx;
    }
    assert Height(r) / h == sy by {
      assert Height(r) == sy * h;
      assert (sy * h) / h == sy;
    }
    assert sx * Width(dw) == Width(sw);
    assert sy * Height(dw) == Height(sw);
  }

  /** _SafeDiv: a / b, or 1 when b is zero (the source also reports a coding error then). */
  function SafeDiv(a: real, b: real): (r: real)
    ensures b == 0.0 ==> r == 1.0
    ensures b != 0.0 ==> r * b == a
  {
    if b == 0.0 then 1.0 else a / b
  }

  /** _GetDisplayWindowAspect: the display window's width / height times the pixel aspect ratio. */
  function DisplayWindowAspect(framing: Framing): (aspect: real)
    ensures Height(framing.displayWindow) != 0.0 ==>
      aspect * Height(framing.displayWindow) == framing.pixelAspectRatio * Width(framing.displayWindow)
    ensures Height(framing.displayWindow) == 0.0 ==> aspect == framing.pixelAspectRatio
  {
    var w, h := Width(framing.displayWindow), Height(framing.displayWindow);
    assert h != 0.0 ==> framing.pixelAspectRatio * SafeDiv(w, h) * h == framing.pixelAspectRatio * (SafeDiv(w, h) * h);
    framing.pixelAspectRatio * SafeDiv(w, h)
  }

  /** Reads (xmin, xmax, ymin, ymax) back into a window. */
  function FromVec4f(v: seq<real>): Range2
    requires |v| == 4
  {
    Range2(Vec2(v[0], v[2]), Vec2(v[1], v[3]))
  }

  /** _ToVec4f: the window in RenderMan's order (xmin, xmax, ymin, ymax). */
  function ToVec4f(window: Range2): (v: seq<real>)
    ensures |v| == 4 && FromVec4f(v) == window
  {
    [window.min.x, window.max.x, window.min.y, window.max.y]
  }

  lemma ToVec4fFromVec4f(v: seq<real>)
    requires |v| == 4
    ensures ToVec4f(FromVec4f(v)) == v
  {
  }

  /**
   * _ComputeScreenWindow: the camera's screen window, conformed by the window policy
   * to the display window's aspect ratio, then re-based onto the render buffer.
   * CameraUtilConformedWindow is not part of this model: it is the parameter conform.
   */
  function ComputeScreenWindow(
    cam: CameraAttrs, framing: Framing, policy: ConformPolicy, bufferSize: Vec2i,
    conform: (Range2, ConformPolicy, real) -> Range2): (v: seq<real>)
    requires cam.focalLength >= 0.0
    requires Width(framing.displayWindow) != 0.0 && Height(framing.displayWindow) != 0.0
    ensures |v| == 4
    ensures bufferSize.x != 0 && bufferSize.y != 0 ==>
      SameImageMapping(FromVec4f(v), BufferRect(bufferSize),
                       conform(GetScreenWindow(cam), policy, DisplayWindowAspect(framing)),
                       framing.displayWindow)
  {
    var forCamera := GetScreenWindow(cam);
    var forDisplayWindow := conform(forCamera, policy, DisplayWindowAspect(framing));
    var forRenderBuffer := RebaseToRenderBuffer(forDisplayWindow, framing.displayWindow, bufferSize);
    if bufferSize.x != 0 && bufferSize.y != 0 then
      RebasePreservesImageMapping(forDisplayWindow, framing.displayWindow, bufferSize);
      ToVec4f(forRenderBuffer)
    else
      ToVec4f(forRenderBuffer)
  }
}
