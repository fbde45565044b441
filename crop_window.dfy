/**
 * The crop window handed to RenderMan (cameraContext.cpp, lines 543-590): the
 * data window as fractions (xmin, xmax, ymin, ymax) of the render buffer, y-down.
 *
 * RenderMan turns a crop window back into pixel bounds as
 *   rxmin = clamp(ceil(width * xmin),     0, width - 1)
 *   rxmax = clamp(ceil(width * xmax - 1), 0, width - 1)
 * and likewise for y; CropWindowRecoversDataWindow shows that this gives back
 * the data window, clamped to the render buffer.
 */
module CropWindow {
  import opened Geometry

  /** The negative bias 1/128 subtracted from the pixel bound before dividing. */
  const Bias: real := 0.0078125

  /**
   * _DivRoundDown: (a - 1/128) / b clamped to [0, 1]. For b = 0 the float division
   * gives +infinity when a > 0 and -infinity otherwise, which clamp to 1 and 0.
   */
  function DivRoundDown(a: int, b: int): (r: real)
    ensures 0.0 <= r <= 1.0
    ensures b > 0 && 0 < a <= b ==> r * b as real == a as real - Bias
    ensures b > 0 && a <= 0 ==> r == 0.0
    ensures b > 0 && a > b ==> r == 1.0
  {
    if b == 0 then
      if a > 0 then 1.0 else 0.0
    else
      Clamp((a as real - Bias) / b as real, 0.0, 1.0)
  }

  /** For a positive buffer size, a larger pixel bound never gives a smaller fraction. */
  lemma DivRoundDownMonotonic(a1: int, a2: int, b: int)
    ensures b > 0 && a1 <= a2 ==> DivRoundDown(a1, b) <= DivRoundDown(a2, b)
  {
    if b <= 0 || a1 > a2 {
      return;
    }
    var q1 := (a1 as real - Bias) / b as real;
    var q2 := (a2 as real - Bias) / b as real;
    assert q1 <= q2 by {
      assert q2 - q1 == (a2 - a1) as real / b as real;
    }
  }

  /** Scaling the fraction back by b and rounding up gives the bound, clamped to [0, b]. */
  lemma CeilOfDivRoundDown(a: int, b: int)
    requires b > 0
    ensures Ceil(b as real * DivRoundDown(a, b)) == ClampInt(a, 0, b)
  {
    var r := DivRoundDown(a, b);
    if a <= 0 {
      assert b as real * r == 0.0;
    } else if a <= b {
      assert b as real * r == a as real - Bias;
      var c := Ceil(a as real - Bias);
      assert a as real - Bias <= c as real < a as real - Bias + 1.0;
    } else {
      assert b as real * r == b as real;
    }
  }

  lemma CeilMinusOne(x: real)
    ensures Ceil(x - 1.0) == Ceil(x) - 1
  {
    var c, d := Ceil(x), Ceil(x - 1.0);
    assert x - 1.0 <= d as real < x;
    assert x <= c as real < x + 1.0;
  }

  /**
   * _ComputeCropWindow: (xmin, xmax, ymin, ymax) from the data window's inclusive
   * corners, using minX, maxX + 1, minY and maxY + 1 over the buffer size.
   */
  function ComputeCropWindow(dataWindow: Rect2i, bufferSize: Vec2i): (c: seq<real>)
    ensures |c| == 4
    ensures forall i :: 0 <= i < 4 ==> 0.0 <= c[i] <= 1.0
    ensures c[0] == DivRoundDown(dataWindow.minX, bufferSize.x)
    ensures c[1] == DivRoundDown(dataWindow.maxX + 1, bufferSize.x)
    ensures c[2] == DivRoundDown(dataWindow.minY, bufferSize.y)
    ensures c[3] == DivRoundDown(dataWindow.maxY + 1, bufferSize.y)
    ensures bufferSize.x > 0 && dataWindow.minX <= dataWindow.maxX ==> c[0] <= c[1]
    ensures bufferSize.y > 0 && dataWindow.minY <= dataWindow.maxY ==> c[2] <= c[3]
  {
    DivRoundDownMonotonic(dataWindow.minX, dataWindow.maxX + 1, bufferSize.x);
    DivRoundDownMonotonic(dataWindow.minY, dataWindow.maxY + 1, bufferSize.y);
    [DivRoundDown(dataWindow.minX, bufferSize.x),
     DivRoundDown(dataWindow.maxX + 1, bufferSize.x),
     DivRoundDown(dataWindow.minY, bufferSize.y),
     DivRoundDown(dataWindow.maxY + 1, bufferSize.y)]
  }

  /** RenderMan's first pixel for a crop-window lower fraction lo over size pixels. */
  function RenderedPixelMin(size: int, lo: real): int
  {
    ClampInt(Ceil(size as real * lo), 0, size - 1)
  }

  /** RenderMan's last pixel for a crop-window upper fraction hi over size pixels. */
  function RenderedPixelMax(size: int, hi: real): int
  {
    ClampInt(Ceil(size as real * hi - 1.0), 0, size - 1)
  }

  /** One axis of the reconstruction: bounds lo and hi come back clamped to [0, size - 1]. */
  lemma AxisRecovered(lo: int, hi: int, size: int)
    requires size > 0
    ensures RenderedPixelMin(size, DivRoundDown(lo, size)) == ClampInt(lo, 0, size - 1)
    ensures RenderedPixelMax(size, DivRoundDown(hi + 1, size)) == ClampInt(hi, 0, size - 1)
  {
    CeilOfDivRoundDown(lo, size);
    CeilOfDivRoundDown(hi + 1, size);
    CeilMinusOne(size as real * DivRoundDown(hi + 1, size));
  }

  /**
   * The crop window names exactly the data window's pixels: RenderMan's
   * reconstruction yields the data window's corners clamped to the buffer,
   * in particular the data window itself when it lies inside the buffer.
   */
  lemma CropWindowRecoversDataWindow(dataWindow: Rect2i, bufferSize: Vec2i)
    requires bufferSize.x > 0 && bufferSize.y > 0
    ensures var c := ComputeCropWindow(dataWindow, bufferSize);
      && RenderedPixelMin(bufferSize.x, c[0]) == ClampInt(dataWindow.minX, 0, bufferSize.x - 1)
      && RenderedPixelMax(bufferSize.x, c[1]) == ClampInt(dataWindow.maxX, 0, bufferSize.x - 1)
      && RenderedPixelMin(bufferSize.y, c[2]) == ClampInt(dataWindow.minY, 0, bufferSize.y - 1)
      && RenderedPixelMax(bufferSize.y, c[3]) == ClampInt(dataWindow.maxY, 0, bufferSize.y - 1)
  {
    AxisRecovered(dataWindow.minX, dataWindow.maxX, bufferSize.x);
    AxisRecovered(dataWindow.minY, dataWindow.maxY, bufferSize.y);
  }

  /** The worked case of a 1920x1080 buffer with data window (100, 100)-(500, 400). */
  lemma CropWindowExample()
    ensures var c := ComputeCropWindow(Rect2i(100, 100, 500, 400), Vec2i(1920, 1080));
      && RenderedPixelMin(1920, c[0]) == 100 && RenderedPixelMax(1920, c[1]) == 500
      && RenderedPixelMin(1080, c[2]) == 100 && RenderedPixelMax(1080, c[3]) == 400
  {
    CropWindowRecoversDataWindow(Rect2i(100, 100, 500, 400), Vec2i(1920, 1080));
  }
}
