/**
 * Time-sampled transforms handed to Riley (cameraContext.cpp, lines 381-402).
 *
 * Hydra's camera space is right-handed (y up, looking along -z); RenderMan's is
 * left-handed (y up, looking along +z). The camera transform is converted by
 * left-multiplying each sample with diag(1, 1, -1, 1); clipping-plane transforms
 * are passed through unflipped. The double-to-float conversion of
 * HdPrman_GfMatrixToRtMatrix is the identity here.
 */
module Matrices {
  import opened Geometry

  /** diag(1, 1, -1, 1). */
  const FlipZMatrix: Matrix4 := Diagonal(Vec4(1.0, 1.0, -1.0, 1.0))

  /** The sample m with camera-space z flipped: its z row (the image of the z axis) negated. */
  function FlipZ(m: Matrix4): Matrix4
  {
    Matrix4(m.r0, m.r1, Scale4(m.r2, -1.0), m.r3)
  }

  lemma ScaleByOne(v: Vec4)
    ensures Scale4(v, 1.0) == v
  {
  }

  lemma ScaleByZero(v: Vec4)
    ensures Scale4(v, 0.0) == Vec4(0.0, 0.0, 0.0, 0.0)
  {
  }

  lemma UnitRowTimes(m: Matrix4, s: real)
    ensures RowTimes(Vec4(s, 0.0, 0.0, 0.0), m) == Scale4(m.r0, s)
    ensures RowTimes(Vec4(0.0, s, 0.0, 0.0), m) == Scale4(m.r1, s)
    ensures RowTimes(Vec4(0.0, 0.0, s, 0.0), m) == Scale4(m.r2, s)
    ensures RowTimes(Vec4(0.0, 0.0, 0.0, s), m) == Scale4(m.r3, s)
  {
    ScaleByZero(m.r0);
    ScaleByZero(m.r1);
    ScaleByZero(m.r2);
    ScaleByZero(m.r3);
  }

  /** FlipZ is the source's product flipZMatrix * m. */
  lemma FlipZIsLeftProduct(m: Matrix4)
    ensures FlipZ(m) == Mul(FlipZMatrix, m)
  {
    UnitRowTimes(m, 1.0);
    UnitRowTimes(m, -1.0);
    ScaleByOne(m.r0);
    ScaleByOne(m.r1);
    ScaleByOne(m.r3);
  }

  /** One converted sample: flipped when flipZ is set. */
  function Convert(m: Matrix4, flipZ: bool): Matrix4
  {
    if flipZ then FlipZ(m) else m
  }

  /** The converted samples, in sample order. */
  function ConvertedMatrices(samples: seq<Matrix4>, flipZ: bool): (r: seq<Matrix4>)
    ensures |r| == |samples|
  {
    seq(|samples|, i requires 0 <= i < |samples| => Convert(samples[i], flipZ))
  }

  /** Without the flip the samples are passed through unchanged. */
  lemma UnflippedMatricesAreSamples(samples: seq<Matrix4>)
    ensures ConvertedMatrices(samples, false) == samples
  {
  }

  /** With the flip, every converted sample is the product diag(1, 1, -1, 1) * sample. */
  lemma FlippedMatricesAreProducts(samples: seq<Matrix4>)
    ensures forall i :: 0 <= i < |samples| ==> ConvertedMatrices(samples, true)[i] == Mul(FlipZMatrix, samples[i])
  {
    forall i | 0 <= i < |samples|
      ensures ConvertedMatrices(samples, true)[i] == Mul(FlipZMatrix, samples[i])
    {
      FlipZIsLeftProduct(samples[i]);
    }
  }

  /** Any sequence that agrees with the conversion index by index is the conversion. */
  lemma ConvertedMatricesElementwise(r: seq<Matrix4>, samples: seq<Matrix4>, flipZ: bool)
    requires |r| == |samples|
    requires forall j :: 0 <= j < |samples| ==> r[j] == Convert(samples[j], flipZ)
    ensures r == ConvertedMatrices(samples, flipZ)
  {
  }

  /** _ToRtMatrices: fills a vector of |samples| matrices, index by index. */
  method ToRtMatrices(samples: seq<Matrix4>, flipZ: bool) returns (matrices: seq<Matrix4>)
    ensures matrices == ConvertedMatrices(samples, flipZ)
  {
    var result := new Matrix4[|samples|](_ => Identity());
    for i := 0 to |samples|
      invariant forall j :: 0 <= j < i ==> result[j] == Convert(samples[j], flipZ)
    {
      result[i] := Convert(samples[i], flipZ);
    }
    matrices := result[..];
    ConvertedMatricesElementwise(matrices, samples, flipZ);
  }
}
