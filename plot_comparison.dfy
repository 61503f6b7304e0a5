/** `ensure_3d`: the image and the point handed to the 3D plots are padded
    with leading axes until both are three-dimensional. */
module PlotComparison {
  import ErrorDisplay

  /** A numpy array: its shape and its values in row-major order. */
  datatype NdArray = NdArray(shape: seq<nat>, values: seq<real>)

  /** The number of values an array of this shape holds. */
  function Product(shape: seq<nat>): nat
  {
    if |shape| == 0 then 1 else shape[0] * Product(shape[1..])
  }

  /** The image part of `ensure_3d`: a vector gains two leading axes of length
      one, a plane gains one, and any other rank is returned as it is. */
  function ExpandImage(image: NdArray): (r: NdArray)
    ensures r.values == image.values
    ensures |image.shape| == 1 ==> r.shape == [1, 1] + image.shape
    ensures |image.shape| == 2 ==> r.shape == [1] + image.shape
    ensures |image.shape| != 1 && |image.shape| != 2 ==> r == image
  {
    if |image.shape| == 1 then NdArray([1, 1] + image.shape, image.values)
    else if |image.shape| == 2 then NdArray([1] + image.shape, image.values)
    else image
  }

  /** The point part of `ensure_3d`: one coordinate is taken as the last axis,
      two as the last two, and any other length is returned as it is. */
  function PadPoint(point: seq<real>): (r: seq<real>)
    ensures |point| == 1 ==> r == [0.0, 0.0] + point
    ensures |point| == 2 ==> r == [0.0] + point
    ensures |point| != 1 && |point| != 2 ==> r == point
  {
    if |point| == 1 then [0.0, 0.0, point[0]]
    else if |point| == 2 then [0.0, point[0], point[1]]
    else point
  }

  /** `ensure_3d(image, point)`. */
  function Ensure3D(image: NdArray, point: seq<real>): (NdArray, seq<real>)
  {
    (ExpandImage(image), PadPoint(point))
  }

  lemma {:induction false} ProductOfLeadingOne(shape: seq<nat>)
    ensures Product([1] + shape) == Product(shape)
  {
    assert ([1] + shape)[1..] == shape;
  }

  /** Padding adds axes of length one only: the image keeps its values and
      their number, and an image of rank one to three ends with rank three. */
  lemma Ensure3DKeepsTheImage(image: NdArray, point: seq<real>)
    ensures var r := Ensure3D(image, point).0;
      r.values == image.values && Product(r.shape) == Product(image.shape)
      && (1 <= |image.shape| <= 3 <==> |r.shape| == 3)
      && r.shape[|r.shape| - |image.shape|..] == image.shape
  {
    var r := Ensure3D(image, point).0;
    if |image.shape| == 1 {
      ProductOfLeadingOne([1] + image.shape);
      ProductOfLeadingOne(image.shape);
      assert [1, 1] + image.shape == [1] + ([1] + image.shape);
    } else if |image.shape| == 2 {
      ProductOfLeadingOne(image.shape);
    }
  }

  /** A point of one to three coordinates ends with three, its own coordinates
      last and zeros before them. */
  lemma Ensure3DKeepsThePoint(image: NdArray, point: seq<real>)
    ensures var r := Ensure3D(image, point).1;
      (1 <= |point| <= 3 <==> |r| == 3)
      && r[|r| - |point|..] == point
      && forall i :: 0 <= i < |r| - |point| ==> r[i] == 0.0
  {
  }

  /** Applying `ensure_3d` to its own result changes nothing. */
  lemma Ensure3DIsIdempotent(image: NdArray, point: seq<real>)
    ensures var r := Ensure3D(image, point);
      Ensure3D(r.0, r.1) == r
  {
  }

  /** The two padding rules of the plugin disagree on a single coordinate:
      `upscale_to_3d` puts it on the first axis, `ensure_3d` on the last. On
      two or three coordinates they agree. */
  lemma PaddingConventionsDiffer(point: seq<real>)
    requires 1 <= |point| <= 3
    ensures var upscaled := ErrorDisplay.UpscaleTo3D(ErrorDisplay.Sequence(point));
      upscaled.Success?
      && (|point| == 1 ==> upscaled.value == [point[0], 0.0, 0.0] && PadPoint(point) == [0.0, 0.0, point[0]])
      && (upscaled.value == PadPoint(point) <==> |point| > 1 || point[0] == 0.0)
  {
  }
}
