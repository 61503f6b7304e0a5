/** Three-dimensional intensity arrays, indexed [z][y][x] as numpy indexes them. */
module Volumes {

  /** An array of shape (depth, height, width). Height and width are kept beside
      the planes because an array with no planes still has them in its shape. */
  datatype Grid3<T> = Grid3(height: nat, width: nat, planes: seq<seq<seq<T>>>) {

    function Depth(): nat { |planes| }

    /** Every plane has `height` rows of `width` values. */
    predicate Valid() {
      forall z :: 0 <= z < |planes| ==>
        |planes[z]| == height && forall y :: 0 <= y < height ==> |planes[z][y]| == width
    }

    predicate InPlane(y: int, x: int) {
      0 <= y < height && 0 <= x < width
    }

    /** The Z profile `a[:, y, x]`. */
    function Column(y: nat, x: nat): (col: seq<T>)
      requires Valid() && InPlane(y, x)
      ensures |col| == |planes|
      ensures forall z :: 0 <= z < |planes| ==> col[z] == planes[z][y][x]
    {
      seq(|planes|, z requires 0 <= z < |planes| => planes[z][y][x])
    }
  }
}
