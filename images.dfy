/** A dense two-dimensional image (an OpenCV `Mat` of one element type),
    stored row by row: `img[row][col]`. */
module Images {

  type Image<T> = seq<seq<T>>

  /** `img` has exactly `h` rows of exactly `w` pixels each. */
  predicate IsGrid<T>(img: Image<T>, h: nat, w: nat)
  {
    |img| == h && forall r :: 0 <= r < h ==> |img[r]| == w
  }

  /** `Mat::rows()`. */
  function Rows<T>(img: Image<T>): nat
  {
    |img|
  }

  /** `Mat::cols()`: the width of the rows; an image without rows has none. */
  function Cols<T>(img: Image<T>): nat
  {
    if |img| == 0 then 0 else |img[0]|
  }

  /** Every row has the same width, as in any `Mat`. */
  predicate WellFormed<T>(img: Image<T>)
  {
    IsGrid(img, Rows(img), Cols(img))
  }

  /** Two images of the same shape that agree pixel by pixel are equal. */
  lemma GridEquality<T>(a: Image<T>, b: Image<T>, h: nat, w: nat)
    requires IsGrid(a, h, w) && IsGrid(b, h, w)
    requires forall r, c :: 0 <= r < h && 0 <= c < w ==> a[r][c] == b[r][c]
    ensures a == b
  {
    forall r | 0 <= r < h
      ensures a[r] == b[r]
    {
      assert forall c :: 0 <= c < w ==> a[r][c] == b[r][c];
    }
  }
}
