/** The quadrant layout of lib_cv's utils: cutting one composite frame into
    four camera views and gluing four views back into one frame. */
module Quadrants {
  import opened Wrappers
  import opened Images

  /** `opencv::core::Rect`: top-left corner (x is the column, y the row),
      then width and height. */
  datatype Rect = Rect(x: int, y: int, width: int, height: int)

  /** The failures of the OpenCV calls used here. */
  datatype MatError =
    | RoiOutsideImage    // Mat::roi with a rectangle that does not fit
    | RowCountMismatch   // hconcat of images of different heights
    | ColCountMismatch   // vconcat of images of different widths

  /** The four views, in the order the split returns them:
      top-left, top-right, bottom-left, bottom-right. */
  datatype Quadrants<T> = Quadrants(q1: Image<T>, q2: Image<T>, q3: Image<T>, q4: Image<T>)
  {
    function Get(k: nat): Image<T>
      requires k < 4
    {
      if k == 0 then q1 else if k == 1 then q2 else if k == 2 then q3 else q4
    }
  }

  /** (row, column) of the top-left corner of quadrant `k` of an h×w image. */
  function Origin(k: nat, h: nat, w: nat): (nat, nat)
    requires k < 4
  {
    (if k < 2 then 0 else h / 2, if k % 2 == 0 then 0 else w / 2)
  }

  /** Where pixel (i, j) of quadrant `k` comes from in the h×w image. */
  function SourcePixel(k: nat, h: nat, w: nat, i: int, j: int): (int, int)
    requires k < 4
  {
    (i + Origin(k, h, w).0, j + Origin(k, h, w).1)
  }

  predicate Fits<T>(img: Image<T>, r: Rect)
  {
    && 0 <= r.x && 0 <= r.width && r.x + r.width <= Cols(img)
    && 0 <= r.y && 0 <= r.height && r.y + r.height <= Rows(img)
  }

  /** `Mat::roi` followed by `copy_to`: a copy of the pixels under `r`. */
  function Roi<T>(img: Image<T>, r: Rect): (res: Result<Image<T>, MatError>)
    requires WellFormed(img)
    ensures res.Ok? <==> Fits(img, r)
    ensures res.Ok? ==> IsGrid(res.value, r.height, r.width)
    ensures res.Ok? ==> forall i, j :: 0 <= i < r.height && 0 <= j < r.width ==>
                          res.value[i][j] == img[r.y + i][r.x + j]
  {
    if Fits(img, r) then
      Ok(seq(r.height, i requires 0 <= i < r.height => img[r.y + i][r.x .. r.x + r.width]))
    else
      Err(RoiOutsideImage)
  }

  /** Quadrant `q` is the (h/2)×(w/2) block of the h×w `img` whose top-left
      corner is `Origin(k, h, w)`. */
  ghost predicate CopiedFrom<T>(q: Image<T>, img: Image<T>, k: nat)
    requires k < 4 && WellFormed(img)
  {
    var h, w := Rows(img), Cols(img);
    && IsGrid(q, h / 2, w / 2)
    && forall i, j :: 0 <= i < h / 2 && 0 <= j < w / 2 ==>
         q[i][j] == img[i + Origin(k, h, w).0][j + Origin(k, h, w).1]
  }

  /** `split_image_into_quadrants`: four (h/2)×(w/2) copies whose corners
      are given by `Origin`; integer halving never leaves the image, so the
      ROI calls cannot fail. */
  function SplitImageIntoQuadrants<T>(img: Image<T>): (r: Result<Quadrants<T>, MatError>)
    requires WellFormed(img)
    ensures r.Ok?
    ensures CopiedFrom(r.value.q1, img, 0) && CopiedFrom(r.value.q2, img, 1)
    ensures CopiedFrom(r.value.q3, img, 2) && CopiedFrom(r.value.q4, img, 3)
  {
    var roi1 := Roi(img, Rect(0, 0, Cols(img) / 2, Rows(img) / 2));
    var roi2 := Roi(img, Rect(Cols(img) / 2, 0, Cols(img) / 2, Rows(img) / 2));
    var roi3 := Roi(img, Rect(0, Rows(img) / 2, Cols(img) / 2, Rows(img) / 2));
    var roi4 := Roi(img, Rect(Cols(img) / 2, Rows(img) / 2, Cols(img) / 2, Rows(img) / 2));
    if roi1.Err? || roi2.Err? || roi3.Err? || roi4.Err? then Err(RoiOutsideImage)
    else Ok(Quadrants(roi1.value, roi2.value, roi3.value, roi4.value))
  }

  /** `hconcat` of two images: side by side, heights must agree. */
  function HConcat<T>(a: Image<T>, b: Image<T>): (r: Result<Image<T>, MatError>)
    ensures r.Ok? <==> Rows(a) == Rows(b)
    ensures r.Ok? && WellFormed(a) && WellFormed(b) ==>
              && IsGrid(r.value, Rows(a), PairWidth(a, b))
              && forall i, j :: 0 <= i < Rows(a) && 0 <= j < PairWidth(a, b) ==>
                   r.value[i][j] == (if j < Cols(a) then a[i][j] else b[i][j - Cols(a)])
  {
    if Rows(a) != Rows(b) then Err(RowCountMismatch)
    else Ok(seq(|a|, i requires 0 <= i < |a| => a[i] + b[i]))
  }

  /** `vconcat` of two images: one above the other, widths must agree. */
  function VConcat<T>(a: Image<T>, b: Image<T>): (r: Result<Image<T>, MatError>)
    ensures r.Ok? <==> Cols(a) == Cols(b)
    ensures r.Ok? && WellFormed(a) && WellFormed(b) ==>
              && IsGrid(r.value, Rows(a) + Rows(b), Cols(a))
              && forall i, j :: 0 <= i < Rows(a) + Rows(b) && 0 <= j < Cols(a) ==>
                   r.value[i][j] == (if i < Rows(a) then a[i][j] else b[i - Rows(a)][j])
  {
    if Cols(a) != Cols(b) then Err(ColCountMismatch) else Ok(a + b)
  }

  /** Width of `hconcat(a, b)` when the heights agree. */
  function PairWidth<T>(a: Image<T>, b: Image<T>): nat
  {
    if |a| == 0 then 0 else Cols(a) + Cols(b)
  }

  /** `combine_quadrants`: vconcat(hconcat(img1, img2), hconcat(img3, img4)),
      the first failing concatenation's error propagated. */
  function CombineQuadrants<T>(img1: Image<T>, img2: Image<T>, img3: Image<T>, img4: Image<T>)
    : (r: Result<Image<T>, MatError>)
    ensures Rows(img1) != Rows(img2) ==> r == Err(RowCountMismatch)
    ensures Rows(img1) == Rows(img2) && Rows(img3) != Rows(img4) ==> r == Err(RowCountMismatch)
    ensures Rows(img1) == Rows(img2) && Rows(img3) == Rows(img4) ==>
              (r.Ok? <==> PairWidth(img1, img2) == PairWidth(img3, img4))
    ensures r.Err? && Rows(img1) == Rows(img2) && Rows(img3) == Rows(img4) ==> r == Err(ColCountMismatch)
    ensures r.Ok? ==> |r.value| == Rows(img1) + Rows(img3)
  {
    var top :- HConcat(img1, img2);
    var bottom :- HConcat(img3, img4);
    VConcat(top, bottom)
  }

  /** `m` holds a top-left, b top-right, c bottom-left and d bottom-right,
      each h×w. */
  ghost predicate Placed<T>(m: Image<T>, a: Image<T>, b: Image<T>, c: Image<T>, d: Image<T>, h: nat, w: nat)
    requires IsGrid(m, 2 * h, 2 * w)
    requires IsGrid(a, h, w) && IsGrid(b, h, w) && IsGrid(c, h, w) && IsGrid(d, h, w)
  {
    && (forall i, j :: 0 <= i < h && 0 <= j < w ==> m[i][j] == a[i][j])
    && (forall i, j :: 0 <= i < h && 0 <= j < w ==> m[i][j + w] == b[i][j])
    && (forall i, j :: 0 <= i < h && 0 <= j < w ==> m[i + h][j] == c[i][j])
    && (forall i, j :: 0 <= i < h && 0 <= j < w ==> m[i + h][j + w] == d[i][j])
  }

  /** Four h×w views combine into a 2h×2w frame with img1 top-left, img2
      top-right, img3 bottom-left and img4 bottom-right. */
  lemma CombineLayout<T>(a: Image<T>, b: Image<T>, c: Image<T>, d: Image<T>, h: nat, w: nat)
    requires IsGrid(a, h, w) && IsGrid(b, h, w) && IsGrid(c, h, w) && IsGrid(d, h, w)
    ensures CombineQuadrants(a, b, c, d).Ok?
    ensures IsGrid(CombineQuadrants(a, b, c, d).value, 2 * h, 2 * w)
    ensures Placed(CombineQuadrants(a, b, c, d).value, a, b, c, d, h, w)
  {
    var top := HConcat(a, b).value;
    var bottom := HConcat(c, d).value;
    assert IsGrid(top, h, 2 * w);
    assert IsGrid(bottom, h, 2 * w);
  }

  /** Splitting a combined frame gives back the four views it was built from. */
  lemma SplitOfCombine<T>(a: Image<T>, b: Image<T>, c: Image<T>, d: Image<T>, h: nat, w: nat)
    requires IsGrid(a, h, w) && IsGrid(b, h, w) && IsGrid(c, h, w) && IsGrid(d, h, w)
    ensures CombineQuadrants(a, b, c, d).Ok?
    ensures var m := CombineQuadrants(a, b, c, d).value;
      WellFormed(m) && SplitImageIntoQuadrants(m) == Ok(Quadrants(a, b, c, d))
  {
    CombineLayout(a, b, c, d, h, w);
    var m := CombineQuadrants(a, b, c, d).value;
    if h == 0 {
      assert m == [];
    } else {
      var q := SplitImageIntoQuadrants(m).value;
      QuadrantOfCombined(m, q.q1, 0, a, b, c, d, h, w);
      QuadrantOfCombined(m, q.q2, 1, a, b, c, d, h, w);
      QuadrantOfCombined(m, q.q3, 2, a, b, c, d, h, w);
      QuadrantOfCombined(m, q.q4, 3, a, b, c, d, h, w);
    }
  }

  /** Quadrant k cut from a frame in which four views are placed is view k. */
  lemma QuadrantOfCombined<T>(m: Image<T>, q: Image<T>, k: nat, a: Image<T>, b: Image<T>, c: Image<T>, d: Image<T>, h: nat, w: nat)
    requires k < 4 && 0 < h && IsGrid(m, 2 * h, 2 * w)
    requires IsGrid(a, h, w) && IsGrid(b, h, w) && IsGrid(c, h, w) && IsGrid(d, h, w)
    requires Placed(m, a, b, c, d, h, w)
    requires CopiedFrom(q, m, k)
    ensures q == Quadrants(a, b, c, d).Get(k)
  {
    assert Rows(m) == 2 * h && Cols(m) == 2 * w;
    var x := Quadrants(a, b, c, d).Get(k);
    var oi := if k < 2 then 0 else h;
    var oj := if k % 2 == 0 then 0 else w;
    assert Origin(k, 2 * h, 2 * w) == (oi, oj);
    forall i, j | 0 <= i < h && 0 <= j < w
      ensures q[i][j] == x[i][j]
    {
      assert q[i][j] == m[i + oi][j + oj];
      if k == 0 {
        assert m[i][j] == a[i][j];
      } else if k == 1 {
        assert m[i][j + w] == b[i][j];
      } else if k == 2 {
        assert m[i + h][j] == c[i][j];
      } else {
        assert m[i + h][j + w] == d[i][j];
      }
    }
    GridEquality(q, x, h, w);
  }

  /** Recombining the four quadrants of an even-sized frame gives the frame back. */
  lemma CombineOfSplit<T>(img: Image<T>)
    requires WellFormed(img) && Rows(img) % 2 == 0 && Cols(img) % 2 == 0
    ensures var q := SplitImageIntoQuadrants(img).value;
      CombineQuadrants(q.q1, q.q2, q.q3, q.q4) == Ok(img)
  {
    var h, w := Rows(img) / 2, Cols(img) / 2;
    var q := SplitImageIntoQuadrants(img).value;
    CombineLayout(q.q1, q.q2, q.q3, q.q4, h, w);
    var m := CombineQuadrants(q.q1, q.q2, q.q3, q.q4).value;
    forall i, j | 0 <= i < 2 * h && 0 <= j < 2 * w
      ensures m[i][j] == img[i][j]
    {
      PixelOfRecombined(img, q, m, h, w, i, j);
    }
    GridEquality(m, img, 2 * h, 2 * w);
  }

  /** One pixel of the frame rebuilt from the quadrants of a 2h×2w image. */
  lemma PixelOfRecombined<T>(img: Image<T>, q: Quadrants<T>, m: Image<T>, h: nat, w: nat, i: nat, j: nat)
    requires IsGrid(img, 2 * h, 2 * w) && i < 2 * h && j < 2 * w
    requires CopiedFrom(q.q1, img, 0) && CopiedFrom(q.q2, img, 1)
    requires CopiedFrom(q.q3, img, 2) && CopiedFrom(q.q4, img, 3)
    requires IsGrid(m, 2 * h, 2 * w)
    requires Placed(m, q.q1, q.q2, q.q3, q.q4, h, w)
    ensures m[i][j] == img[i][j]
  {
    assert Rows(img) == 2 * h && Cols(img) == 2 * w;
    if i < h && j < w {
      assert m[i][j] == q.q1[i][j];
    } else if i < h {
      assert m[i][(j - w) + w] == q.q2[i][j - w];
    } else if j < w {
      assert m[(i - h) + h][j] == q.q3[i - h][j];
    } else {
      assert m[(i - h) + h][(j - w) + w] == q.q4[i - h][j - w];
    }
  }

  /** Pixel (row, col) of an h×w frame is copied into some quadrant. */
  ghost predicate InSomeQuadrant(h: nat, w: nat, row: int, col: int)
  {
    exists k: nat, i: int, j: int :: k < 4 && 0 <= i < h / 2 && 0 <= j < w / 2 && SourcePixel(k, h, w, i, j) == (row, col)
  }

  /** The four quadrants cover exactly the top-left 2(h/2)×2(w/2) block. */
  lemma SplitCoverage(h: nat, w: nat, row: int, col: int)
    requires 0 <= row < h && 0 <= col < w
    ensures InSomeQuadrant(h, w, row, col) <==> row < 2 * (h / 2) && col < 2 * (w / 2)
  {
    if row < 2 * (h / 2) && col < 2 * (w / 2) {
      var k := (if row < h / 2 then 0 else 2) + (if col < w / 2 then 0 else 1);
      var i := if row < h / 2 then row else row - h / 2;
      var j := if col < w / 2 then col else col - w / 2;
      assert SourcePixel(k, h, w, i, j) == (row, col);
    }
  }

  /** An odd width loses the last column. */
  lemma OddWidthLosesLastColumn(h: nat, w: nat, row: int)
    requires w % 2 == 1 && 0 <= row < h
    ensures !InSomeQuadrant(h, w, row, w - 1)
  {
    SplitCoverage(h, w, row, w - 1);
  }

  /** An odd height loses the last row. */
  lemma OddHeightLosesLastRow(h: nat, w: nat, col: int)
    requires h % 2 == 1 && 0 <= col < w
    ensures !InSomeQuadrant(h, w, h - 1, col)
  {
    SplitCoverage(h, w, h - 1, col);
  }
}
