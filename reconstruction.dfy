/** lib_cv's reconstruction step around the external solvers: the 3D point
    and point-cloud types, the input checks and the confidence rule of
    multi-camera triangulation, the confidence filter and the colouring of
    a cloud from the reference image. */
module Reconstruction {
  import opened Wrappers
  import opened Seqs
  import opened Images

  newtype byte = x: int | 0 <= x < 256

  /** A colour as stored on a point: red, green, blue. */
  datatype Rgb = Rgb(r: byte, g: byte, b: byte)

  /** A pixel of an OpenCV colour image (`Vec3b`): channel 0 is blue,
      1 green, 2 red. */
  datatype Vec3b = Vec3b(c0: byte, c1: byte, c2: byte)

  /** `Point3D`: a position in the reference camera's frame, an optional
      colour, an optional track id and a confidence. */
  datatype Point3D = Point3D(x: real, y: real, z: real, color: Option<Rgb>, trackId: Option<nat>, confidence: real)

  /** `Point3D::new`: a point without colour and without track id. */
  function NewPoint3D(x: real, y: real, z: real, confidence: real): (p: Point3D)
    ensures p.x == x && p.y == y && p.z == z && p.confidence == confidence
    ensures p.color.None? && p.trackId.None?
  {
    Point3D(x, y, z, None, None, confidence)
  }

  /** `PointCloud`: the points of one frame and the frame's index. The
      library changes a cloud in place, so it is an object here. */
  class PointCloud {
    var points: seq<Point3D>
    var timestamp: nat

    constructor (points: seq<Point3D>, timestamp: nat)
      ensures this.points == points && this.timestamp == timestamp
    {
      this.points := points;
      this.timestamp := timestamp;
    }
  }

  // ---------------------------------------------------------------------
  // Confidence of a triangulated point

  /** Mean reprojection error, in pixels, at which confidence reaches zero. */
  const ErrorScale: real := 5.0

  /** `1 - min(meanError / 5, 1)`: a linear fall-off from 1 at no error to
      0 at ErrorScale pixels and beyond. */
  function Confidence(meanError: real): (c: real)
    ensures meanError >= 0.0 ==> 0.0 <= c <= 1.0
    ensures meanError == 0.0 ==> c == 1.0
    ensures meanError >= ErrorScale ==> c == 0.0
    ensures 0.0 <= meanError < ErrorScale ==> c > 0.0
  {
    1.0 - (if meanError / ErrorScale < 1.0 then meanError / ErrorScale else 1.0)
  }

  /** A larger error never gives a higher confidence. */
  lemma ConfidenceNonIncreasing(e1: real, e2: real)
    requires e1 <= e2
    ensures Confidence(e2) <= Confidence(e1)
  {
  }

  /** A point counts as bad only when its mean error strictly exceeds
      ErrorScale. A bad point has zero confidence, but a point with zero
      confidence is not always bad: at exactly ErrorScale it is not. */
  function IsBad(meanError: real): (r: bool)
    ensures r ==> Confidence(meanError) == 0.0
    ensures meanError == ErrorScale ==> !r && Confidence(meanError) == 0.0
  {
    meanError > ErrorScale
  }

  // ---------------------------------------------------------------------
  // Multi-camera triangulation

  /** Why `triangulate_points_multiple` refuses or fails. */
  datatype TriangulationError =
    | TooFewViews            // fewer than 2 point tables or fewer than 2 cameras
    | ViewCountMismatch      // as many point tables as cameras is required
    | BadTableShape(camera: nat)  // the table of `camera` is not num_points×2
    | SolverFailed           // the external triangulation reported an error
    | MissingColumn(point: nat)   // the solver's 3×N result has no column `point`

  /** One column of the solver's result: a dehomogenised 3D position. */
  datatype Xyz = Xyz(x: real, y: real, z: real)

  /** What the external triangulation routine returned. */
  datatype SolverOutcome = SolverError | Solved(columns: seq<Xyz>)

  /** The input checks of `triangulate_points_multiple`; on success, the
      number of points to triangulate. */
  function CheckViews(points2d: seq<array2<real>>, numCameras: nat): (r: Result<nat, TriangulationError>)
    ensures r.Ok? <==>
              && 2 <= |points2d| && 2 <= numCameras && |points2d| == numCameras
              && forall i :: 0 <= i < |points2d| ==>
                   points2d[i].Length0 == points2d[0].Length0 && points2d[i].Length1 == 2
    ensures r.Ok? ==> r.value == points2d[0].Length0
    ensures r == Err(TooFewViews) <==> |points2d| < 2 || numCameras < 2
    ensures r == Err(ViewCountMismatch) <==> 2 <= |points2d| && 2 <= numCameras && |points2d| != numCameras
    ensures r.Err? && r.error.BadTableShape? ==>
              var k := r.error.camera;
              && k < |points2d|
              && !(points2d[k].Length0 == points2d[0].Length0 && points2d[k].Length1 == 2)
              && forall i :: 0 <= i < k ==> points2d[i].Length0 == points2d[0].Length0 && points2d[i].Length1 == 2
    ensures r.Err? ==> r.error.TooFewViews? || r.error.ViewCountMismatch? || r.error.BadTableShape?
  {
    if |points2d| < 2 || numCameras < 2 then Err(TooFewViews)
    else if |points2d| != numCameras then Err(ViewCountMismatch)
    else
      var k := FirstBadShape(points2d, points2d[0].Length0, 0);
      if k < |points2d| then Err(BadTableShape(k)) else Ok(points2d[0].Length0)
  }

  /** Index of the first table from `from` on that is not rows×2, or
      |tables| when there is none. */
  function FirstBadShape(tables: seq<array2<real>>, rows: nat, from: nat): (k: nat)
    requires from <= |tables|
    ensures from <= k <= |tables|
    ensures forall i :: from <= i < k ==> tables[i].Length0 == rows && tables[i].Length1 == 2
    ensures k < |tables| ==> !(tables[k].Length0 == rows && tables[k].Length1 == 2)
    decreases |tables| - from
  {
    if from == |tables| then from
    else if tables[from].Length0 != rows || tables[from].Length1 != 2 then from
    else FirstBadShape(tables, rows, from + 1)
  }

  /** Sum of the reprojection errors of point `i` over cameras 0..m-1. */
  function SumErrors(reprojError: (nat, nat) -> real, i: nat, m: nat): (s: real)
    ensures (forall j: nat :: j < m ==> reprojError(i, j) >= 0.0) ==> s >= 0.0
  {
    if m == 0 then 0.0 else SumErrors(reprojError, i, m - 1) + reprojError(i, m - 1)
  }

  /** Mean reprojection error of point `i` over all cameras. */
  function MeanError(reprojError: (nat, nat) -> real, i: nat, numCameras: nat): (e: real)
    requires numCameras > 0
    ensures (forall j: nat :: j < numCameras ==> reprojError(i, j) >= 0.0) ==> e >= 0.0
  {
    SumErrors(reprojError, i, numCameras) / numCameras as real
  }

  /** Number of points among the first `n` whose mean error is bad. */
  function CountBad(reprojError: (nat, nat) -> real, n: nat, numCameras: nat): (c: nat)
    requires numCameras > 0
    ensures c <= n
    ensures c == 0 <==> forall i: nat :: i < n ==> !IsBad(MeanError(reprojError, i, numCameras))
  {
    if n == 0 then 0
    else CountBad(reprojError, n - 1, numCameras) + (if IsBad(MeanError(reprojError, n - 1, numCameras)) then 1 else 0)
  }

  /** What `triangulate_points_multiple` returns, with the solver's result
      and the per-camera reprojection error of each point (the projection
      and distance arithmetic are not modelled) as inputs. */
  function Triangulated(points2d: seq<array2<real>>, numCameras: nat, solver: SolverOutcome,
                        reprojError: (nat, nat) -> real): (r: Result<seq<Point3D>, TriangulationError>)
    ensures r.Ok? <==> CheckViews(points2d, numCameras).Ok? && solver.Solved? &&
                       |solver.columns| >= points2d[0].Length0
    ensures r.Ok? ==> |r.value| == points2d[0].Length0
    ensures r.Ok? ==> forall i :: 0 <= i < |r.value| ==>
              && r.value[i].color.None? && r.value[i].trackId.None?
              && Xyz(r.value[i].x, r.value[i].y, r.value[i].z) == solver.columns[i]
              && r.value[i].confidence == Confidence(MeanError(reprojError, i, numCameras))
    ensures r.Ok? && (forall i: nat, j: nat :: reprojError(i, j) >= 0.0) ==>
              forall i :: 0 <= i < |r.value| ==> 0.0 <= r.value[i].confidence <= 1.0
    ensures CheckViews(points2d, numCameras).Err? ==> r == Err(CheckViews(points2d, numCameras).error)
    ensures CheckViews(points2d, numCameras).Ok? && solver.SolverError? ==> r == Err(SolverFailed)
    ensures (CheckViews(points2d, numCameras).Ok? && solver.Solved? && |solver.columns| < points2d[0].Length0)
              ==> r == Err(MissingColumn(|solver.columns|))
  {
    match CheckViews(points2d, numCameras)
    case Err(e) => Err(e)
    case Ok(n) =>
      if solver.SolverError? then Err(SolverFailed)
      else if |solver.columns| < n then Err(MissingColumn(|solver.columns|))
      else Ok(PointsFrom(solver.columns, n, reprojError, numCameras))
  }

  /** The points made from the first `n` solver columns, in order. */
  function PointsFrom(columns: seq<Xyz>, n: nat, reprojError: (nat, nat) -> real, numCameras: nat): (r: seq<Point3D>)
    requires numCameras > 0 && n <= |columns|
    ensures |r| == n
    ensures forall i :: 0 <= i < n ==> r[i] == PointAt(columns[i], reprojError, i, numCameras)
  {
    if n == 0 then []
    else PointsFrom(columns, n - 1, reprojError, numCameras) + [PointAt(columns[n - 1], reprojError, n - 1, numCameras)]
  }

  /** The point made from solver column `i`. */
  function PointAt(p: Xyz, reprojError: (nat, nat) -> real, i: nat, numCameras: nat): Point3D
    requires numCameras > 0
  {
    NewPoint3D(p.x, p.y, p.z, Confidence(MeanError(reprojError, i, numCameras)))
  }

  /** One pass of the per-point loop of `triangulate_points_multiple`:
      the reprojection errors of point `i` summed over the cameras and
      averaged, the point built with the resulting confidence, and whether
      it counts as bad. */
  method TriangulatedPoint(p: Xyz, reprojError: (nat, nat) -> real, i: nat, numCameras: nat)
    returns (point: Point3D, bad: bool)
    requires numCameras > 0
    ensures point == PointAt(p, reprojError, i, numCameras)
    ensures bad == IsBad(MeanError(reprojError, i, numCameras))
  {
    var totalReprojError := 0.0;
    for j := 0 to numCameras
      invariant totalReprojError == SumErrors(reprojError, i, j)
    {
      totalReprojError := totalReprojError + reprojError(i, j);
    }
    var avgError := totalReprojError / numCameras as real;
    point := NewPoint3D(p.x, p.y, p.z, Confidence(avgError));
    bad := IsBad(avgError);
  }

  /** The input checks of `triangulate_points_multiple`, the table shapes
      checked one camera at a time. */
  method CheckInputs(points2d: seq<array2<real>>, numCameras: nat) returns (r: Result<nat, TriangulationError>)
    ensures r == CheckViews(points2d, numCameras)
  {
    if |points2d| < 2 || numCameras < 2 {
      return Err(TooFewViews);
    }
    if |points2d| != numCameras {
      return Err(ViewCountMismatch);
    }
    var numPoints := points2d[0].Length0;
    for i := 0 to |points2d|
      invariant forall k :: 0 <= k < i ==> points2d[k].Length0 == numPoints && points2d[k].Length1 == 2
    {
      if points2d[i].Length0 != numPoints || points2d[i].Length1 != 2 {
        assert FirstBadShape(points2d, numPoints, 0) == i;
        return Err(BadTableShape(i));
      }
    }
    return Ok(numPoints);
  }

  /** The per-point loop of `triangulate_points_multiple`: one point per
      solver column up to `numPoints`, failing at the first missing column. */
  method TriangulateColumns(columns: seq<Xyz>, numPoints: nat, reprojError: (nat, nat) -> real, numCameras: nat)
    returns (r: Result<seq<Point3D>, TriangulationError>, numBadPoints: nat)
    requires numCameras > 0
    ensures r.Ok? <==> numPoints <= |columns|
    ensures r.Err? ==> r == Err(MissingColumn(|columns|))
    ensures r.Ok? ==> r.value == PointsFrom(columns, numPoints, reprojError, numCameras)
    ensures r.Ok? ==> numBadPoints == CountBad(reprojError, numPoints, numCameras)
  {
    var result: seq<Point3D> := [];
    numBadPoints := 0;
    for i := 0 to numPoints
      invariant |result| == i
      invariant i <= |columns|
      invariant result == PointsFrom(columns, i, reprojError, numCameras)
      invariant numBadPoints == CountBad(reprojError, i, numCameras)
    {
      if i >= |columns| {
        return Err(MissingColumn(i)), numBadPoints;
      }
      var point, bad := TriangulatedPoint(columns[i], reprojError, i, numCameras);
      if bad {
        numBadPoints := numBadPoints + 1;
      }
      result := result + [point];
    }
    return Ok(result), numBadPoints;
  }

  /** `triangulate_points_multiple`: checks the inputs, then for every
      solver column averages the point's reprojection error over the
      cameras, turns it into a confidence and counts the bad points. */
  method TriangulatePointsMultiple(points2d: seq<array2<real>>, numCameras: nat, solver: SolverOutcome,
                                   reprojError: (nat, nat) -> real)
    returns (r: Result<seq<Point3D>, TriangulationError>, numBadPoints: nat)
    ensures r == Triangulated(points2d, numCameras, solver, reprojError)
    ensures r.Ok? ==> numBadPoints == CountBad(reprojError, |r.value|, numCameras)
  {
    var check := CheckInputs(points2d, numCameras);
    if check.Err? {
      return Err(check.error), 0;
    }
    if solver.SolverError? {
      return Err(SolverFailed), 0;
    }
    r, numBadPoints := TriangulateColumns(solver.columns, check.value, reprojError, numCameras);
  }

  // ---------------------------------------------------------------------
  // Filtering and colouring a cloud

  /** The points whose confidence reaches `threshold`, in their order. */
  function KeepConfident(points: seq<Point3D>, threshold: real): (r: seq<Point3D>)
    ensures forall p :: p in r <==> p in points && p.confidence >= threshold
    ensures forall p :: multiset(r)[p] == if p.confidence >= threshold then multiset(points)[p] else 0
    ensures IsSubsequence(r, points)
  {
    FilterIsSubsequence(points, (p: Point3D) => p.confidence >= threshold);
    Filter(points, (p: Point3D) => p.confidence >= threshold)
  }

  /** Filtering an already filtered cloud with the same threshold changes nothing. */
  lemma KeepConfidentIdempotent(points: seq<Point3D>, threshold: real)
    ensures KeepConfident(KeepConfident(points, threshold), threshold) == KeepConfident(points, threshold)
  {
    FilterIdempotent(points, (p: Point3D) => p.confidence >= threshold);
  }

  /** `filter_point_cloud_by_confindence`: drops the low-confidence points
      in place; the frame index is untouched. */
  method FilterPointCloudByConfidence(cloud: PointCloud, threshold: real)
    modifies cloud
    ensures cloud.points == KeepConfident(old(cloud.points), threshold)
    ensures cloud.timestamp == old(cloud.timestamp)
  {
    cloud.points := Filter(cloud.points, (p: Point3D) => p.confidence >= threshold);
  }

  /** A 2D observation in the reference image, already truncated to whole
      pixels: x is the column, y the row. */
  datatype PixelCoord = PixelCoord(x: int, y: int)

  predicate InImage<T>(img: Image<T>, px: PixelCoord)
  {
    0 <= px.x && 0 <= px.y && px.x < Cols(img) && px.y < Rows(img)
  }

  /** The colour a point gets from the BGR pixel under it (red is channel 2). */
  function ToRgb(v: Vec3b): Rgb
  {
    Rgb(v.c2, v.c1, v.c0)
  }

  /** Point `p` after colouring from pixel `px` of `img`. */
  function ColorPoint(p: Point3D, px: PixelCoord, img: Image<Vec3b>): Point3D
    requires WellFormed(img)
  {
    if InImage(img, px) then p.(color := Some(ToRgb(img[px.y][px.x]))) else p
  }

  /** The points after colouring, point i from observation i. */
  function Colored(points: seq<Point3D>, pixels: seq<PixelCoord>, img: Image<Vec3b>): (r: seq<Point3D>)
    requires |pixels| >= |points| && WellFormed(img)
  {
    seq(|points|, i requires 0 <= i < |points| => ColorPoint(points[i], pixels[i], img))
  }

  /** Colouring changes nothing but colours: a point inside the image takes
      the pixel's colour with blue and red swapped, a point outside keeps
      the colour it had. */
  lemma ColoredSpec(points: seq<Point3D>, pixels: seq<PixelCoord>, img: Image<Vec3b>)
    requires |pixels| >= |points| && WellFormed(img)
    ensures var r := Colored(points, pixels, img);
      && |r| == |points|
      && (forall i :: 0 <= i < |r| ==>
            && r[i].x == points[i].x && r[i].y == points[i].y && r[i].z == points[i].z
            && r[i].confidence == points[i].confidence && r[i].trackId == points[i].trackId)
      && (forall i :: 0 <= i < |r| ==>
            (InImage(img, pixels[i]) ==>
               r[i].color == Some(Rgb(img[pixels[i].y][pixels[i].x].c2,
                                      img[pixels[i].y][pixels[i].x].c1,
                                      img[pixels[i].y][pixels[i].x].c0))))
      && (forall i :: 0 <= i < |r| && !InImage(img, pixels[i]) ==> r[i] == points[i])
  {
  }

  /** `add_color_to_point_cloud`: colours each point in place from its
      observation in the reference image. The source reads observation i
      for point i, so there must be one per point. */
  method AddColorToPointCloud(cloud: PointCloud, pixels: seq<PixelCoord>, refImage: Image<Vec3b>)
    requires |pixels| >= |cloud.points| && WellFormed(refImage)
    modifies cloud
    ensures cloud.points == Colored(old(cloud.points), pixels, refImage)
    ensures cloud.timestamp == old(cloud.timestamp)
  {
    ghost var original := cloud.points;
    for i := 0 to |cloud.points|
      invariant |cloud.points| == |original|
      invariant cloud.timestamp == old(cloud.timestamp)
      invariant forall k :: 0 <= k < i ==> cloud.points[k] == ColorPoint(original[k], pixels[k], refImage)
      invariant forall k :: i <= k < |original| ==> cloud.points[k] == original[k]
    {
      var x := pixels[i].x;
      var y := pixels[i].y;
      if x >= 0 && y >= 0 && x < Cols(refImage) && y < Rows(refImage) {
        var color := refImage[y][x];
        cloud.points := cloud.points[i := cloud.points[i].(color := Some(Rgb(color.c2, color.c1, color.c0)))];
      }
    }
  }
}
