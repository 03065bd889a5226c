# lib_cv reconstruction core in Dafny

This project models the core of `lib_cv`, the library behind a multi-camera
3D reconstruction tool. The library:

- matches features of a reference camera against every other camera;
- keeps only the reference keypoints that every camera sees;
- gathers their 2D positions into one N×2 table per camera;
- triangulates them with a per-point confidence computed from the mean
  reprojection error;
- colours the points from the reference image;
- filters them by confidence;
- writes them out as an ASCII PLY file.

The utilities that cut one composite frame into four camera views, and glue
them back together, are part of the core too.

Modules, one per file:

- `Wrappers` (wrappers.dfy): `Option` and `Result`.
- `Seqs` (seqs.dfy): an order-preserving filter. It stands for Rust's
  `filter(..).collect()` and `Vec::retain`.
- `Images` (images.dfy): an image as a grid of pixels (`Mat` with one
  element type).
- `Text` (text.dfy): Rust's `{}` rendering of naturals and of
  space-separated fields, with readers that invert them.
- `Quadrants` (quadrants.dfy): `split_image_into_quadrants` and
  `combine_quadrants` from `lib_cv/src/utils.rs`.
- `Correspondence` (correspondence.dfy): the distance and ratio filters of
  `bf_match` and `bf_match_knn`, and `gather_points_2d_from_matches`. Its
  tables are `array2<real>` that start zeroed and are filled in place, as
  the source does with `Mat::zeros` and `at_2d_mut`.
- `CommonVisibility` (visibility.dfy): `min_visible_match_set`, as the two
  loop phases the source has.
- `Reconstruction` (reconstruction.dfy): `Point3D`, the `PointCloud` object
  (mutated in place by the filter and the colouring), the input checks and
  per-point loop of `triangulate_points_multiple`, the confidence rule,
  `filter_point_cloud_by_confindence` and `add_color_to_point_cloud`.
- `Ply` (ply.dfy): `save_point_cloud`, as the list of lines it writes.
- `Pipeline` (pipeline.dfy): how the stages compose in the order
  `reconstruction_app/src/app.rs:430-479` calls them: match-set filtering, gathering,
  triangulation and colouring. The undistortion between gathering and
  triangulation is not modelled beyond its shape: it keeps each table
  num_points×2 (`lib_cv/src/reconstruction.rs:472`).

Behaviour of the code worth noting:

- An empty set of commonly visible keypoints is not an error. Every camera
  simply gets an empty list.
- Triangulation emits one point per row of the first point table, not one
  per solver column. A solver result with fewer columns is an error.
- `bf_match_knn` propagates the matcher's errors. It does not turn an empty
  input into an empty result: that is the matcher's own behaviour, outside
  this model.

## Model

| member | source | states |
|---|---|---|
| Seqs.Filter | lib_cv/src/correspondence.rs:44-47 | the kept elements are exactly those satisfying the predicate, each with its original multiplicity, and never more than the input |
| Seqs.FilterIsSubsequence | lib_cv/src/correspondence.rs:44-47 | filtering keeps the input order: the result is a subsequence of the input |
| Seqs.FilterIdempotent | lib_cv/src/reconstruction.rs:424-428 | filtering twice with the same predicate is the same as filtering once |
| Quadrants.Roi | lib_cv/src/utils.rs:8-11 | `Mat::roi` plus copy succeeds exactly when the rectangle lies inside the image, and then yields a height×width grid whose pixel (i, j) is image pixel (y+i, x+j) |
| Quadrants.SplitImageIntoQuadrants | lib_cv/src/utils.rs:7-38 | the split never fails, and quadrant k is the (h/2)×(w/2) block at (0,0), (0,w/2), (h/2,0) or (h/2,w/2) |
| Quadrants.HConcat | lib_cv/src/utils.rs:51-58 | `hconcat` succeeds exactly when the two images have as many rows; then row i is row i of the first image followed by row i of the second |
| Quadrants.VConcat | lib_cv/src/utils.rs:65 | `vconcat` succeeds exactly when the two images are as wide; then the first image's rows come first, then the second's |
| Quadrants.CombineQuadrants | lib_cv/src/utils.rs:40-68 | top or bottom heights that differ give a row-count error. Otherwise the result exists exactly when the two row widths agree, and has a column-count error when they do not. A result is as tall as the first and third views together |
| Quadrants.CombineLayout | lib_cv/src/utils.rs:40-68 | four h×w views combine into a 2h×2w frame with view 1 top-left, 2 top-right, 3 bottom-left and 4 bottom-right |
| Quadrants.SplitOfCombine | lib_cv/src/utils.rs:7-68 | splitting a combined frame gives back the four views it was made of |
| Quadrants.QuadrantOfCombined | lib_cv/src/utils.rs:7-38 | quadrant k cut from a frame that holds four views in the combined layout is view k |
| Quadrants.CombineOfSplit | lib_cv/src/utils.rs:7-68 | for even height and width, combining the four quadrants of an image gives back the image |
| Quadrants.PixelOfRecombined | lib_cv/src/utils.rs:7-68 | each pixel of the frame rebuilt from the four quadrants of a 2h×2w image is the image's pixel at that position |
| Quadrants.SplitCoverage | lib_cv/src/utils.rs:7-38 | a pixel lands in some quadrant exactly when its row is below 2·(h/2) and its column below 2·(w/2) |
| Quadrants.OddWidthLosesLastColumn | lib_cv/src/utils.rs:10-27 | with an odd width, no quadrant contains the last column |
| Quadrants.OddHeightLosesLastRow | lib_cv/src/utils.rs:10-27 | with an odd height, no quadrant contains the last row |
| Correspondence.BfMatch | lib_cv/src/correspondence.rs:44-47 | a match is kept exactly when its distance is below the threshold, in the original order and multiplicity |
| Correspondence.BfMatchKnn | lib_cv/src/correspondence.rs:66-78 | a neighbour group is kept exactly when it has at least two entries and the best distance is below ratio × the second, in the original order. Every kept group has at least two entries |
| Correspondence.BfMatchIdempotent | lib_cv/src/correspondence.rs:44-47 | the distance filter applied to its own output changes nothing |
| Correspondence.BfMatchKnnIdempotent | lib_cv/src/correspondence.rs:66-78 | the ratio test applied to its own output changes nothing |
| Correspondence.RowFault | lib_cv/src/correspondence.rs:96-99 | one row has no fault exactly when its group is non-empty, its camera's keypoint list exists, the keypoint index lies in it, and the row fits the table |
| Correspondence.TableFault | lib_cv/src/correspondence.rs:95-100 | a camera's rows from a given position on have no fault exactly when every one of them is fault-free |
| Correspondence.CameraFault | lib_cv/src/correspondence.rs:103-113 | tables from a given camera on have no fault exactly when each of them is fault-free |
| Correspondence.GatherableByCamera | lib_cv/src/correspondence.rs:83-116 | the whole input is gatherable exactly when every camera's table is |
| Correspondence.FirstFault | lib_cv/src/correspondence.rs:83-116 | there is no first fault exactly when the input is gatherable |
| Correspondence.FillTable | lib_cv/src/correspondence.rs:93-101 | a fresh zeroed rows×2 table is filled row by row with the designated keypoint's position, stopping at the first fault. With no fault, rows past the group count stay zero |
| Correspondence.FilledTablesHold | lib_cv/src/correspondence.rs:103-113 | filled tables for every camera make the whole gathering's result hold |
| Correspondence.GatherPoints2DFromMatches | lib_cv/src/correspondence.rs:83-116 | fails exactly when the input is not gatherable, with its first fault. On success it returns one table more than all_matches has entries, each num_matches×2: row j of table 0 is the reference keypoint of group j (query index), row j of table i ≥ 1 is the keypoint of group j of all_matches[i-1] in camera i (train index), and all other rows are zero. The tables are new objects, distinct from each other |
| CommonVisibility.CommonIndices | lib_cv/src/reconstruction.rs:377-396 | exactly the reference keypoints below n matched in every camera, strictly ascending |
| CommonVisibility.FirstWith | lib_cv/src/reconstruction.rs:410-415 | the position of the first group led by a keypoint (none before it is led by it), or None exactly when no group is |
| CommonVisibility.CollectCommonIndices | lib_cv/src/reconstruction.rs:374-396 | the per-keypoint, per-camera search with early exit collects exactly the common indices |
| CommonVisibility.FilterCameraMatches | lib_cv/src/reconstruction.rs:406-416 | for each common index in turn, the camera's first group led by it is copied |
| CommonVisibility.MinVisibleMatchSet | lib_cv/src/reconstruction.rs:368-422 | the result is each camera's restriction to the common indices of the reference keypoints |
| CommonVisibility.RestrictAligned | lib_cv/src/reconstruction.rs:404-419 | when every index has a match, the restriction holds one group per index, in index order, each the camera's first group led by that index |
| CommonVisibility.MinVisibleAligned | lib_cv/src/reconstruction.rs:368-422 | every camera's filtered list has one group per common keypoint, row k of every camera starts from the k-th common keypoint, every group comes from that camera's input, and none is empty |
| CommonVisibility.CommonIndicesAgree | lib_cv/src/reconstruction.rs:377-396 | the common indices depend only on which keypoints are visible everywhere |
| CommonVisibility.RestrictLinedUp | lib_cv/src/reconstruction.rs:404-419 | restricting groups already aligned with strictly ascending indices gives them back |
| CommonVisibility.VisibilityKept | lib_cv/src/reconstruction.rs:368-422 | below n, a keypoint is visible in every camera of the filtered set exactly when it is in the input |
| CommonVisibility.CommonIndicesKept | lib_cv/src/reconstruction.rs:377-396 | the filtered set has the same common keypoints as the input |
| CommonVisibility.CameraKept | lib_cv/src/reconstruction.rs:404-419 | filtering again leaves each camera's filtered list as it is |
| CommonVisibility.MinVisibleIdempotent | lib_cv/src/reconstruction.rs:368-422 | filtering an already filtered match set changes nothing |
| Reconstruction.NewPoint3D | lib_cv/src/reconstruction.rs:29-38 | a point with the given position and confidence, no colour, no track id |
| Reconstruction.PointCloud.constructor | lib_cv/src/reconstruction.rs:56-61 | a cloud holds the given points and frame index |
| Reconstruction.Confidence | lib_cv/src/reconstruction.rs:234-236 | for a non-negative mean error, confidence lies in [0, 1]. It is 1 at zero error, 0 from 5 pixels on, and positive below 5 pixels |
| Reconstruction.ConfidenceNonIncreasing | lib_cv/src/reconstruction.rs:236 | a larger mean error never gives a higher confidence |
| Reconstruction.CheckViews | lib_cv/src/reconstruction.rs:67-102 | passes exactly when there are at least 2 tables, at least 2 cameras, as many tables as cameras, and every table is N×2 with N the first table's row count. It then gives N. Otherwise it gives too few views, a count mismatch, or the first badly shaped table, in the source's order |
| Reconstruction.FirstBadShape | lib_cv/src/reconstruction.rs:88-102 | the first table that is not rows×2, with every earlier table well-shaped |
| Reconstruction.SumErrors | lib_cv/src/reconstruction.rs:193-228 | the accumulated reprojection error is non-negative when every per-camera error is |
| Reconstruction.MeanError | lib_cv/src/reconstruction.rs:231 | the mean reprojection error of a point is non-negative when every per-camera error is |
| Reconstruction.IsBad | lib_cv/src/reconstruction.rs:239 | a bad point always has zero confidence; at exactly 5 pixels a point has zero confidence but is not counted bad |
| Reconstruction.CountBad | lib_cv/src/reconstruction.rs:238-241 | the bad-point count is at most the number of points, and zero exactly when no mean error exceeds 5 |
| Reconstruction.PointsFrom | lib_cv/src/reconstruction.rs:184-244 | one point per solver column up to the given count, point i made from column i |
| Reconstruction.Triangulated | lib_cv/src/reconstruction.rs:63-266 | succeeds exactly when the input checks pass, the solver succeeds and it has a column for every point. It then gives one point per row of the first table. Each point has the solver column's coordinates, no colour, no track id, and the confidence of its mean reprojection error over all cameras, within [0, 1] when errors are non-negative. Each failure has its own error |
| Reconstruction.CheckInputs | lib_cv/src/reconstruction.rs:67-102 | the count, matching and per-table shape checks return exactly the input-check result above |
| Reconstruction.TriangulatedPoint | lib_cv/src/reconstruction.rs:186-243 | one pass of the per-point loop builds the point with the confidence of its mean error, and reports it bad exactly when that error exceeds 5 pixels |
| Reconstruction.TriangulateColumns | lib_cv/src/reconstruction.rs:184-244 | the per-point loop succeeds exactly when the solver has a column for every point, fails with the first missing column otherwise, and on success returns the points in column order with the count of bad points |
| Reconstruction.TriangulatePointsMultiple | lib_cv/src/reconstruction.rs:63-266 | the checking and per-point loops return exactly the triangulation result above, and count the points whose mean error exceeds 5 pixels |
| Reconstruction.KeepConfident | lib_cv/src/reconstruction.rs:424-428 | a point is kept exactly when its confidence reaches the threshold, in order and with its multiplicity |
| Reconstruction.KeepConfidentIdempotent | lib_cv/src/reconstruction.rs:424-428 | filtering a filtered cloud with the same threshold changes nothing |
| Reconstruction.FilterPointCloudByConfidence | lib_cv/src/reconstruction.rs:424-428 | the cloud's points become the confident ones, and its frame index is unchanged |
| Reconstruction.ColoredSpec | lib_cv/src/reconstruction.rs:430-454 | colouring keeps position, confidence and track id. A point whose pixel lies inside the image gets that pixel's colour with channels 2, 1, 0 as red, green, blue. Any other point is unchanged |
| Reconstruction.AddColorToPointCloud | lib_cv/src/reconstruction.rs:430-454 | the loop colours the cloud in place exactly as above, and the frame index is unchanged |
| Text.DecimalNat | lib_cv/src/reconstruction.rs:278 | a natural renders as a non-empty run of digits, without a leading zero unless it is 0 |
| Text.ParseDecimal | lib_cv/src/reconstruction.rs:278 | reading back a rendered natural gives the natural |
| Text.Join | lib_cv/src/reconstruction.rs:303-310 | the line starts with its first field, followed by the separator when more fields follow; splitting gives the fields back (SplitJoin) |
| Text.Split | lib_cv/src/reconstruction.rs:297-313 | splitting yields at least one field, and no field contains the separator |
| Text.SplitJoin | lib_cv/src/reconstruction.rs:297-313 | splitting a joined line recovers its fields when none contains the separator |
| Ply.HasColor | lib_cv/src/reconstruction.rs:272-273 | the file has colour columns exactly when some point has a colour |
| Ply.WriteHeader | lib_cv/src/reconstruction.rs:276-294 | the header writes produce the header for the vertex count, with the three colour properties only when the file has colour |
| Ply.WriteVertex | lib_cv/src/reconstruction.rs:297-313 | one point's line: coordinates, the colour or grey 128,128,128 when the file has colour, then confidence |
| Ply.VertexLines | lib_cv/src/reconstruction.rs:297-313 | one line for each of the first n points, line i being point i's vertex line |
| Ply.SavePointCloud | lib_cv/src/reconstruction.rs:268-317 | the lines written are the header for the cloud, then one line per point in order |
| Ply.PlyLayout | lib_cv/src/reconstruction.rs:276-294 | the header is 11 lines with colour and 8 without, and ends with end_header. There is one line per point after it, and the vertex count line parses back to the number of points |
| Ply.HeaderProperties | lib_cv/src/reconstruction.rs:279-291 | the header declares 7 properties with colour and 4 without, every line between the count and end_header being a property |
| Ply.FieldsMatchProperties | lib_cv/src/reconstruction.rs:279-313 | every vertex line has exactly as many space-separated fields as the header declares properties |
| Ply.ColorFieldsParse | lib_cv/src/reconstruction.rs:298-305 | the colour fields of a vertex line parse back to the point's colour, or to grey 128,128,128 for a point without one, and the other fields are the rendered coordinates and confidence |
| Pipeline.FilteredMatchesGatherable | reconstruction_app/src/app.rs:430-433 | after `min_visible_match_set`, gathering cannot fail when every group's train index is valid |
| Pipeline.GatheredTablesPassChecks | reconstruction_app/src/app.rs:433-464 | the tables of a successful gathering pass every input check of triangulation when there is one camera per table |
| Pipeline.UndistortedTablesTriangulate | reconstruction_app/src/app.rs:446-479 | tables undistorted to the gathered shapes pass triangulation's input checks, and a successful triangulation has exactly one point per row of the gathered reference table, which is what the colouring call needs |

## Left out

- The OpenCV primitives are outside the model: feature detection, the brute-force and k-NN matchers, triangulation, projection matrices, transposition and undistortion. The solver's outcome and each (point, camera) reprojection error enter triangulation as parameters, and the matcher's output is the input of the two filters.
- The identity-rotation and zero-translation check on camera 0 is not modelled, because it only logs a warning.
- The `at_2d` reads of the camera matrices in that check, `hconcat2`, and `projection_from_k_rt(..).unwrap()` are not modelled. Their failures come from the external library.
- Logging is not modelled: info, debug and error lines, and the error statistics of triangulation (sorting, min, median, max). The bad-point count, which the source only logs, is returned by the model instead.
- `f64`, `f32` and OpenCV's `CV_64F` values are modelled as real numbers. NaN, rounding and the `f64`→`f32` confidence cast are not represented.
- Reconstruction.AddColorToPointCloud: takes the reference observations already truncated to whole pixels, because the `f64`→`i32` cast is not modelled. It requires one observation per point, where the source panics in `unwrap` when there are fewer.
- CommonVisibility.MinVisibleMatchSet and CommonVisibility.FilterCameraMatches: both require every group to be non-empty, and MinVisibleMatchSet also a non-empty keypoint list. The source panics otherwise, and only when the unwrap is actually reached: in `FilterCameraMatches` only the groups before the first one led by the index are unwrapped, so an empty group after it is handled by the source but excluded here. Groups from `bf_match_knn` always have at least two entries.
- Correspondence.GatherPoints2DFromMatches and Correspondence.FirstFault: the two panics of the source, `all_matches[0]` on an empty list and `all_keypoints[i]` past the end of the list, are modelled as the fault values `NoMatchLists` and `NoKeypointList`, so the model returns an error where the program aborts.
- Ply.SavePointCloud: returns the lines instead of writing a file, so file creation and write errors are not modelled. Rust's `{}` formatting of floating-point numbers is a parameter; the field-count and colour read-back lemmas require that its output contains no space.
- The `i32` row, column and index casts are not modelled (`j as i32` and `query_idx as usize`). A negative index is out of range, as the source's `get` reports.
- Quadrants: OpenCV's own empty-matrix conventions are not modelled; a row-less image has zero columns here.
- `match_first_camera_features_to_all`, `undistort_points_single_camera`, feature detection, calibration and tracking are not part of this model.
