/** How the stages fit together in the reconstruction loop: the filtered
    match set can always be gathered, gathered tables (and their undistorted
    copies, which keep the same shape) always pass the input checks of
    triangulation, and a triangulated cloud has a reference pixel per point
    for colouring. */
module Pipeline {
  import opened Wrappers
  import opened Correspondence
  import opened CommonVisibility
  import opened Reconstruction

  /** Every group of every camera is non-empty and its first match points
      at an existing keypoint of the next camera. */
  predicate TrainIndicesValid(allMatches: seq<seq<Group>>, allKeypoints: seq<seq<KeyPoint>>)
  {
    forall c, j :: 0 <= c < |allMatches| && 0 <= j < |allMatches[c]| ==>
      && |allMatches[c][j]| > 0
      && c + 1 < |allKeypoints|
      && 0 <= allMatches[c][j][0].trainIdx < |allKeypoints[c + 1]|
  }

  /** After `min_visible_match_set`, gathering cannot fail: every camera has
      the same number of groups and every reference index is a keypoint of
      the reference camera. */
  lemma FilteredMatchesGatherable(allMatches: seq<seq<Group>>, allKeypoints: seq<seq<KeyPoint>>)
    requires 0 < |allMatches| && 0 < |allKeypoints|
    requires TrainIndicesValid(allMatches, allKeypoints)
    ensures Gatherable(MinVisible(allMatches, |allKeypoints[0]|), allKeypoints)
  {
    var n := |allKeypoints[0]|;
    var t: seq<seq<Group>> := MinVisible(allMatches, n);
    var common := CommonIndices(allMatches, n);
    MinVisibleAligned(allMatches, n);
    forall c, j | 0 <= c < |t| && 0 <= j < |t[c]|
      ensures && |t[c][j]| > 0 && c + 1 < |allKeypoints|
              && 0 <= t[c][j][0].trainIdx < |allKeypoints[c + 1]|
              && j < |t[0]|
    {
      assert Leads(t[c][j], common[j]);
      assert t[c][j] in allMatches[c];
      var k :| 0 <= k < |allMatches[c]| && allMatches[c][k] == t[c][j];
    }
    forall j | 0 <= j < |t[0]|
      ensures |t[0][j]| > 0 && 0 <= t[0][j][0].queryIdx < |allKeypoints[0]|
    {
      assert Leads(t[0][j], common[j]);
    }
  }

  /** The tables of a successful gathering pass every input check of
      `triangulate_points_multiple` when there is one camera per table. */
  lemma GatheredTablesPassChecks(tables: seq<array2<real>>, allMatches: seq<seq<Group>>, allKeypoints: seq<seq<KeyPoint>>)
    requires Gatherable(allMatches, allKeypoints)
    requires TablesHold(tables, allMatches, allKeypoints)
    ensures CheckViews(tables, |tables|) == Ok(|allMatches[0]|)
  {
  }

  /** Between gathering and triangulation each table is undistorted into a
      new table of the same num_points×2 shape. Triangulating those tables
      then passes the input checks and, when it succeeds, gives one point per
      row of the gathered reference table, so `add_color_to_point_cloud`,
      called with the gathered tables, has a reference pixel for every point. */
  lemma UndistortedTablesTriangulate(gathered: seq<array2<real>>, undistorted: seq<array2<real>>,
                                     allMatches: seq<seq<Group>>, allKeypoints: seq<seq<KeyPoint>>,
                                     solver: SolverOutcome, reprojError: (nat, nat) -> real)
    requires Gatherable(allMatches, allKeypoints)
    requires TablesHold(gathered, allMatches, allKeypoints)
    requires |undistorted| == |gathered|
    requires forall i :: 0 <= i < |gathered| ==>
               undistorted[i].Length0 == gathered[i].Length0 && undistorted[i].Length1 == 2
    ensures CheckViews(undistorted, |undistorted|) == Ok(gathered[0].Length0)
    ensures var r := Triangulated(undistorted, |undistorted|, solver, reprojError);
            r.Ok? ==> |r.value| == gathered[0].Length0
  {
    GatheredTablesPassChecks(gathered, allMatches, allKeypoints);
  }
}
