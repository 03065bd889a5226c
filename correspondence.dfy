/** lib_cv's correspondence step after the descriptor matcher has run:
    the distance filters applied to the matcher's output, and the gathering
    of matched keypoints into one N×2 coordinate table per camera. */
module Correspondence {
  import opened Wrappers
  import opened Seqs

  /** `opencv::core::DMatch`: feature `queryIdx` of one image matched to
      feature `trainIdx` of the other, at descriptor distance `distance`. */
  datatype DMatch = DMatch(queryIdx: int, trainIdx: int, distance: real)

  /** The k nearest neighbours found for one query descriptor, best first. */
  type Group = seq<DMatch>

  /** A detected keypoint; only its image position is used here. */
  datatype KeyPoint = KeyPoint(x: real, y: real)

  /** The test `bf_match` applies to each match. */
  predicate UnderThreshold(m: DMatch, threshold: real)
  {
    m.distance < threshold
  }

  /** `bf_match` after the matcher: the matches strictly closer than
      `threshold`, in the matcher's order. */
  function BfMatch(matched: seq<DMatch>, threshold: real): (r: seq<DMatch>)
    ensures forall m :: m in r <==> m in matched && m.distance < threshold
    ensures forall m :: multiset(r)[m] == if m.distance < threshold then multiset(matched)[m] else 0
    ensures IsSubsequence(r, matched)
  {
    FilterIsSubsequence(matched, m => UnderThreshold(m, threshold));
    Filter(matched, m => UnderThreshold(m, threshold))
  }

  /** Lowe's distance-ratio test on one neighbour group. */
  predicate PassesRatioTest(n: Group, ratio: real)
  {
    |n| >= 2 && n[0].distance < ratio * n[1].distance
  }

  /** `bf_match_knn` after the matcher: the neighbour groups that have a
      second neighbour and whose best distance is below `ratio` times the
      second best, in the matcher's order. */
  function BfMatchKnn(matched: seq<Group>, ratio: real): (r: seq<Group>)
    ensures forall n: Group :: n in r <==> n in matched && |n| >= 2 && n[0].distance < ratio * n[1].distance
    ensures forall n :: multiset(r)[n] == if PassesRatioTest(n, ratio) then multiset(matched)[n] else 0
    ensures IsSubsequence(r, matched)
    ensures forall k :: 0 <= k < |r| ==> |r[k]| >= 2
  {
    FilterIsSubsequence(matched, n => PassesRatioTest(n, ratio));
    Filter(matched, n => PassesRatioTest(n, ratio))
  }

  /** Re-filtering the output of `bf_match` with the same threshold returns it unchanged. */
  lemma BfMatchIdempotent(matched: seq<DMatch>, threshold: real)
    ensures BfMatch(BfMatch(matched, threshold), threshold) == BfMatch(matched, threshold)
  {
    FilterIdempotent(matched, m => UnderThreshold(m, threshold));
  }

  /** Re-filtering the output of `bf_match_knn` with the same ratio returns it unchanged. */
  lemma BfMatchKnnIdempotent(matched: seq<Group>, ratio: real)
    ensures BfMatchKnn(BfMatchKnn(matched, ratio), ratio) == BfMatchKnn(matched, ratio)
  {
    FilterIdempotent(matched, n => PassesRatioTest(n, ratio));
  }

  /** `KeyPoint::pt()` widened to a coordinate pair. */
  function Position(k: KeyPoint): (real, real)
  {
    (k.x, k.y)
  }

  /** What stops `gather_points_2d_from_matches`, in the order it checks.
      The two index panics of the source (indexing past the end of a Vec)
      are outcomes here too, so that the model needs no precondition. */
  datatype GatherFault =
    | NoMatchLists                              // all_matches[0] on an empty list (panic)
    | EmptyGroup(camera: nat, row: nat)         // matches.get(0) on an empty group
    | NoKeypointList(camera: nat)               // all_keypoints[camera] past the end (panic)
    | KeypointOutOfRange(camera: nat, row: nat) // keypoint index outside all_keypoints[camera]
    | RowOutOfRange(camera: nat, row: nat)      // at_2d_mut past the num_matches rows of the table

  /** The match groups that fill camera `cam`'s table: the reference camera
      reads the query side of all_matches[0], camera i >= 1 the train side
      of all_matches[i - 1]. */
  function GroupsOf(allMatches: seq<seq<Group>>, cam: nat): seq<Group>
    requires 0 < |allMatches| && cam <= |allMatches|
  {
    if cam == 0 then allMatches[0] else allMatches[cam - 1]
  }

  /** The keypoint a group designates in camera `cam`. */
  function KeypointIndex(g: Group, cam: nat): int
    requires |g| > 0
  {
    if cam == 0 then g[0].queryIdx else g[0].trainIdx
  }

  /** Row `j` of camera `cam`'s table can be filled from group `g`. */
  predicate RowOk(g: Group, j: nat, cam: nat, allKeypoints: seq<seq<KeyPoint>>, numRows: nat)
  {
    && |g| > 0
    && cam < |allKeypoints|
    && 0 <= KeypointIndex(g, cam) < |allKeypoints[cam]|
    && j < numRows
  }

  predicate TableOk(groups: seq<Group>, cam: nat, allKeypoints: seq<seq<KeyPoint>>, numRows: nat)
  {
    forall j {:trigger groups[j]} :: 0 <= j < |groups| ==> RowOk(groups[j], j, cam, allKeypoints, numRows)
  }

  /** The fault hit while filling row `j`, checks taken in the source's order. */
  function RowFault(g: Group, j: nat, cam: nat, allKeypoints: seq<seq<KeyPoint>>, numRows: nat)
    : (r: Option<GatherFault>)
    ensures r.None? <==> RowOk(g, j, cam, allKeypoints, numRows)
  {
    if |g| == 0 then Some(EmptyGroup(cam, j))
    else if cam >= |allKeypoints| then Some(NoKeypointList(cam))
    else if !(0 <= KeypointIndex(g, cam) < |allKeypoints[cam]|) then Some(KeypointOutOfRange(cam, j))
    else if j >= numRows then Some(RowOutOfRange(cam, j))
    else None
  }

  /** The first fault among rows `from..` of one table. */
  function TableFault(groups: seq<Group>, from: nat, cam: nat, allKeypoints: seq<seq<KeyPoint>>, numRows: nat)
    : (r: Option<GatherFault>)
    requires from <= |groups|
    ensures r.None? <==> forall j {:trigger groups[j]} :: from <= j < |groups| ==> RowOk(groups[j], j, cam, allKeypoints, numRows)
    decreases |groups| - from
  {
    if from == |groups| then None
    else if RowFault(groups[from], from, cam, allKeypoints, numRows).Some? then
      RowFault(groups[from], from, cam, allKeypoints, numRows)
    else TableFault(groups, from + 1, cam, allKeypoints, numRows)
  }

  /** The first fault among the tables of cameras `cam..`. */
  function CameraFault(allMatches: seq<seq<Group>>, allKeypoints: seq<seq<KeyPoint>>, cam: nat)
    : (r: Option<GatherFault>)
    requires 0 < |allMatches| && cam <= |allMatches| + 1
    ensures r.None? <==> forall c :: cam <= c <= |allMatches| ==>
                           TableOk(GroupsOf(allMatches, c), c, allKeypoints, |allMatches[0]|)
    decreases |allMatches| + 1 - cam
  {
    if cam == |allMatches| + 1 then None
    else
      var f := TableFault(GroupsOf(allMatches, cam), 0, cam, allKeypoints, |allMatches[0]|);
      if f.Some? then f else CameraFault(allMatches, allKeypoints, cam + 1)
  }

  /** Every group that is read is non-empty, every keypoint index it yields
      lies in its camera's keypoint list, and no later camera has more groups
      than camera 0 has rows. */
  ghost predicate Gatherable(allMatches: seq<seq<Group>>, allKeypoints: seq<seq<KeyPoint>>)
  {
    && 0 < |allMatches|
    && (forall j {:trigger allMatches[0][j]} :: 0 <= j < |allMatches[0]| ==>
          |allMatches[0][j]| > 0 && 0 < |allKeypoints| && 0 <= allMatches[0][j][0].queryIdx < |allKeypoints[0]|)
    && (forall c, j {:trigger allMatches[c][j]} :: 0 <= c < |allMatches| && 0 <= j < |allMatches[c]| ==>
          && |allMatches[c][j]| > 0 && c + 1 < |allKeypoints|
          && 0 <= allMatches[c][j][0].trainIdx < |allKeypoints[c + 1]|
          && j < |allMatches[0]|)
  }

  lemma GatherableByCamera(allMatches: seq<seq<Group>>, allKeypoints: seq<seq<KeyPoint>>)
    requires 0 < |allMatches|
    ensures Gatherable(allMatches, allKeypoints) <==>
            forall cam :: 0 <= cam <= |allMatches| ==>
              TableOk(GroupsOf(allMatches, cam), cam, allKeypoints, |allMatches[0]|)
  {
    var n := |allMatches[0]|;
    if Gatherable(allMatches, allKeypoints) {
      forall cam | 0 <= cam <= |allMatches|
        ensures TableOk(GroupsOf(allMatches, cam), cam, allKeypoints, n)
      {
        var groups := GroupsOf(allMatches, cam);
        forall j | 0 <= j < |groups|
          ensures RowOk(groups[j], j, cam, allKeypoints, n)
        {
          if cam == 0 {
            assert groups[j] == allMatches[0][j];
          } else {
            assert groups[j] == allMatches[cam - 1][j];
          }
        }
      }
    }
    if forall cam :: 0 <= cam <= |allMatches| ==> TableOk(GroupsOf(allMatches, cam), cam, allKeypoints, n) {
      assert TableOk(GroupsOf(allMatches, 0), 0, allKeypoints, n);
      forall j | 0 <= j < n
        ensures RowOk(allMatches[0][j], j, 0, allKeypoints, n)
      {
        assert GroupsOf(allMatches, 0)[j] == allMatches[0][j];
      }
      forall c, j | 0 <= c < |allMatches| && 0 <= j < |allMatches[c]|
        ensures RowOk(allMatches[c][j], j, c + 1, allKeypoints, n)
      {
        assert TableOk(GroupsOf(allMatches, c + 1), c + 1, allKeypoints, n);
        assert GroupsOf(allMatches, c + 1)[j] == allMatches[c][j];
      }
      assert Gatherable(allMatches, allKeypoints);
    }
  }

  /** The first fault of the whole gathering, if any. */
  function FirstFault(allMatches: seq<seq<Group>>, allKeypoints: seq<seq<KeyPoint>>): (r: Option<GatherFault>)
    ensures r.None? <==> Gatherable(allMatches, allKeypoints)
  {
    if |allMatches| == 0 then Some(NoMatchLists)
    else
      GatherableByCamera(allMatches, allKeypoints);
      CameraFault(allMatches, allKeypoints, 0)
  }

  /** Table `t` holds, row by row, the keypoint each group designates, and
      zeros below the last group. */
  ghost predicate Filled(t: array2<real>, groups: seq<Group>, cam: nat, allKeypoints: seq<seq<KeyPoint>>, numRows: nat)
    reads t
    requires TableOk(groups, cam, allKeypoints, numRows)
  {
    && t.Length0 == numRows && t.Length1 == 2
    && (forall j :: 0 <= j < |groups| ==>
          var g := groups[j];
          (t[j, 0], t[j, 1]) == Position(allKeypoints[cam][KeypointIndex(g, cam)]))
    && (forall j :: |groups| <= j < numRows ==> t[j, 0] == 0.0 && t[j, 1] == 0.0)
  }

  /** One table of `gather_points_2d_from_matches`: a zeroed numRows×2 table
      filled from the first match of each group, stopping at the first fault. */
  method FillTable(groups: seq<Group>, cam: nat, allKeypoints: seq<seq<KeyPoint>>, numRows: nat)
    returns (t: array2<real>, fault: Option<GatherFault>)
    ensures fresh(t)
    ensures fault == TableFault(groups, 0, cam, allKeypoints, numRows)
    ensures fault.None? ==> TableOk(groups, cam, allKeypoints, numRows)
    ensures fault.None? ==> Filled(t, groups, cam, allKeypoints, numRows)
  {
    t := new real[numRows, 2]((i, j) => 0.0);
    for j := 0 to |groups|
      invariant TableFault(groups, 0, cam, allKeypoints, numRows) == TableFault(groups, j, cam, allKeypoints, numRows)
      invariant forall r :: 0 <= r < j ==> RowOk(groups[r], r, cam, allKeypoints, numRows)
      invariant t.Length0 == numRows && t.Length1 == 2
      invariant forall r :: 0 <= r < j ==>
                  var g := groups[r];
                  (t[r, 0], t[r, 1]) == Position(allKeypoints[cam][KeypointIndex(g, cam)])
      invariant forall r :: j <= r < numRows ==> t[r, 0] == 0.0 && t[r, 1] == 0.0
    {
      var g := groups[j];
      if |g| == 0 {
        return t, Some(EmptyGroup(cam, j));
      }
      if cam >= |allKeypoints| {
        return t, Some(NoKeypointList(cam));
      }
      var idx := if cam == 0 then g[0].queryIdx else g[0].trainIdx;
      if !(0 <= idx < |allKeypoints[cam]|) {
        return t, Some(KeypointOutOfRange(cam, j));
      }
      if j >= numRows {
        return t, Some(RowOutOfRange(cam, j));
      }
      var kp := allKeypoints[cam][idx];
      t[j, 0] := kp.x;
      t[j, 1] := kp.y;
    }
    fault := None;
  }

  /** What a successful gathering returns: one num_matches×2 table per
      camera, row j of the reference table holding the reference keypoint
      of group j, row j of camera i >= 1 the keypoint group j of
      all_matches[i - 1] matched in camera i, and zeros past a camera's
      group count. */
  ghost predicate TablesHold(tables: seq<array2<real>>, allMatches: seq<seq<Group>>, allKeypoints: seq<seq<KeyPoint>>)
    reads tables
    requires Gatherable(allMatches, allKeypoints)
  {
    var n := |allMatches[0]|;
    && |tables| == |allMatches| + 1
    && (forall i :: 0 <= i < |tables| ==> tables[i].Length0 == n && tables[i].Length1 == 2)
    && (forall j :: 0 <= j < n ==>
          var g := allMatches[0][j];
          (tables[0][j, 0], tables[0][j, 1]) == Position(allKeypoints[0][g[0].queryIdx]))
    && (forall i, j :: 1 <= i < |tables| && 0 <= j < |allMatches[i - 1]| ==>
          var g := allMatches[i - 1][j];
          (tables[i][j, 0], tables[i][j, 1]) == Position(allKeypoints[i][g[0].trainIdx]))
    && (forall i, j :: 1 <= i < |tables| && |allMatches[i - 1]| <= j < n ==>
          tables[i][j, 0] == 0.0 && tables[i][j, 1] == 0.0)
  }

  /** The tables gathered so far, one per camera from camera 0 on, are
      fault-free and filled. */
  ghost predicate FilledSoFar(tables: seq<array2<real>>, allMatches: seq<seq<Group>>, allKeypoints: seq<seq<KeyPoint>>)
    reads tables
    requires 0 < |allMatches| && |tables| <= |allMatches| + 1
  {
    forall c :: 0 <= c < |tables| ==>
      && TableOk(GroupsOf(allMatches, c), c, allKeypoints, |allMatches[0]|)
      && Filled(tables[c], GroupsOf(allMatches, c), c, allKeypoints, |allMatches[0]|)
  }

  lemma FilledSoFarExtend(tables: seq<array2<real>>, table: array2<real>,
                          allMatches: seq<seq<Group>>, allKeypoints: seq<seq<KeyPoint>>)
    requires 0 < |allMatches| && |tables| <= |allMatches|
    requires FilledSoFar(tables, allMatches, allKeypoints)
    requires TableOk(GroupsOf(allMatches, |tables|), |tables|, allKeypoints, |allMatches[0]|)
    requires Filled(table, GroupsOf(allMatches, |tables|), |tables|, allKeypoints, |allMatches[0]|)
    ensures FilledSoFar(tables + [table], allMatches, allKeypoints)
  {
    var next := tables + [table];
    forall c | 0 <= c < |next|
      ensures TableOk(GroupsOf(allMatches, c), c, allKeypoints, |allMatches[0]|)
      ensures Filled(next[c], GroupsOf(allMatches, c), c, allKeypoints, |allMatches[0]|)
    {
      if c < |tables| {
        assert next[c] == tables[c];
      }
    }
  }

  lemma FilledTablesHold(tables: seq<array2<real>>, allMatches: seq<seq<Group>>, allKeypoints: seq<seq<KeyPoint>>)
    requires 0 < |allMatches| && |tables| == |allMatches| + 1
    requires FilledSoFar(tables, allMatches, allKeypoints)
    ensures Gatherable(allMatches, allKeypoints)
    ensures TablesHold(tables, allMatches, allKeypoints)
  {
    GatherableByCamera(allMatches, allKeypoints);
    var n := |allMatches[0]|;
    assert Filled(tables[0], GroupsOf(allMatches, 0), 0, allKeypoints, n);
    forall i, j | 1 <= i < |tables| && 0 <= j < n
      ensures j < |allMatches[i - 1]| ==>
                var g := allMatches[i - 1][j];
                (tables[i][j, 0], tables[i][j, 1]) == Position(allKeypoints[i][g[0].trainIdx])
      ensures |allMatches[i - 1]| <= j ==> tables[i][j, 0] == 0.0 && tables[i][j, 1] == 0.0
    {
      assert Filled(tables[i], GroupsOf(allMatches, i), i, allKeypoints, n);
    }
  }

  /** No table occurs twice. */
  ghost predicate Distinct(tables: seq<array2<real>>)
  {
    forall a, b :: 0 <= a < b < |tables| ==> tables[a] != tables[b]
  }

  lemma DistinctExtend(tables: seq<array2<real>>, table: array2<real>)
    requires Distinct(tables) && table !in tables
    ensures Distinct(tables + [table])
  {
  }

  /** A fault in camera `cam`'s table, after fault-free tables for the
      cameras before it, is the first fault of the whole gathering. */
  lemma FaultIsFirst(allMatches: seq<seq<Group>>, allKeypoints: seq<seq<KeyPoint>>, cam: nat, f: GatherFault)
    requires 0 < |allMatches| && cam <= |allMatches|
    requires CameraFault(allMatches, allKeypoints, 0) == CameraFault(allMatches, allKeypoints, cam)
    requires TableFault(GroupsOf(allMatches, cam), 0, cam, allKeypoints, |allMatches[0]|) == Some(f)
    ensures FirstFault(allMatches, allKeypoints) == Some(f)
    ensures !Gatherable(allMatches, allKeypoints)
  {
  }

  /** `gather_points_2d_from_matches`: the reference table first, then one
      table per entry of all_matches. It fails exactly when the inputs are
      not gatherable, with the first fault met. */
  method GatherPoints2DFromMatches(allMatches: seq<seq<Group>>, allKeypoints: seq<seq<KeyPoint>>)
    returns (r: Result<seq<array2<real>>, GatherFault>)
    ensures r.Err? <==> !Gatherable(allMatches, allKeypoints)
    ensures r.Err? ==> Some(r.error) == FirstFault(allMatches, allKeypoints)
    ensures r.Ok? ==> Gatherable(allMatches, allKeypoints) && TablesHold(r.value, allMatches, allKeypoints)
    ensures r.Ok? ==> forall i :: 0 <= i < |r.value| ==> fresh(r.value[i])
    ensures r.Ok? ==> Distinct(r.value)
  {
    if |allMatches| == 0 {
      return Err(NoMatchLists);
    }
    var numMatches := |allMatches[0]|;
    GatherableByCamera(allMatches, allKeypoints);
    var table, fault := FillTable(allMatches[0], 0, allKeypoints, numMatches);
    if fault.Some? {
      FaultIsFirst(allMatches, allKeypoints, 0, fault.value);
      return Err(fault.value);
    }
    FilledSoFarExtend([], table, allMatches, allKeypoints);
    var tables := [table];
    for i := 1 to |allMatches| + 1
      invariant |tables| == i
      invariant CameraFault(allMatches, allKeypoints, 0) == CameraFault(allMatches, allKeypoints, i)
      invariant FilledSoFar(tables, allMatches, allKeypoints)
      invariant forall c :: 0 <= c < i ==> fresh(tables[c])
      invariant Distinct(tables)
    {
      assert GroupsOf(allMatches, i) == allMatches[i - 1];
      table, fault := FillTable(allMatches[i - 1], i, allKeypoints, numMatches);
      if fault.Some? {
        FaultIsFirst(allMatches, allKeypoints, i, fault.value);
        return Err(fault.value);
      }
      FilledSoFarExtend(tables, table, allMatches, allKeypoints);
      DistinctExtend(tables, table);
      tables := tables + [table];
    }
    FilledTablesHold(tables, allMatches, allKeypoints);
    return Ok(tables);
  }
}
