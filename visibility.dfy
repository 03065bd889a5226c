/** `min_visible_match_set`: keeps, for every camera, only the match groups
    of reference keypoints that are matched in every camera, so that row k
    of every camera's list refers to the same reference keypoint. */
module CommonVisibility {
  import opened Wrappers
  import opened Correspondence

  /** The group's first match starts from reference keypoint `i`. */
  predicate Leads(g: Group, i: nat)
  {
    |g| > 0 && g[0].queryIdx == i
  }

  /** Some group of one camera starts from reference keypoint `i`. */
  predicate HasMatch(groups: seq<Group>, i: nat)
  {
    exists k :: 0 <= k < |groups| && Leads(groups[k], i)
  }

  /** Reference keypoint `i` has a match in every camera. */
  predicate VisibleInAll(allMatches: seq<seq<Group>>, i: nat)
  {
    forall c :: 0 <= c < |allMatches| ==> HasMatch(allMatches[c], i)
  }

  /** Every group of every camera has a first match. */
  predicate AllGroupsNonEmpty(allMatches: seq<seq<Group>>)
  {
    forall c, j :: 0 <= c < |allMatches| && 0 <= j < |allMatches[c]| ==> |allMatches[c][j]| > 0
  }

  predicate StrictlyIncreasing(s: seq<nat>)
  {
    forall k, l :: 0 <= k < l < |s| ==> s[k] < s[l]
  }

  /** The reference keypoints below `n` visible in every camera, ascending. */
  function CommonIndices(allMatches: seq<seq<Group>>, n: nat): (r: seq<nat>)
    ensures StrictlyIncreasing(r)
    ensures forall k :: 0 <= k < |r| ==> r[k] < n && VisibleInAll(allMatches, r[k])
    ensures forall i: nat :: i < n && VisibleInAll(allMatches, i) ==> i in r
  {
    if n == 0 then []
    else CommonIndices(allMatches, n - 1) + (if VisibleInAll(allMatches, n - 1) then [n - 1] else [])
  }

  /** Position of the first group of `groups` led by keypoint `i`. */
  function FirstWith(groups: seq<Group>, i: nat): (r: Option<nat>)
    ensures r.None? <==> !HasMatch(groups, i)
    ensures r.Some? ==> r.value < |groups| && Leads(groups[r.value], i) &&
                        forall k :: 0 <= k < r.value ==> !Leads(groups[k], i)
  {
    if groups == [] then None
    else if Leads(groups[0], i) then Some(0)
    else match FirstWith(groups[1..], i)
      case None => None
      case Some(k) => Some(k + 1)
  }

  /** One camera's groups restricted to `indices`: for each index in turn,
      the first group it leads, if any. */
  function Restrict(groups: seq<Group>, indices: seq<nat>): seq<Group>
  {
    if indices == [] then []
    else
      Restrict(groups, indices[..|indices| - 1]) +
      match FirstWith(groups, indices[|indices| - 1])
      case None => []
      case Some(k) => [groups[k]]
  }

  /** What `min_visible_match_set` returns, for a reference camera with `n` keypoints. */
  function MinVisible(allMatches: seq<seq<Group>>, n: nat): seq<seq<Group>>
  {
    seq(|allMatches|, c requires 0 <= c < |allMatches| => Restrict(allMatches[c], CommonIndices(allMatches, n)))
  }

  /** The first phase of `min_visible_match_set`: for each reference
      keypoint, asks every camera in turn whether one of its groups starts
      from it, stopping at the first camera that has none. */
  method CollectCommonIndices(allMatches: seq<seq<Group>>, n: nat) returns (commonPointsIndices: seq<nat>)
    ensures commonPointsIndices == CommonIndices(allMatches, n)
  {
    commonPointsIndices := [];
    for i := 0 to n
      invariant commonPointsIndices == CommonIndices(allMatches, i)
    {
      var visibleInAllCameras := true;
      var c := 0;
      while c < |allMatches|
        invariant 0 <= c <= |allMatches|
        invariant visibleInAllCameras
        invariant forall d :: 0 <= d < c ==> HasMatch(allMatches[d], i)
      {
        var pointHasMatch := HasMatch(allMatches[c], i);
        if !pointHasMatch {
          visibleInAllCameras := false;
          break;
        }
        c := c + 1;
      }
      assert visibleInAllCameras <==> VisibleInAll(allMatches, i);
      if visibleInAllCameras {
        commonPointsIndices := commonPointsIndices + [i];
      }
    }
  }

  /** The second phase for one camera: for each common index, copies the
      first group that starts from it. */
  method FilterCameraMatches(cameraMatches: seq<Group>, commonPointsIndices: seq<nat>)
    returns (filteredCameraMatches: seq<Group>)
    requires forall j :: 0 <= j < |cameraMatches| ==> |cameraMatches[j]| > 0
    ensures filteredCameraMatches == Restrict(cameraMatches, commonPointsIndices)
  {
    filteredCameraMatches := [];
    for k := 0 to |commonPointsIndices|
      invariant filteredCameraMatches == Restrict(cameraMatches, commonPointsIndices[..k])
    {
      var idx := commonPointsIndices[k];
      assert commonPointsIndices[..k + 1][..k] == commonPointsIndices[..k];
      var j := 0;
      while j < |cameraMatches|
        invariant 0 <= j <= |cameraMatches|
        invariant forall l :: 0 <= l < j ==> !Leads(cameraMatches[l], idx)
      {
        if cameraMatches[j][0].queryIdx == idx {
          assert FirstWith(cameraMatches, idx) == Some(j);
          filteredCameraMatches := filteredCameraMatches + [cameraMatches[j]];
          break;
        }
        j := j + 1;
      }
    }
    assert commonPointsIndices[..|commonPointsIndices|] == commonPointsIndices;
  }

  /** `min_visible_match_set`: first collects the reference keypoints seen
      by every camera, then copies each camera's first group for each of
      them. The source unwraps the first match of every group it inspects
      and indexes the first keypoint list, so both must exist. */
  method MinVisibleMatchSet(allMatches: seq<seq<Group>>, keypointsList: seq<seq<KeyPoint>>)
    returns (filteredMatches: seq<seq<Group>>)
    requires |keypointsList| > 0
    requires AllGroupsNonEmpty(allMatches)
    ensures filteredMatches == MinVisible(allMatches, |keypointsList[0]|)
  {
    var commonPointsIndices := CollectCommonIndices(allMatches, |keypointsList[0]|);
    ghost var result := MinVisible(allMatches, |keypointsList[0]|);
    filteredMatches := [];
    for c := 0 to |allMatches|
      invariant |filteredMatches| == c
      invariant forall d :: 0 <= d < c ==> filteredMatches[d] == result[d]
    {
      var filteredCameraMatches := FilterCameraMatches(allMatches[c], commonPointsIndices);
      filteredMatches := filteredMatches + [filteredCameraMatches];
    }
  }

  // ---------------------------------------------------------------------
  // Properties of the result

  /** A group leads at most one keypoint. */
  lemma LeadsUnique(g: Group, i: nat, i': nat)
    requires Leads(g, i) && Leads(g, i')
    ensures i == i'
  {
  }

  /** When every index has a match, the restriction holds one group per
      index, in order: the camera's first group led by that index. */
  lemma {:induction false} RestrictAligned(groups: seq<Group>, indices: seq<nat>)
    requires forall k :: 0 <= k < |indices| ==> HasMatch(groups, indices[k])
    ensures |Restrict(groups, indices)| == |indices|
    ensures forall k :: 0 <= k < |indices| ==>
              && FirstWith(groups, indices[k]).Some?
              && Restrict(groups, indices)[k] == groups[FirstWith(groups, indices[k]).value]
              && Leads(Restrict(groups, indices)[k], indices[k])
  {
    if indices != [] {
      var last := |indices| - 1;
      var init := indices[..last];
      RestrictAligned(groups, init);
      var f := FirstWith(groups, indices[last]);
      assert f.Some?;
      var r := Restrict(groups, indices);
      assert r == Restrict(groups, init) + [groups[f.value]];
      forall k | 0 <= k < |indices|
        ensures && FirstWith(groups, indices[k]).Some?
                && r[k] == groups[FirstWith(groups, indices[k]).value]
                && Leads(r[k], indices[k])
      {
        if k < last {
          assert indices[k] == init[k];
        }
      }
    }
  }

  /** Every camera's filtered list has one group per common keypoint; row k
      of every camera is that camera's first group starting from the k-th
      common keypoint, so the rows of all cameras line up. */
  lemma MinVisibleAligned(allMatches: seq<seq<Group>>, n: nat)
    ensures |MinVisible(allMatches, n)| == |allMatches|
    ensures forall c :: 0 <= c < |allMatches| ==>
              |MinVisible(allMatches, n)[c]| == |CommonIndices(allMatches, n)|
    ensures forall c, k :: 0 <= c < |allMatches| && 0 <= k < |CommonIndices(allMatches, n)| ==>
              && Leads(MinVisible(allMatches, n)[c][k], CommonIndices(allMatches, n)[k])
              && MinVisible(allMatches, n)[c][k] in allMatches[c]
    ensures AllGroupsNonEmpty(MinVisible(allMatches, n))
  {
    var common := CommonIndices(allMatches, n);
    forall c | 0 <= c < |allMatches|
      ensures |MinVisible(allMatches, n)[c]| == |common|
      ensures forall k :: 0 <= k < |common| ==>
                Leads(MinVisible(allMatches, n)[c][k], common[k]) && MinVisible(allMatches, n)[c][k] in allMatches[c]
    {
      RestrictAligned(allMatches[c], common);
    }
  }

  /** The common indices depend only on which keypoints are visible everywhere. */
  lemma {:induction false} CommonIndicesAgree(a: seq<seq<Group>>, b: seq<seq<Group>>, n: nat)
    requires forall i: nat :: i < n ==> (VisibleInAll(a, i) <==> VisibleInAll(b, i))
    ensures CommonIndices(a, n) == CommonIndices(b, n)
  {
    if n > 0 {
      CommonIndicesAgree(a, b, n - 1);
    }
  }

  /** Restricting groups that already line up with distinct indices gives
      them back unchanged (every prefix of them, by induction). */
  lemma {:induction false} RestrictLinedUp(groups: seq<Group>, indices: seq<nat>, m: nat)
    requires |groups| == |indices| && m <= |indices|
    requires StrictlyIncreasing(indices)
    requires forall k :: 0 <= k < |indices| ==> Leads(groups[k], indices[k])
    ensures Restrict(groups, indices[..m]) == groups[..m]
  {
    if m > 0 {
      RestrictLinedUp(groups, indices, m - 1);
      assert indices[..m][..m - 1] == indices[..m - 1];
      var r := FirstWith(groups, indices[m - 1]);
      assert HasMatch(groups, indices[m - 1]) by { assert Leads(groups[m - 1], indices[m - 1]); }
      assert r.value == m - 1;
      assert groups[..m] == groups[..m - 1] + [groups[m - 1]];
    }
  }

  /** Below `n`, a keypoint is visible everywhere in the filtered set
      exactly when it is in the original. */
  lemma VisibilityKept(allMatches: seq<seq<Group>>, n: nat, i: nat)
    requires i < n
    ensures VisibleInAll(MinVisible(allMatches, n), i) <==> VisibleInAll(allMatches, i)
  {
    var t := MinVisible(allMatches, n);
    var common := CommonIndices(allMatches, n);
    MinVisibleAligned(allMatches, n);
    if VisibleInAll(allMatches, i) {
      var k :| 0 <= k < |common| && common[k] == i;
      forall c | 0 <= c < |t|
        ensures HasMatch(t[c], i)
      {
        assert Leads(t[c][k], i);
      }
    }
    if VisibleInAll(t, i) && |allMatches| > 0 {
      assert HasMatch(t[0], i);
      var k :| 0 <= k < |t[0]| && Leads(t[0][k], i);
      LeadsUnique(t[0][k], i, common[k]);
    }
  }

  /** The filtered set has the same common keypoints as the input. */
  lemma CommonIndicesKept(allMatches: seq<seq<Group>>, n: nat)
    ensures CommonIndices(MinVisible(allMatches, n), n) == CommonIndices(allMatches, n)
  {
    forall i: nat | i < n
      ensures VisibleInAll(MinVisible(allMatches, n), i) <==> VisibleInAll(allMatches, i)
    {
      VisibilityKept(allMatches, n, i);
    }
    CommonIndicesAgree(MinVisible(allMatches, n), allMatches, n);
  }

  /** Each camera's filtered list is left as it is by a second filtering. */
  lemma CameraKept(allMatches: seq<seq<Group>>, n: nat, c: nat)
    requires c < |allMatches|
    ensures MinVisible(MinVisible(allMatches, n), n)[c] == MinVisible(allMatches, n)[c]
  {
    var t := MinVisible(allMatches, n);
    var common := CommonIndices(allMatches, n);
    CommonIndicesKept(allMatches, n);
    MinVisibleAligned(allMatches, n);
    assert MinVisible(t, n)[c] == Restrict(t[c], common);
    RestrictLinedUp(t[c], common, |common|);
    assert common[..|common|] == common;
    assert t[c][..|common|] == t[c];
  }

  /** Filtering an already filtered match set changes nothing. */
  lemma MinVisibleIdempotent(allMatches: seq<seq<Group>>, n: nat)
    ensures MinVisible(MinVisible(allMatches, n), n) == MinVisible(allMatches, n)
  {
    var t := MinVisible(allMatches, n);
    var t2 := MinVisible(t, n);
    forall c | 0 <= c < |t|
      ensures t2[c] == t[c]
    {
      CameraKept(allMatches, n, c);
    }
  }
}
