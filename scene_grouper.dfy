/**
 * Scene grouping: consecutive panels are kept together while a visual
 * similarity oracle says each panel looks like the one before it, and each
 * such run is then cut into scenes of at most four panels. The oracle (a
 * colour-histogram comparison of two image files) is a parameter.
 */
module SceneGrouper {

  type Scene = seq<string>

  /** The panels of a list of scenes, in order. */
  function Flatten(ss: seq<Scene>): seq<string> {
    if ss == [] then [] else Flatten(ss[..|ss| - 1]) + ss[|ss| - 1]
  }

  lemma FlattenSnoc(ss: seq<Scene>, s: Scene)
    ensures Flatten(ss + [s]) == Flatten(ss) + s
  {
    assert (ss + [s])[..|ss|] == ss;
  }

  lemma {:induction false} FlattenAppend(a: seq<Scene>, b: seq<Scene>)
    ensures Flatten(a + b) == Flatten(a) + Flatten(b)
    decreases |b|
  {
    if b == [] {
      assert a + b == a;
    } else {
      var init, last := b[..|b| - 1], b[|b| - 1];
      assert a + b == (a + init) + [last];
      FlattenSnoc(a + init, last);
      FlattenAppend(a, init);
    }
  }

  /** Neighbouring panels of the scene are similar. */
  predicate Linked(s: Scene, similar: (string, string) -> bool) {
    forall j :: 1 <= j < |s| ==> similar(s[j - 1], s[j])
  }

  /** Every scene is linked. */
  predicate SimilarWithin(ss: seq<Scene>, similar: (string, string) -> bool) {
    forall k :: 0 <= k < |ss| ==> Linked(ss[k], similar)
  }

  lemma LinkedAppend(s: Scene, x: string, similar: (string, string) -> bool)
    requires s != [] && Linked(s, similar) && similar(s[|s| - 1], x)
    ensures Linked(s + [x], similar)
  {
    forall j | 1 <= j < |s + [x]| ensures similar((s + [x])[j - 1], (s + [x])[j]) {
      if j < |s| {
        assert (s + [x])[j - 1] == s[j - 1] && (s + [x])[j] == s[j];
      }
    }
  }

  /** Consecutive scenes meet at a dissimilar pair. */
  predicate CutAtDissimilar(ss: seq<Scene>, similar: (string, string) -> bool)
    requires forall k :: 0 <= k < |ss| ==> ss[k] != []
  {
    forall k :: 1 <= k < |ss| ==> !similar(ss[k - 1][|ss[k - 1]| - 1], ss[k][0])
  }

  // ---------------------------------------------------------------------------
  // First pass: runs of similar panels
  // ---------------------------------------------------------------------------

  /**
   * The runs of the first pass: a panel joins the current run exactly when it
   * is similar to the panel before it.
   */
  function Runs(panels: seq<string>, similar: (string, string) -> bool): (r: seq<Scene>)
    ensures (r == []) == (panels == [])
    ensures forall k :: 0 <= k < |r| ==> r[k] != []
    ensures Flatten(r) == panels
    ensures SimilarWithin(r, similar)
    ensures CutAtDissimilar(r, similar)
    decreases |panels|
  {
    if panels == [] then []
    else if |panels| == 1 then [panels]
    else
      var init, x := panels[..|panels| - 1], panels[|panels| - 1];
      var rs := Runs(init, similar);
      var last := rs[|rs| - 1];
      if similar(init[|init| - 1], x) then
        ExtendLastRun(rs, x, init, similar);
        rs[..|rs| - 1] + [last + [x]]
      else
        NewRun(rs, x, init, similar);
        rs + [[x]]
  }

  /** The last panel of the flattening is the last panel of the last scene. */
  lemma FlattenLast(ss: seq<Scene>)
    requires ss != [] && ss[|ss| - 1] != []
    ensures Flatten(ss) != []
    ensures Flatten(ss)[|Flatten(ss)| - 1] == ss[|ss| - 1][|ss[|ss| - 1]| - 1]
  {
  }

  lemma ExtendLastRun(rs: seq<Scene>, x: string, init: seq<string>, similar: (string, string) -> bool)
    requires rs != [] && forall k :: 0 <= k < |rs| ==> rs[k] != []
    requires Flatten(rs) == init && SimilarWithin(rs, similar) && CutAtDissimilar(rs, similar)
    requires init != [] && similar(init[|init| - 1], x)
    ensures var r := rs[..|rs| - 1] + [rs[|rs| - 1] + [x]];
      && (forall k :: 0 <= k < |r| ==> r[k] != [])
      && Flatten(r) == init + [x] && SimilarWithin(r, similar) && CutAtDissimilar(r, similar)
  {
    var n := |rs| - 1;
    var r := rs[..n] + [rs[n] + [x]];
    assert forall k :: 0 <= k < n ==> r[k] == rs[k];
    FlattenLast(rs);
    LinkedAppend(rs[n], x, similar);
    FlattenParts(rs, x);
    assert r[n][0] == rs[n][0];
  }

  /** The flattening after the last scene grows by one panel. */
  lemma FlattenParts(rs: seq<Scene>, x: string)
    requires rs != []
    ensures Flatten(rs[..|rs| - 1] + [rs[|rs| - 1] + [x]]) == Flatten(rs) + [x]
  {
    FlattenSnoc(rs[..|rs| - 1], rs[|rs| - 1] + [x]);
  }

  lemma NewRun(rs: seq<Scene>, x: string, init: seq<string>, similar: (string, string) -> bool)
    requires rs != [] && forall k :: 0 <= k < |rs| ==> rs[k] != []
    requires Flatten(rs) == init && SimilarWithin(rs, similar) && CutAtDissimilar(rs, similar)
    requires init != [] && !similar(init[|init| - 1], x)
    ensures var r := rs + [[x]];
      && (forall k :: 0 <= k < |r| ==> r[k] != [])
      && Flatten(r) == init + [x] && SimilarWithin(r, similar) && CutAtDissimilar(r, similar)
  {
    var r := rs + [[x]];
    assert forall k :: 0 <= k < |rs| ==> r[k] == rs[k];
    FlattenLast(rs);
    FlattenSnoc(rs, [x]);
  }

  // ---------------------------------------------------------------------------
  // Second pass: scenes of at most four panels
  // ---------------------------------------------------------------------------

  const MAX_SCENE := 4

  /** A run cut into consecutive pieces of four, the last one possibly shorter. */
  function Chunk(run: Scene): (r: seq<Scene>)
    ensures |r| == (|run| + MAX_SCENE - 1) / MAX_SCENE
    decreases |run|
  {
    if |run| > MAX_SCENE then [run[..MAX_SCENE]] + Chunk(run[MAX_SCENE..])
    else if run == [] then []
    else [run]
  }

  lemma LinkedSlice(s: Scene, i: nat, j: nat, similar: (string, string) -> bool)
    requires Linked(s, similar) && i <= j <= |s|
    ensures Linked(s[i..j], similar)
  {
    forall m | 1 <= m < j - i ensures similar(s[i..j][m - 1], s[i..j][m]) {
      assert s[i..j][m - 1] == s[i + m - 1] && s[i..j][m] == s[i + m];
    }
  }

  /** The pieces of a linked run are linked. */
  lemma {:induction false} ChunkLinked(run: Scene, similar: (string, string) -> bool)
    requires Linked(run, similar)
    ensures SimilarWithin(Chunk(run), similar)
    decreases |run|
  {
    if |run| > MAX_SCENE {
      LinkedSlice(run, 0, MAX_SCENE, similar);
      LinkedSlice(run, MAX_SCENE, |run|, similar);
      ChunkLinked(run[MAX_SCENE..], similar);
      var c := Chunk(run);
      assert forall k :: 1 <= k < |c| ==> c[k] == Chunk(run[MAX_SCENE..])[k - 1];
    }
  }

  /** Chunking keeps the panels and their order, and every piece but the last holds four. */
  lemma {:induction false} ChunkProperties(run: Scene)
    ensures Flatten(Chunk(run)) == run
    ensures forall k :: 0 <= k < |Chunk(run)| ==> 1 <= |Chunk(run)[k]| <= MAX_SCENE
    ensures forall k :: 0 <= k < |Chunk(run)| - 1 ==> |Chunk(run)[k]| == MAX_SCENE
    decreases |run|
  {
    if |run| > MAX_SCENE {
      ChunkProperties(run[MAX_SCENE..]);
      assert Chunk(run) == [run[..MAX_SCENE]] + Chunk(run[MAX_SCENE..]);
      assert run == run[..MAX_SCENE] + run[MAX_SCENE..];
      FlattenAppend([run[..MAX_SCENE]], Chunk(run[MAX_SCENE..]));
      FlattenSnoc([], run[..MAX_SCENE]);
    } else if run != [] {
      FlattenSnoc([], run);
    }
  }

  /** Every run chunked in turn; defined from the back, as the loop consumes it. */
  function ChunkAll(rs: seq<Scene>): seq<Scene> {
    if rs == [] then [] else ChunkAll(rs[..|rs| - 1]) + Chunk(rs[|rs| - 1])
  }

  /** `group_panels` as a function of the panel list and the oracle. */
  function Group(panels: seq<string>, similar: (string, string) -> bool): seq<Scene> {
    ChunkAll(Runs(panels, similar))
  }

  // ---------------------------------------------------------------------------
  // group_panels
  // ---------------------------------------------------------------------------

  /** `group_panels` */
  method GroupPanels(panels: seq<string>, similar: (string, string) -> bool) returns (finalScenes: seq<Scene>)
    ensures finalScenes == Group(panels, similar)
  {
    if panels == [] {
      return [];
    }
    var scenes: seq<Scene> := [[panels[0]]];
    assert panels[..1] == [panels[0]];
    for i := 1 to |panels|
      invariant scenes == Runs(panels[..i], similar)
    {
      var prev, curr := panels[i - 1], panels[i];
      RunsStep(panels, i, similar);
      if similar(prev, curr) {
        scenes := scenes[..|scenes| - 1] + [scenes[|scenes| - 1] + [curr]];
      } else {
        scenes := scenes + [[curr]];
      }
    }
    assert panels[..|panels|] == panels;
    finalScenes := CapSceneSize(scenes);
  }

  /** One more panel either joins the last run or starts a new one. */
  lemma RunsStep(panels: seq<string>, i: nat, similar: (string, string) -> bool)
    requires 1 <= i < |panels|
    ensures var rs, x := Runs(panels[..i], similar), panels[i];
      Runs(panels[..i + 1], similar) ==
        if similar(panels[i - 1], x) then rs[..|rs| - 1] + [rs[|rs| - 1] + [x]] else rs + [[x]]
  {
    var q := panels[..i + 1];
    assert q[..|q| - 1] == panels[..i];
    assert q[|q| - 2] == panels[i - 1] && q[|q| - 1] == panels[i];
    RunsSnoc(q, similar);
  }

  /** `Runs` of a list of two or more panels, in terms of the list without its last one. */
  lemma RunsSnoc(q: seq<string>, similar: (string, string) -> bool)
    requires |q| >= 2
    ensures var rs, x := Runs(q[..|q| - 1], similar), q[|q| - 1];
      Runs(q, similar) ==
        if similar(q[|q| - 2], x) then rs[..|rs| - 1] + [rs[|rs| - 1] + [x]] else rs + [[x]]
  {
  }

  /** The second pass of `group_panels`: every scene longer than four is cut into pieces of four. */
  method CapSceneSize(scenes: seq<Scene>) returns (finalScenes: seq<Scene>)
    ensures finalScenes == ChunkAll(scenes)
  {
    finalScenes := [];
    for k := 0 to |scenes|
      invariant finalScenes == ChunkAll(scenes[..k])
    {
      var scene := scenes[k];
      assert scenes[..k + 1][..k] == scenes[..k];
      while |scene| > MAX_SCENE
        invariant finalScenes + Chunk(scene) == ChunkAll(scenes[..k + 1])
      {
        finalScenes := finalScenes + [scene[..MAX_SCENE]];
        scene := scene[MAX_SCENE..];
      }
      if scene != [] {
        finalScenes := finalScenes + [scene];
      }
    }
    assert scenes[..|scenes|] == scenes;
  }

  // ---------------------------------------------------------------------------
  // Properties
  // ---------------------------------------------------------------------------

  /** Cutting the runs keeps every panel, in order. */
  lemma {:induction false} ChunkAllFlatten(rs: seq<Scene>)
    ensures Flatten(ChunkAll(rs)) == Flatten(rs)
  {
    if rs != [] {
      var init, last := rs[..|rs| - 1], rs[|rs| - 1];
      ChunkAllFlatten(init);
      ChunkProperties(last);
      FlattenAppend(ChunkAll(init), Chunk(last));
    }
  }

  /** Every piece holds one to four panels. */
  lemma {:induction false} ChunkAllSizes(rs: seq<Scene>)
    ensures forall k :: 0 <= k < |ChunkAll(rs)| ==> 1 <= |ChunkAll(rs)[k]| <= MAX_SCENE
  {
    if rs != [] {
      var init, last := rs[..|rs| - 1], rs[|rs| - 1];
      ChunkAllSizes(init);
      ChunkProperties(last);
      var a, b := ChunkAll(init), Chunk(last);
      assert ChunkAll(rs) == a + b;
      forall k | 0 <= k < |a + b| ensures 1 <= |(a + b)[k]| <= MAX_SCENE {
        if k < |a| {
          assert (a + b)[k] == a[k];
        } else {
          assert (a + b)[k] == b[k - |a|];
        }
      }
    }
  }

  /** Cutting a run never joins dissimilar neighbours. */
  lemma {:induction false} ChunkAllSimilar(rs: seq<Scene>, similar: (string, string) -> bool)
    requires SimilarWithin(rs, similar)
    ensures SimilarWithin(ChunkAll(rs), similar)
  {
    if rs != [] {
      var init, last := rs[..|rs| - 1], rs[|rs| - 1];
      assert SimilarWithin(init, similar) by {
        forall k | 0 <= k < |init| ensures Linked(init[k], similar) {
          assert init[k] == rs[k];
        }
      }
      ChunkAllSimilar(init, similar);
      ChunkLinked(last, similar);
      var a, b := ChunkAll(init), Chunk(last);
      assert ChunkAll(rs) == a + b;
      forall k | 0 <= k < |a + b| ensures Linked((a + b)[k], similar) {
        if k < |a| {
          assert (a + b)[k] == a[k];
        } else {
          assert (a + b)[k] == b[k - |a|];
        }
      }
    }
  }

  lemma ChunkAllProperties(rs: seq<Scene>, similar: (string, string) -> bool)
    requires SimilarWithin(rs, similar)
    ensures Flatten(ChunkAll(rs)) == Flatten(rs)
    ensures forall k :: 0 <= k < |ChunkAll(rs)| ==> 1 <= |ChunkAll(rs)[k]| <= MAX_SCENE
    ensures SimilarWithin(ChunkAll(rs), similar)
  {
    ChunkAllFlatten(rs);
    ChunkAllSizes(rs);
    ChunkAllSimilar(rs, similar);
  }


  /** Grouping keeps every panel, in order, and an empty list gives no scenes. */
  lemma GroupKeepsPanels(panels: seq<string>, similar: (string, string) -> bool)
    ensures Flatten(Group(panels, similar)) == panels
    ensures panels == [] ==> Group(panels, similar) == []
  {
    ChunkAllProperties(Runs(panels, similar), similar);
  }

  /** Every scene holds one to four panels, and no scene spans a dissimilar pair. */
  lemma GroupScenes(panels: seq<string>, similar: (string, string) -> bool)
    ensures forall k :: 0 <= k < |Group(panels, similar)| ==> 1 <= |Group(panels, similar)[k]| <= MAX_SCENE
    ensures SimilarWithin(Group(panels, similar), similar)
  {
    ChunkAllProperties(Runs(panels, similar), similar);
  }

  /** Every run becomes ceil(n/4) consecutive scenes, all but the last of exactly four panels. */
  lemma ChunkCount(run: Scene)
    ensures |Chunk(run)| == (|run| + 3) / 4
    ensures |Chunk(run)| * 4 >= |run| > (|Chunk(run)| - 1) * 4
    ensures forall k :: 0 <= k < |Chunk(run)| - 1 ==> |Chunk(run)[k]| == 4
  {
    ChunkProperties(run);
  }
}
