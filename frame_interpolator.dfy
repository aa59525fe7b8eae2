/**
 * The 48 fps interpolation step: a guard that selects long, moving scenes, and
 * the frame bookkeeping that interleaves original frames with generated ones.
 * Frame extraction, the RIFE model and the encoder are outside the model; their
 * outcomes are parameters (how many frames were extracted, which generated
 * frames succeed, whether a step raised).
 */
module FrameInterpolator {
  import opened Wrappers
  import opened Strings
  import AnimationEngine

  const MIN_DURATION := 1.2

  const MOVING_ACTIONS: seq<string> := ["zoom_in", "zoom_out", "shake", "pan_left", "pan_right"]

  /** `should_interpolate`: only scenes of at least 1.2 s with a listed camera motion. */
  function ShouldInterpolate(cameraAction: string, duration: real): (r: bool)
    ensures r ==> duration >= MIN_DURATION
    ensures cameraAction !in MOVING_ACTIONS ==> !r
    ensures cameraAction in ["static", "shake_agressive", "zoom_in_fast"] ==> !r
    ensures duration >= MIN_DURATION && cameraAction in MOVING_ACTIONS ==> r
  {
    !(duration < MIN_DURATION) && cameraAction in MOVING_ACTIONS
  }

  /**
   * Fed with the camera record of the animation engine, the guard selects
   * exactly the long scenes whose camera zooms, pans or shakes gently: the
   * static, aggressive-shake and fast-zoom modes are never interpolated.
   */
  lemma InterpolatedModes(emotion: string, duration: real)
    ensures var mode := AnimationEngine.CameraMode(emotion);
      ShouldInterpolate(AnimationEngine.GetCameraTiming(emotion, duration).action, duration)
      <==> duration >= MIN_DURATION
           && mode != AnimationEngine.STATIC && mode != AnimationEngine.SHAKE_AGRESSIVE
           && mode != AnimationEngine.ZOOM_IN_FAST
  {
  }

  // ---------------------------------------------------------------------------
  // Output path
  // ---------------------------------------------------------------------------

  const MP4 := ".mp4"
  const MP4_48 := "_48fps.mp4"

  /**
   * `video_path.replace('.mp4', '_48fps.mp4')`. A path without ".mp4" is
   * returned unchanged.
   */
  function OutputPath(videoPath: string): (r: string)
    ensures NoOccurrence(videoPath, MP4) ==> r == videoPath
  {
    ReplaceAllNoOccurrence(videoPath, MP4, MP4_48);
    ReplaceAll(videoPath, MP4, MP4_48)
  }

  /** An occurrence in `b[1..] + pat` is one in `b + pat`, one position later. */
  lemma OccursShift(b: string, pat: string, i: nat)
    requires b != [] && OccursAt(b[1..] + pat, pat, i)
    ensures OccursAt(b + pat, pat, i + 1)
  {
    assert (b[1..] + pat)[i..i + |pat|] == (b + pat)[i + 1..i + 1 + |pat|];
  }

  /** Replacing in `b + pat` when the only occurrence is the final one. */
  lemma {:induction false} ReplaceFinal(b: string, pat: string, rep: string)
    requires |pat| > 0
    requires forall i :: 0 <= i < |b| ==> !OccursAt(b + pat, pat, i)
    ensures ReplaceAll(b + pat, pat, rep) == b + rep
    decreases |b|
  {
    var s := b + pat;
    if b == [] {
      assert s == pat;
      assert s[|pat|..] == [];
    } else {
      assert !OccursAt(s, pat, 0);
      assert s[1..] == b[1..] + pat;
      forall i | 0 <= i < |b[1..]| ensures !OccursAt(b[1..] + pat, pat, i) {
        if OccursAt(b[1..] + pat, pat, i) {
          OccursShift(b, pat, i);
        }
      }
      ReplaceFinal(b[1..], pat, rep);
      assert ReplaceAll(s, pat, rep) == [s[0]] + ReplaceAll(s[1..], pat, rep);
    }
  }

  /** A path whose stem holds no ".mp4" gets the "_48fps" marker before its extension. */
  lemma OutputPathOfMp4(stem: string)
    requires NoOccurrence(stem, MP4)
    ensures OutputPath(stem + MP4) == stem + MP4_48
  {
    var s := stem + MP4;
    forall i | 0 <= i < |stem| ensures !OccursAt(s, MP4, i) {
      if i + |MP4| <= |stem| {
        assert s[i..i + |MP4|] == stem[i..i + |MP4|];
        assert !OccursAt(stem, MP4, i);
      } else {
        assert s[|stem|] == '.';
        assert s[i..i + |MP4|][|stem| - i] == '.';
      }
    }
    ReplaceFinal(stem, MP4, MP4_48);
  }

  // ---------------------------------------------------------------------------
  // The frame loop
  // ---------------------------------------------------------------------------

  /** What a numbered output file holds: extracted frame `i`, or the frame generated between `i` and `i + 1`. */
  datatype Frame = Original(i: nat) | Intermediate(i: nat)

  /** The frames written for pairs `0 .. pairs - 1`, in order. */
  function Written(pairs: nat, rifeOk: nat -> bool): seq<Frame> {
    if pairs == 0 then []
    else
      var i := pairs - 1;
      Written(i, rifeOk) + [Original(i)] + (if i % 2 == 0 && rifeOk(i) then [Intermediate(i)] else [])
  }

  /** All frames written for `n` extracted frames: the pairs, then the last frame. */
  function AllWritten(n: nat, rifeOk: nat -> bool): seq<Frame>
    requires n >= 1
  {
    Written(n - 1, rifeOk) + [Original(n - 1)]
  }

  /** The original frames among `fs`, in order. */
  function Originals(fs: seq<Frame>): seq<nat> {
    if fs == [] then []
    else Originals(fs[..|fs| - 1]) + (if fs[|fs| - 1].Original? then [fs[|fs| - 1].i] else [])
  }

  lemma OriginalsAppend(a: seq<Frame>, b: seq<Frame>)
    ensures Originals(a + b) == Originals(a) + Originals(b)
    decreases |b|
  {
    if b == [] {
      assert a + b == a;
    } else {
      assert (a + b)[..|a + b| - 1] == a + b[..|b| - 1];
      OriginalsAppend(a, b[..|b| - 1]);
    }
  }

  function Range(n: nat): seq<nat> {
    if n == 0 then [] else Range(n - 1) + [n - 1]
  }

  /** Every extracted frame of the pairs is written exactly once, and in order. */
  lemma {:induction false} WrittenOriginals(pairs: nat, rifeOk: nat -> bool)
    ensures Originals(Written(pairs, rifeOk)) == Range(pairs)
  {
    if pairs > 0 {
      var i := pairs - 1;
      WrittenOriginals(i, rifeOk);
      var extra: seq<Frame> := if i % 2 == 0 && rifeOk(i) then [Intermediate(i)] else [];
      OriginalsAppend(Written(i, rifeOk) + [Original(i)], extra);
      OriginalsAppend(Written(i, rifeOk), [Original(i)]);
      assert Originals([Original(i)]) == [i] by {
        assert [Original(i)][..0] == [];
      }
      if extra != [] {
        assert Originals(extra) == [] by {
          assert extra[..0] == [];
        }
      }
    }
  }

  /** One generated frame follows each even pair that succeeds, so at most ceil(pairs / 2) are added. */
  lemma {:induction false} WrittenCount(pairs: nat, rifeOk: nat -> bool)
    ensures (forall i :: 0 <= i < pairs && i % 2 == 0 ==> rifeOk(i)) ==>
      |Written(pairs, rifeOk)| == pairs + (pairs + 1) / 2
    ensures pairs <= |Written(pairs, rifeOk)| <= pairs + (pairs + 1) / 2
  {
    if pairs > 0 {
      WrittenCount(pairs - 1, rifeOk);
    }
  }

  /** Every extracted frame is written exactly once, and in order. */
  lemma AllWrittenOriginals(n: nat, rifeOk: nat -> bool)
    requires n >= 1
    ensures Originals(AllWritten(n, rifeOk)) == Range(n)
  {
    var w := Written(n - 1, rifeOk);
    WrittenOriginals(n - 1, rifeOk);
    OriginalsAppend(w, [Original(n - 1)]);
    assert Originals([Original(n - 1)]) == [n - 1] by {
      assert [Original(n - 1)][..0] == [];
    }
  }

  /** With every generated frame succeeding, `n` frames become `n + floor(n / 2)`. */
  lemma AllWrittenCount(n: nat, rifeOk: nat -> bool)
    requires n >= 2
    ensures (forall i :: 0 <= i < n - 1 && i % 2 == 0 ==> rifeOk(i)) ==>
      |AllWritten(n, rifeOk)| == n + n / 2
  {
    var w := Written(n - 1, rifeOk);
    WrittenCount(n - 1, rifeOk);
    assert |AllWritten(n, rifeOk)| == |w| + 1;
    assert (n - 1 + 1) / 2 == n / 2;
  }


  /**
   * Every generated frame in `w` belongs to an even pair below `bound` whose
   * generation succeeds, and directly follows that pair's first original.
   */
  predicate IntermediatesFollowOriginals(w: seq<Frame>, bound: nat, rifeOk: nat -> bool) {
    forall k :: 0 <= k < |w| && w[k].Intermediate? ==>
      && w[k].i < bound && w[k].i % 2 == 0 && rifeOk(w[k].i)
      && k > 0 && w[k - 1] == Original(w[k].i)
  }

  /** Placement of the generated frames among the pairs: see `IntermediatesFollowOriginals`. */
  lemma {:induction false} WrittenIntermediates(pairs: nat, rifeOk: nat -> bool)
    ensures IntermediatesFollowOriginals(Written(pairs, rifeOk), pairs, rifeOk)
    ensures forall i :: 0 <= i < pairs && i % 2 == 0 && rifeOk(i) ==>
      Intermediate(i) in Written(pairs, rifeOk)
  {
    if pairs > 0 {
      var i := pairs - 1;
      var front := Written(i, rifeOk);
      WrittenIntermediates(i, rifeOk);
      var w := Written(pairs, rifeOk);
      assert w[..|front|] == front;
      assert w[|front|] == Original(i);
      forall k | 0 <= k < |w| && w[k].Intermediate?
        ensures w[k].i < pairs && w[k].i % 2 == 0 && rifeOk(w[k].i) && k > 0 && w[k - 1] == Original(w[k].i)
      {
        if k < |front| {
          assert w[k] == front[k];
          assert front[k].Intermediate?;
          assert k > 0;
          assert w[k - 1] == front[k - 1];
        } else {
          assert k == |front| + 1 && i % 2 == 0 && rifeOk(i) && w[k] == Intermediate(i);
        }
      }
      forall j | 0 <= j < pairs && j % 2 == 0 && rifeOk(j) ensures Intermediate(j) in w {
        if j < i {
          assert Intermediate(j) in front;
        } else {
          assert w[|front| + 1] == Intermediate(j);
        }
      }
    }
  }

  /**
   * In the numbered output, a generated frame follows original `i` exactly for
   * the even pairs `i < n - 1` whose generation succeeds, and nowhere else.
   */
  lemma AllWrittenIntermediates(n: nat, rifeOk: nat -> bool)
    requires n >= 1
    ensures IntermediatesFollowOriginals(AllWritten(n, rifeOk), n - 1, rifeOk)
    ensures forall i :: 0 <= i < n - 1 && i % 2 == 0 && rifeOk(i) ==>
      Intermediate(i) in AllWritten(n, rifeOk)
  {
    var front := Written(n - 1, rifeOk);
    WrittenIntermediates(n - 1, rifeOk);
    var w := AllWritten(n, rifeOk);
    assert w[..|front|] == front;
    forall k | 0 <= k < |w| && w[k].Intermediate?
      ensures w[k].i < n - 1 && w[k].i % 2 == 0 && rifeOk(w[k].i) && k > 0 && w[k - 1] == Original(w[k].i)
    {
      assert k < |front|;
      assert w[k] == front[k];
      assert front[k].Intermediate?;
      assert w[k - 1] == front[k - 1];
    }
  }

  /**
   * The outcome of one call: the path returned and the numbered files written
   * to the interpolation directory (which a successful encode then removes).
   */
  datatype Outcome = Outcome(path: string, files: map<nat, Frame>)

  /** The files hold exactly the frames of `fs`, numbered from 0 without gaps. */
  ghost predicate Numbered(files: map<nat, Frame>, fs: seq<Frame>) {
    (forall k: nat :: k in files <==> k < |fs|) && forall k :: 0 <= k < |fs| ==> files[k] == fs[k]
  }

  /**
   * `interpolate_to_48fps`. `frameCount` is the number of frames extracted, or
   * None when extraction raised; `rifeOk(i)` says whether the frame between
   * `i` and `i + 1` is generated; `encodeOk` whether the final encode succeeds.
   */
  method InterpolateTo48fps(
    videoPath: string, cameraAction: string, duration: real,
    frameCount: Option<nat>, rifeOk: nat -> bool, encodeOk: bool)
    returns (out: Outcome)
    ensures !ShouldInterpolate(cameraAction, duration) ==> out == Outcome(videoPath, map[])
    ensures ShouldInterpolate(cameraAction, duration) && (frameCount.None? || frameCount.value < 2) ==>
      out == Outcome(videoPath, map[])
    ensures ShouldInterpolate(cameraAction, duration) && frameCount.Some? && frameCount.value >= 2 ==>
      && Numbered(out.files, AllWritten(frameCount.value, rifeOk))
      && out.path == if encodeOk then OutputPath(videoPath) else videoPath
  {
    if !ShouldInterpolate(cameraAction, duration) {
      return Outcome(videoPath, map[]);
    }
    var outputPath := OutputPath(videoPath);
    if frameCount.None? {
      return Outcome(videoPath, map[]);
    }
    var n := frameCount.value;
    if n < 2 {
      return Outcome(videoPath, map[]);
    }
    var files: map<nat, Frame> := map[];
    var frameIdx := 0;
    for i := 0 to n - 1
      invariant frameIdx == |Written(i, rifeOk)|
      invariant Numbered(files, Written(i, rifeOk))
    {
      files := files[frameIdx := Original(i)];
      frameIdx := frameIdx + 1;
      if i % 2 == 0 {
        if rifeOk(i) {
          files := files[frameIdx := Intermediate(i)];
          frameIdx := frameIdx + 1;
        }
      }
    }
    files := files[frameIdx := Original(n - 1)];
    if !encodeOk {
      return Outcome(videoPath, files);
    }
    out := Outcome(outputPath, files);
  }
}
