/**
 * Panel detection after contouring: the bounding rectangles of the page's
 * contours are filtered by their share of the page area, replaced by fixed
 * splits of the page when none survives, and put in reading order. Contouring
 * and image I/O are outside the model: the page is its height and width (or
 * None when it cannot be read) and the contour rectangles are a parameter.
 */
module PanelDetector {
  import opened Wrappers
  import opened Strings

  /** `(x, y, w, h)` as returned by `cv2.boundingRect`. */
  datatype Box = Box(x: nat, y: nat, w: nat, h: nat)

  /** The shape of a decoded page image. */
  datatype Page = Page(height: nat, width: nat)

  predicate ValidPage(p: Page) {
    p.height > 0 && p.width > 0
  }

  // ---------------------------------------------------------------------------
  // The size filter
  // ---------------------------------------------------------------------------

  const MIN_SHARE := 0.05
  const MAX_SHARE := 0.95

  /** A rectangle is a panel candidate when it covers more than 5% and less than 95% of the page. */
  predicate Accept(b: Box, pageArea: nat)
    requires pageArea > 0
  {
    MIN_SHARE < (b.w * b.h) as real / pageArea as real < MAX_SHARE
  }

  /** The accepted rectangles, in contour order. */
  function Kept(rects: seq<Box>, pageArea: nat): (r: seq<Box>)
    requires pageArea > 0
    ensures |r| <= |rects|
    ensures forall b :: b in r <==> b in rects && Accept(b, pageArea)
  {
    if rects == [] then []
    else
      var front := Kept(rects[..|rects| - 1], pageArea);
      assert rects == rects[..|rects| - 1] + [rects[|rects| - 1]];
      if Accept(rects[|rects| - 1], pageArea) then front + [rects[|rects| - 1]] else front
  }

  /** The filter works piecewise, so it keeps the accepted rectangles in contour order. */
  lemma {:induction false} KeptAppend(a: seq<Box>, b: seq<Box>, pageArea: nat)
    requires pageArea > 0
    ensures Kept(a + b, pageArea) == Kept(a, pageArea) + Kept(b, pageArea)
    decreases |b|
  {
    if b == [] {
      assert a + b == a;
    } else {
      var init := b[..|b| - 1];
      assert (a + b)[..|a + b| - 1] == a + init;
      assert (a + b)[|a + b| - 1] == b[|b| - 1];
      KeptAppend(a, init, pageArea);
    }
  }

  /** The filter loop of `detect_panels`. */
  method FilterRects(rects: seq<Box>, pageArea: nat) returns (panels: seq<Box>)
    requires pageArea > 0
    ensures panels == Kept(rects, pageArea)
  {
    panels := [];
    for i := 0 to |rects|
      invariant panels == Kept(rects[..i], pageArea)
    {
      assert rects[..i + 1][..i] == rects[..i];
      var b := rects[i];
      if MIN_SHARE < (b.w * b.h) as real / pageArea as real < MAX_SHARE {
        panels := panels + [b];
      }
    }
    assert rects[..|rects|] == rects;
  }

  // ---------------------------------------------------------------------------
  // _apply_fallbacks
  // ---------------------------------------------------------------------------

  /** `_apply_fallbacks`: a wide spread is split into left and right, a tall page into top and bottom. */
  function Fallbacks(p: Page): (r: seq<Box>)
    ensures p.width as real > p.height as real * 1.5 ==>
      r == [Box(0, 0, p.width / 2, p.height), Box(p.width / 2, 0, p.width / 2, p.height)]
    ensures !(p.width as real > p.height as real * 1.5) && p.height as real > p.width as real * 1.5 ==>
      r == [Box(0, 0, p.width, p.height / 2), Box(0, p.height / 2, p.width, p.height / 2)]
    ensures !(p.width as real > p.height as real * 1.5) && !(p.height as real > p.width as real * 1.5) ==>
      r == [Box(0, 0, p.width, p.height)]
  {
    var h, w := p.height, p.width;
    if w as real > h as real * 1.5 then [Box(0, 0, w / 2, h), Box(w / 2, 0, w / 2, h)]
    else if h as real > w as real * 1.5 then [Box(0, 0, w, h / 2), Box(0, h / 2, w, h / 2)]
    else [Box(0, 0, w, h)]
  }

  predicate Inside(b: Box, p: Page) {
    b.x + b.w <= p.width && b.y + b.h <= p.height
  }

  predicate Disjoint(a: Box, b: Box) {
    a.x + a.w <= b.x || b.x + b.w <= a.x || a.y + a.h <= b.y || b.y + b.h <= a.y
  }

  /** Fallback boxes are non-empty, lie inside the page and do not overlap. */
  lemma FallbacksTile(p: Page)
    requires ValidPage(p)
    ensures 1 <= |Fallbacks(p)| <= 2
    ensures forall i :: 0 <= i < |Fallbacks(p)| ==>
      Inside(Fallbacks(p)[i], p) && Fallbacks(p)[i].w > 0 && Fallbacks(p)[i].h > 0
    ensures forall i, j :: 0 <= i < j < |Fallbacks(p)| ==> Disjoint(Fallbacks(p)[i], Fallbacks(p)[j])
  {
  }

  // ---------------------------------------------------------------------------
  // Reading order: a stable sort on (y // 50, x)
  // ---------------------------------------------------------------------------

  const Y_THRESHOLD := 50

  /** `b[1] // y_threshold` and `b[0]`: the row band, then the column. */
  function Band(b: Box): nat { b.y / Y_THRESHOLD }

  /** Python's tuple order on the sort key. */
  predicate KeyLt(a: Box, b: Box) {
    Band(a) < Band(b) || (Band(a) == Band(b) && a.x < b.x)
  }

  predicate SameKey(a: Box, b: Box) {
    Band(a) == Band(b) && a.x == b.x
  }

  /** `a` may come before `b`: its key is not larger. */
  predicate KeyLe(a: Box, b: Box) {
    !KeyLt(b, a)
  }

  /** Neighbours are in key order. */
  predicate Sorted(s: seq<Box>) {
    forall i :: 1 <= i < |s| ==> KeyLe(s[i - 1], s[i])
  }

  /** Inserts `b` after every element whose key is not larger. */
  function Insert(b: Box, s: seq<Box>): seq<Box> {
    if s == [] then [b]
    else if KeyLt(b, s[0]) then [b] + s
    else [s[0]] + Insert(b, s[1..])
  }

  /** Insertion adds exactly `b`, and the new head is `b` or the old head. */
  lemma {:induction false} InsertFacts(b: Box, s: seq<Box>)
    ensures multiset(Insert(b, s)) == multiset(s) + multiset{b}
    ensures |Insert(b, s)| == |s| + 1
    ensures Insert(b, s)[0] == if s == [] || KeyLt(b, s[0]) then b else s[0]
  {
    if s == [] {
      assert Insert(b, s) == [b];
    } else if KeyLt(b, s[0]) {
      assert Insert(b, s) == [b] + s;
    } else {
      var rest := Insert(b, s[1..]);
      InsertFacts(b, s[1..]);
      assert Insert(b, s) == [s[0]] + rest;
      assert multiset(s) == multiset{s[0]} + multiset(s[1..]) by {
        assert s == [s[0]] + s[1..];
      }
    }
  }

  /** Insertion into a sorted list keeps it sorted. */
  lemma {:induction false} InsertSorted(b: Box, s: seq<Box>)
    requires Sorted(s)
    ensures Sorted(Insert(b, s))
  {
    if s != [] && !KeyLt(b, s[0]) {
      var rest := Insert(b, s[1..]);
      assert Sorted(s[1..]) by {
        forall i | 1 <= i < |s[1..]| ensures KeyLe(s[1..][i - 1], s[1..][i]) {
          assert s[1..][i - 1] == s[i] && s[1..][i] == s[i + 1];
        }
      }
      InsertFacts(b, s[1..]);
      InsertSorted(b, s[1..]);
      var r := [s[0]] + rest;
      assert KeyLe(s[0], rest[0]) by {
        if s[1..] != [] && !KeyLt(b, s[1..][0]) {
          assert rest[0] == s[1];
        }
      }
      forall i | 1 <= i < |r| ensures KeyLe(r[i - 1], r[i]) {
        if i > 1 {
          assert r[i - 1] == rest[i - 2] && r[i] == rest[i - 1];
        }
      }
    }
  }

  /**
   * `list.sort(key=...)`, modelled by an insertion sort: the result is a
   * permutation of the input in key order (stability is `SortPanelsStable`).
   */
  function SortPanels(s: seq<Box>): (r: seq<Box>)
    ensures multiset(r) == multiset(s)
    ensures Sorted(r)
  {
    if s == [] then []
    else
      var init, last := s[..|s| - 1], s[|s| - 1];
      var sorted := SortPanels(init);
      InsertFacts(last, sorted);
      InsertSorted(last, sorted);
      assert s == init + [last];
      Insert(last, sorted)
  }

  /** In a sorted list every later box has a key at least as large as every earlier one. */
  lemma {:induction false} SortedPairwise(s: seq<Box>, i: int, j: int)
    requires Sorted(s) && 0 <= i <= j < |s|
    ensures KeyLe(s[i], s[j])
    decreases j - i
  {
    if i < j {
      SortedPairwise(s, i, j - 1);
    }
  }

  /** The panels that share a sort key with `k`, in order. */
  function WithKey(s: seq<Box>, k: Box): seq<Box> {
    if s == [] then []
    else (if SameKey(s[0], k) then [s[0]] else []) + WithKey(s[1..], k)
  }

  lemma {:induction false} WithKeyAppend(a: seq<Box>, b: seq<Box>, k: Box)
    ensures WithKey(a + b, k) == WithKey(a, k) + WithKey(b, k)
  {
    if a == [] {
      assert a + b == b;
    } else {
      assert (a + b)[0] == a[0];
      assert (a + b)[1..] == a[1..] + b;
      WithKeyAppend(a[1..], b, k);
    }
  }

  lemma {:induction false} WithKeyNone(s: seq<Box>, k: Box)
    requires Sorted(s) && (s != [] ==> KeyLt(k, s[0]))
    ensures WithKey(s, k) == []
  {
    if s != [] {
      assert Sorted(s[1..]) by {
        forall i | 1 <= i < |s[1..]| ensures KeyLe(s[1..][i - 1], s[1..][i]) {
          assert s[1..][i - 1] == s[i] && s[1..][i] == s[i + 1];
        }
      }
      if |s| > 1 {
        assert KeyLe(s[0], s[1]);
      }
      WithKeyNone(s[1..], k);
    }
  }

  lemma {:induction false} InsertStable(b: Box, s: seq<Box>, k: Box)
    requires Sorted(s)
    ensures WithKey(Insert(b, s), k) == WithKey(s, k) + (if SameKey(b, k) then [b] else [])
  {
    if s == [] {
      assert [b][1..] == [];
    } else if KeyLt(b, s[0]) {
      if SameKey(b, k) {
        WithKeyNone(s, k);
      }
      assert ([b] + s)[1..] == s;
    } else {
      assert Sorted(s[1..]) by {
        forall i | 1 <= i < |s[1..]| ensures KeyLe(s[1..][i - 1], s[1..][i]) {
          assert s[1..][i - 1] == s[i] && s[1..][i] == s[i + 1];
        }
      }
      InsertStable(b, s[1..], k);
      var rest := Insert(b, s[1..]);
      assert ([s[0]] + rest)[1..] == rest;
    }
  }

  /** Boxes with equal keys keep their contour order: the sort is stable. */
  lemma {:induction false} SortPanelsStable(s: seq<Box>, k: Box)
    ensures WithKey(SortPanels(s), k) == WithKey(s, k)
  {
    if s != [] {
      var init, last := s[..|s| - 1], s[|s| - 1];
      SortPanelsStable(init, k);
      InsertStable(last, SortPanels(init), k);
      WithKeyAppend(init, [last], k);
      assert [last][1..] == [];
      assert s == init + [last];
    }
  }

  /** The sorted list is ordered by key pairwise, not only between neighbours. */
  lemma SortPanelsOrdered(s: seq<Box>)
    ensures forall i, j :: 0 <= i < j < |SortPanels(s)| ==> !KeyLt(SortPanels(s)[j], SortPanels(s)[i])
  {
    forall i, j | 0 <= i < j < |SortPanels(s)| ensures !KeyLt(SortPanels(s)[j], SortPanels(s)[i]) {
      SortedPairwise(SortPanels(s), i, j);
    }
  }

  // ---------------------------------------------------------------------------
  // detect_panels and extract_and_save_panels
  // ---------------------------------------------------------------------------

  /** The boxes before sorting: the accepted rectangles, or the fallbacks when none is accepted. */
  function Candidates(p: Page, rects: seq<Box>): (c: seq<Box>)
    requires ValidPage(p)
    ensures |c| >= 1
    ensures forall b :: b in c ==> (b in rects && Accept(b, p.height * p.width)) || b in Fallbacks(p)
  {
    var kept := Kept(rects, p.height * p.width);
    if kept == [] then Fallbacks(p) else kept
  }

  /** `detect_panels`, from the decoded page (None when unreadable) and its contour rectangles. */
  method DetectPanels(image: Option<Page>, rects: seq<Box>) returns (panels: seq<Box>)
    requires image.Some? ==> ValidPage(image.value)
    ensures image.None? ==> panels == []
    ensures image.Some? ==> panels == SortPanels(Candidates(image.value, rects))
  {
    if image.None? {
      return [];
    }
    var page := image.value;
    var pageArea := page.height * page.width;
    panels := FilterRects(rects, pageArea);
    if panels == [] {
      panels := Fallbacks(page);
    }
    panels := SortPanels(panels);
  }

  /** A readable page always yields a sorted, non-empty list of boxes drawn from the candidates. */
  lemma DetectedPanels(p: Page, rects: seq<Box>)
    requires ValidPage(p)
    ensures |SortPanels(Candidates(p, rects))| >= 1
    ensures multiset(SortPanels(Candidates(p, rects))) == multiset(Candidates(p, rects))
    ensures Sorted(SortPanels(Candidates(p, rects)))
    ensures forall b :: b in SortPanels(Candidates(p, rects)) ==>
      (b in rects && Accept(b, p.height * p.width)) || b in Fallbacks(p)
  {
    var c := Candidates(p, rects);
    var s := SortPanels(c);
    assert |multiset(s)| == |c|;
    forall b | b in s
      ensures (b in rects && Accept(b, p.height * p.width)) || b in Fallbacks(p)
    {
      assert b in multiset(s);
      assert b in c;
    }
  }

  predicate EndsInSeparator(directory: string) {
    directory == [] || directory[|directory| - 1] == '/'
  }

  /** `os.path.join(directory, name)` for a relative or absolute `name`. */
  function JoinPath(directory: string, name: string): string {
    if name != [] && name[0] == '/' then name
    else if EndsInSeparator(directory) then directory + name
    else directory + "/" + name
  }

  /** `f"{output_prefix}_panel_{i}.png"` */
  function PanelFileName(prefix: string, i: nat): string {
    prefix + "_panel_" + NatToString(i) + ".png"
  }

  /**
   * The joined path ends with the file name; an absolute name replaces the
   * directory, and a relative one is placed under it.
   */
  lemma JoinPathShape(directory: string, name: string)
    ensures var r := JoinPath(directory, name);
      && |name| <= |r| && r[|r| - |name|..] == name
      && (name != [] && name[0] == '/' ==> r == name)
      && (!(name != [] && name[0] == '/') ==> |directory| <= |r| && r[..|directory|] == directory)
  {
    var r := JoinPath(directory, name);
    if !(name != [] && name[0] == '/') {
      var d := if EndsInSeparator(directory) then directory else directory + "/";
      assert r == d + name;
    }
  }

  /** A panel file name is the prefix, `_panel_`, the decimal index and `.png`, in that order. */
  lemma PanelFileNameShape(prefix: string, i: nat)
    ensures var r, m := PanelFileName(prefix, i), |prefix|;
      && |r| == m + 11 + |NatToString(i)|
      && r[..m] == prefix && r[m..m + 7] == "_panel_"
      && r[m + 7..|r| - 4] == NatToString(i) && r[|r| - 4..] == ".png"
  {
  }

  /** Different panel indices give different file names under the same prefix and directory. */
  lemma PanelPathsDistinct(directory: string, prefix: string, i: nat, j: nat)
    requires JoinPath(directory, PanelFileName(prefix, i)) == JoinPath(directory, PanelFileName(prefix, j))
    ensures i == j
  {
    var a, b := PanelFileName(prefix, i), PanelFileName(prefix, j);
    assert a[0] == b[0] by {
      if prefix == [] {
        assert a[0] == '_' == b[0];
      } else {
        assert a[0] == prefix[0] == b[0];
      }
    }
    if a[0] != '/' {
      var d := if EndsInSeparator(directory) then directory else directory + "/";
      assert JoinPath(directory, a) == d + a && JoinPath(directory, b) == d + b;
      assert (d + a)[|d|..] == a && (d + b)[|d|..] == b;
    }
    assert a == b;
    var m := |prefix| + 7;
    assert a[m..|a| - 4] == NatToString(i);
    assert b[m..|b| - 4] == NatToString(j);
    NatToStringInjective(i, j);
  }

  /** `os.path.join(directory, f"{prefix}_panel_{i}.png")` */
  function PanelPath(directory: string, prefix: string, i: nat): string {
    JoinPath(directory, PanelFileName(prefix, i))
  }

  lemma PanelPathsAllDistinct(directory: string, prefix: string, i: nat, j: nat)
    requires i != j
    ensures PanelPath(directory, prefix, i) != PanelPath(directory, prefix, j)
  {
    if PanelPath(directory, prefix, i) == PanelPath(directory, prefix, j) {
      PanelPathsDistinct(directory, prefix, i, j);
    }
  }

  /** The paths of panels `0 .. n - 1`, in order. */
  function PanelPaths(directory: string, prefix: string, n: nat): (r: seq<string>)
    ensures |r| == n
  {
    if n == 0 then [] else PanelPaths(directory, prefix, n - 1) + [PanelPath(directory, prefix, n - 1)]
  }

  /** Panel `i`'s path is the `i`-th, and no path occurs twice. */
  lemma {:induction false} PanelPathsNumbered(directory: string, prefix: string, n: nat)
    ensures forall i :: 0 <= i < n ==> PanelPaths(directory, prefix, n)[i] == PanelPath(directory, prefix, i)
    ensures forall i, j :: 0 <= i < j < n ==> PanelPaths(directory, prefix, n)[i] != PanelPaths(directory, prefix, n)[j]
  {
    if n > 0 {
      PanelPathsNumbered(directory, prefix, n - 1);
      var paths := PanelPaths(directory, prefix, n);
      assert forall i :: 0 <= i < n - 1 ==> paths[i] == PanelPaths(directory, prefix, n - 1)[i];
      forall i, j | 0 <= i < j < n ensures paths[i] != paths[j] {
        PanelPathsAllDistinct(directory, prefix, i, j);
      }
    }
  }

  /** The naming loop of `extract_and_save_panels`; writing the crops is outside the model. */
  method ExtractAndSavePanels(
    image: Option<Page>, rects: seq<Box>, outputPrefix: string, tempDir: string)
    returns (paths: seq<string>)
    requires image.Some? ==> ValidPage(image.value)
    ensures image.None? ==> paths == []
    ensures image.Some? ==> paths == PanelPaths(tempDir, outputPrefix, |SortPanels(Candidates(image.value, rects))|)
  {
    var panels := DetectPanels(image, rects);
    paths := [];
    for i := 0 to |panels|
      invariant paths == PanelPaths(tempDir, outputPrefix, i)
    {
      var path := PanelPath(tempDir, outputPrefix, i);
      paths := paths + [path];
    }
  }
}
