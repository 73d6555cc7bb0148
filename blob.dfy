/**
 * The blob estimator: binarise a frame, take the candidate regions the
 * contour extraction found, order them by area (largest first, stably), and
 * return the centre of the first one whose bounding box fits the size window.
 *
 * Contour extraction (with each region's area and bounding box) is not
 * modelled; the estimator receives it as a function of the binarised frame
 * that either yields the candidates or fails.
 */
module BlobAlgorithm {
  import opened Types
  import opened Frames

  /** Blob settings: threshold base value and the accepted bounding-box side range. */
  datatype BlobConfig = BlobConfig(threshold: int, minsize: int, maxsize: int)

  /** A candidate region: its contour area and its bounding box `(x, y, w, h)`. */
  datatype Candidate = Candidate(area: int, x: int, y: int, w: int, h: int)

  /** One estimation result: a position, a confidence of 0 or 1, and the eye. */
  datatype EyeData = EyeData(x: real, y: real, confidence: int, eyeId: EyeId)

  /**
   * `normalize(cx, cy, shape[0], shape[1])`: maps a pixel centre and the
   * frame's shape to a position. It is given to the estimator, not defined.
   */
  type Normalizer = (int, int, nat, nat) -> (real, real)

  /** The fixed amount added to the configured threshold before binarising. */
  const ThresholdOffset: int := 12

  /** Foreground pixel value of a binarised frame. */
  const Foreground: int := 255

  /** Binary thresholding: a pixel above `t` becomes foreground (255), every other pixel 0. */
  function Binarize(f: Frame, t: int): (b: Frame)
    ensures |b| == |f|
    ensures forall i :: 0 <= i < |f| ==> |b[i]| == |f[i]|
    ensures forall i, j :: 0 <= i < |f| && 0 <= j < |f[i]| ==>
      (b[i][j] == Foreground <==> f[i][j] > t) && (b[i][j] == 0 <==> f[i][j] <= t)
  {
    seq(|f|, i requires 0 <= i < |f| =>
      seq(|f[i]|, j requires 0 <= j < |f[i]| => if f[i][j] > t then Foreground else 0))
  }

  /** `int(n / 2)` in Python: halving with truncation toward zero. */
  function TruncHalf(n: int): (h: int)
    ensures n >= 0 ==> 0 <= n - 2 * h <= 1
    ensures n < 0 ==> -1 <= n - 2 * h <= 0
  {
    if n >= 0 then n / 2 else -((-n) / 2)
  }

  /** Whether both sides of a candidate's bounding box lie in `[minsize, maxsize]`. */
  predicate Accepts(cfg: BlobConfig, c: Candidate)
    ensures Accepts(cfg, c) ==> cfg.minsize <= cfg.maxsize
  {
    cfg.minsize <= c.h <= cfg.maxsize && cfg.minsize <= c.w <= cfg.maxsize
  }

  // ---------------------------------------------------------------------------
  // Ordering by area, largest first, stably

  predicate DescendingByArea(s: seq<Candidate>) {
    forall i, j :: 0 <= i < j < |s| ==> s[i].area >= s[j].area
  }

  /** The candidates of `s` whose area is `a`, in their order in `s`. */
  function WithArea(s: seq<Candidate>, a: int): seq<Candidate>
  {
    if s == [] then []
    else (if s[0].area == a then [s[0]] else []) + WithArea(s[1..], a)
  }

  /** Insert `c` in front of the first element whose area is at most `c`'s. */
  function InsertByArea(c: Candidate, s: seq<Candidate>): (r: seq<Candidate>)
    ensures |r| == |s| + 1
    ensures multiset(r) == multiset(s) + multiset{c}
    ensures r[0] == (if s == [] || s[0].area <= c.area then c else s[0])
  {
    if s == [] || s[0].area <= c.area then [c] + s
    else
      var t := InsertByArea(c, s[1..]);
      assert s == [s[0]] + s[1..];
      [s[0]] + t
  }

  lemma {:induction false} InsertKeepsDescending(c: Candidate, s: seq<Candidate>)
    requires DescendingByArea(s)
    ensures DescendingByArea(InsertByArea(c, s))
  {
    if s != [] && s[0].area > c.area {
      var t := InsertByArea(c, s[1..]);
      InsertKeepsDescending(c, s[1..]);
      assert s[0].area >= t[0].area;
      ConsDescending(s[0], t);
    }
  }

  /** `sorted(candidates, key=area, reverse=True)`: largest area first, equal areas in their original order. */
  function SortByAreaDesc(s: seq<Candidate>): (r: seq<Candidate>)
    ensures |r| == |s|
    ensures multiset(r) == multiset(s)
    ensures DescendingByArea(r)
  {
    if s == [] then []
    else
      assert s == [s[0]] + s[1..];
      var t := SortByAreaDesc(s[1..]);
      InsertKeepsDescending(s[0], t);
      InsertByArea(s[0], t)
  }

  lemma ConsDescending(x: Candidate, t: seq<Candidate>)
    requires DescendingByArea(t) && (t != [] ==> x.area >= t[0].area)
    ensures DescendingByArea([x] + t)
  {
  }

  /** Inserting `c` adds it in front of the candidates of its own area and leaves every other area's order alone. */
  lemma {:induction false} InsertWithArea(c: Candidate, s: seq<Candidate>, a: int)
    ensures WithArea(InsertByArea(c, s), a) == (if c.area == a then [c] else []) + WithArea(s, a)
  {
    var pc := if c.area == a then [c] else [];
    if s == [] || s[0].area <= c.area {
      assert ([c] + s)[1..] == s;
    } else {
      var t := InsertByArea(c, s[1..]);
      var ps := if s[0].area == a then [s[0]] else [];
      InsertWithArea(c, s[1..], a);
      assert ([s[0]] + t)[1..] == t;
      assert WithArea([s[0]] + t, a) == ps + WithArea(t, a);
      assert WithArea(s, a) == ps + WithArea(s[1..], a);
      SwapDisjointPrefixes(ps, pc, WithArea(s[1..], a));
    }
  }

  lemma SwapDisjointPrefixes(p: seq<Candidate>, q: seq<Candidate>, w: seq<Candidate>)
    requires p == [] || q == []
    ensures p + (q + w) == q + (p + w)
  {
  }

  /** The sort is stable: for every area, the candidates of that area keep their original order. */
  lemma {:induction false} SortIsStable(s: seq<Candidate>, a: int)
    ensures WithArea(SortByAreaDesc(s), a) == WithArea(s, a)
  {
    if s != [] {
      SortIsStable(s[1..], a);
      InsertWithArea(s[0], SortByAreaDesc(s[1..]), a);
    }
  }

  lemma WithAreaHead(s: seq<Candidate>)
    requires s != []
    ensures WithArea(s, s[0].area) != [] && WithArea(s, s[0].area)[0] == s[0]
  {
  }

  /** In an area-descending list, an area that occurs is at most the first candidate's. */
  lemma {:induction false} WithAreaBound(s: seq<Candidate>, a: int)
    requires DescendingByArea(s) && WithArea(s, a) != []
    ensures s[0].area >= a
  {
    if s[0].area != a {
      WithAreaBound(s[1..], a);
    }
  }

  lemma HeadsAgree(x: seq<Candidate>, y: seq<Candidate>)
    requires DescendingByArea(x) && DescendingByArea(y) && x != [] && y != []
    requires WithArea(x, x[0].area) == WithArea(y, x[0].area)
    requires WithArea(x, y[0].area) == WithArea(y, y[0].area)
    ensures x[0] == y[0]
  {
    WithAreaHead(x);
    WithAreaHead(y);
    WithAreaBound(y, x[0].area);
    WithAreaBound(x, y[0].area);
  }

  lemma TailsAgree(x: seq<Candidate>, y: seq<Candidate>, e: int)
    requires x != [] && y != [] && x[0] == y[0]
    requires WithArea(x, e) == WithArea(y, e)
    ensures WithArea(x[1..], e) == WithArea(y[1..], e)
  {
    var p := if x[0].area == e then [x[0]] else [];
    assert WithArea(x, e) == p + WithArea(x[1..], e);
    assert WithArea(y, e) == p + WithArea(y[1..], e);
    assert (p + WithArea(x[1..], e))[|p|..] == WithArea(x[1..], e);
    assert (p + WithArea(y[1..], e))[|p|..] == WithArea(y[1..], e);
  }

  /**
   * A descending order that keeps every area's candidates in their original
   * order is unique: any stable sort by descending area yields
   * `SortByAreaDesc`.
   */
  lemma {:induction false} StableDescendingIsUnique(x: seq<Candidate>, y: seq<Candidate>)
    requires DescendingByArea(x) && DescendingByArea(y)
    requires forall a :: WithArea(x, a) == WithArea(y, a)
    ensures x == y
    decreases |x|
  {
    if x == [] && y == [] {
    } else if x == [] {
      WithAreaHead(y);
    } else if y == [] {
      WithAreaHead(x);
    } else {
      HeadsAgree(x, y);
      forall e ensures WithArea(x[1..], e) == WithArea(y[1..], e) {
        TailsAgree(x, y, e);
      }
      StableDescendingIsUnique(x[1..], y[1..]);
      assert x == [x[0]] + x[1..];
      assert y == [y[0]] + y[1..];
    }
  }

  // ---------------------------------------------------------------------------
  // Choosing a candidate

  /** The index of the first candidate whose bounding box fits, if any. */
  function FirstFit(cfg: BlobConfig, s: seq<Candidate>): (k: Option<nat>)
    ensures k.Some? ==> k.value < |s| && Accepts(cfg, s[k.value])
    ensures k.Some? ==> forall j :: 0 <= j < k.value ==> !Accepts(cfg, s[j])
    ensures k.None? ==> forall j :: 0 <= j < |s| ==> !Accepts(cfg, s[j])
  {
    if s == [] then None
    else if Accepts(cfg, s[0]) then Some(0)
    else match FirstFit(cfg, s[1..])
      case None => None
      case Some(k) => Some(k + 1)
  }

  /**
   * Reference choice, independent of any sort: the index of an accepted
   * candidate of largest area, the earliest one among equal areas.
   */
  function BestAccepted(cfg: BlobConfig, s: seq<Candidate>): (k: Option<nat>)
    ensures k.Some? ==> k.value < |s| && Accepts(cfg, s[k.value])
    ensures k.Some? ==> forall j :: 0 <= j < |s| && Accepts(cfg, s[j]) ==> s[j].area <= s[k.value].area
    ensures k.Some? ==> forall j :: 0 <= j < k.value && Accepts(cfg, s[j]) ==> s[j].area < s[k.value].area
    ensures k.None? ==> forall j :: 0 <= j < |s| ==> !Accepts(cfg, s[j])
  {
    if s == [] then None
    else
      var r := BestAccepted(cfg, s[1..]);
      if Accepts(cfg, s[0]) && (r.None? || s[0].area >= s[1..][r.value].area) then Some(0)
      else if r.None? then None
      else Some(r.value + 1)
  }

  /** The candidate at an optional index. */
  function Chosen(s: seq<Candidate>, k: Option<nat>): Option<Candidate>
    requires k.Some? ==> k.value < |s|
  {
    if k.None? then None else Some(s[k.value])
  }

  /** The first fit in `[c] + t` where `c` is at least as large as everything in `t`. */
  lemma FirstFitInFront(cfg: BlobConfig, c: Candidate, t: seq<Candidate>)
    requires DescendingByArea(t) && (t != [] ==> t[0].area <= c.area)
    ensures var r := Chosen(t, FirstFit(cfg, t));
      Chosen([c] + t, FirstFit(cfg, [c] + t))
        == if Accepts(cfg, c) && (r.None? || c.area >= r.value.area) then Some(c) else r
  {
  }

  /** The first fit in `[h] + v` when `h` is rejected. */
  lemma FirstFitBehindRejected(cfg: BlobConfig, h: Candidate, v: seq<Candidate>)
    requires !Accepts(cfg, h)
    ensures Chosen([h] + v, FirstFit(cfg, [h] + v)) == Chosen(v, FirstFit(cfg, v))
  {
  }

  lemma {:induction false} InsertFirstFit(cfg: BlobConfig, c: Candidate, t: seq<Candidate>)
    requires DescendingByArea(t)
    ensures var u := InsertByArea(c, t);
      var r := Chosen(t, FirstFit(cfg, t));
      Chosen(u, FirstFit(cfg, u))
        == if Accepts(cfg, c) && (r.None? || c.area >= r.value.area) then Some(c) else r
  {
    if t == [] || t[0].area <= c.area {
      FirstFitInFront(cfg, c, t);
    } else {
      var v := InsertByArea(c, t[1..]);
      assert InsertByArea(c, t) == [t[0]] + v;
      if Accepts(cfg, t[0]) {
        assert FirstFit(cfg, t) == Some(0);
        assert FirstFit(cfg, [t[0]] + v) == Some(0);
      } else {
        InsertFirstFit(cfg, c, t[1..]);
        FirstFitBehindRejected(cfg, t[0], v);
        assert t == [t[0]] + t[1..];
        FirstFitBehindRejected(cfg, t[0], t[1..]);
      }
    }
  }

  /**
   * Scanning the area-sorted candidates for the first that fits picks exactly
   * the accepted candidate of largest area, earliest among equal areas.
   */
  lemma {:induction false} FirstFitOfSortedIsBest(cfg: BlobConfig, s: seq<Candidate>)
    ensures var sorted := SortByAreaDesc(s);
      Chosen(sorted, FirstFit(cfg, sorted)) == Chosen(s, BestAccepted(cfg, s))
  {
    if s != [] {
      FirstFitOfSortedIsBest(cfg, s[1..]);
      InsertFirstFit(cfg, s[0], SortByAreaDesc(s[1..]));
    }
  }

  // ---------------------------------------------------------------------------
  // The estimator

  /** The frame's height (`shape[0]`): its number of rows. */
  function Height(f: Frame): (h: nat)
    ensures h == |f|
  {
    |f|
  }

  /** The frame's width (`shape[1]`): the length of its rows. */
  function Width(f: Frame): (w: nat)
    ensures f != [] && (forall i :: 0 <= i < |f| ==> |f[i]| == |f[0]|) ==>
      forall i :: 0 <= i < |f| ==> |f[i]| == w
  {
    if f == [] then 0 else |f[0]|
  }

  /** The centre of a candidate's bounding box, `(x + int(w / 2), y + int(h / 2))`. */
  function CentreOf(c: Candidate): (p: (int, int))
    ensures c.w >= 0 ==> c.x <= p.0 <= c.x + c.w && 2 * (p.0 - c.x) <= c.w
    ensures c.h >= 0 ==> c.y <= p.1 <= c.y + c.h && 2 * (p.1 - c.y) <= c.h
  {
    (c.x + TruncHalf(c.w), c.y + TruncHalf(c.h))
  }

  /** The normalised centre of a candidate in a frame. */
  function NormalizedCentre(c: Candidate, frame: Frame, normalize: Normalizer): (real, real) {
    var p := CentreOf(c);
    normalize(p.0, p.1, Height(frame), Width(frame))
  }

  /** What contour extraction finds in the frame binarised at `threshold + 12`. */
  function Extracted(cfg: BlobConfig, frame: Frame, extract: Frame -> Option<seq<Candidate>>)
    : Option<seq<Candidate>>
  {
    extract(Binarize(frame, cfg.threshold + ThresholdOffset))
  }

  /**
   * The `for cnt in contours` scan of `Blob.run`: the box centre of the first
   * candidate whose box fits, or `None` when none fits.
   */
  method FirstFitCentre(cfg: BlobConfig, contours: seq<Candidate>)
    returns (p: Option<(int, int)>)
    ensures var k := FirstFit(cfg, contours);
      p == if k.None? then None else Some(CentreOf(contours[k.value]))
  {
    for i := 0 to |contours|
      invariant forall j :: 0 <= j < i ==> !Accepts(cfg, contours[j])
    {
      var c := contours[i];
      if !(cfg.minsize <= c.h <= cfg.maxsize) || !(cfg.minsize <= c.w <= cfg.maxsize) {
        continue;
      }
      var cx := c.x + TruncHalf(c.w);
      var cy := c.y + TruncHalf(c.h);
      assert FirstFit(cfg, contours) == Some(i);
      return Some((cx, cy));
    }
    return None;
  }

  /**
   * `Blob.run`: binarise at `threshold + 12`, extract candidates with
   * `extract`, fail with `(0, 0)` and confidence 0 when extraction fails or
   * finds nothing, otherwise scan the candidates by descending area and
   * return the normalised centre of the first that fits with confidence 1,
   * or `(0, 0)` with confidence 1 when none fits.
   */
  method Run(cfg: BlobConfig, frame: Frame, extract: Frame -> Option<seq<Candidate>>,
             normalize: Normalizer, eyeId: EyeId)
    returns (d: EyeData)
    ensures d.eyeId == eyeId
    ensures d.confidence == 0 || d.confidence == 1
    ensures var found := Extracted(cfg, frame, extract);
      d.confidence == 0 <==> found == None || found == Some([])
    ensures d.confidence == 0 ==> d.x == 0.0 && d.y == 0.0
    ensures var found := Extracted(cfg, frame, extract);
      found.Some? && found.value != [] ==>
        var sorted := SortByAreaDesc(found.value);
        var k := FirstFit(cfg, sorted);
        (d.x, d.y) == if k.None? then (0.0, 0.0) else NormalizedCentre(sorted[k.value], frame, normalize)
    ensures var found := Extracted(cfg, frame, extract);
      found.Some? && found.value != [] ==>
        var k := BestAccepted(cfg, found.value);
        (d.x, d.y) == if k.None? then (0.0, 0.0) else NormalizedCentre(found.value[k.value], frame, normalize)
  {
    var found := Extracted(cfg, frame, extract);
    if found.None? || |found.value| == 0 {
      return EyeData(0.0, 0.0, 0, eyeId);
    }
    var contours := SortByAreaDesc(found.value);
    var centre := FirstFitCentre(cfg, contours);
    FirstFitOfSortedIsBest(cfg, found.value);
    if centre.None? {
      return EyeData(0.0, 0.0, 1, eyeId);
    }
    var (cx, cy) := centre.value;
    var (tx, ty) := normalize(cx, cy, Height(frame), Width(frame));
    return EyeData(tx, ty, 1, eyeId);
  }
}
