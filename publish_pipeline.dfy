/**
 The logic of `GripPipelinePublish` (new/main.py) that is the repository's own:
 how the blur step derives its filter parameters from the radius, and how the
 contour filter decides which contours to keep.

 OpenCV computes every geometric quantity the filter looks at; here a contour
 is the record of those quantities. Python's numbers (ints and floats, compared
 with each other exactly) are modelled as mathematical reals.
 */
module PublishPipeline {
  import opened Blur

  // ---------------------------------------------------------------------------
  // Blur step
  // ---------------------------------------------------------------------------

  /**
   The filter call `__blur` makes for a blur kind, given the radius already
   rounded by Python's `round`. Box and median kernels reach `r` pixels to each
   side of the centre; the Gaussian kernel reaches three sigmas to each side,
   with sigma `r`; the bilateral filter uses `r` for both sigmas and lets
   OpenCV choose the diameter.
   */
  function BlurCallFor(kind: BlurType, r: int): (call: BlurCall)
    ensures call.Kind() == kind
    ensures call.HasKernel() ==> call.ksize % 2 == 1
    ensures call.HasKernel() ==> (IsOddPositive(call.ksize) <==> r >= 0)
    ensures call.Box? || call.Median? ==> call.ksize == 2 * r + 1
    ensures call.Gaussian? ==> call.sigma == r && call.ksize == 2 * (3 * call.sigma) + 1
    ensures call.Bilateral? ==> call.diameter < 0 && call.sigmaColor == r && call.sigmaSpace == r
  {
    match kind
    case BoxBlur => OddKernel(r); Box(2 * r + 1)
    case GaussianBlur => OddKernel(3 * r); Gaussian(6 * r + 1, r)
    case MedianFilter => OddKernel(r); Median(2 * r + 1)
    case BilateralFilter => Bilateral(-1, r, r)
  }

  /** A kernel reaching `k` pixels to each side of its centre is odd, and positive exactly when `k` is not negative. */
  lemma OddKernel(k: int)
    ensures IsOddPositive(2 * k + 1) <==> k >= 0
    ensures (2 * k + 1) % 2 == 1
  {
  }

  /** The blur kind and radius this pipeline is configured with. */
  const ConfiguredBlurType: BlurType := GaussianBlur
  const ConfiguredBlurRadius: real := 4.2042079272570945

  /** The configured blur is a Gaussian with a 25-pixel kernel and sigma 4. */
  lemma ConfiguredBlurCall()
    ensures BlurCallFor(ConfiguredBlurType, RoundHalfEven(ConfiguredBlurRadius)) == Gaussian(25, 4)
  {
    RoundHalfEvenUnique(ConfiguredBlurRadius, 4);
  }

  // ---------------------------------------------------------------------------
  // Contour filter: data
  // ---------------------------------------------------------------------------

  /**
   What the filter knows of one contour: the width and height of
   `cv2.boundingRect`, the `cv2.contourArea` of the contour, its closed
   `cv2.arcLength`, the `cv2.contourArea` of its `cv2.convexHull`, and its
   number of points.
   */
  datatype Contour = Contour(w: int, h: int, area: real, perimeter: real, hullArea: real, vertexCount: nat)

  /**
   The arguments of `__filter_contours` besides the contours. The source
   passes solidity as a two-element list `[min, max]`; here it is two fields.
   */
  datatype Bounds = Bounds(
    minArea: real,
    minPerimeter: real,
    minWidth: real, maxWidth: real,
    minHeight: real, maxHeight: real,
    minSolidity: real, maxSolidity: real,
    maxVertexCount: real, minVertexCount: real,
    minRatio: real, maxRatio: real)

  /** What a call of `__filter_contours` ends with: the kept contours, or the `ZeroDivisionError` it raised. */
  datatype FilterOutcome = Filtered(kept: seq<Contour>) | ZeroDivisionError

  /** The bounds `GripPipelinePublish` is constructed with. */
  const ConfiguredBounds: Bounds := Bounds(
    minArea := 5000.0,
    minPerimeter := 0.0,
    minWidth := 0.0, maxWidth := 1000.0,
    minHeight := 0.0, maxHeight := 1000.0,
    minSolidity := 0.0, maxSolidity := 100.0,
    maxVertexCount := 1000000.0, minVertexCount := 0.0,
    minRatio := 0.0, maxRatio := 1000.0)

  // ---------------------------------------------------------------------------
  // Contour filter: the individual checks
  // ---------------------------------------------------------------------------

  predicate InRange(v: real, lo: real, hi: real) {
    lo <= v <= hi
  }

  /** The four checks made before anything is divided: size, then area, then perimeter. */
  predicate SizeAndAreaPass(c: Contour, b: Bounds) {
    InRange(c.w as real, b.minWidth, b.maxWidth) &&
    InRange(c.h as real, b.minHeight, b.maxHeight) &&
    c.area >= b.minArea &&
    c.perimeter >= b.minPerimeter
  }

  /** Solidity: contour area as a percentage of the convex hull's area. */
  function Solidity(c: Contour): (solidity: real)
    requires c.hullArea != 0.0
  {
    100.0 * c.area / c.hullArea
  }

  /** Width over height of the bounding box. */
  function Ratio(c: Contour): (ratio: real)
    requires c.h != 0
  {
    c.w as real / c.h as real
  }

  /** The solidity and vertex-count checks, which can only be made when the hull area is not zero. */
  predicate ShapePass(c: Contour, b: Bounds)
    requires c.hullArea != 0.0
  {
    InRange(Solidity(c), b.minSolidity, b.maxSolidity) &&
    InRange(c.vertexCount as real, b.minVertexCount, b.maxVertexCount)
  }

  /**
   A contour survives the filter: every bound holds, inclusive at both ends,
   and both divisions are defined.
   */
  predicate Passes(c: Contour, b: Bounds) {
    SizeAndAreaPass(c, b) &&
    c.hullArea != 0.0 && ShapePass(c, b) &&
    c.h != 0 && InRange(Ratio(c), b.minRatio, b.maxRatio)
  }

  /**
   The filter reaches a division by zero on this contour: the hull area is zero
   once the size, area and perimeter checks pass, or the height is zero once
   the solidity and vertex checks pass as well.
   */
  predicate Crashes(c: Contour, b: Bounds) {
    SizeAndAreaPass(c, b) &&
    (c.hullArea == 0.0 || (ShapePass(c, b) && c.h == 0))
  }

  /**
   On a contour that does not raise, each division the filter reaches has a
   non-zero divisor, so whenever the call returns, `Passes` is exactly the
   seven checks. This is the contrapositive of `Crashes`, stated on its own
   to record what a call that returns guarantees; Dafny needs no proof steps.
   */
  lemma DivisorsNonZeroWhenNoCrash(c: Contour, b: Bounds)
    requires !Crashes(c, b)
    ensures SizeAndAreaPass(c, b) ==> c.hullArea != 0.0
    ensures SizeAndAreaPass(c, b) && c.hullArea != 0.0 && ShapePass(c, b) ==> c.h != 0
  {
  }

  // ---------------------------------------------------------------------------
  // Contour filter: specification
  // ---------------------------------------------------------------------------

  /** The passing contours of `s`, in the order of `s`. */
  function Kept(s: seq<Contour>, b: Bounds): (kept: seq<Contour>)
  {
    if |s| == 0 then []
    else Kept(s[..|s| - 1], b) + (if Passes(s[|s| - 1], b) then [s[|s| - 1]] else [])
  }

  /** Whether the filter divides by zero on some contour of `s`. */
  predicate AnyCrashes(s: seq<Contour>, b: Bounds) {
    exists i :: 0 <= i < |s| && Crashes(s[i], b)
  }

  /** `a` is `b` with some elements removed and the rest in their order. */
  ghost predicate IsSubsequence<T>(a: seq<T>, b: seq<T>)
    decreases |b|
  {
    if |a| == 0 then true
    else if |b| == 0 then false
    else (a[|a| - 1] == b[|b| - 1] && IsSubsequence(a[..|a| - 1], b[..|b| - 1]))
         || IsSubsequence(a, b[..|b| - 1])
  }

  // ---------------------------------------------------------------------------
  // Contour filter: the loop
  // ---------------------------------------------------------------------------

  /**
   `__filter_contours`: walks the contours in order, skipping each at the first
   check it fails and appending it to the output when it passes them all. A
   division by zero raises `ZeroDivisionError` and ends the call.
   */
  method FilterContours(contours: seq<Contour>, b: Bounds) returns (outcome: FilterOutcome)
    ensures outcome.ZeroDivisionError? <==> AnyCrashes(contours, b)
    ensures outcome.Filtered? ==> outcome.kept == Kept(contours, b)
  {
    var output: seq<Contour> := [];
    for i := 0 to |contours|
      invariant output == Kept(contours[..i], b)
      invariant forall j :: 0 <= j < i ==> !Crashes(contours[j], b)
    {
      var c := contours[i];
      assert contours[..i + 1][..i] == contours[..i];
      if c.w as real < b.minWidth || c.w as real > b.maxWidth {
        continue;
      }
      if c.h as real < b.minHeight || c.h as real > b.maxHeight {
        continue;
      }
      var area := c.area;
      if area < b.minArea {
        continue;
      }
      if c.perimeter < b.minPerimeter {
        continue;
      }
      if c.hullArea == 0.0 {
        assert Crashes(contours[i], b);
        return ZeroDivisionError;
      }
      var solid := 100.0 * area / c.hullArea;
      if solid < b.minSolidity || solid > b.maxSolidity {
        continue;
      }
      if (c.vertexCount as real) < b.minVertexCount || (c.vertexCount as real) > b.maxVertexCount {
        continue;
      }
      if c.h == 0 {
        assert Crashes(contours[i], b);
        return ZeroDivisionError;
      }
      var ratio := c.w as real / c.h as real;
      if ratio < b.minRatio || ratio > b.maxRatio {
        continue;
      }
      output := output + [c];
    }
    assert contours[..|contours|] == contours;
    return Filtered(output);
  }

  // ---------------------------------------------------------------------------
  // Contour filter: properties
  // ---------------------------------------------------------------------------

  /** A contour is kept exactly when it is one of the inputs and passes every check. */
  lemma {:induction false} KeptMembers(s: seq<Contour>, b: Bounds, c: Contour)
    ensures c in Kept(s, b) <==> c in s && Passes(c, b)
  {
    if |s| > 0 {
      KeptMembers(s[..|s| - 1], b, c);
      assert s == s[..|s| - 1] + [s[|s| - 1]];
    }
  }

  /** The output keeps the input's order: it is a subsequence of the input. */
  lemma {:induction false} KeptIsSubsequence(s: seq<Contour>, b: Bounds)
    ensures IsSubsequence(Kept(s, b), s)
  {
    if |s| > 0 {
      var init := s[..|s| - 1];
      KeptIsSubsequence(init, b);
      if Passes(s[|s| - 1], b) {
        var k := Kept(s, b);
        assert k[..|k| - 1] == Kept(init, b);
      } else {
        assert Kept(s, b) == Kept(init, b);
        assert s[..|s| - 1] == init;
      }
    }
  }

  /** Filtering never adds contours. */
  lemma {:induction false} KeptLength(s: seq<Contour>, b: Bounds)
    ensures |Kept(s, b)| <= |s|
  {
    if |s| > 0 {
      KeptLength(s[..|s| - 1], b);
    }
  }

  /** Filtering distributes over concatenation of the input. */
  lemma {:induction false} KeptAppend(s: seq<Contour>, t: seq<Contour>, b: Bounds)
    ensures Kept(s + t, b) == Kept(s, b) + Kept(t, b)
    decreases |t|
  {
    if |t| == 0 {
      assert s + t == s;
    } else {
      var t' := t[..|t| - 1];
      assert (s + t)[..|s + t| - 1] == s + t';
      KeptAppend(s, t', b);
    }
  }

  /** Each bound of `t` is at least as strict as the matching bound of `b`. */
  predicate Tighter(t: Bounds, b: Bounds) {
    t.minArea >= b.minArea &&
    t.minPerimeter >= b.minPerimeter &&
    t.minWidth >= b.minWidth && t.maxWidth <= b.maxWidth &&
    t.minHeight >= b.minHeight && t.maxHeight <= b.maxHeight &&
    t.minSolidity >= b.minSolidity && t.maxSolidity <= b.maxSolidity &&
    t.minVertexCount >= b.minVertexCount && t.maxVertexCount <= b.maxVertexCount &&
    t.minRatio >= b.minRatio && t.maxRatio <= b.maxRatio
  }

  /** A contour that passes tighter bounds passes looser ones. */
  lemma PassesMonotone(c: Contour, t: Bounds, b: Bounds)
    requires Tighter(t, b)
    ensures Passes(c, t) ==> Passes(c, b)
  {
  }

  /**
   Filtering the output of the loose bounds with the tight bounds gives the
   output of the tight bounds.
   */
  lemma {:induction false} KeptAbsorbs(s: seq<Contour>, t: Bounds, b: Bounds)
    requires Tighter(t, b)
    ensures Kept(Kept(s, b), t) == Kept(s, t)
  {
    if |s| > 0 {
      var init, last := s[..|s| - 1], s[|s| - 1];
      KeptAbsorbs(init, t, b);
      PassesMonotone(last, t, b);
      KeptAppend(Kept(init, b), if Passes(last, b) then [last] else [], t);
      if Passes(last, b) {
        assert [last][..0] == [];
      }
    }
  }

  /** Filtering the output again with the same bounds gives the same output. */
  lemma Idempotent(s: seq<Contour>, b: Bounds)
    ensures Kept(Kept(s, b), b) == Kept(s, b)
  {
    KeptAbsorbs(s, b, b);
  }

  /** Filtering the output again with the same bounds cannot divide by zero. */
  lemma RefilterNeverCrashes(s: seq<Contour>, b: Bounds)
    ensures !AnyCrashes(Kept(s, b), b)
  {
    forall i | 0 <= i < |Kept(s, b)|
      ensures !Crashes(Kept(s, b)[i], b)
    {
      KeptMembers(s, b, Kept(s, b)[i]);
    }
  }

  /**
   Tightening any bound (raising a minimum or lowering a maximum) keeps a
   subsequence of what the looser bounds keep.
   */
  lemma Monotone(s: seq<Contour>, t: Bounds, b: Bounds)
    requires Tighter(t, b)
    ensures IsSubsequence(Kept(s, t), Kept(s, b))
  {
    KeptAbsorbs(s, t, b);
    KeptIsSubsequence(Kept(s, b), t);
  }

  /**
   Tightening any bound never introduces a division by zero: every check that
   must pass before a division passes under the looser bounds too.
   */
  lemma CrashesMonotone(s: seq<Contour>, t: Bounds, b: Bounds)
    requires Tighter(t, b)
    ensures AnyCrashes(s, t) ==> AnyCrashes(s, b)
  {
    if AnyCrashes(s, t) {
      var i :| 0 <= i < |s| && Crashes(s[i], t);
      assert Crashes(s[i], b);
    }
  }

  /**
   A contour whose attributes are geometrically consistent: the contour lies
   inside its convex hull and its bounding box, so its area is at most theirs.
   */
  predicate Consistent(c: Contour) {
    0.0 <= c.area <= c.hullArea && c.area <= (c.w * c.h) as real
  }

  /**
   With the configured bounds, whose minimum area is 5000, a consistent
   contour never reaches a division by zero: its hull area and its height
   are both non-zero once the area check passes.
   */
  lemma ConfiguredNeverCrashes(s: seq<Contour>)
    requires forall i :: 0 <= i < |s| ==> Consistent(s[i])
    ensures !AnyCrashes(s, ConfiguredBounds)
  {
    forall i | 0 <= i < |s|
      ensures !Crashes(s[i], ConfiguredBounds)
    {
      var c := s[i];
    }
  }
}
