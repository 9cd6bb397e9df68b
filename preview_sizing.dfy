/**
 * The best-fit preview-size search, getOptimalPreviewSize, which both
 * activities carry as identical copies.
 *
 * The search makes two scans over the camera's list of supported sizes.
 * The first keeps, among the sizes whose aspect ratio lies within 0.1 of the
 * target ratio, the one whose height is closest to the target height; the
 * second, run only when the first kept nothing, keeps the closest height
 * over the whole list. Both scans replace their choice only on a strictly
 * smaller difference, so ties go to the size that comes first.
 *
 * ScanIndex is the scan as the loop performs it, IsFirstClosest says what a
 * scan should keep, and ScanFindsFirstClosest connects the two;
 * GetOptimalPreviewSize is the loop code, proved equal to OptimalPreviewSize.
 */
module PreviewSizing {
  import opened Wrappers

  /** A preview size as the camera reports it (Camera.Size). */
  datatype Size = Size(width: int, height: int)

  /** The aspect ratio the search aims at, kept as the exact fraction num / den. */
  datatype Ratio = Ratio(num: int, den: int)

  const ASPECT_TOLERANCE: real := 0.1

  function Abs(x: int): nat {
    if x < 0 then -x else x
  }

  function RealAbs(x: real): real {
    if x < 0.0 then -x else x
  }

  /**
   * The target ratio: width / height, turned over to height / width when the
   * display orientation is exactly 90 or 270. The target height is always
   * `height`; it is never swapped with the width.
   */
  function TargetRatio(width: int, height: int, displayOrientation: int): Ratio {
    if displayOrientation == 90 || displayOrientation == 270 then Ratio(height, width)
    else Ratio(width, height)
  }

  /**
   * Whether the size's width / height lies within ASPECT_TOLERANCE of the
   * target. A zero denominator makes the Java double division infinite or
   * NaN, and then the difference is infinite or NaN and never <= 0.1, so a
   * size with zero height, or a target with zero denominator, is never close.
   */
  predicate AspectClose(s: Size, t: Ratio) {
    s.height != 0 && t.den != 0 &&
    RealAbs(s.width as real / s.height as real - t.num as real / t.den as real) <= ASPECT_TOLERANCE
  }

  /** Without the zero cases, the tolerance test is an exact integer comparison. */
  lemma AspectCloseByCrossMultiplying(s: Size, t: Ratio)
    requires s.height != 0 && t.den != 0
    ensures AspectClose(s, t) <==> 10 * Abs(s.width * t.den - t.num * s.height) <= Abs(s.height * t.den)
  {
    var n := s.width * t.den - t.num * s.height;
    var d := s.height * t.den;
    DifferenceOfFractions(s.width, s.height, t.num, t.den);
    QuotientWithinTenth(n as real, d as real);
    assert RealAbs(n as real) == Abs(n) as real;
    assert RealAbs(d as real) == Abs(d) as real;
  }

  lemma DifferenceOfFractions(p: int, q: int, r: int, u: int)
    requires q != 0 && u != 0
    ensures p as real / q as real - r as real / u as real == (p * u - r * q) as real / (q * u) as real
  {
    var x := p as real / q as real;
    var y := r as real / u as real;
    assert x * q as real == p as real;
    assert y * u as real == r as real;
    assert (q * u) as real == q as real * u as real;
    assert (p * u - r * q) as real == p as real * u as real - r as real * q as real;
    assert (x - y) * (q as real * u as real) == p as real * u as real - r as real * q as real;
  }

  lemma QuotientWithinTenth(n: real, d: real)
    requires d != 0.0
    ensures RealAbs(n / d) <= ASPECT_TOLERANCE <==> 10.0 * RealAbs(n) <= RealAbs(d)
  {
    var x := n / d;
    assert x * d == n;
    AbsOfProduct(x, d);
    var a, m := RealAbs(x), RealAbs(d);
    assert m > 0.0;
    assert a * m == RealAbs(n);
    if a <= ASPECT_TOLERANCE {
      assert (ASPECT_TOLERANCE - a) * m >= 0.0;
    } else {
      assert (a - ASPECT_TOLERANCE) * m > 0.0;
    }
  }

  lemma AbsOfProduct(x: real, y: real)
    ensures RealAbs(x) * RealAbs(y) == RealAbs(x * y)
  {
    if x < 0.0 && y < 0.0 {
      assert x * y == (-x) * (-y);
    } else if x < 0.0 {
      assert (-x) * y == -(x * y);
      assert (-x) * y >= 0.0;
    } else if y < 0.0 {
      assert x * (-y) == -(x * y);
      assert x * (-y) >= 0.0;
    } else {
      assert x * y >= 0.0;
    }
  }

  /** How far a size's height is from the target height. */
  function HeightDiff(s: Size, targetHeight: int): nat {
    Abs(s.height - targetHeight)
  }

  /** The sizes a scan considers: the first scan only the aspect-close ones, the fallback scan all. */
  predicate Eligible(s: Size, byAspect: bool, t: Ratio) {
    !byAspect || AspectClose(s, t)
  }

  /**
   * The index a scan over sizes[..n] keeps, or None if it keeps nothing:
   * the loop body applied to each size in turn. A size replaces the kept one
   * only when it is eligible and its height difference is strictly smaller.
   */
  function ScanIndex(sizes: seq<Size>, n: nat, byAspect: bool, t: Ratio, targetHeight: int): (r: Option<nat>)
    requires n <= |sizes|
    ensures r.Some? ==> r.value < n && Eligible(sizes[r.value], byAspect, t)
  {
    if n == 0 then None
    else
      var kept := ScanIndex(sizes, n - 1, byAspect, t, targetHeight);
      var s := sizes[n - 1];
      if Eligible(s, byAspect, t)
         && (kept.None? || HeightDiff(s, targetHeight) < HeightDiff(sizes[kept.value], targetHeight))
      then Some(n - 1)
      else kept
  }

  /**
   * sizes[k] is what a scan over sizes[..n] should keep: it is eligible, no
   * eligible size is closer in height, and every eligible size before it is
   * strictly farther (the first of the closest).
   */
  ghost predicate IsFirstClosest(sizes: seq<Size>, n: nat, k: nat, byAspect: bool, t: Ratio, targetHeight: int)
    requires n <= |sizes|
  {
    && k < n
    && Eligible(sizes[k], byAspect, t)
    && (forall j :: 0 <= j < n && Eligible(sizes[j], byAspect, t) ==>
          HeightDiff(sizes[k], targetHeight) <= HeightDiff(sizes[j], targetHeight))
    && (forall j :: 0 <= j < k && Eligible(sizes[j], byAspect, t) ==>
          HeightDiff(sizes[k], targetHeight) < HeightDiff(sizes[j], targetHeight))
  }

  /** A scan keeps nothing exactly when no size is eligible, and otherwise keeps the first closest. */
  lemma {:induction false} ScanFindsFirstClosest(sizes: seq<Size>, n: nat, byAspect: bool, t: Ratio, targetHeight: int)
    requires n <= |sizes|
    ensures ScanIndex(sizes, n, byAspect, t, targetHeight).None? <==>
              forall j :: 0 <= j < n ==> !Eligible(sizes[j], byAspect, t)
    ensures ScanIndex(sizes, n, byAspect, t, targetHeight).Some? ==>
              IsFirstClosest(sizes, n, ScanIndex(sizes, n, byAspect, t, targetHeight).value, byAspect, t, targetHeight)
  {
    if n > 0 {
      ScanFindsFirstClosest(sizes, n - 1, byAspect, t, targetHeight);
    }
  }

  /** At most one index is the first closest, so IsFirstClosest pins the answer down. */
  lemma FirstClosestUnique(sizes: seq<Size>, n: nat, k1: nat, k2: nat, byAspect: bool, t: Ratio, targetHeight: int)
    requires n <= |sizes|
    requires IsFirstClosest(sizes, n, k1, byAspect, t, targetHeight)
    requires IsFirstClosest(sizes, n, k2, byAspect, t, targetHeight)
    ensures k1 == k2
  {
  }

  /** The index getOptimalPreviewSize's answer has: the first scan's choice, else the fallback's. */
  function OptimalIndex(sizes: seq<Size>, width: int, height: int, displayOrientation: int): (r: Option<nat>)
    ensures r.Some? ==> r.value < |sizes|
    ensures r.None? <==> |sizes| == 0
  {
    var t := TargetRatio(width, height, displayOrientation);
    ScanFindsFirstClosest(sizes, |sizes|, true, t, height);
    ScanFindsFirstClosest(sizes, |sizes|, false, t, height);
    var first := ScanIndex(sizes, |sizes|, true, t, height);
    if first.Some? then first else ScanIndex(sizes, |sizes|, false, t, height)
  }

  /** The size at an index the scans produced, or None. */
  function SizeAt(sizes: seq<Size>, r: Option<nat>): (s: Option<Size>)
    requires r.Some? ==> r.value < |sizes|
    ensures s.Some? <==> r.Some?
  {
    match r
    case None => None
    case Some(k) => Some(sizes[k])
  }

  /**
   * What getOptimalPreviewSize returns: null for a null list or a zero
   * height, otherwise the size at OptimalIndex. It returns null for a list
   * only when that list is empty, and never a size the list lacks.
   */
  function OptimalPreviewSize(sizes: Option<seq<Size>>, width: int, height: int, displayOrientation: int): (r: Option<Size>)
    ensures r.None? <==> sizes.None? || height == 0 || |sizes.value| == 0
    ensures r.Some? ==> sizes.Some? && r.value in sizes.value
  {
    if sizes.None? || height == 0 then None
    else SizeAt(sizes.value, OptimalIndex(sizes.value, width, height, displayOrientation))
  }

  /**
   * When some size is aspect-close, the answer is aspect-close and no
   * aspect-close size is closer to the target height.
   */
  lemma OptimalWithinTolerance(sizes: seq<Size>, width: int, height: int, displayOrientation: int)
    requires height != 0
    requires exists j :: 0 <= j < |sizes| && AspectClose(sizes[j], TargetRatio(width, height, displayOrientation))
    ensures var t := TargetRatio(width, height, displayOrientation);
            var r := OptimalPreviewSize(Some(sizes), width, height, displayOrientation);
            && r.Some?
            && AspectClose(r.value, t)
            && forall j :: 0 <= j < |sizes| && AspectClose(sizes[j], t) ==>
                 HeightDiff(r.value, height) <= HeightDiff(sizes[j], height)
  {
    var t := TargetRatio(width, height, displayOrientation);
    ScanFindsFirstClosest(sizes, |sizes|, true, t, height);
  }

  /**
   * When some size is aspect-close, the answer is the first of the
   * aspect-close sizes closest to the target height.
   */
  lemma OptimalIsFirstAspectClose(sizes: seq<Size>, width: int, height: int, displayOrientation: int, k: nat)
    requires height != 0
    requires IsFirstClosest(sizes, |sizes|, k, true, TargetRatio(width, height, displayOrientation), height)
    ensures OptimalPreviewSize(Some(sizes), width, height, displayOrientation) == Some(sizes[k])
  {
    var t := TargetRatio(width, height, displayOrientation);
    ScanFindsFirstClosest(sizes, |sizes|, true, t, height);
    var r := ScanIndex(sizes, |sizes|, true, t, height);
    FirstClosestUnique(sizes, |sizes|, r.value, k, true, t, height);
  }

  /**
   * When no size is aspect-close, the answer is the first size of the whole
   * list whose height is closest to the target height.
   */
  lemma OptimalFallback(sizes: seq<Size>, width: int, height: int, displayOrientation: int, k: nat)
    requires height != 0
    requires forall j :: 0 <= j < |sizes| ==> !AspectClose(sizes[j], TargetRatio(width, height, displayOrientation))
    requires IsFirstClosest(sizes, |sizes|, k, false, TargetRatio(width, height, displayOrientation), height)
    ensures OptimalPreviewSize(Some(sizes), width, height, displayOrientation) == Some(sizes[k])
  {
    var t := TargetRatio(width, height, displayOrientation);
    ScanFindsFirstClosest(sizes, |sizes|, true, t, height);
    ScanFindsFirstClosest(sizes, |sizes|, false, t, height);
    var r := ScanIndex(sizes, |sizes|, false, t, height);
    FirstClosestUnique(sizes, |sizes|, r.value, k, false, t, height);
  }

  /** The display orientation matters only through the test for 90 and 270. */
  lemma OrientationMattersOnlyAtQuarterTurns(sizes: Option<seq<Size>>, width: int, height: int, o1: int, o2: int)
    requires (o1 == 90 || o1 == 270) <==> (o2 == 90 || o2 == 270)
    ensures OptimalPreviewSize(sizes, width, height, o1) == OptimalPreviewSize(sizes, width, height, o2)
  {
  }

  /** Every ratio in the list is 4:3, none within 0.1 of 1.0, so the fallback picks the height nearest 200. */
  lemma SquareTargetFallsBack()
    ensures OptimalPreviewSize(Some([Size(320, 240), Size(640, 480), Size(800, 600)]), 200, 200, 0)
            == Some(Size(320, 240))
  {
    var sizes := [Size(320, 240), Size(640, 480), Size(800, 600)];
    var t := TargetRatio(200, 200, 0);
    assert forall j :: 0 <= j < |sizes| ==> !AspectClose(sizes[j], t);
    assert IsFirstClosest(sizes, 3, 0, false, t, 200);
    OptimalFallback(sizes, 200, 200, 0, 0);
  }

  /** Whether a height difference beats minDiff, where None stands for Double.MAX_VALUE, above every difference. */
  predicate Below(diff: nat, minDiff: Option<nat>) {
    minDiff.None? || diff < minDiff.value
  }

  /** getOptimalPreviewSize: the two scans, with optimalSize and minDiff updated in place. */
  method GetOptimalPreviewSize(sizes: Option<seq<Size>>, width: int, height: int, displayOrientation: int)
    returns (optimalSize: Option<Size>)
    ensures optimalSize == OptimalPreviewSize(sizes, width, height, displayOrientation)
  {
    if sizes.None? || height == 0 {
      return None;
    }
    var list := sizes.value;
    var targetRatio := Ratio(width, height);
    optimalSize := None;
    var minDiff: Option<nat> := None;
    var targetHeight := height;
    if displayOrientation == 90 || displayOrientation == 270 {
      targetRatio := Ratio(height, width);
    }

    for i := 0 to |list|
      invariant optimalSize == SizeAt(list, ScanIndex(list, i, true, targetRatio, targetHeight))
      invariant optimalSize.Some? <==> minDiff.Some?
      invariant optimalSize.Some? ==> minDiff.value == HeightDiff(optimalSize.value, targetHeight)
    {
      var size := list[i];
      if AspectClose(size, targetRatio) {
        if Below(Abs(size.height - targetHeight), minDiff) {
          optimalSize := Some(size);
          minDiff := Some(Abs(size.height - targetHeight));
        }
      }
    }

    if optimalSize.None? {
      minDiff := None;
      for i := 0 to |list|
        invariant optimalSize == SizeAt(list, ScanIndex(list, i, false, targetRatio, targetHeight))
        invariant optimalSize.Some? <==> minDiff.Some?
        invariant optimalSize.Some? ==> minDiff.value == HeightDiff(optimalSize.value, targetHeight)
      {
        var size := list[i];
        if Below(Abs(size.height - targetHeight), minDiff) {
          optimalSize := Some(size);
          minDiff := Some(Abs(size.height - targetHeight));
        }
      }
    }
  }
}
