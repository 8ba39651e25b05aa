/**
 * The per-frame face pipeline of src/proto/emoweb.py: detector fallback, validation,
 * the five-sample smoothing window, the movement gate and the pixel-to-degree offset.
 * Cascade detectors are abstract: each contributes the list of boxes it found.
 */
module FaceTracking {
  import opened Wrappers

  /** A detector bounding box `(x, y, w, h)` in pixels. */
  datatype Box = Box(x: int, y: int, w: int, h: int)

  /** A smoothing sample: box centre and size. */
  datatype Sample = Sample(cx: int, cy: int, w: int, h: int)

  const FaceHistorySize: nat := 5
  const MinFaceWidth: int := 30
  const MinFaceHeight: int := 30
  /** The maximum face size is the camera size minus this margin. */
  const FaceMargin: int := 20
  const MovementThreshold: real := 15.0
  const FovH: real := 62.2
  const FovV: real := 48.8

  /** Python's `int(a / n)`: the quotient truncated toward zero. */
  function TruncDiv(a: int, n: int): (q: int)
    requires n > 0
    ensures a >= 0 ==> 0 <= q && q * n <= a < (q + 1) * n
    ensures a < 0 ==> q <= 0 && (q - 1) * n < a <= q * n
  {
    if a >= 0 then a / n else -((-a) / n)
  }

  /**
   * `face_detect`: the first box of the first detector that found any, in the fixed order
   * primary frontal, profile, secondary frontal; no face when all three come back empty.
   */
  function FaceDetect(frontal: seq<Box>, profile: seq<Box>, frontalAlt: seq<Box>): (r: Option<Box>)
    ensures r.None? <==> frontal == [] && profile == [] && frontalAlt == []
    ensures frontal != [] ==> r == Some(frontal[0])
    ensures frontal == [] && profile != [] ==> r == Some(profile[0])
    ensures frontal == [] && profile == [] && frontalAlt != [] ==> r == Some(frontalAlt[0])
  {
    if |frontal| > 0 then Some(frontal[0])
    else if |profile| > 0 then Some(profile[0])
    else if |frontalAlt| > 0 then Some(frontalAlt[0])
    else None
  }

  /** First match wins: once an earlier detector finds a face, later detectors cannot change the result. */
  lemma FaceDetectFirstWins(frontal: seq<Box>, p1: seq<Box>, p2: seq<Box>, a1: seq<Box>, a2: seq<Box>)
    requires frontal != []
    ensures FaceDetect(frontal, p1, a1) == FaceDetect(frontal, p2, a2)
  {
  }

  /**
   * `validate_face`: reject an empty detection, a box smaller than 30x30, larger than the
   * camera size minus 20, or not lying wholly inside the image.
   */
  predicate ValidateFace(face: Option<Box>, camWidth: int, camHeight: int, imageWidth: int, imageHeight: int)
    ensures ValidateFace(face, camWidth, camHeight, imageWidth, imageHeight) ==>
      face.Some? && SampleInFrame(CenterOf(face.value), imageWidth, imageHeight)
  {
    match face
    case None => false
    case Some(b) =>
      if b.w < MinFaceWidth || b.h < MinFaceHeight then false
      else if b.w > camWidth - FaceMargin || b.h > camHeight - FaceMargin then false
      else if b.x < 0 || b.y < 0 || b.x + b.w > imageWidth || b.y + b.h > imageHeight then false
      else true
  }

  /** `int(fx + fw/2)`, `int(fy + fh/2)` and the size: the sample a detection contributes. */
  function CenterOf(b: Box): Sample {
    Sample(TruncDiv(2 * b.x + b.w, 2), TruncDiv(2 * b.y + b.h, 2), b.w, b.h)
  }

  /** What every sample of a validated face satisfies. */
  predicate SampleInFrame(s: Sample, width: int, height: int) {
    MinFaceWidth <= s.w && MinFaceHeight <= s.h
    && 0 <= s.cx < width && 0 <= s.cy < height
  }

  /** A validated face's centre lies inside the frame, at least half the minimum size from each edge. */
  lemma ValidFaceCentreInside(b: Box, camWidth: int, camHeight: int, imageWidth: int, imageHeight: int)
    requires ValidateFace(Some(b), camWidth, camHeight, imageWidth, imageHeight)
    ensures SampleInFrame(CenterOf(b), imageWidth, imageHeight)
    ensures MinFaceWidth / 2 <= CenterOf(b).cx <= imageWidth - MinFaceWidth / 2
    ensures MinFaceHeight / 2 <= CenterOf(b).cy <= imageHeight - MinFaceHeight / 2
  {
  }

  /**
   * The history update of `smooth_face_detection`: append the new sample (only when there
   * is a detection), then drop the oldest one if the window is over capacity.
   */
  function PushSample(history: seq<Sample>, face: Option<Box>): (r: seq<Sample>)
    ensures |history| <= FaceHistorySize ==> |r| <= FaceHistorySize
    ensures face.None? && |history| <= FaceHistorySize ==> r == history
    ensures face.Some? ==> |r| > 0 && r[|r| - 1] == CenterOf(face.value)
    ensures face.Some? && |history| < FaceHistorySize ==> r == history + [CenterOf(face.value)]
    ensures face.Some? && |history| == FaceHistorySize ==> r == history[1..] + [CenterOf(face.value)]
  {
    var appended := if face.Some? then history + [CenterOf(face.value)] else history;
    if |appended| > FaceHistorySize then appended[1..] else appended
  }

  function SumCx(h: seq<Sample>): int { if h == [] then 0 else h[0].cx + SumCx(h[1..]) }
  function SumCy(h: seq<Sample>): int { if h == [] then 0 else h[0].cy + SumCy(h[1..]) }
  function SumW(h: seq<Sample>): int { if h == [] then 0 else h[0].w + SumW(h[1..]) }
  function SumH(h: seq<Sample>): int { if h == [] then 0 else h[0].h + SumH(h[1..]) }

  /** The component-wise mean of the window, each component truncated toward zero. */
  function Average(h: seq<Sample>): Sample
    requires |h| > 0
  {
    Sample(TruncDiv(SumCx(h), |h|), TruncDiv(SumCy(h), |h|), TruncDiv(SumW(h), |h|), TruncDiv(SumH(h), |h|))
  }

  /** The value `smooth_face_detection` returns: the average once the window is full, else nothing. */
  function Smoothed(h: seq<Sample>): (r: Option<Sample>)
    ensures r.Some? <==> |h| >= FaceHistorySize
  {
    if |h| >= FaceHistorySize then Some(Average(h)) else None
  }

  /** Bounds on the samples bound their sums. */
  lemma {:induction false} SumBounds(h: seq<Sample>, lo: int, hi: int, loW: int, loH: int)
    requires forall i :: 0 <= i < |h| ==> lo <= h[i].cx <= hi
    ensures |h| * lo <= SumCx(h) <= |h| * hi
  {
    if h != [] {
      SumBounds(h[1..], lo, hi, loW, loH);
    }
  }

  lemma {:induction false} SumBoundsCy(h: seq<Sample>, lo: int, hi: int)
    requires forall i :: 0 <= i < |h| ==> lo <= h[i].cy <= hi
    ensures |h| * lo <= SumCy(h) <= |h| * hi
  {
    if h != [] {
      SumBoundsCy(h[1..], lo, hi);
    }
  }

  lemma {:induction false} SumBoundsW(h: seq<Sample>, lo: int)
    requires forall i :: 0 <= i < |h| ==> lo <= h[i].w
    ensures |h| * lo <= SumW(h)
  {
    if h != [] {
      SumBoundsW(h[1..], lo);
    }
  }

  lemma {:induction false} SumBoundsH(h: seq<Sample>, lo: int)
    requires forall i :: 0 <= i < |h| ==> lo <= h[i].h
    ensures |h| * lo <= SumH(h)
  {
    if h != [] {
      SumBoundsH(h[1..], lo);
    }
  }

  /** A truncated mean of integers within `[lo, hi]` is itself within `[lo, hi]`. */
  lemma TruncMeanBounds(sum: int, n: int, lo: int, hi: int)
    requires n > 0 && n * lo <= sum <= n * hi
    ensures lo <= TruncDiv(sum, n) <= hi
  {
    TruncMeanAtLeast(sum, n, lo);
    var q := TruncDiv(sum, n);
    if sum >= 0 {
      CancelLt(q, hi + 1, n);
    } else {
      CancelLt(q - 1, hi, n);
    }
  }

  /** A truncated mean of integers at least `lo` is at least `lo`. */
  lemma TruncMeanAtLeast(sum: int, n: int, lo: int)
    requires n > 0 && n * lo <= sum
    ensures lo <= TruncDiv(sum, n)
  {
    var q := TruncDiv(sum, n);
    if sum >= 0 {
      CancelLt(lo, q + 1, n);
    } else {
      CancelLt(lo - 1, q, n);
    }
  }

  lemma CancelLt(a: int, b: int, n: int)
    requires n > 0 && a * n < b * n
    ensures a < b
  {
    if a >= b {
      MulNonneg(a - b, n);
    }
  }

  lemma MulNonneg(a: int, b: int)
    requires a >= 0 && b >= 0
    ensures a * b >= 0
  {
  }

  lemma MulNonnegReal(a: real, b: real)
    requires a >= 0.0 && b >= 0.0
    ensures a * b >= 0.0
  {
  }

  /**
   * The smoothed face of a full window of in-frame samples is again in frame and at least
   * the minimum size: averaging cannot move the face outside the image.
   */
  lemma {:induction false} AverageInFrame(h: seq<Sample>, width: int, height: int)
    requires |h| > 0
    requires forall i :: 0 <= i < |h| ==> SampleInFrame(h[i], width, height)
    ensures SampleInFrame(Average(h), width, height)
  {
    var n := |h|;
    SumBounds(h, 0, width - 1, 0, 0);
    TruncMeanBounds(SumCx(h), n, 0, width - 1);
    SumBoundsCy(h, 0, height - 1);
    TruncMeanBounds(SumCy(h), n, 0, height - 1);
    SumBoundsW(h, MinFaceWidth);
    TruncMeanAtLeast(SumW(h), n, MinFaceWidth);
    SumBoundsH(h, MinFaceHeight);
    TruncMeanAtLeast(SumH(h), n, MinFaceHeight);
  }

  /** The component sums of a window whose samples are all `s` are `|h|` times its components. */
  lemma {:induction false} SteadySums(h: seq<Sample>, s: Sample)
    requires forall i :: 0 <= i < |h| ==> h[i] == s
    ensures SumCx(h) == |h| * s.cx && SumCy(h) == |h| * s.cy
    ensures SumW(h) == |h| * s.w && SumH(h) == |h| * s.h
  {
    if h != [] {
      SteadySums(h[1..], s);
    }
  }

  /** A face that holds still smooths to itself: a full window of one sample averages to that sample. */
  lemma SmoothedSteadyFace(h: seq<Sample>, s: Sample)
    requires |h| == FaceHistorySize
    requires forall i :: 0 <= i < |h| ==> h[i] == s
    ensures Smoothed(h) == Some(s)
  {
    var n := |h|;
    SteadySums(h, s);
    TruncMeanBounds(n * s.cx, n, s.cx, s.cx);
    TruncMeanBounds(n * s.cy, n, s.cy, s.cy);
    TruncMeanBounds(n * s.w, n, s.w, s.w);
    TruncMeanBounds(n * s.h, n, s.h, s.h);
  }

  /**
   * `should_move_servo`: the pixel distance from the last applied centre exceeds 15
   * (compared squared, which is the same test for a non-negative distance).
   */
  predicate ShouldMoveServo(cx: real, cy: real, lastCx: real, lastCy: real)
    ensures ShouldMoveServo(cx, cy, lastCx, lastCy) ==> cx != lastCx || cy != lastCy
  {
    (cx - lastCx) * (cx - lastCx) + (cy - lastCy) * (cy - lastCy) > MovementThreshold * MovementThreshold
  }

  function Abs(x: real): (r: real)
    ensures r >= 0.0 && (r == x || r == -x)
  {
    if x < 0.0 then -x else x
  }

  /**
   * The movement gate in plain terms: a displacement above 15 along either axis always
   * moves; a move needs the two axis displacements to add up to more than 15; no move at
   * all without displacement.
   */
  lemma ShouldMoveServoBounds(cx: real, cy: real, lastCx: real, lastCy: real)
    ensures Abs(cx - lastCx) > MovementThreshold ==> ShouldMoveServo(cx, cy, lastCx, lastCy)
    ensures Abs(cy - lastCy) > MovementThreshold ==> ShouldMoveServo(cx, cy, lastCx, lastCy)
    ensures ShouldMoveServo(cx, cy, lastCx, lastCy) ==> Abs(cx - lastCx) + Abs(cy - lastCy) > MovementThreshold
    ensures !ShouldMoveServo(cx, cy, cx, cy)
  {
    var dx, dy := Abs(cx - lastCx), Abs(cy - lastCy);
    assert (cx - lastCx) * (cx - lastCx) == dx * dx;
    assert (cy - lastCy) * (cy - lastCy) == dy * dy;
    if dx > MovementThreshold {
      assert dx * dx > MovementThreshold * dx >= MovementThreshold * MovementThreshold;
    }
    if dy > MovementThreshold {
      assert dy * dy > MovementThreshold * dy >= MovementThreshold * MovementThreshold;
    }
    if dx + dy <= MovementThreshold {
      MulNonnegReal(dx, dy);
      var t := dx + dy;
      assert dx * dx + dy * dy <= t * t;
      MulNonnegReal(t, MovementThreshold - t);
      MulNonnegReal(MovementThreshold, MovementThreshold - t);
    }
  }

  /** `get_servo_offset`: `((centre - target) / total) * fov` degrees. */
  function GetServoOffset(target: real, center: real, fov: real, total: real): (r: real)
    requires total != 0.0
    ensures target == center ==> r == 0.0
    ensures fov > 0.0 && total > 0.0 ==> (r > 0.0 <==> target < center) && (r < 0.0 <==> target > center)
  {
    var pixelDiff := center - target;
    (pixelDiff / total) * fov
  }

  /** For a target inside the frame and the frame centre as reference, the offset is at most half the field of view. */
  lemma ServoOffsetWithinHalfFov(target: real, fov: real, total: real)
    requires total > 0.0 && fov >= 0.0 && 0.0 <= target <= total
    ensures -fov / 2.0 <= GetServoOffset(target, total / 2.0, fov, total) <= fov / 2.0
  {
    var q := (total / 2.0 - target) / total;
    assert -1.0 / 2.0 <= q <= 1.0 / 2.0 by {
      assert q * total == total / 2.0 - target;
    }
    assert q * fov <= fov / 2.0;
    assert -fov / 2.0 <= q * fov;
  }
}
