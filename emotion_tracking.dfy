/**
 * The per-frame body of `emotion_track` in src/proto/emoweb.py: the stabilisation gate
 * (first smoothed face starts a timer, the pose is corrected while stabilising, the servos
 * lock once the delay has passed), the emotion debouncer and the face-lost reset.
 * The clock is a parameter (one reading per frame); the detectors and the classifier are
 * abstract inputs: the three box lists of `face_detect` and the (index, confidence) pair
 * `detect_emotion` would return for the face crop.
 */
module EmotionTracking {
  import opened Wrappers
  import opened PanTilt
  import opened FaceTracking

  /** Readings at or below this confidence (in %) are ignored by the debouncer. */
  const ConfidenceThreshold: real := 70.0
  /** Repeats of the current emotion needed before a different one may replace it. */
  const RepeatThreshold: int := 3
  /** Index of "Neutral", the initial emotion. */
  const Neutral: int := 6
  /** Seconds between the first smoothed face and the servo lock. */
  const StabilizationDelay: real := 0.05

  /** `prev_emotion_idx` and `emotion_repeats`. */
  datatype EmotionState = EmotionState(prev: int, repeats: int)

  /** What the classifier reports for one face crop. */
  datatype Reading = Reading(idx: int, confidence: real)

  predicate Accepted(r: Reading) { r.confidence > ConfidenceThreshold }

  /**
   * One step of the emotion state machine: an accepted reading of the current emotion
   * counts one more repeat; an accepted different reading replaces it (with one repeat)
   * only once the current one has been seen at least three times; anything else is ignored.
   */
  function Debounce(s: EmotionState, r: Reading): (t: EmotionState)
    ensures !Accepted(r) ==> t == s
    ensures Accepted(r) && r.idx == s.prev ==> t == EmotionState(s.prev, s.repeats + 1)
    ensures t.prev != s.prev <==> Accepted(r) && r.idx != s.prev && s.repeats >= RepeatThreshold
    ensures t.prev != s.prev ==> t == EmotionState(r.idx, 1)
    ensures r.idx != s.prev && s.repeats < RepeatThreshold ==> t == s
  {
    if !Accepted(r) then s
    else if r.idx == s.prev then EmotionState(s.prev, s.repeats + 1)
    else if s.repeats >= RepeatThreshold then EmotionState(r.idx, 1)
    else s
  }

  /** The debouncer run over the readings of consecutive locked frames. */
  function DebounceAll(s: EmotionState, rs: seq<Reading>): EmotionState
    decreases |rs|
  {
    if rs == [] then s else DebounceAll(Debounce(s, rs[0]), rs[1..])
  }

  function CountAccepted(rs: seq<Reading>): nat {
    if rs == [] then 0 else (if Accepted(rs[0]) then 1 else 0) + CountAccepted(rs[1..])
  }

  /**
   * While every accepted reading agrees with the current emotion, the emotion stays and
   * the repeat counter grows by exactly the number of accepted readings.
   */
  lemma {:induction false} DebounceStreak(s: EmotionState, rs: seq<Reading>)
    requires forall i :: 0 <= i < |rs| && Accepted(rs[i]) ==> rs[i].idx == s.prev
    ensures DebounceAll(s, rs) == EmotionState(s.prev, s.repeats + CountAccepted(rs))
    decreases |rs|
  {
    if rs != [] {
      DebounceStreak(Debounce(s, rs[0]), rs[1..]);
    }
  }

  /**
   * Below the repeat threshold, with no accepted reading of the current emotion, nothing
   * ever changes: other emotions cannot take over, however often they are seen.
   */
  lemma {:induction false} DebounceStuck(s: EmotionState, rs: seq<Reading>)
    requires s.repeats < RepeatThreshold
    requires forall i :: 0 <= i < |rs| && Accepted(rs[i]) ==> rs[i].idx != s.prev
    ensures DebounceAll(s, rs) == s
    decreases |rs|
  {
    if rs != [] {
      DebounceStuck(Debounce(s, rs[0]), rs[1..]);
    }
  }

  /**
   * Once an emotion has been seen three times, a single accepted reading of another
   * emotion replaces it; a weak reading in between changes nothing.
   */
  lemma {:induction false} DebounceSwitch(s: EmotionState, weak: seq<Reading>, r: Reading)
    requires s.repeats >= RepeatThreshold
    requires forall i :: 0 <= i < |weak| ==> !Accepted(weak[i])
    requires Accepted(r) && r.idx != s.prev
    ensures DebounceAll(s, weak + [r]) == EmotionState(r.idx, 1)
  {
    if weak == [] {
      assert [r][1..] == [];
    } else {
      assert (weak + [r])[1..] == weak[1..] + [r];
      DebounceSwitch(s, weak[1..], r);
    }
  }

  /** From the start state, readings that never confidently show Neutral leave the head at Neutral: nothing takes over. */
  lemma FreshStartIgnoresOthers(rs: seq<Reading>)
    requires forall i :: 0 <= i < |rs| && Accepted(rs[i]) ==> rs[i].idx != Neutral
    ensures DebounceAll(EmotionState(Neutral, 0), rs) == EmotionState(Neutral, 0)
  {
    DebounceStuck(EmotionState(Neutral, 0), rs);
  }

  /**
   * Once accepted readings of the current emotion bring its repeats to three, one confident
   * reading of another emotion makes that emotion current, with one repeat; weak readings
   * in between count for nothing.
   */
  lemma DebounceTakeOver(s: EmotionState, rs: seq<Reading>, r: Reading)
    requires forall i :: 0 <= i < |rs| && Accepted(rs[i]) ==> rs[i].idx == s.prev
    requires s.repeats + CountAccepted(rs) >= RepeatThreshold
    requires Accepted(r) && r.idx != s.prev
    ensures DebounceAll(s, rs + [r]) == EmotionState(r.idx, 1)
  {
    DebounceStreak(s, rs);
    DebounceAllAppend(s, rs, [r]);
    assert [r][1..] == [];
  }

  lemma {:induction false} DebounceAllAppend(s: EmotionState, a: seq<Reading>, b: seq<Reading>)
    ensures DebounceAll(s, a + b) == DebounceAll(DebounceAll(s, a), b)
    decreases |a|
  {
    if a == [] {
      assert a + b == b;
    } else {
      assert (a + b)[1..] == a[1..] + b;
      DebounceAllAppend(Debounce(s, a[0]), a[1..], b);
    }
  }

  /** `face_detected_time`, `is_stabilizing` and `face_locked`. */
  datatype Gate = Gate(detectedAt: Option<real>, stabilizing: bool, locked: bool)

  /** The gate's consistency: a timer runs exactly while stabilising or locked, never both. */
  predicate GateOk(g: Gate) {
    (g.detectedAt.Some? <==> g.stabilizing || g.locked) && !(g.stabilizing && g.locked)
  }

  /** The gate after a face is lost (and before the first face). */
  const IdleGate: Gate := Gate(None, false, false)

  /**
   * The gate update of a frame with a smoothed face at time `now`: start the timer if none
   * runs, then lock once more than the stabilisation delay has passed since it started.
   */
  function GateStep(g: Gate, now: real): (r: Gate)
    ensures GateOk(g) ==> GateOk(r)
    ensures r.detectedAt.Some?
    // the timer is started once and then kept
    ensures g.detectedAt.Some? ==> r.detectedAt == g.detectedAt
    ensures g.detectedAt.None? ==> r.detectedAt == Some(now) && r.stabilizing && !r.locked
    // a lock happens only after the delay, and is kept
    ensures r.locked && !g.locked ==> now - r.detectedAt.value > StabilizationDelay
    ensures g.locked && g.detectedAt.Some? ==> r.locked
    ensures now - r.detectedAt.value > StabilizationDelay ==> r.locked && !r.stabilizing
  {
    var started := if g.detectedAt.None? then Gate(Some(now), true, false) else g;
    if now - started.detectedAt.value > StabilizationDelay then Gate(started.detectedAt, false, true)
    else started
  }

  /** The gate over consecutive frames with a smoothed face, at the given clock readings. */
  function GateRun(g: Gate, times: seq<real>): Gate
    decreases |times|
  {
    if times == [] then g else GateRun(GateStep(g, times[0]), times[1..])
  }

  predicate NonDecreasing(times: seq<real>) {
    forall i, j :: 0 <= i <= j < |times| ==> times[i] <= times[j]
  }

  /**
   * With a running timer and a clock that never goes back, the gate is locked after a run
   * exactly when it was locked before or the last frame came more than the delay after
   * the timer started; the timer itself never moves.
   */
  lemma {:induction false} GateRunLocked(g: Gate, times: seq<real>)
    requires GateOk(g) && g.detectedAt.Some?
    requires times != [] && NonDecreasing(times)
    ensures GateRun(g, times).detectedAt == g.detectedAt
    ensures GateOk(GateRun(g, times))
    ensures GateRun(g, times).locked
        <==> g.locked || times[|times| - 1] - g.detectedAt.value > StabilizationDelay
    decreases |times|
  {
    var g1 := GateStep(g, times[0]);
    if |times| > 1 {
      GateRunLocked(g1, times[1..]);
      assert times[1..][|times[1..]| - 1] == times[|times| - 1];
      assert times[0] <= times[|times| - 1];
    }
  }

  /**
   * From no face: the first smoothed frame starts the timer, and the servos are locked
   * after a run exactly when its last frame is more than 0.05 s after its first.
   */
  lemma GateFromIdle(times: seq<real>)
    requires times != [] && NonDecreasing(times)
    ensures GateRun(IdleGate, times).detectedAt == Some(times[0])
    ensures GateRun(IdleGate, times).locked <==> times[|times| - 1] - times[0] > StabilizationDelay
  {
    var g1 := GateStep(IdleGate, times[0]);
    if |times| > 1 {
      assert NonDecreasing(times[1..]);
      GateRunLocked(g1, times[1..]);
      assert times[1..][|times[1..]| - 1] == times[|times| - 1];
    }
  }

  /** The face crop of the locked branch: corner at the truncated box corner, clipped to the frame. */
  datatype Crop = Crop(x0: int, y0: int, x1: int, y1: int)

  function Max(a: int, b: int): int { if a < b then b else a }
  function Min(a: int, b: int): int { if a < b then a else b }

  /** `fx = max(0, int(cx - fw/2))`, `fx_end = min(width, fx + fw)`, and the same vertically. */
  function CropOf(s: Sample, width: int, height: int): (c: Crop)
    ensures 0 <= c.x0 && 0 <= c.y0 && c.x1 <= width && c.y1 <= height
    ensures c.x1 <= c.x0 + s.w && c.y1 <= c.y0 + s.h
  {
    var x0 := Max(0, TruncDiv(2 * s.cx - s.w, 2));
    var y0 := Max(0, TruncDiv(2 * s.cy - s.h, 2));
    Crop(x0, y0, Min(width, x0 + s.w), Min(height, y0 + s.h))
  }

  /** `face_roi.size > 0`: the clipped crop has rows and columns. */
  predicate CropNonEmpty(c: Crop) { c.x0 < c.x1 && c.y0 < c.y1 }

  /** A smoothed face lying in the frame always yields a non-empty crop, so the classifier always runs. */
  lemma CropOfInFrame(s: Sample, width: int, height: int)
    requires SampleInFrame(s, width, height)
    ensures CropNonEmpty(CropOf(s, width, height))
  {
  }

  /**
   * The tracking loop's state. The pose is owned by the shared `Rig`; `cameraWidth`,
   * `cameraHeight` and `timerFace` are configuration values read from outside the file.
   */
  class Tracker {
    const rig: Rig
    const cameraWidth: int
    const cameraHeight: int
    /** Seconds a search window stays open after the last face (`timer_face`). */
    const timerFace: real

    var history: seq<Sample>
    var lastCx: real
    var lastCy: real
    var detectedAt: Option<real>
    var stabilizing: bool
    var locked: bool
    var prevEmotion: int
    var repeats: int
    var faceStart: real

    function GateOf(): Gate
      reads this
    {
      Gate(detectedAt, stabilizing, locked)
    }

    function EmotionOf(): EmotionState
      reads this
    {
      EmotionState(prevEmotion, repeats)
    }

    ghost predicate Valid()
      reads this, rig
    {
      rig.Valid()
      && cameraWidth > 0 && cameraHeight > 0
      && |history| <= FaceHistorySize
      && (forall i :: 0 <= i < |history| ==> SampleInFrame(history[i], cameraWidth, cameraHeight))
      && GateOk(GateOf())
      // the timer only runs once the smoothing window is full
      && (detectedAt.Some? ==> |history| == FaceHistorySize)
      // while a face is being followed the sweep is off
      && (history != [] ==> !rig.scanning)
    }

    /** The loop's set-up: empty window, last centre at the frame centre, Neutral, and the pose (90, 20). */
    constructor (rig: Rig, cameraWidth: int, cameraHeight: int, timerFace: real, now: real)
      requires rig.Valid() && cameraWidth > 0 && cameraHeight > 0
      modifies rig
      ensures Valid()
      ensures this.rig == rig && this.cameraWidth == cameraWidth && this.cameraHeight == cameraHeight
      ensures this.timerFace == timerFace
      ensures history == [] && GateOf() == IdleGate && EmotionOf() == EmotionState(Neutral, 0)
      ensures lastCx == cameraWidth as real / 2.0 && lastCy == cameraHeight as real / 2.0
      ensures faceStart == now
      ensures rig.pan == 90.0 && rig.tilt == 20.0 && rig.scanning == old(rig.scanning)
    {
      this.rig := rig;
      this.cameraWidth := cameraWidth;
      this.cameraHeight := cameraHeight;
      this.timerFace := timerFace;
      history := [];
      lastCx := cameraWidth as real / 2.0;
      lastCy := cameraHeight as real / 2.0;
      detectedAt := None;
      stabilizing := false;
      locked := false;
      prevEmotion := Neutral;
      repeats := 0;
      faceStart := now;
      new;
      var _, _ := rig.PanGoto(90.0, 20.0);
    }

    /** `smooth_face_detection` on the tracker's window: push the detection, return the mean once full. */
    method Smooth(face: Option<Box>) returns (smoothed: Option<Sample>)
      modifies this
      ensures history == PushSample(old(history), face)
      ensures smoothed == Smoothed(history)
      ensures lastCx == old(lastCx) && lastCy == old(lastCy) && GateOf() == old(GateOf())
      ensures EmotionOf() == old(EmotionOf()) && faceStart == old(faceStart)
    {
      if face.Some? {
        history := history + [CenterOf(face.value)];
      }
      if |history| > FaceHistorySize {
        history := history[1..];
      }
      if |history| >= FaceHistorySize {
        smoothed := Some(Average(history));
      } else {
        smoothed := None;
      }
    }

    /** The face-lost branch: clear the window, the timer and both flags, forget the repeats, resume the sweep. */
    method LoseFace(now: real)
      requires Valid()
      modifies this, rig
      ensures Valid()
      ensures history == [] && GateOf() == IdleGate && EmotionOf() == EmotionState(old(prevEmotion), 0)
      ensures rig.scanning && rig.State() == old(rig.State()) && faceStart == now
      ensures lastCx == old(lastCx) && lastCy == old(lastCy)
    {
      rig.scanning := true;
      history := [];
      detectedAt := None;
      stabilizing := false;
      locked := false;
      repeats := 0;
      faceStart := now;
    }

    /**
     * The correction made while stabilising: when the smoothed centre has moved more than
     * the threshold from the last applied one, offset the current pose towards it and
     * remember the new centre.
     */
    method Correct(cx: real, cy: real)
      requires Valid()
      modifies this, rig
      ensures Valid()
      ensures history == old(history) && GateOf() == old(GateOf()) && EmotionOf() == old(EmotionOf())
      ensures faceStart == old(faceStart) && rig.scanning == old(rig.scanning) && rig.direction == old(rig.direction)
      ensures !ShouldMoveServo(cx, cy, old(lastCx), old(lastCy)) ==>
        rig.State() == old(rig.State()) && lastCx == old(lastCx) && lastCy == old(lastCy)
      ensures ShouldMoveServo(cx, cy, old(lastCx), old(lastCy)) ==>
        (lastCx, lastCy) == (cx, cy) && (lastCx, lastCy) != (old(lastCx), old(lastCy))
        && rig.pan == Clamp(PanMinAngle, PanMaxAngle,
                            old(rig.pan) + GetServoOffset(cx, cameraWidth as real / 2.0, FovH, cameraWidth as real))
        && rig.tilt == Clamp(TiltMinAngle, TiltMaxAngle,
                             old(rig.tilt) - GetServoOffset(cy, cameraHeight as real / 2.0, FovV, cameraHeight as real))
    {
      if ShouldMoveServo(cx, cy, lastCx, lastCy) {
        var panOffset := GetServoOffset(cx, cameraWidth as real / 2.0, FovH, cameraWidth as real);
        var tiltOffset := GetServoOffset(cy, cameraHeight as real / 2.0, FovV, cameraHeight as real);
        var _, _ := rig.PanGoto(rig.pan + panOffset, rig.tilt - tiltOffset);
        ShouldMoveServoBounds(lastCx, lastCy, lastCx, lastCy);
        lastCx, lastCy := cx, cy;
      }
    }

    /** The locked branch: crop the face and feed a confident reading to the debouncer. */
    method Classify(s: Sample, reading: Reading)
      requires SampleInFrame(s, cameraWidth, cameraHeight)
      modifies this
      ensures EmotionOf() == Debounce(old(EmotionOf()), reading)
      ensures history == old(history) && GateOf() == old(GateOf()) && faceStart == old(faceStart)
      ensures lastCx == old(lastCx) && lastCy == old(lastCy)
    {
      var crop := CropOf(s, cameraWidth, cameraHeight);
      CropOfInFrame(s, cameraWidth, cameraHeight);
      if CropNonEmpty(crop) {
        if reading.confidence > ConfidenceThreshold {
          if reading.idx == prevEmotion {
            repeats := repeats + 1;
          } else if repeats >= RepeatThreshold {
            prevEmotion := reading.idx;
            repeats := 1;
          }
        }
      }
    }

    /**
     * A frame with a smoothed face `s`: start the timer on the first one, correct the pose
     * while stabilising, lock after the delay and classify, and reopen the search window.
     */
    method Follow(now: real, s: Sample, reading: Reading)
      requires Valid() && |history| == FaceHistorySize && SampleInFrame(s, cameraWidth, cameraHeight)
      modifies this, rig
      ensures Valid()
      ensures history == old(history) && GateOf() == GateStep(old(GateOf()), now) && faceStart == now
      // the debouncer runs exactly on frames more than the delay after the timer started
      ensures detectedAt.Some?
      ensures now - detectedAt.value > StabilizationDelay ==> EmotionOf() == Debounce(old(EmotionOf()), reading)
      ensures now - detectedAt.value <= StabilizationDelay ==> EmotionOf() == old(EmotionOf())
      ensures rig.scanning == old(rig.scanning) && rig.direction == old(rig.direction)
      ensures old(locked) ==> rig.State() == old(rig.State())
      ensures rig.State() != old(rig.State()) ==> (lastCx, lastCy) != (old(lastCx), old(lastCy))
    {
      if detectedAt.None? {
        detectedAt := Some(now);
        stabilizing := true;
        locked := false;
      }
      if stabilizing && !locked {
        Correct(s.cx as real, s.cy as real);
      }
      if now - detectedAt.value > StabilizationDelay {
        stabilizing := false;
        locked := true;
        Classify(s, reading);
      }
      faceStart := now;
    }

    /**
     * One pass of the tracking loop at clock reading `now`, given what the three cascades
     * found and what the classifier would report for the face crop. Returns whether a
     * smoothed face was found.
     */
    method Frame(now: real, frontal: seq<Box>, profile: seq<Box>, frontalAlt: seq<Box>, reading: Reading)
      returns (found: bool)
      requires Valid()
      modifies this, rig
      ensures Valid()
      // outside the search window nothing happens
      ensures now - old(faceStart) > timerFace ==>
        !found && history == old(history) && GateOf() == old(GateOf())
        && EmotionOf() == old(EmotionOf()) && faceStart == old(faceStart)
        && rig.State() == old(rig.State()) && rig.scanning == old(rig.scanning)
      // face lost: everything but the last emotion is reset and the sweep resumes
      ensures (now - old(faceStart) <= timerFace
        && !ValidateFace(FaceDetect(frontal, profile, frontalAlt), cameraWidth, cameraHeight, cameraWidth, cameraHeight)) ==>
        !found && history == [] && GateOf() == IdleGate && EmotionOf() == EmotionState(old(prevEmotion), 0)
        && rig.scanning && rig.State() == old(rig.State()) && faceStart == now
      // a valid face stops the sweep and enters the window
      ensures (now - old(faceStart) <= timerFace
        && ValidateFace(FaceDetect(frontal, profile, frontalAlt), cameraWidth, cameraHeight, cameraWidth, cameraHeight)) ==>
        !rig.scanning && history == PushSample(old(history), FaceDetect(frontal, profile, frontalAlt))
        && found == (|history| == FaceHistorySize)
      // until the window is full, the gate, the emotion and the pose wait
      ensures !found && history != [] ==>
        GateOf() == old(GateOf()) && EmotionOf() == old(EmotionOf()) && rig.State() == old(rig.State())
        && faceStart == old(faceStart)
      // with a smoothed face: the gate steps, the window reopens, the debouncer runs once locked
      ensures found ==> GateOf() == GateStep(old(GateOf()), now) && faceStart == now
      ensures found && now - detectedAt.value > StabilizationDelay ==> EmotionOf() == Debounce(old(EmotionOf()), reading)
      ensures found && now - detectedAt.value <= StabilizationDelay ==> EmotionOf() == old(EmotionOf())
      // the pose is only corrected while stabilising, never once locked
      ensures old(locked) ==> rig.State() == old(rig.State())
      ensures rig.State() != old(rig.State()) ==> found && (lastCx, lastCy) != (old(lastCx), old(lastCy))
    {
      found := false;
      if now - faceStart <= timerFace {
        var face := FaceDetect(frontal, profile, frontalAlt);
        if ValidateFace(face, cameraWidth, cameraHeight, cameraWidth, cameraHeight) {
          rig.scanning := false;
          ValidFaceCentreInside(face.value, cameraWidth, cameraHeight, cameraWidth, cameraHeight);
          var smoothed := Smooth(face);
          if smoothed.Some? {
            found := true;
            AverageInFrame(history, cameraWidth, cameraHeight);
            Follow(now, smoothed.value, reading);
          }
        } else {
          LoseFace(now);
        }
      }
    }
  }
}
